/** The JavaScript side of a gateway: envelopes, and the table of open calls. */
module Bridge {
  import opened Events

  type Cid = nat
  type ChanId = nat

  const MAX_PENDING_CALLS: nat := 4096

  datatype Code = PendingLimit | DuplicateCid | InvalidCid | UnknownCid | InvalidArgs | Callback | GatewayState

  datatype Outcome<+T> = Ok(value: T) | Err(code: Code)

  // ---------------------------------------------------------------------------
  // Envelopes
  // ---------------------------------------------------------------------------

  datatype Value =
    | Null
    | Bool(b: bool)
    | Num(n: int)
    | Str(s: string)
    | Arr(items: seq<Value>)
    | Obj(fields: map<string, Value>)

  /** What the wire side reads in a normalised envelope. */
  datatype WireEvent = NextOf(data: Value) | CompleteWith(data: Value) | Plain | ErrorOf(data: Value)

  /** An intermediate event: the presence of the key decides, not its value. */
  function NextEnvelope(event: Value): Outcome<Value>
  {
    if !event.Obj? then Err(InvalidArgs)
    else if "type" in event.fields then Err(InvalidArgs)
    else if "data" in event.fields then Ok(Obj(map["type" := Str("next"), "data" := event.fields["data"]]))
    else Err(InvalidArgs)
  }

  /** The terminal event; `data` wins over `error`. */
  function TerminalEnvelope(event: Value): Outcome<Value>
  {
    if !event.Obj? then (if event.Null? then Ok(Obj(map["type" := Str("complete")])) else Err(InvalidArgs))
    else if "type" in event.fields then Err(InvalidArgs)
    else if "data" in event.fields then Ok(Obj(map["type" := Str("complete"), "data" := event.fields["data"]]))
    else if "error" in event.fields then Ok(Obj(map["type" := Str("error"), "data" := event.fields["error"]]))
    else Ok(Obj(map["type" := Str("complete")]))
  }

  /** Reads a normalised envelope back. */
  function Decode(envelope: Value): Option<WireEvent>
  {
    if !envelope.Obj? || "type" !in envelope.fields then None
    else
      var kind, data := envelope.fields["type"], "data" in envelope.fields;
      if kind == Str("next") && data then Some(NextOf(envelope.fields["data"]))
      else if kind == Str("complete") then Some(if data then CompleteWith(envelope.fields["data"]) else Plain)
      else if kind == Str("error") && data then Some(ErrorOf(envelope.fields["data"]))
      else None
  }

  /** What a JavaScript answer means, before any normalisation. */
  function Meaning(event: Value): WireEvent
    requires event.Obj? || event.Null?
  {
    if event.Null? then Plain
    else if "data" in event.fields then CompleteWith(event.fields["data"])
    else if "error" in event.fields then ErrorOf(event.fields["error"])
    else Plain
  }

  /** Normalising keeps the payload and never lets an intermediate event end a
      call nor a terminal one leave it open; exactly the malformed envelopes are
      refused. */
  lemma EnvelopesRoundTrip(event: Value)
    ensures NextEnvelope(event).Ok? <==> event.Obj? && "data" in event.fields && "type" !in event.fields
    ensures NextEnvelope(event).Ok? ==> Decode(NextEnvelope(event).value) == Some(NextOf(event.fields["data"]))
    ensures TerminalEnvelope(event).Ok? <==> event.Null? || (event.Obj? && "type" !in event.fields)
    ensures TerminalEnvelope(event).Ok? ==> Decode(TerminalEnvelope(event).value) == Some(Meaning(event))
    ensures event.Null? ==> Meaning(event) == Plain
    ensures event.Obj? ==>
      && ("data" in event.fields ==> Meaning(event) == CompleteWith(event.fields["data"]))
      && ("data" !in event.fields && "error" in event.fields ==> Meaning(event) == ErrorOf(event.fields["error"]))
      && ("data" !in event.fields && "error" !in event.fields ==> Meaning(event) == Plain)
    ensures NextEnvelope(event).Err? ==> NextEnvelope(event).code == InvalidArgs
    ensures TerminalEnvelope(event).Err? ==> TerminalEnvelope(event).code == InvalidArgs
  {
  }

  /** The normalised envelope as the wire side reads it. */
  function Read(envelope: Outcome<Value>): Outcome<WireEvent>
  {
    if envelope.Err? then Err(envelope.code)
    else if Decode(envelope.value).None? then Err(InvalidArgs)
    else Ok(Decode(envelope.value).value)
  }

  // ---------------------------------------------------------------------------
  // The table of open calls
  // ---------------------------------------------------------------------------

  type Table = map<Cid, ChanId>

  /** Admission: a full table is reported before a duplicate. */
  function Admit(table: Table, cid: Cid, chan: ChanId): Outcome<Table>
  {
    if |table| >= MAX_PENDING_CALLS then Err(PendingLimit)
    else if cid in table then Err(DuplicateCid)
    else Ok(table[cid := chan])
  }

  class PendingCalls {
    var entries: Table

    constructor ()
      ensures entries == map[]
    {
      entries := map[];
    }

    method Insert(cid: Cid, sender: ChanId) returns (r: Outcome<()>)
      modifies this
      ensures r == if |old(entries)| >= 4096 then Err(PendingLimit) else if cid in old(entries) then Err(DuplicateCid) else Ok(())
      ensures entries == if r.Ok? then old(entries)[cid := sender] else old(entries)
      ensures |old(entries)| <= 4096 ==> |entries| <= 4096
    {
      if |entries| >= MAX_PENDING_CALLS {
        return Err(PendingLimit);
      }
      if cid in entries {
        return Err(DuplicateCid);
      }
      assert entries[cid := sender].Keys == entries.Keys + {cid};
      entries := entries[cid := sender];
      return Ok(());
    }

    /** The sender of an open call, which stays open. */
    method Sender(cid: Cid) returns (sender: Option<ChanId>)
      ensures sender == if cid in entries then Some(entries[cid]) else None
    {
      sender := if cid in entries then Some(entries[cid]) else None;
    }

    /** Closes a call, handing its sender back. */
    method Take(cid: Cid) returns (sender: Option<ChanId>)
      modifies this
      ensures sender == if cid in old(entries) then Some(old(entries)[cid]) else None
      ensures entries == old(entries) - {cid}
    {
      sender := if cid in entries then Some(entries[cid]) else None;
      entries := entries - {cid};
    }
  }
}
