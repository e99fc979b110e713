/** The gateway's objects, each proved against a specification on values, and the
    specifications against the interleaved machine when nothing interrupts it. */
module GatewayObjects {
  import opened Events
  import opened Bridge
  import opened Gateway

  // ---------------------------------------------------------------------------
  // Specifications
  // ---------------------------------------------------------------------------

  /** The open calls of one bridge and the streams opened so far. */
  datatype Calls = Calls(table: Table, chans: seq<Chan>)

  ghost predicate Sound(k: Calls)
  {
    forall cid :: cid in k.table ==> k.table[cid] < |k.chans|
  }

  /** The first check that fails decides the refusal. */
  function Checked(k: Calls, cid: Option<Cid>, event: Outcome<WireEvent>): Outcome<(ChanId, WireEvent)>
  {
    if cid.None? then Err(InvalidCid)
    else if event.Err? then Err(event.code)
    else if cid.value !in k.table then Err(UnknownCid)
    else Ok((k.table[cid.value], event.value))
  }

  /** An event pushed, or the terminal (`last`), which also closes the call. */
  ghost function AnswerSpec(k: Calls, cid: Option<Cid>, event: Outcome<WireEvent>, last: bool): (Outcome<()>, Calls)
    requires Sound(k)
  {
    var found := Checked(k, cid, event);
    if found.Err? then (Err(found.code), k)
    else if !last && !k.chans[found.value.0].open then (Err(Callback), k)
    else (Ok(()), Calls(if last then k.table - {cid.value} else k.table, Send(k.chans, found.value.0, found.value.1)))
  }

  ghost function StartSpec(k: Calls, bridge: nat, cid: Cid, reached: bool): (Outcome<ChanId>, Calls)
  {
    var admitted := Admit(k.table, cid, |k.chans|);
    if admitted.Err? then (Err(admitted.code), k)
    else if reached then (Ok(|k.chans|), Calls(admitted.value, k.chans + [Chan(bridge, cid, [], true)]))
    else (Err(Callback), Calls(k.table, k.chans + [Chan(bridge, cid, [], false)]))
  }

  // ---------------------------------------------------------------------------
  // Objects
  // ---------------------------------------------------------------------------

  class NodeJsBridge {
    const id: nat
    const pending: PendingCalls
    var chans: seq<Chan>

    ghost function Model(): Calls
      reads this, pending
    {
      Calls(pending.entries, chans)
    }

    constructor (id: nat)
      ensures Model() == Calls(map[], []) && this.id == id && fresh(pending)
    {
      this.id := id;
      pending := new PendingCalls();
      chans := [];
    }

    /** `reached`: did the JavaScript dispatcher accept the call. */
    method StartCall(cid: Cid, reached: bool) returns (r: Outcome<ChanId>)
      requires Sound(Model())
      modifies this, pending
      ensures Sound(Model()) && (r, Model()) == StartSpec(old(Model()), id, cid, reached)
      ensures r == if |old(pending.entries)| >= 4096 then Err(PendingLimit)
                   else if cid in old(pending.entries) then Err(DuplicateCid)
                   else if !reached then Err(Callback)
                   else Ok(|old(chans)|)
      ensures pending.entries == if r.Ok? then old(pending.entries)[cid := |old(chans)|] else old(pending.entries)
      ensures chans == if r == Err(PendingLimit) || r == Err(DuplicateCid) then old(chans) else old(chans) + [Chan(id, cid, [], r.Ok?)]
    {
      var c := |chans|;
      var admitted := pending.Insert(cid, c);
      if admitted.Err? {
        return Err(admitted.code);
      }
      chans := chans + [Chan(id, cid, [], true)];
      if !reached {
        var taken := pending.Take(cid);
        chans := chans[c := chans[c].(open := false)];
        assert pending.entries == old(pending.entries);
        assert chans == old(chans) + [Chan(id, cid, [], false)];
        return Err(Callback);
      }
      return Ok(c);
    }

    method EmitEvent(cid: Option<Cid>, event: Value) returns (r: Outcome<()>)
      requires Sound(Model())
      modifies this`chans
      ensures Sound(Model()) && (r, Model()) == AnswerSpec(old(Model()), cid, Read(NextEnvelope(event)), false)
      ensures r == if cid.None? then Err(InvalidCid)
                   else if !event.Obj? || "type" in event.fields || "data" !in event.fields then Err(InvalidArgs)
                   else if cid.value !in pending.entries then Err(UnknownCid)
                   else if !old(chans)[pending.entries[cid.value]].open then Err(Callback)
                   else Ok(())
      ensures r.Err? ==> chans == old(chans)
      ensures r.Ok? ==>
                var c := pending.entries[cid.value];
                chans == old(chans)[c := old(chans)[c].(events := old(chans)[c].events + [NextOf(event.fields["data"])])]
    {
      if cid.None? {
        return Err(InvalidCid);
      }
      var envelope := Read(NextEnvelope(event));
      if envelope.Err? {
        return Err(envelope.code);
      }
      var sender := pending.Sender(cid.value);
      if sender.None? {
        return Err(UnknownCid);
      }
      if !chans[sender.value].open {
        return Err(Callback);
      }
      chans := Send(chans, sender.value, envelope.value);
      return Ok(());
    }

    method Resolve(cid: Option<Cid>, event: Value) returns (r: Outcome<()>)
      requires Sound(Model())
      modifies this`chans, pending
      ensures Sound(Model()) && (r, Model()) == AnswerSpec(old(Model()), cid, Read(TerminalEnvelope(event)), true)
      ensures r == if cid.None? then Err(InvalidCid)
                   else if !event.Null? && (!event.Obj? || "type" in event.fields) then Err(InvalidArgs)
                   else if cid.value !in old(pending.entries) then Err(UnknownCid)
                   else Ok(())
      ensures r.Err? ==> chans == old(chans) && pending.entries == old(pending.entries)
      ensures r.Ok? ==>
                var c := old(pending.entries)[cid.value];
                && pending.entries == old(pending.entries) - {cid.value}
                && chans == if !old(chans)[c].open then old(chans)
                            else old(chans)[c := old(chans)[c].(events := old(chans)[c].events + [Meaning(event)])]
    {
      if cid.None? {
        return Err(InvalidCid);
      }
      var envelope := Read(TerminalEnvelope(event));
      if envelope.Err? {
        return Err(envelope.code);
      }
      var sender := pending.Take(cid.value);
      if sender.None? {
        assert pending.entries == old(pending.entries);
        return Err(UnknownCid);
      }
      chans := Send(chans, sender.value, envelope.value);
      return Ok(());
    }
  }

  /** In every state of the machine with this phase and bridge, `step` leads to that
      phase and bridge, and is refused or not. */
  ghost predicate Performs(step: Step, phase: Phase, bridge: Option<nat>, phase': Phase, bridge': Option<nat>, refused: bool)
  {
    forall g: State :: Enabled(g, step) && g.phase == phase && g.installed == bridge ==>
      var h := Do(g, step);
      h.phase == phase' && h.installed == bridge' && (refused <==> h == Reject(g, GatewayState))
  }

  /** The one cell behind the lifecycle. */
  class GatewayCell {
    var phase: Phase
    var bridge: Option<nat>

    constructor ()
      ensures phase == INITIAL.phase && bridge == INITIAL.installed
    {
      phase, bridge := Idle, None;
    }

    method MarkConfigured() returns (r: Outcome<()>)
      modifies this
      ensures Performs(Configure, old(phase), old(bridge), phase, bridge, r == Err(GatewayState))
      ensures r == if old(phase) == Running then Err(GatewayState) else Ok(())
      ensures bridge == old(bridge) && phase == if r.Ok? then Configured else old(phase)
    {
      if phase == Running {
        return Err(GatewayState);
      }
      phase := Configured;
      assert forall g: State :: |Reject(g, GatewayState).answers| == |g.answers| + 1;
      return Ok(());
    }

    method BeginStart() returns (r: Outcome<()>)
      modifies this
      ensures Performs(Init, old(phase), old(bridge), phase, bridge, r == Err(GatewayState))
      ensures r == if old(phase) == Running then Err(GatewayState) else Ok(())
      ensures bridge == old(bridge) && phase == Running
    {
      if phase == Running {
        return Err(GatewayState);
      }
      phase := Running;
      return Ok(());
    }

    /** `started` is the bridge just built. */
    method CompleteStart(started: nat)
      modifies this
      ensures forall g: State :: Enabled(g, InitDone) && g.phase == old(phase) && g.installed == old(bridge) && |g.tables| == started ==>
        var h := Do(g, InitDone); h.phase == phase && h.installed == bridge
      ensures bridge == Some(started) && phase == old(phase)
    {
      bridge := Some(started);
    }

    /** What every entry point reads first. */
    method Current() returns (r: Outcome<nat>)
      ensures forall g: State, cid: Option<Cid>, event: Outcome<WireEvent>, last: bool :: g.js.Free? && g.installed == bridge ==>
        var h := Answer(g, cid, event, last);
        && (r.Err? ==> h == Reject(g, GatewayState))
        && (r.Ok? && cid.Some? && event.Ok? ==> h.js == Js.Answering(r.value, cid.value, event.value, last, g.stops))
      ensures r == if bridge.Some? then Ok(bridge.value) else Err(GatewayState)
    {
      r := if bridge.Some? then Ok(bridge.value) else Err(GatewayState);
    }

    method Stop()
      modifies this
      ensures Performs(Step.Stop, old(phase), old(bridge), phase, bridge, false)
      ensures phase == Idle && bridge == None
    {
      phase, bridge := Idle, None;
    }
  }

  // ---------------------------------------------------------------------------
  // The machine, uninterrupted
  // ---------------------------------------------------------------------------

  /** An answering entry point with nothing in between its steps. */
  function AnswerAtOnce(g: State, step: Step): State
    requires Enabled(g, step) && (step.Emit? || step.Resolve?)
  {
    var entered := Do(g, step);
    if !Enabled(entered, Lookup) then entered
    else
      var found := Do(entered, Lookup);
      if !Enabled(found, Push) then found else Do(found, Push)
  }

  /** `start_call` likewise. */
  function StartAtOnce(g: State, t: nat, cid: Cid, reached: bool): State
    requires t !in g.tasks
  {
    var asked := Do(g, Dispatch(t, cid));
    if !Enabled(asked, Insert(t)) then asked
    else
      var inserted := Do(asked, Insert(t));
      if !Enabled(inserted, CalledBack(t, reached)) then inserted
      else
        var called := Do(inserted, CalledBack(t, reached));
        if !Enabled(called, Undo(t)) then called else Do(called, Undo(t))
  }

  /** In state `h`, the calls of bridge `b` are `spec.1` and the last answer is `spec.0`. */
  ghost predicate AnswersAs(h: State, b: nat, spec: (Outcome<()>, Calls))
  {
    && b < |h.tables| && h.tables[b] == spec.1.table && h.chans == spec.1.chans
    && h.js.Free? && h.answers != []
    && (h.answers[|h.answers| - 1].Accepted? <==> spec.0.Ok?)
    && (spec.0.Err? ==> h.answers[|h.answers| - 1] == Rejected(spec.0.code))
  }

  /** The two steps after the entry point's own checks. */
  lemma LookupAndPush(g: State, b: nat, cid: Cid, event: WireEvent, last: bool)
    requires b < |g.tables| && Sound(Calls(g.tables[b], g.chans))
    requires g.js == Answering(b, cid, event, last, g.stops)
    ensures Enabled(g, Lookup)
    ensures var found := Do(g, Lookup);
      var h := if !Enabled(found, Push) then found else Do(found, Push);
      AnswersAs(h, b, AnswerSpec(Calls(g.tables[b], g.chans), Some(cid), Ok(event), last))
  {
    var found := Do(g, Lookup);
    if cid in g.tables[b] {
      assert found.js.chan == g.tables[b][cid] && found.chans == g.chans;
    }
  }

  lemma AnswerAtOnceMeetsSpec(g: State, b: nat, step: Step)
    requires b < |g.tables| && Sound(Calls(g.tables[b], g.chans))
    requires g.js.Free? && g.installed == Some(b) && (step.Emit? || step.Resolve?)
    ensures var event := Read(if step.Emit? then NextEnvelope(step.value) else TerminalEnvelope(step.value));
      AnswersAs(AnswerAtOnce(g, step), b, AnswerSpec(Calls(g.tables[b], g.chans), step.id, event, step.Resolve?))
  {
    var event := Read(if step.Emit? then NextEnvelope(step.value) else TerminalEnvelope(step.value));
    var entered := Do(g, step);
    assert entered == Answer(g, step.id, event, step.Resolve?);
    if step.id.Some? && event.Ok? {
      LookupAndPush(entered, b, step.id.value, event.value, step.Resolve?);
    }
  }

  lemma StartAtOnceMeetsSpec(g: State, b: nat, t: nat, cid: Cid, reached: bool)
    requires b < |g.tables| && t !in g.tasks && g.installed == Some(b)
    ensures var h := StartAtOnce(g, t, cid, reached);
      var spec := StartSpec(Calls(g.tables[b], g.chans), b, cid, reached);
      && b < |h.tables| && h.tables[b] == spec.1.table && h.chans == spec.1.chans
      && t in h.tasks && h.tasks[t] == if spec.0.Ok? then Started(spec.0.value) else Refused(spec.0.code)
  {
    var asked := Do(g, Dispatch(t, cid));
    var admitted := Admit(g.tables[b], cid, |g.chans|);
    if admitted.Ok? {
      var c := |g.chans|;
      var inserted := Do(asked, Insert(t));
      assert inserted.tables[b] == admitted.value && inserted.chans == g.chans + [Chan(b, cid, [], true)];
      assert admitted.value - {cid} == g.tables[b];
      assert inserted.chans[c := inserted.chans[c].(open := false)] == g.chans + [Chan(b, cid, [], false)];
    }
  }
}
