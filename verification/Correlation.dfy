/** The bounded table of calls awaiting their response stream. */
module Correlation {
  import opened Wire
  import opened Folds

  /** A call awaiting its response stream.  `serial` is the arrival number of the
      request: bookkeeping of this model, read by no operation. */
  datatype PendingCall = PendingCall(
    channel: string,
    serviceId: nat,
    methodName: string,
    requestTs: nat,
    requestBytes: nat,
    firstResponseSeen: bool,
    started: nat,
    serial: nat)

  datatype Resolution = Matched(previous: PendingCall) | Unknown

  type Calls = map<Cid, PendingCall>

  /** `cid` is an oldest entry: an answer a minimum over a hash map may give. */
  predicate IsOldest(entries: Calls, cid: Cid)
  {
    cid in entries && forall c :: c in entries ==> entries[cid].started <= entries[c].started
  }

  predicate Full(entries: Calls, max: nat)
  {
    |entries| >= max && entries != map[]
  }

  function AfterResponse(entries: Calls, cid: Cid, terminal: bool): Calls
    requires cid in entries
  {
    if terminal then entries - {cid}
    else entries[cid := entries[cid].(firstResponseSeen := true)]
  }

  function Elapsed(since: nat, now: nat): nat
  {
    if now >= since then now - since else 0
  }

  /** The calls that had outlived `ttl` when they were visited; `clock` says when. */
  function Outlived(entries: Calls, ttl: nat, clock: Cid -> nat): set<Cid>
  {
    set c | c in entries && Elapsed(entries[c].started, clock(c)) >= ttl
  }

  /** The calls `after` are those of `before` that were younger than `ttl` when visited. */
  ghost predicate KeepsTheYoung(before: Calls, after: Calls, ttl: nat, clock: Cid -> nat)
  {
    forall c :: c in after <==> c in before && 0 < ttl && clock(c) < before[c].started + ttl
  }

  lemma OthersAreYoung(entries: Calls, ttl: nat, clock: Cid -> nat)
    ensures KeepsTheYoung(entries, entries - Outlived(entries, ttl, clock), ttl, clock)
  {
  }

  /** `evicted` are the calls of `gone`, each once, in the order `order`. */
  ghost predicate Swept(entries: Calls, gone: set<Cid>, order: seq<Cid>, evicted: seq<PendingCall>)
  {
    && Lists(order, gone) && |evicted| == |order|
    && forall i :: 0 <= i < |order| ==> order[i] in entries && evicted[i] == entries[order[i]]
  }

  lemma SweptOne(entries: Calls, gone: set<Cid>, order: seq<Cid>, evicted: seq<PendingCall>, c: Cid)
    requires Swept(entries, gone, order, evicted) && c in entries && c !in gone
    ensures Swept(entries, gone + {c}, order + [c], evicted + [entries[c]])
  {
    ListsAdd(order, gone, c);
  }

  class Correlate {
    var entries: Calls
    const max: nat
    const ttl: nat

    constructor (max: nat, ttl: nat)
      ensures entries == map[] && this.max == max && this.ttl == ttl
    {
      entries, this.max, this.ttl := map[], max, ttl;
    }

    /** A minimum by age, whatever order the entries are visited in. */
    method Oldest() returns (oldest: Cid)
      requires entries != map[]
      ensures oldest in entries && forall c :: c in entries ==> entries[oldest].started <= entries[c].started
    {
      oldest :| oldest in entries;
      var todo := entries.Keys - {oldest};
      while todo != {}
        invariant todo <= entries.Keys && oldest in entries
        invariant forall c :: c in entries.Keys - todo ==> entries[oldest].started <= entries[c].started
        decreases todo
      {
        var c :| c in todo;
        if entries[c].started < entries[oldest].started {
          oldest := c;
        }
        todo := todo - {c};
      }
    }

    /** Registers a call; `evicted` holds the call dropped to stay under capacity,
        which is never younger than any other call then present. */
    method Insert(cid: Cid, call: PendingCall) returns (evicted: seq<PendingCall>, ghost victim: Cid)
      modifies this
      ensures |old(entries)| < max || old(entries) == map[] ==> evicted == [] && entries == old(entries)[cid := call]
      ensures |old(entries)| >= max && old(entries) != map[] ==>
                victim in old(entries)
                && (forall c :: c in old(entries) ==> old(entries)[victim].started <= old(entries)[c].started)
                && evicted == [old(entries)[victim]]
                && entries == (old(entries) - {victim})[cid := call]
    {
      evicted, victim := [], cid;
      if |entries| >= max && entries != map[] {
        var oldest := Oldest();
        victim := oldest;
        evicted := [entries[oldest]];
        entries := entries - {oldest};
      }
      entries := entries[cid := call];
    }

    /** Resolves a response; a terminal one closes the call.  The answer is the
        call as it was before this response. */
    method OnResponse(cid: Cid, terminal: bool) returns (r: Resolution)
      modifies this
      ensures cid !in old(entries) ==> r == Unknown && entries == old(entries)
      ensures cid in old(entries) ==>
                r == Matched(old(entries)[cid])
                && entries == if terminal then old(entries) - {cid}
                              else old(entries)[cid := old(entries)[cid].(firstResponseSeen := true)]
    {
      if cid !in entries {
        return Unknown;
      }
      r := Matched(entries[cid]);
      if terminal {
        entries := entries - {cid};
      } else {
        entries := entries[cid := entries[cid].(firstResponseSeen := true)];
      }
    }

    /** Evicts exactly the calls that outlived their TTL, in the order `order`
        the table happens to yield them. */
    method Sweep(clock: Cid -> nat) returns (evicted: seq<PendingCall>, ghost order: seq<Cid>)
      modifies this
      ensures Swept(old(entries), Outlived(old(entries), ttl, clock), order, evicted)
      ensures entries == old(entries) - Outlived(old(entries), ttl, clock)
      ensures KeepsTheYoung(old(entries), entries, ttl, clock)
    {
      evicted, order := [], [];
      ghost var before, due := entries, Outlived(entries, ttl, clock);
      var todo := entries.Keys;
      ghost var gone: set<Cid> := {};
      while todo != {}
        invariant todo <= before.Keys && gone == due - todo
        invariant entries == before - gone
        invariant Swept(before, gone, order, evicted)
        decreases todo
      {
        var c :| c in todo;
        if Elapsed(entries[c].started, clock(c)) >= ttl {
          SweptOne(before, gone, order, evicted, c);
          gone := gone + {c};
          evicted := evicted + [entries[c]];
          order := order + [c];
          entries := entries - {c};
        }
        todo := todo - {c};
      }
      assert gone == due;
      OthersAreYoung(before, ttl, clock);
    }
  }
}
