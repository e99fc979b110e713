/** What each operation of the engine does, told from the tables, the labels and the
    instants before and after it: who is tracked, held, given up and counted where. */
module EngineSteps {
  import opened Wire
  import opened Correlation
  import opened Bags
  import opened Folds
  import opened Engine

  // ---------------------------------------------------------------------------
  // Folds over the tables
  // ---------------------------------------------------------------------------

  function Members(ks: seq<Cid>): set<Cid>
  {
    set k | k in ks
  }

  lemma FoldSnoc<S, K>(s: S, ks: seq<K>, k: K, step: (S, K) -> S)
    ensures Fold(s, ks + [k], step) == step(Fold(s, ks, step), k)
  {
    FoldAppend(s, ks, [k], step);
    assert Fold(Fold(s, ks, step), [k], step) == Fold(step(Fold(s, ks, step), k), [], step);
  }

  lemma {:induction false} ReplaySnoc(s: Engine, cid: Cid, xs: seq<HeldSample>, x: HeldSample)
    ensures ReplaySamples(s, cid, xs + [x]) == ReplaySample(ReplaySamples(s, cid, xs), cid, x)
    decreases |xs|
  {
    if xs == [] {
      assert (xs + [x])[1..] == [];
    } else {
      assert (xs + [x])[1..] == xs[1..] + [x];
      ReplaySnoc(ReplaySample(s, cid, xs[0]), cid, xs[1..], x);
    }
  }

  /** Giving streams up changes the held streams, the orphans and the ledger. */
  lemma {:induction false} ForfeitedTable(s: Engine, ks: seq<Cid>)
    ensures var t := Fold(s, ks, Forfeit);
            t == s.(deferred := s.deferred - Members(ks), counters := s.counters.(orphan := t.counters.orphan), ledger := t.ledger)
    decreases |ks|
  {
    if ks == [] {
      assert s.deferred - Members(ks) == s.deferred;
    } else {
      ForfeitedTable(Forfeit(s, ks[0]), ks[1..]);
      assert Members(ks) == {ks[0]} + Members(ks[1..]);
      assert s.deferred - {ks[0]} - Members(ks[1..]) == s.deferred - Members(ks);
    }
  }

  lemma {:induction false} RetiredTable(s: Engine, ks: seq<Cid>)
    ensures var t := Fold(s, ks, Retire);
            t == s.(calls := s.calls - Members(ks), counters := t.counters, ledger := t.ledger)
    decreases |ks|
  {
    if ks == [] {
      assert s.calls - Members(ks) == s.calls;
    } else {
      RetiredTable(Retire(s, ks[0]), ks[1..]);
      assert Members(ks) == {ks[0]} + Members(ks[1..]);
      assert s.calls - {ks[0]} - Members(ks[1..]) == s.calls - Members(ks);
    }
  }

  /** The entries of `m` under the keys `ks`. */
  ghost function Only<V>(m: map<Cid, V>, ks: seq<Cid>): map<Cid, V>
  {
    map k | k in m && k in ks :: m[k]
  }

  /** The first key contributes its entry, the others theirs. */
  lemma OnlyFirst<V, T>(m: map<Cid, V>, ks: seq<Cid>, f: V -> multiset<T>)
    requires ks != [] && Distinct(ks) && ks[0] in m
    ensures Bag(Only(m, ks), f) == f(m[ks[0]]) + Bag(Only(m - {ks[0]}, ks[1..]), f)
  {
    var k, rest := ks[0], ks[1..];
    assert k in ks && k !in rest && ks == [k] + rest;
    BagRemove(Only(m, ks), f, k);
    assert Only(m, ks) - {k} == Only(m - {k}, rest);
  }

  lemma OnlyNone<V, T>(m: map<Cid, V>, f: V -> multiset<T>)
    ensures Bag(Only(m, []), f) == multiset{}
  {
    assert Only(m, []) == map[];
  }

  // ---------------------------------------------------------------------------
  // The sweep
  // ---------------------------------------------------------------------------

  ghost const CHANNEL: PendingCall -> multiset<string> := (c: PendingCall) => multiset{c.channel}
  ghost const SERVICE: PendingCall -> multiset<Key> := (c: PendingCall) => multiset{Key(c.channel, c.serviceId)}

  /** Giving calls up counts each under its channel, and lowers the gauge of its service. */
  lemma {:induction false} RetiresCount(s: Engine, ks: seq<Cid>)
    requires Distinct(ks) && forall k :: k in ks ==> k in s.calls
    ensures var t := Fold(s, ks, Retire);
      && t.counters == s.counters.(unmatched := t.counters.unmatched, inflight := t.counters.inflight)
      && t.counters.unmatched == s.counters.unmatched + Bag(Only(s.calls, ks), CHANNEL)
      && forall key :: Level(t.counters.inflight, key) == Level(s.counters.inflight, key) - Bag(Only(s.calls, ks), SERVICE)[key]
    decreases |ks|
  {
    if ks == [] {
      OnlyNone(s.calls, CHANNEL);
      OnlyNone(s.calls, SERVICE);
      assert s.counters.unmatched + multiset{} == s.counters.unmatched;
    } else {
      var k, rest := ks[0], ks[1..];
      assert k in ks && k !in rest;
      RetireCounts(s, k, Retire(s, k));
      RetiresCount(Retire(s, k), rest);
      OnlyFirst(s.calls, ks, CHANNEL);
      OnlyFirst(s.calls, ks, SERVICE);
    }
  }

  lemma RetireCounts(s: Engine, k: Cid, t: Engine)
    requires k in s.calls && t == Retire(s, k)
    ensures t.calls == s.calls - {k}
    ensures t.counters == s.counters.(unmatched := t.counters.unmatched, inflight := t.counters.inflight)
    ensures t.counters.unmatched == s.counters.unmatched + CHANNEL(s.calls[k])
    ensures forall key :: Level(t.counters.inflight, key) == Level(s.counters.inflight, key) - SERVICE(s.calls[k])[key]
  {
  }

  lemma OnlyLeft<V>(m: map<Cid, V>, ks: seq<Cid>, left: map<Cid, V>)
    requires left == m - Members(ks)
    ensures Only(m, ks) == m - left.Keys
  {
    forall k ensures k in Only(m, ks) <==> k in m - left.Keys {
      assert k in Members(ks) <==> k in ks;
    }
  }

  /** A sweep keeps exactly the calls younger than the time to live when they were visited,
      counts the others as unmatched under their channel, lowers the gauge of their
      service, and touches nothing else. */
  lemma SweepKeepsTheYoung(s: Engine, op: Op, t: Engine)
    requires Leads(s, op, t) && op.SweepCalls?
    ensures forall c :: c in t.calls <==>
      c in s.calls && 0 < s.config.callTtl && op.clock(c) < s.calls[c].started + s.config.callTtl
    ensures forall c :: c in t.calls ==> t.calls[c] == s.calls[c]
    ensures t.counters.unmatched == s.counters.unmatched + Bag(s.calls - t.calls.Keys, CHANNEL)
    ensures forall key ::
      Level(t.counters.inflight, key) == Level(s.counters.inflight, key) - Bag(s.calls - t.calls.Keys, SERVICE)[key]
    ensures t.deferred == s.deferred && t.traced == s.traced && t.offered == s.offered
    ensures t.counters == s.counters.(unmatched := t.counters.unmatched, inflight := t.counters.inflight)
  {
    var due := Outlived(s.calls, s.config.callTtl, op.clock);
    ListsMembers(op.outlived, due);
    ListsDistinct(op.outlived, due);
    RetiredTable(s, op.outlived);
    RetiresCount(s, op.outlived);
    OnlyLeft(s.calls, op.outlived, t.calls);
  }

  // ---------------------------------------------------------------------------
  // Responses, by kind
  // ---------------------------------------------------------------------------

  /** From `s` to `t`, a response of the tracked call `cid` was matched: a kind that ends the
      stream removes the call, lowers the gauge of its service by one and closes its
      serial; any other kind only marks the call as answered. */
  ghost predicate Matches(s: Engine, t: Engine, cid: Cid, kind: EventKind)
    requires cid in s.calls
  {
    var call, ends := s.calls[cid], kind in {Complete, Error, RpcError};
    && t.calls == (if ends then s.calls - {cid} else s.calls[cid := call.(firstResponseSeen := true)])
    && t.ledger.closed == s.ledger.closed + (if ends then multiset{call.serial} else multiset{})
    && (forall key :: Level(t.counters.inflight, key)
                      == Level(s.counters.inflight, key) - if ends && key == Key(call.channel, call.serviceId) then 1 else 0)
    && t.traced == (if ends && s.config.sampleRate > 0 then (s.traced + 1) % 0x1_0000_0000_0000_0000 else s.traced)
    && t.offered == s.offered + (if ends && s.config.sampleRate > 0 && t.traced % s.config.sampleRate == 0 then 1 else 0)
    && t.deferred == s.deferred && t.counters.orphan == s.counters.orphan && t.counters.unmatched == s.counters.unmatched
  }

  lemma KindEnds(kind: EventKind)
    ensures kind.IsTerminal() <==> kind in {Complete, Error, RpcError}
  {
  }

  lemma MatchByKind(s: Engine, t: Engine, cid: Cid, ts: nat, kind: EventKind)
    requires cid in s.calls
    requires var m := Match(s, cid, ts, kind.IsTerminal());
      t.calls == m.calls && t.deferred == m.deferred && t.counters == m.counters && t.traced == m.traced
      && t.offered == m.offered && t.ledger.closed == m.ledger.closed
    ensures Matches(s, t, cid, kind)
  {
    KindEnds(kind);
    if kind.IsTerminal() {
      MatchEnds(s, cid, ts);
    } else {
      assert s.ledger.closed + multiset{} == s.ledger.closed;
    }
  }

  lemma MatchEnds(s: Engine, cid: Cid, ts: nat)
    requires cid in s.calls
    ensures var call, m := s.calls[cid], Match(s, cid, ts, true);
      && m.calls == s.calls - {cid} && m.ledger.closed == s.ledger.closed + multiset{call.serial}
      && (forall key :: Level(m.counters.inflight, key)
                        == Level(s.counters.inflight, key) - if key == Key(call.channel, call.serviceId) then 1 else 0)
      && m.traced == (if s.config.sampleRate > 0 then (s.traced + 1) % 0x1_0000_0000_0000_0000 else s.traced)
      && m.offered == s.offered + (if s.config.sampleRate > 0 && m.traced % s.config.sampleRate == 0 then 1 else 0)
      && m.deferred == s.deferred && m.counters.orphan == s.counters.orphan && m.counters.unmatched == s.counters.unmatched
  {
  }

  /** A response of a tracked call closes it exactly if it is a completion, an error or an
      RPC error. */
  lemma DirectClosesByKind(s: Engine, op: Op, t: Engine)
    requires Leads(s, op, t) && op.ResponseSample? && op.header.cid in s.calls
    ensures Matches(s, t, op.header.cid, op.header.kind)
  {
    MatchByKind(CountResponse(s, op.channel, op.header), t, op.header.cid, op.header.timestampNs, op.header.kind);
  }

  /** So does a held one, replayed. */
  lemma ReplayClosesByKind(s: Engine, cid: Cid, x: HeldSample)
    requires cid in s.calls
    ensures Matches(s, ReplaySample(s, cid, x), cid, x.header.kind)
  {
    MatchByKind(s, ReplaySample(s, cid, x), cid, x.header.timestampNs, x.header.kind);
  }

  predicate Ends(xs: seq<HeldSample>)
  {
    exists k :: 0 <= k < |xs| && xs[k].header.kind in {Complete, Error, RpcError}
  }

  lemma {:induction false} StreamCloses(s: Engine, cid: Cid, xs: seq<HeldSample>)
    ensures var t := ReplaySamples(s, cid, xs);
      && (cid in t.calls <==> cid in s.calls && !Ends(xs))
      && t.calls - {cid} == s.calls - {cid}
      && t.deferred == s.deferred && t.counters.orphan == s.counters.orphan && t.config == s.config
    decreases |xs|
  {
    if xs != [] {
      var x, rest := xs[0], xs[1..];
      var t := ReplaySample(s, cid, x);
      if cid in s.calls {
        ReplayClosesByKind(s, cid, x);
        assert t.calls - {cid} == s.calls - {cid};
      }
      StreamCloses(t, cid, rest);
      EndsSplit(xs);
    }
  }

  lemma EndsSplit(xs: seq<HeldSample>)
    requires xs != []
    ensures Ends(xs) <==> xs[0].header.kind in {Complete, Error, RpcError} || Ends(xs[1..])
  {
    if Ends(xs) {
      var k :| 0 <= k < |xs| && xs[k].header.kind in {Complete, Error, RpcError};
      assert k > 0 ==> xs[1..][k - 1].header.kind in {Complete, Error, RpcError};
    }
    if Ends(xs[1..]) {
      var k :| 0 <= k < |xs[1..]| && xs[1..][k].header.kind in {Complete, Error, RpcError};
      assert xs[k + 1].header.kind in {Complete, Error, RpcError};
    }
  }

  // ---------------------------------------------------------------------------
  // A pass over the held streams
  // ---------------------------------------------------------------------------

  ghost const ORPHANS: DeferredResponses -> multiset<string> :=
    (d: DeferredResponses) => multiset{}[d.channel := |d.samples|]

  lemma ReplayCloses(s: Engine, k: Cid, t: Engine)
    requires k in s.deferred && k in s.calls && t == Replay(s, k)
    ensures t.deferred == s.deferred - {k} && t.calls - {k} == s.calls - {k}
    ensures k in t.calls <==> !Ends(s.deferred[k].samples)
    ensures t.counters.orphan == s.counters.orphan && t.config == s.config
  {
    StreamCloses(s.(deferred := s.deferred - {k}), k, s.deferred[k].samples);
  }

  /** The calls left once the streams `ks` were replayed. */
  ghost predicate ClosedBy(before: Calls, after: Calls, table: DeferredTable, ks: seq<Cid>)
    requires forall k :: k in ks ==> k in table
  {
    && (forall c :: c in after <==> c in before && (c in ks ==> !Ends(table[c].samples)))
    && (forall c :: c in after && c !in ks ==> after[c] == before[c])
  }

  lemma {:induction false} ReplaysClose(s: Engine, ks: seq<Cid>)
    requires Distinct(ks) && forall k :: k in ks ==> k in s.deferred && k in s.calls
    ensures var t := Fold(s, ks, Replay);
      && t.deferred == s.deferred - Members(ks)
      && ClosedBy(s.calls, t.calls, s.deferred, ks)
      && t.counters.orphan == s.counters.orphan && t.config == s.config
    decreases |ks|
  {
    if ks == [] {
      assert s.deferred - Members(ks) == s.deferred;
    } else {
      var k, rest := ks[0], ks[1..];
      var t := Replay(s, k);
      assert k in ks && k !in rest;
      ReplayCloses(s, k, t);
      StillReady(s, t, k, rest);
      ReplaysClose(t, rest);
      ClosedMore(s.calls, t.calls, Fold(t, rest, Replay).calls, s.deferred, t.deferred, ks);
      assert Members(ks) == {k} + Members(rest);
      assert s.deferred - {k} - Members(rest) == s.deferred - Members(ks);
    }
  }

  lemma StillReady(s: Engine, t: Engine, k: Cid, rest: seq<Cid>)
    requires k !in rest && t.deferred == s.deferred - {k} && t.calls - {k} == s.calls - {k}
    requires forall c :: c in rest ==> c in s.deferred && c in s.calls
    ensures forall c :: c in rest ==> c in t.deferred && c in t.calls && t.deferred[c] == s.deferred[c]
  {
    forall c | c in rest ensures c in t.deferred && c in t.calls && t.deferred[c] == s.deferred[c] {
      assert c in s.calls - {k};
    }
  }

  lemma ClosedMore(a: Calls, b: Calls, c: Calls, table: DeferredTable, table': DeferredTable, ks: seq<Cid>)
    requires ks != [] && Distinct(ks) && ks[0] in a && (forall k :: k in ks ==> k in table)
    requires b - {ks[0]} == a - {ks[0]} && (ks[0] in b <==> !Ends(table[ks[0]].samples))
    requires forall k :: k in ks[1..] ==> k in table' && table'[k] == table[k]
    requires ClosedBy(b, c, table', ks[1..])
    ensures ClosedBy(a, c, table, ks)
  {
    var k, rest := ks[0], ks[1..];
    assert k !in rest && ks == [k] + rest;
    forall x | x != k ensures (x in a <==> x in b) && (x in a ==> a[x] == b[x]) {
      assert x in a - {k} <==> x in b - {k};
      assert x in a ==> (a - {k})[x] == a[x];
    }
  }

  lemma {:induction false} ForfeitsCount(s: Engine, ks: seq<Cid>)
    requires Distinct(ks) && forall k :: k in ks ==> k in s.deferred
    ensures Fold(s, ks, Forfeit).counters.orphan == s.counters.orphan + Bag(Only(s.deferred, ks), ORPHANS)
    decreases |ks|
  {
    if ks == [] {
      OnlyNone(s.deferred, ORPHANS);
      assert s.counters.orphan + multiset{} == s.counters.orphan;
    } else {
      var k, rest := ks[0], ks[1..];
      assert k in ks && k !in rest;
      ForfeitsCount(Forfeit(s, k), rest);
      OnlyFirst(s.deferred, ks, ORPHANS);
    }
  }

  /** What a pass over the held streams has settled. */
  ghost predicate Settles(s: Engine, now: nat, t: Engine)
  {
    && (forall c :: c in t.deferred <==> c in s.deferred && c !in s.calls && now < s.deferred[c].since + 250_000_000)
    && (forall c :: c in t.deferred ==> t.deferred[c] == s.deferred[c])
    && t.counters.orphan == s.counters.orphan + Bag(s.deferred - s.calls.Keys - t.deferred.Keys, ORPHANS)
    && (forall c :: c in t.calls <==> c in s.calls && (c in s.deferred ==> !Ends(s.deferred[c].samples)))
    && (forall c :: c in t.calls && c !in s.deferred ==> t.calls[c] == s.calls[c])
  }

  /** A pass still holds exactly the streams of calls not observed that are younger than a
      quarter of a second; it counts every response of the others it gave up, under the
      channel of their stream; and of the calls with a held stream exactly those whose
      stream has an end in it are closed. */
  lemma PassSettles(s: Engine, op: Op, t: Engine)
    requires Leads(s, op, t) && op.ResolveDeferred?
    ensures Settles(s, op.now, t)
  {
    var f := Fold(s, op.ready, Replay);
    PassReplays(s, op.ready, f);
    PassExpires(f, op.now, op.expired, t);
  }

  lemma PassReplays(s: Engine, ready: seq<Cid>, f: Engine)
    requires Lists(ready, Ready(s)) && f == Fold(s, ready, Replay)
    ensures f.deferred == s.deferred - s.calls.Keys && f.counters.orphan == s.counters.orphan
    ensures forall c :: c in f.calls <==> c in s.calls && (c in s.deferred ==> !Ends(s.deferred[c].samples))
    ensures forall c :: c in f.calls && c !in s.deferred ==> f.calls[c] == s.calls[c]
  {
    ListsMembers(ready, Ready(s));
    ListsDistinct(ready, Ready(s));
    ReplaysClose(s, ready);
    HeldForOthers(s, f, ready);
  }

  lemma PassExpires(f: Engine, now: nat, expired: seq<Cid>, t: Engine)
    requires Lists(expired, Expired(f, now)) && t == Fold(f, expired, Forfeit)
    ensures forall c :: c in t.deferred <==> c in f.deferred && now < f.deferred[c].since + 250_000_000
    ensures forall c :: c in t.deferred ==> t.deferred[c] == f.deferred[c]
    ensures t.counters.orphan == f.counters.orphan + Bag(f.deferred - t.deferred.Keys, ORPHANS) && t.calls == f.calls
  {
    ListsMembers(expired, Expired(f, now));
    ListsDistinct(expired, Expired(f, now));
    ForfeitedTable(f, expired);
    ForfeitsCount(f, expired);
    OnlyLeft(f.deferred, expired, t.deferred);
  }

  lemma HeldForOthers(s: Engine, f: Engine, ready: seq<Cid>)
    requires f.deferred == s.deferred - Members(ready) && forall c :: c in ready <==> c in s.deferred && c in s.calls
    ensures f.deferred == s.deferred - s.calls.Keys
  {
    forall c ensures c in f.deferred <==> c in s.deferred - s.calls.Keys {
      assert c in Members(ready) <==> c in ready;
    }
  }

  // ---------------------------------------------------------------------------
  // Requests
  // ---------------------------------------------------------------------------

  /** A request is tracked with the labels, the length and the instants observed; a table
      that is full, and not empty, first gives up one call, none being older. */
  lemma RequestIsTracked(s: Engine, op: Op, t: Engine)
    requires Leads(s, op, t) && op.RequestSample? && op.header.kind == Request
    ensures var cid, h := op.header.cid, op.header;
      && cid in t.calls
      && t.calls[cid] == PendingCall(op.channel, h.serviceId, op.methodName, h.timestampNs, op.len, false, op.now, s.ledger.requests)
      && t.counters.requests == s.counters.requests + multiset{RequestSeries(op.channel, h.serviceId, op.methodName)}
      && t.deferred == s.deferred
    ensures |s.calls| < s.config.maxInflight || s.calls == map[] ==>
      t.calls - {op.header.cid} == s.calls - {op.header.cid} && t.counters.unmatched == s.counters.unmatched
    ensures |s.calls| >= s.config.maxInflight && s.calls != map[] ==>
      && op.victim in s.calls && (forall c :: c in s.calls ==> s.calls[op.victim].started <= s.calls[c].started)
      && t.calls - {op.header.cid} == s.calls - {op.victim} - {op.header.cid}
      && t.counters.unmatched == s.counters.unmatched + multiset{s.calls[op.victim].channel}
  {
    var room := MakeRoom(s, op.victim);
    var call := NewCall(s, op.channel, op.header, op.methodName, op.len, op.now);
    assert t == Track(room, op.header.cid, call);
    TrackStores(room, op.header.cid, call);
  }

  lemma TrackStores(room: Engine, cid: Cid, call: PendingCall)
    ensures var t := Track(room, cid, call);
      && t.calls == room.calls[cid := call] && t.calls - {cid} == room.calls - {cid} && t.deferred == room.deferred
      && t.counters.unmatched == room.counters.unmatched
      && t.counters.requests == room.counters.requests + multiset{RequestSeries(call.channel, call.serviceId, call.methodName)}
  {
  }

  // ---------------------------------------------------------------------------
  // Responses of calls not observed
  // ---------------------------------------------------------------------------

  /** A response of a call that is not tracked, with 16384 streams held already: one none is
      older than is given up first.  It then joins its stream, which keeps its channel
      and its age, or starts one; a stream of 4096 is given up instead, and the response
      with it. */
  lemma UntrackedIsHeld(s: Engine, op: Op, t: Engine)
    requires Leads(s, op, t) && op.ResponseSample? && op.header.cid !in s.calls
    ensures |s.deferred| >= 16384 ==>
      op.victim in s.deferred && forall c :: c in s.deferred ==> s.deferred[op.victim].since <= s.deferred[c].since
    ensures var cid, full := op.header.cid, |s.deferred| >= 16384;
      var room := if full then s.deferred - {op.victim} else s.deferred;
      var x := HeldSample(op.header, op.emitter, op.len, s.ledger.responses);
      var overflows := cid in room && |room[cid].samples| >= 4096;
      && (overflows ==> t.deferred == room - {cid})
      && (cid in room && !overflows ==>
            t.deferred == room[cid := DeferredResponses(room[cid].channel, room[cid].samples + [x], room[cid].since)])
      && (cid !in room ==> t.deferred == room[cid := DeferredResponses(op.channel, [x], op.now)])
      && t.counters.orphan == s.counters.orphan + (if full then ORPHANS(s.deferred[op.victim]) else multiset{})
                              + (if overflows then ORPHANS(room[cid]) else multiset{})
    ensures t.calls == s.calls && t.counters.inflight == s.counters.inflight && t.counters.unmatched == s.counters.unmatched
  {
    var x := HeldSample(op.header, op.emitter, op.len, s.ledger.responses);
    assert [] + [x] == [x];
    assert s.counters.orphan + multiset{} == s.counters.orphan;
    assert s.counters.orphan + multiset{} + multiset{} == s.counters.orphan;
  }
}
