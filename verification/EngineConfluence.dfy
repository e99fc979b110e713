/** The order in which a hash map yields its entries has no effect on the engine. */
module EngineConfluence {
  import opened Wire
  import opened Correlation
  import opened Folds
  import opened Engine

  // ---------------------------------------------------------------------------
  // One replayed sample, component by component
  // ---------------------------------------------------------------------------

  datatype Found = Found(call: PendingCall) | Absent

  function Look(calls: Calls, cid: Cid): Found
  {
    if cid in calls then Found(calls[cid]) else Absent
  }

  function CallsAfter(calls: Calls, cid: Cid, x: HeldSample): Calls
  {
    if cid in calls then AfterResponse(calls, cid, x.header.kind.IsTerminal()) else calls
  }

  datatype Lowered = Lowered(key: Key) | Kept

  /** What one sample adds to the counters and to the ledger. */
  datatype Effect = Effect(
    latency: multiset<LatencySample>, skew: nat, lowered: Lowered,
    matched: multiset<nat>, measured: multiset<nat>, closed: multiset<nat>,
    replayed: multiset<nat>, behind: multiset<nat>)

  function EffectOf(f: Found, x: HeldSample): Effect
  {
    if f.Absent? then Effect(multiset{}, 0, Kept, multiset{}, multiset{}, multiset{}, multiset{}, multiset{x.tag})
    else
      var call, ts, terminal := f.call, x.header.timestampNs, x.header.kind.IsTerminal();
      var unseen := !call.firstResponseSeen;
      Effect(
        if unseen && ts >= call.requestTs
        then multiset{LatencySample(call.channel, call.serviceId, call.methodName, ts - call.requestTs)} else multiset{},
        if unseen && ts < call.requestTs then 1 else 0,
        if terminal then Lowered(KeyOf(call)) else Kept,
        multiset{call.serial},
        if unseen then multiset{call.serial} else multiset{},
        if terminal then multiset{call.serial} else multiset{},
        multiset{x.tag},
        multiset{})
  }

  function Lower(g: map<Key, int>, what: Lowered): map<Key, int>
  {
    if what.Kept? then g else Adjust(g, what.key, -1)
  }

  function CountersAfter(c: Counters, e: Effect): Counters
  {
    c.(latency := c.latency + e.latency, clockSkew := c.clockSkew + e.skew, inflight := Lower(c.inflight, e.lowered))
  }

  function LedgerAfter(l: Ledger, e: Effect): Ledger
  {
    l.(matched := l.matched + e.matched, measured := l.measured + e.measured, closed := l.closed + e.closed,
       replayed := l.replayed + e.replayed, behind := l.behind + e.behind)
  }

  datatype Tracing = Tracing(traced: nat, offered: nat)

  function TracingAfter(rate: nat, t: Tracing, f: Found, x: HeldSample): Tracing
  {
    if f.Found? && x.header.kind.IsTerminal() then Tracing(NextTraced(rate, t.traced), NextOffered(rate, t.traced, t.offered))
    else t
  }

  lemma MeasureForm(c: Counters, call: PendingCall, x: HeldSample)
    ensures var e := EffectOf(Found(call), x);
            Measure(c, call, x.header.timestampNs) == c.(latency := c.latency + e.latency, clockSkew := c.clockSkew + e.skew)
  {
    assert Measure(c, call, x.header.timestampNs).latency == c.latency + EffectOf(Found(call), x).latency;
  }

  lemma CountersForm(s: Engine, cid: Cid, x: HeldSample, t: Engine)
    requires t == ReplaySample(s, cid, x)
    ensures t.counters == CountersAfter(s.counters, EffectOf(Look(s.calls, cid), x))
  {
    if cid in s.calls {
      MeasureForm(s.counters, s.calls[cid], x);
    } else {
      assert s.counters.latency + multiset{} == s.counters.latency;
    }
  }

  lemma LedgerForm(s: Engine, cid: Cid, x: HeldSample, t: Engine)
    requires t == ReplaySample(s, cid, x)
    ensures t.ledger == LedgerAfter(s.ledger, EffectOf(Look(s.calls, cid), x))
  {
    var l, e := s.ledger, EffectOf(Look(s.calls, cid), x);
    assert l.matched + multiset{} == l.matched && l.measured + multiset{} == l.measured && l.closed + multiset{} == l.closed;
    assert l.replayed + multiset{} == l.replayed && l.behind + multiset{} == l.behind;
    if cid in s.calls {
      var call := s.calls[cid];
      assert t.ledger.measured == l.measured + e.measured && t.ledger.closed == l.closed + e.closed;
    }
  }

  lemma SampleForm(s: Engine, cid: Cid, x: HeldSample, t: Engine)
    requires t == ReplaySample(s, cid, x)
    ensures t.config == s.config && t.deferred == s.deferred
    ensures t.calls == CallsAfter(s.calls, cid, x)
    ensures t.counters == CountersAfter(s.counters, EffectOf(Look(s.calls, cid), x))
    ensures t.ledger == LedgerAfter(s.ledger, EffectOf(Look(s.calls, cid), x))
    ensures Tracing(t.traced, t.offered) == TracingAfter(s.config.sampleRate, Tracing(s.traced, s.offered), Look(s.calls, cid), x)
  {
    CountersForm(s, cid, x, t);
    LedgerForm(s, cid, x, t);
  }

  // ---------------------------------------------------------------------------
  // Steps on two different calls commute
  // ---------------------------------------------------------------------------

  lemma CallsCommute(calls: Calls, a: Cid, x: HeldSample, b: Cid, y: HeldSample)
    requires a != b
    ensures CallsAfter(CallsAfter(calls, a, x), b, y) == CallsAfter(CallsAfter(calls, b, y), a, x)
    ensures Look(CallsAfter(calls, a, x), b) == Look(calls, b)
  {
  }

  lemma AdjustCommutes(g: map<Key, int>, a: Key, x: int, b: Key, y: int)
    ensures Adjust(Adjust(g, a, x), b, y) == Adjust(Adjust(g, b, y), a, x)
  {
  }

  lemma CountersCommute(c: Counters, d: Effect, e: Effect)
    ensures CountersAfter(CountersAfter(c, d), e) == CountersAfter(CountersAfter(c, e), d)
  {
    var one, two := CountersAfter(CountersAfter(c, d), e), CountersAfter(CountersAfter(c, e), d);
    if d.lowered.Lowered? && e.lowered.Lowered? {
      AdjustCommutes(c.inflight, d.lowered.key, -1, e.lowered.key, -1);
    }
    assert one.latency == two.latency;
  }

  lemma LedgerCommutes(l: Ledger, d: Effect, e: Effect)
    ensures LedgerAfter(LedgerAfter(l, d), e) == LedgerAfter(LedgerAfter(l, e), d)
  {
    var one, two := LedgerAfter(LedgerAfter(l, d), e), LedgerAfter(LedgerAfter(l, e), d);
    assert one.matched == two.matched && one.replayed == two.replayed && one.behind == two.behind;
    assert one.measured == two.measured && one.closed == two.closed;
  }

  lemma SamplesCommute(s: Engine, a: Cid, x: HeldSample, b: Cid, y: HeldSample)
    requires a != b
    ensures ReplaySample(ReplaySample(s, a, x), b, y) == ReplaySample(ReplaySample(s, b, y), a, x)
  {
    var sa, sb := ReplaySample(s, a, x), ReplaySample(s, b, y);
    SampleForm(s, a, x, sa);
    SampleForm(s, b, y, sb);
    SampleForm(sa, b, y, ReplaySample(sa, b, y));
    SampleForm(sb, a, x, ReplaySample(sb, a, x));
    CallsCommute(s.calls, a, x, b, y);
    CallsCommute(s.calls, b, y, a, x);
    CountersCommute(s.counters, EffectOf(Look(s.calls, a), x), EffectOf(Look(s.calls, b), y));
    LedgerCommutes(s.ledger, EffectOf(Look(s.calls, a), x), EffectOf(Look(s.calls, b), y));
  }

  lemma {:induction false} SampleCommutesWithStream(s: Engine, a: Cid, x: HeldSample, b: Cid, ys: seq<HeldSample>)
    requires a != b
    ensures ReplaySamples(ReplaySample(s, a, x), b, ys) == ReplaySample(ReplaySamples(s, b, ys), a, x)
    decreases |ys|
  {
    if ys != [] {
      SamplesCommute(s, a, x, b, ys[0]);
      SampleCommutesWithStream(ReplaySample(s, b, ys[0]), a, x, b, ys[1..]);
    }
  }

  lemma {:induction false} StreamsCommute(s: Engine, a: Cid, xs: seq<HeldSample>, b: Cid, ys: seq<HeldSample>)
    requires a != b
    ensures ReplaySamples(ReplaySamples(s, a, xs), b, ys) == ReplaySamples(ReplaySamples(s, b, ys), a, xs)
    decreases |xs|
  {
    if xs != [] {
      StreamsCommute(ReplaySample(s, a, xs[0]), a, xs[1..], b, ys);
      SampleCommutesWithStream(s, a, xs[0], b, ys);
    }
  }

  /** Replaying a stream neither reads nor writes the held streams. */
  lemma {:induction false} ReplayIgnoresHeld(s: Engine, cid: Cid, xs: seq<HeldSample>, table: DeferredTable)
    ensures ReplaySamples(s.(deferred := table), cid, xs) == ReplaySamples(s, cid, xs).(deferred := table)
    ensures ReplaySamples(s, cid, xs).deferred == s.deferred
    decreases |xs|
  {
    if xs != [] {
      var t, u := ReplaySample(s, cid, xs[0]), ReplaySample(s.(deferred := table), cid, xs[0]);
      SampleForm(s, cid, xs[0], t);
      SampleForm(s.(deferred := table), cid, xs[0], u);
      assert u == t.(deferred := table);
      ReplayIgnoresHeld(t, cid, xs[1..], table);
    }
  }

  lemma ReplaysCommute(s: Engine, a: Cid, b: Cid)
    requires a != b
    ensures Replay(Replay(s, a), b) == Replay(Replay(s, b), a)
  {
    if a in s.deferred && b in s.deferred {
      var xs, ys := s.deferred[a].samples, s.deferred[b].samples;
      var bare := s.(deferred := s.deferred - {a} - {b});
      assert s.deferred - {a} - {b} == s.deferred - {b} - {a};
      ReplayTwice(s, a, xs, b, ys, bare);
      ReplayTwice(s, b, ys, a, xs, bare);
      StreamsCommute(bare, a, xs, b, ys);
    } else if a in s.deferred {
      ReplayIgnoresHeld(s.(deferred := s.deferred - {a}), a, s.deferred[a].samples, map[]);
    } else if b in s.deferred {
      ReplayIgnoresHeld(s.(deferred := s.deferred - {b}), b, s.deferred[b].samples, map[]);
    }
  }

  lemma ReplayTwice(s: Engine, a: Cid, xs: seq<HeldSample>, b: Cid, ys: seq<HeldSample>, bare: Engine)
    requires a != b && a in s.deferred && b in s.deferred
    requires xs == s.deferred[a].samples && ys == s.deferred[b].samples
    requires bare == s.(deferred := s.deferred - {a} - {b})
    ensures Replay(Replay(s, a), b) == ReplaySamples(ReplaySamples(bare, a, xs), b, ys)
  {
    var first := s.(deferred := s.deferred - {a});
    ReplayIgnoresHeld(first, a, xs, bare.deferred);
    var ra := Replay(s, a);
    assert ra.deferred == s.deferred - {a};
    assert ra.(deferred := bare.deferred) == ReplaySamples(bare, a, xs);
  }

  lemma RetiresCommute(s: Engine, a: Cid, b: Cid)
    requires a != b
    ensures Retire(Retire(s, a), b) == Retire(Retire(s, b), a)
  {
    if a in s.calls && b in s.calls {
      var p, q := s.calls[a], s.calls[b];
      AdjustCommutes(s.counters.inflight, KeyOf(p), -1, KeyOf(q), -1);
      assert s.calls - {a} - {b} == s.calls - {b} - {a};
      assert s.counters.unmatched + multiset{p.channel} + multiset{q.channel}
             == s.counters.unmatched + multiset{q.channel} + multiset{p.channel};
      assert s.ledger.unmatched + multiset{p.serial} + multiset{q.serial}
             == s.ledger.unmatched + multiset{q.serial} + multiset{p.serial};
    }
  }

  lemma ForfeitsCommute(s: Engine, a: Cid, b: Cid)
    requires a != b
    ensures Forfeit(Forfeit(s, a), b) == Forfeit(Forfeit(s, b), a)
  {
    var one, two := Forfeit(Forfeit(s, a), b), Forfeit(Forfeit(s, b), a);
    if a in s.deferred && b in s.deferred {
      assert one.deferred == two.deferred;
      assert one.counters.orphan == two.counters.orphan;
      assert one.ledger.orphaned == two.ledger.orphaned;
    }
  }

  lemma AllStepsCommute()
    ensures Commutes(Replay) && Commutes(Forfeit) && Commutes(Retire)
  {
    forall s, a, b | a != b ensures Replay(Replay(s, a), b) == Replay(Replay(s, b), a) { ReplaysCommute(s, a, b); }
    forall s, a, b | a != b ensures Forfeit(Forfeit(s, a), b) == Forfeit(Forfeit(s, b), a) { ForfeitsCommute(s, a, b); }
    forall s, a, b | a != b ensures Retire(Retire(s, a), b) == Retire(Retire(s, b), a) { RetiresCommute(s, a, b); }
  }

  // ---------------------------------------------------------------------------
  // Confluence
  // ---------------------------------------------------------------------------

  /** Whatever orders the hash map yields the ready and the expired ids in, a
      resolve pass ends in one and the same state. */
  lemma ResolveIsConfluent(s: Engine, now: nat, ready: seq<Cid>, expired: seq<Cid>, ready': seq<Cid>, expired': seq<Cid>)
    requires ResolveOrders(s, ready, expired, now)
    requires ResolveOrders(s, ready', expired', now)
    ensures Resolve(s, ready, expired) == Resolve(s, ready', expired')
  {
    AllStepsCommute();
    FoldPermutation(s, ready, ready', Replay);
    FoldPermutation(Fold(s, ready, Replay), expired, expired', Forfeit);
  }

  /** So does a sweep. */
  lemma SweepIsConfluent(s: Engine, outlived: seq<Cid>, outlived': seq<Cid>)
    requires multiset(outlived) == multiset(outlived')
    ensures Sweep(s, outlived) == Sweep(s, outlived')
  {
    AllStepsCommute();
    FoldPermutation(s, outlived, outlived', Retire);
  }
}
