/** What the conservation laws mean for whoever reads the observer's counters. */
module EngineTheorems {
  import opened Wire
  import opened Correlation
  import opened Bags
  import opened Folds
  import opened Engine
  import opened EngineInvariant

  // ---------------------------------------------------------------------------
  // The in-flight gauge
  // ---------------------------------------------------------------------------

  /** The tracked calls of one (channel, service). */
  ghost function CallsOf(calls: Calls, key: Key): set<Cid>
  {
    set c | c in calls && KeyOf(calls[c]) == key
  }

  lemma CallsOfLess(calls: Calls, c: Cid, key: Key)
    requires c in calls
    ensures |CallsOf(calls, key)| == |CallsOf(calls - {c}, key)| + One(KeyOf(calls[c]) == key)
  {
    var less := CallsOf(calls - {c}, key);
    if KeyOf(calls[c]) == key {
      assert CallsOf(calls, key) == less + {c};
    } else {
      assert CallsOf(calls, key) == less;
    }
  }

  lemma {:induction false} CallsOfCount(calls: Calls, key: Key)
    ensures TrackedKeys(calls)[key] == |CallsOf(calls, key)|
    decreases |calls|
  {
    if calls == map[] {
      assert CallsOf(calls, key) == {};
    } else {
      var c := Pick(calls);
      Less(calls, c);
      CallsOfCount(calls - {c}, key);
      CallsOfLess(calls, c, key);
    }
  }

  /** In every reachable state the gauge of a key is the number of its tracked
      calls plus the number of its calls hidden by a reused id: never negative. */
  lemma GaugeCountsTrackedCalls(config: Config, ops: seq<Op>, states: seq<Engine>, i: nat, key: Key)
    requires Run(config, ops, states) && i < |states|
    ensures var s := states[i];
            Level(s.counters.inflight, key) == |CallsOf(s.calls, key)| + s.ledger.overwrittenKeys[key]
    ensures Level(states[i].counters.inflight, key) >= 0
  {
    RunKeeps(config, ops, states, i);
    CallsOfCount(states[i].calls, key);
  }

  /** A request whose id is still tracked once room was made: the old call is
      overwritten without being accounted for. */
  predicate Overwrites(s: Engine, op: Op)
  {
    op.RequestSample? && op.header.kind == Request && op.header.cid in MakeRoom(s, op.victim).calls
  }

  ghost predicate NoLoss(s: Engine, t: Engine)
  {
    t.ledger.overwrittenKeys == s.ledger.overwrittenKeys
  }

  lemma {:induction false} ReplaySamplesNoLoss(s: Engine, cid: Cid, samples: seq<HeldSample>)
    ensures NoLoss(s, ReplaySamples(s, cid, samples))
    decreases |samples|
  {
    if samples != [] { ReplaySamplesNoLoss(ReplaySample(s, cid, samples[0]), cid, samples[1..]); }
  }

  lemma {:induction false} ReplaysNoLoss(s: Engine, ks: seq<Cid>)
    ensures NoLoss(s, Fold(s, ks, Replay))
    decreases |ks|
  {
    if ks != [] {
      if ks[0] in s.deferred {
        ReplaySamplesNoLoss(s.(deferred := s.deferred - {ks[0]}), ks[0], s.deferred[ks[0]].samples);
      }
      ReplaysNoLoss(Replay(s, ks[0]), ks[1..]);
    }
  }

  lemma {:induction false} ForfeitsNoLoss(s: Engine, ks: seq<Cid>)
    ensures NoLoss(s, Fold(s, ks, Forfeit))
    decreases |ks|
  {
    if ks != [] { ForfeitsNoLoss(Forfeit(s, ks[0]), ks[1..]); }
  }

  lemma {:induction false} RetiresNoLoss(s: Engine, ks: seq<Cid>)
    ensures NoLoss(s, Fold(s, ks, Retire))
    decreases |ks|
  {
    if ks != [] { RetiresNoLoss(Retire(s, ks[0]), ks[1..]); }
  }

  lemma OnlyOverwritesLose(s: Engine, op: Op)
    ensures !Overwrites(s, op) ==> NoLoss(s, Apply(s, op))
    ensures Overwrites(s, op) ==> |Apply(s, op).ledger.overwrittenKeys| == |s.ledger.overwrittenKeys| + 1
  {
    match op
    case RequestSample(_, _, _, _, _, _) =>
    case ResponseSample(_, _, _, _, _, _) =>
    case ResolveDeferred(_, ready, expired) =>
      ReplaysNoLoss(s, ready);
      ForfeitsNoLoss(Fold(s, ready, Replay), expired);
    case SweepCalls(_, outlived) => RetiresNoLoss(s, outlived);
  }

  lemma {:induction false} HiddenIffOverwritten(config: Config, ops: seq<Op>, states: seq<Engine>, i: nat)
    requires Run(config, ops, states) && i < |states|
    ensures states[i].ledger.overwrittenKeys == multiset{} <==> forall j :: 0 <= j < i ==> !Overwrites(states[j], ops[j])
  {
    if i > 0 {
      HiddenIffOverwritten(config, ops, states, i - 1);
      assert Leads(states[i - 1], ops[i - 1], states[i]);
      OnlyOverwritesLose(states[i - 1], ops[i - 1]);
    }
  }

  /** The gauge is exact for every key if and only if no request of the run ever
      reused an id that was still tracked. */
  lemma GaugeIsExactIffIdsAreFresh(config: Config, ops: seq<Op>, states: seq<Engine>, i: nat)
    requires Run(config, ops, states) && i < |states|
    ensures (forall key: Key :: Level(states[i].counters.inflight, key) == |CallsOf(states[i].calls, key)|)
       <==> (forall j :: 0 <= j < i ==> !Overwrites(states[j], ops[j]))
  {
    HiddenIffOverwritten(config, ops, states, i);
    var s := states[i];
    forall key: Key
      ensures Level(s.counters.inflight, key) == |CallsOf(s.calls, key)| + s.ledger.overwrittenKeys[key]
    {
      GaugeCountsTrackedCalls(config, ops, states, i, key);
    }
    if s.ledger.overwrittenKeys != multiset{} {
      var k :| k in s.ledger.overwrittenKeys;
      assert Level(s.counters.inflight, k) != |CallsOf(s.calls, k)|;
    }
  }

  // ---------------------------------------------------------------------------
  // Requests and responses are conserved
  // ---------------------------------------------------------------------------

  function One(b: bool): nat { if b then 1 else 0 }

  /** The exported counters add up, and each request has exactly one fate. */
  lemma RequestsAreConserved(config: Config, ops: seq<Op>, states: seq<Engine>, i: nat)
    requires Run(config, ops, states) && i < |states|
    ensures var s := states[i];
            |s.counters.requests| == |s.calls| + |s.ledger.closed| + |s.counters.unmatched| + |s.ledger.overwritten|
    ensures var s := states[i];
            forall n: nat :: TrackedSerials(s.calls)[n] + s.ledger.closed[n] + s.ledger.unmatched[n] + s.ledger.overwritten[n]
                             == One(n < |s.counters.requests|)
  {
    RunKeeps(config, ops, states, i);
    var s := states[i];
    BagSize(s.calls, SERIAL);
    forall n: nat
      ensures TrackedSerials(s.calls)[n] + s.ledger.closed[n] + s.ledger.unmatched[n] + s.ledger.overwritten[n]
              == One(n < |s.counters.requests|)
    {
      assert (TrackedSerials(s.calls) + s.ledger.closed + s.ledger.unmatched + s.ledger.overwritten)[n]
             == Arrivals(s.ledger.requests)[n];
    }
  }

  /** Each response sample is matched directly, matched on replay, still held, an
      orphan, the trigger of an overflow or replayed behind a terminal: exactly
      one of the six, and the exported counters add up. */
  lemma ResponsesAreConserved(config: Config, ops: seq<Op>, states: seq<Engine>, i: nat)
    requires Run(config, ops, states) && i < |states|
    ensures var s := states[i];
            |s.counters.responses| == |s.ledger.direct| + |s.ledger.replayed| + |HeldTags(s.deferred)|
                                      + |s.counters.orphan| + |s.ledger.triggers| + |s.ledger.behind|
    ensures var s, l := states[i], states[i].ledger;
            forall n: nat :: HeldTags(s.deferred)[n] + l.direct[n] + l.replayed[n] + l.orphaned[n] + l.triggers[n] + l.behind[n]
                             == One(n < |s.counters.responses|)
  {
    RunKeeps(config, ops, states, i);
    var s, l := states[i], states[i].ledger;
    var all := HeldTags(s.deferred) + l.direct + l.replayed + l.orphaned + l.triggers + l.behind;
    assert all + multiset{} == all;
    forall n: nat
      ensures HeldTags(s.deferred)[n] + l.direct[n] + l.replayed[n] + l.orphaned[n] + l.triggers[n] + l.behind[n]
              == One(n < |s.counters.responses|)
    {
      assert all[n] == Arrivals(l.responses)[n];
    }
  }

  // ---------------------------------------------------------------------------
  // One latency or clock-skew record per answered call
  // ---------------------------------------------------------------------------

  lemma {:induction false} DistinctSize(b: multiset<nat>, s: set<nat>)
    requires forall n: nat :: b[n] == One(n in s)
    ensures |b| == |s|
    decreases s
  {
    if s == {} {
      assert b == multiset{};
    } else {
      var n :| n in s;
      assert b == (b - multiset{n}) + multiset{n};
      DistinctSize(b - multiset{n}, s - {n});
    }
  }

  /** The calls some response was ever matched to, by serial. */
  ghost function AnsweredCalls(l: Ledger): set<nat>
  {
    set n | n in l.matched
  }

  lemma RecordsCounted(l: Ledger)
    requires forall n: nat :: l.measured[n] == if n in l.matched then 1 else 0
    ensures |l.measured| == |AnsweredCalls(l)|
  {
    DistinctSize(l.measured, AnsweredCalls(l));
  }

  /** However its responses arrive - directly, replayed, before an eviction or a
      sweep - a call yields one latency or clock-skew record if some response
      matched it and none otherwise; a tracked call is flagged accordingly. */
  lemma OneRecordPerAnsweredCall(config: Config, ops: seq<Op>, states: seq<Engine>, i: nat)
    requires Run(config, ops, states) && i < |states|
    ensures var s := states[i];
            |s.counters.latency| + s.counters.clockSkew == |AnsweredCalls(s.ledger)|
    ensures forall n: nat :: states[i].ledger.measured[n] == One(n in states[i].ledger.matched)
    ensures var s := states[i];
            |s.counters.latency| + s.counters.clockSkew == |s.ledger.measured|
            && |s.ledger.matched| == |s.ledger.direct| + |s.ledger.replayed|
    ensures var s := states[i];
            forall c :: c in s.calls ==> (s.calls[c].firstResponseSeen <==> s.calls[c].serial in s.ledger.matched)
    ensures forall n: nat :: n in states[i].ledger.closed ==> n in states[i].ledger.matched
  {
    RunKeeps(config, ops, states, i);
    RecordsCounted(states[i].ledger);
  }

  // ---------------------------------------------------------------------------
  // Bounds
  // ---------------------------------------------------------------------------

  /** The tables stay bounded: a capacity of 0 still holds one call. */
  lemma TablesAreBounded(config: Config, ops: seq<Op>, states: seq<Engine>, i: nat)
    requires Run(config, ops, states) && i < |states|
    ensures states[i].config == config
    ensures |states[i].calls| <= AtLeastOne(config.maxInflight)
    ensures |states[i].deferred| <= 16384
    ensures forall c :: c in states[i].deferred ==> 1 <= |states[i].deferred[c].samples| <= 4096
  {
    RunKeeps(config, ops, states, i);
    ConfigIsFixed(config, ops, states, i);
  }

  lemma {:induction false} ReplaySamplesConfig(s: Engine, cid: Cid, samples: seq<HeldSample>)
    ensures ReplaySamples(s, cid, samples).config == s.config
    decreases |samples|
  {
    if samples != [] { ReplaySamplesConfig(ReplaySample(s, cid, samples[0]), cid, samples[1..]); }
  }

  lemma StepFixesConfig(s: Engine, op: Op)
    ensures Apply(s, op).config == s.config
  {
    match op
    case RequestSample(_, _, _, _, _, _) =>
    case ResponseSample(_, _, _, _, _, _) =>
    case ResolveDeferred(_, ready, expired) =>
      ReplaysFixConfig(s, ready);
      ForfeitsFixConfig(Fold(s, ready, Replay), expired);
    case SweepCalls(_, outlived) => RetiresFixConfig(s, outlived);
  }

  lemma {:induction false} ReplaysFixConfig(s: Engine, ks: seq<Cid>)
    ensures Fold(s, ks, Replay).config == s.config
    decreases |ks|
  {
    if ks != [] {
      if ks[0] in s.deferred {
        ReplaySamplesConfig(s.(deferred := s.deferred - {ks[0]}), ks[0], s.deferred[ks[0]].samples);
      }
      ReplaysFixConfig(Replay(s, ks[0]), ks[1..]);
    }
  }

  lemma {:induction false} ForfeitsFixConfig(s: Engine, ks: seq<Cid>)
    ensures Fold(s, ks, Forfeit).config == s.config
    decreases |ks|
  {
    if ks != [] { ForfeitsFixConfig(Forfeit(s, ks[0]), ks[1..]); }
  }

  lemma {:induction false} RetiresFixConfig(s: Engine, ks: seq<Cid>)
    ensures Fold(s, ks, Retire).config == s.config
    decreases |ks|
  {
    if ks != [] { RetiresFixConfig(Retire(s, ks[0]), ks[1..]); }
  }

  lemma {:induction false} ConfigIsFixed(config: Config, ops: seq<Op>, states: seq<Engine>, i: nat)
    requires Run(config, ops, states) && i < |states|
    ensures states[i].config == config
  {
    if i > 0 {
      ConfigIsFixed(config, ops, states, i - 1);
      assert Leads(states[i - 1], ops[i - 1], states[i]);
      StepFixesConfig(states[i - 1], ops[i - 1]);
    }
  }

  // ---------------------------------------------------------------------------
  // Trace sampling
  // ---------------------------------------------------------------------------

  lemma DivSucc(n: nat, rate: nat)
    requires rate > 0
    ensures (n + 1) / rate == n / rate + One((n + 1) % rate == 0)
  {
    var q, r := n / rate, n % rate;
    assert n == q * rate + r;
    if r + 1 == rate {
      assert n + 1 == (q + 1) * rate;
      DivUnique(n + 1, rate, q + 1, 0);
    } else {
      DivUnique(n + 1, rate, q, r + 1);
    }
  }

  lemma DivUnique(n: nat, d: nat, q: nat, r: nat)
    requires d > 0 && n == q * d + r && r < d
    ensures n / d == q && n % d == r
  {
    var q', r' := n / d, n % d;
    assert n == q' * d + r';
    MulMono(q + 1, q', d);
    MulMono(q' + 1, q, d);
    assert (q + 1) * d == q * d + d && (q' + 1) * d == q' * d + d;
  }

  lemma MulMono(a: int, b: int, d: nat)
    ensures a <= b ==> a * d <= b * d
  {
  }

  /** What one turn of the 64-bit counter offers: the call that wraps it to 0 is
      offered whatever the rate. */
  function PerTurn(rate: nat): nat
    requires rate > 0
  {
    (U64_RANGE - 1) / rate + 1
  }

  /** One more call within a turn ... */
  lemma OfferedNext(n: nat, m: nat, rate: nat, base: nat)
    requires rate > 0 && n > 0 && 0 < m == n % U64_RANGE
    requires OfferedAfter(n - 1, rate) == base + (m - 1) / rate
    ensures OfferedAfter(n, rate) == base + m / rate
  {
    DivSucc(m - 1, rate);
  }

  /** ... and the one that ends it. */
  lemma OfferedAtWrap(n: nat, rate: nat, base: nat)
    requires rate > 0 && n > 0 && n % U64_RANGE == 0
    requires OfferedAfter(n - 1, rate) == base + (U64_RANGE - 1) / rate
    ensures OfferedAfter(n, rate) == base + PerTurn(rate)
  {
    DivUnique(0, rate, 0, 0);
  }

  lemma BeforeInTurn(n: nat)
    requires n > 0
    ensures n % U64_RANGE > 0 ==> (n - 1) / U64_RANGE == n / U64_RANGE && (n - 1) % U64_RANGE == n % U64_RANGE - 1
    ensures n % U64_RANGE == 0 ==> (n - 1) / U64_RANGE == n / U64_RANGE - 1 && (n - 1) % U64_RANGE == U64_RANGE - 1
  {
  }

  function Times(k: nat, x: nat): nat
  {
    if k == 0 then 0 else Times(k - 1, x) + x
  }

  lemma {:induction false} TimesIsProduct(k: nat, x: nat)
    ensures Times(k, x) == k * x
  {
    if k > 0 {
      TimesIsProduct(k - 1, x);
      assert k * x == (k - 1) * x + x;
    }
  }

  lemma {:induction false} OfferedByTurns(n: nat, rate: nat)
    requires rate > 0
    ensures OfferedAfter(n, rate) == Times(n / U64_RANGE, PerTurn(rate)) + n % U64_RANGE / rate
  {
    if n == 0 {
      DivUnique(0, rate, 0, 0);
    } else {
      OfferedByTurns(n - 1, rate);
      BeforeInTurn(n);
      var base := Times((n - 1) / U64_RANGE, PerTurn(rate));
      if n % U64_RANGE > 0 {
        OfferedNext(n, n % U64_RANGE, rate, base);
      } else {
        OfferedAtWrap(n, rate, base);
        DivUnique(0, rate, 0, 0);
      }
    }
  }

  /** How far the rate is from dividing a turn. */
  function Slack(rate: nat): nat
    requires rate > 0
  {
    (rate - U64_RANGE % rate) % rate
  }

  lemma SlackOfTurn(rate: nat)
    requires rate > 0
    ensures PerTurn(rate) * rate == U64_RANGE + Slack(rate) && Slack(rate) < rate
    ensures Slack(rate) == 0 <==> U64_RANGE % rate == 0
  {
    var q, r := U64_RANGE / rate, U64_RANGE % rate;
    assert U64_RANGE == q * rate + r;
    if r == 0 {
      assert U64_RANGE - 1 == (q - 1) * rate + (rate - 1);
      DivUnique(U64_RANGE - 1, rate, q - 1, rate - 1);
      DivUnique(rate, rate, 1, 0);
    } else {
      DivUnique(U64_RANGE - 1, rate, q, r - 1);
      DivUnique(rate - r, rate, 0, rate - r);
      assert (q + 1) * rate == q * rate + rate;
    }
  }

  /** After any number of calls, the records offered are one in `rate` if and only if
      the slack of the turns so far fits in what is left over. */
  lemma OneInRateIff(n: nat, rate: nat)
    requires rate > 0
    ensures OfferedAfter(n, rate) == n / U64_RANGE * PerTurn(rate) + n % U64_RANGE / rate
    ensures OfferedAfter(n, rate) == n / rate <==> n / U64_RANGE * Slack(rate) <= n % U64_RANGE % rate
  {
    var k, m := n / U64_RANGE, n % U64_RANGE;
    OfferedByTurns(n, rate);
    TimesIsProduct(k, PerTurn(rate));
    SlackOfTurn(rate);
    OneInRateIn(n, k, m, rate, PerTurn(rate), Slack(rate));
  }

  lemma OneInRateIn(n: nat, k: nat, m: nat, rate: nat, turn: nat, slack: nat)
    requires rate > 0 && n == k * U64_RANGE + m && turn * rate == U64_RANGE + slack
    ensures k * turn + m / rate == n / rate <==> k * slack <= m % rate
  {
    var a, b := m / rate, m % rate;
    assert m == a * rate + b;
    Expand(k, turn, rate, slack, a);
    WholeIff(n, rate, k * turn + a, b, k * slack);
  }

  lemma Expand(k: nat, turn: nat, rate: nat, slack: nat, a: nat)
    requires turn * rate == U64_RANGE + slack
    ensures (k * turn + a) * rate == k * U64_RANGE + k * slack + a * rate
  {
    calc {
      (k * turn + a) * rate;
      k * turn * rate + a * rate;
      k * (turn * rate) + a * rate;
      k * (U64_RANGE + slack) + a * rate;
    }
  }

  /** `n` is `q` wholes and a rest `b`, short of `excess`. */
  lemma WholeIff(n: nat, rate: nat, q: nat, b: nat, excess: nat)
    requires rate > 0 && n + excess == q * rate + b && b < rate
    ensures q == n / rate <==> excess <= b
  {
    if excess <= b {
      DivUnique(n, rate, q, b - excess);
    } else {
      var p := n / rate;
      assert p * rate <= n < q * rate;
      MulMono(q, p, rate);
    }
  }

  /** It is before the counter wraps ... */
  lemma OfferedBeforeWrap(n: nat, rate: nat)
    requires rate > 0 && n < U64_RANGE
    ensures OfferedAfter(n, rate) == n / rate
  {
    DivUnique(n, U64_RANGE, 0, n);
    OneInRateIff(n, rate);
  }

  /** ... and always, if and only if the rate divides 2^64. */
  lemma AlwaysOneInRateIffItDivides(rate: nat)
    requires rate > 0
    ensures (forall n: nat :: OfferedAfter(n, rate) == n / rate) <==> U64_RANGE % rate == 0
  {
    SlackOfTurn(rate);
    if U64_RANGE % rate == 0 {
      forall n: nat ensures OfferedAfter(n, rate) == n / rate {
        OneInRateIff(n, rate);
      }
    } else {
      OneInRateIff(U64_RANGE, rate);
      DivUnique(U64_RANGE, U64_RANGE, 1, 0);
      DivUnique(0, rate, 0, 0);
      assert OfferedAfter(U64_RANGE, rate) != U64_RANGE / rate;
    }
  }

  /** In every run, with tracing on: what the calls closed so far have offered. */
  lemma OneTraceInRate(config: Config, ops: seq<Op>, states: seq<Engine>, i: nat)
    requires Run(config, ops, states) && i < |states| && config.sampleRate > 0
    ensures var n, rate := |states[i].ledger.closed|, config.sampleRate;
            && states[i].offered == n / U64_RANGE * PerTurn(rate) + n % U64_RANGE / rate
            && (states[i].offered == n / rate <==> n / U64_RANGE * Slack(rate) <= n % U64_RANGE % rate)
  {
    RunKeeps(config, ops, states, i);
    ConfigIsFixed(config, ops, states, i);
    OneInRateIff(|states[i].ledger.closed|, config.sampleRate);
  }
}
