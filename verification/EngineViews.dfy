/** The engine without its bookkeeping, and which of its operations can be exchanged. */
module EngineViews {
  import opened Wire
  import opened Correlation
  import opened Engine
  import opened EngineConfluence

  /** What tells two engines apart, the observer's clock aside.  `responses` numbers
      the held samples. */
  datatype View = View(
    config: Config,
    calls: Calls,
    deferred: DeferredTable,
    counters: Counters,
    tracing: Tracing,
    responses: nat)

  /** A call without the instant it started to be tracked at, and its number. */
  function Anonymous(call: PendingCall): PendingCall
  {
    call.(started := 0, serial := 0)
  }

  function AnonymousCalls(calls: Calls): Calls
  {
    map c | c in calls :: Anonymous(calls[c])
  }

  function ViewOf(s: Engine): View
  {
    View(s.config, AnonymousCalls(s.calls), s.deferred, s.counters, Tracing(s.traced, s.offered), s.ledger.responses)
  }

  function HeldFor(table: DeferredTable, cid: Cid): seq<HeldSample>
  {
    if cid in table then table[cid].samples else []
  }

  // ---------------------------------------------------------------------------
  // Operations on views
  // ---------------------------------------------------------------------------

  /** What a response of a call adds to the latencies and to the skews. */
  function LatencyOf(call: PendingCall, x: HeldSample): multiset<LatencySample>
  {
    if !call.firstResponseSeen && x.header.timestampNs >= call.requestTs
    then multiset{LatencySample(call.channel, call.serviceId, call.methodName, x.header.timestampNs - call.requestTs)}
    else multiset{}
  }

  function SkewOf(call: PendingCall, x: HeldSample): nat
  {
    if !call.firstResponseSeen && x.header.timestampNs < call.requestTs then 1 else 0
  }

  function LowerIf(g: map<Key, int>, key: Key, terminal: bool): map<Key, int>
  {
    if terminal then Adjust(g, key, -1) else g
  }

  /** A response of call `call`, in the counters and in the trace position. */
  function MatchCounters(c: Counters, call: PendingCall, x: HeldSample): Counters
  {
    c.(latency := c.latency + LatencyOf(call, x),
       clockSkew := c.clockSkew + SkewOf(call, x),
       inflight := LowerIf(c.inflight, KeyOf(call), x.header.kind.IsTerminal()))
  }

  function MatchTracing(rate: nat, t: Tracing, x: HeldSample): Tracing
  {
    if x.header.kind.IsTerminal() then Tracing(NextTraced(rate, t.traced), NextOffered(rate, t.traced, t.offered)) else t
  }

  /** A response of a tracked call; nothing if it is not. */
  function SampleV(v: View, cid: Cid, x: HeldSample): View
  {
    if cid !in v.calls then v
    else
      v.(calls := AfterResponse(v.calls, cid, x.header.kind.IsTerminal()),
         counters := MatchCounters(v.counters, v.calls[cid], x),
         tracing := MatchTracing(v.config.sampleRate, v.tracing, x))
  }

  function SamplesV(v: View, cid: Cid, xs: seq<HeldSample>): View
    decreases |xs|
  {
    if xs == [] then v else SamplesV(SampleV(v, cid, xs[0]), cid, xs[1..])
  }

  function WithoutHeld(v: View, cid: Cid): View
  {
    v.(deferred := v.deferred - {cid})
  }

  function ReplayV(v: View, cid: Cid): View
  {
    SamplesV(WithoutHeld(v, cid), cid, HeldFor(v.deferred, cid))
  }

  function AskV(v: View, cid: Cid, call: PendingCall): View
  {
    v.(calls := v.calls[cid := call], counters := AskCounters(v.counters, call))
  }

  function CountV(v: View, series: ResponseSeries): View
  {
    v.(counters := v.counters.(responses := v.counters.responses + multiset{series}), responses := v.responses + 1)
  }

  function ForfeitV(v: View, cid: Cid): View
  {
    if cid !in v.deferred then v
    else
      var entry := v.deferred[cid];
      v.(deferred := v.deferred - {cid},
         counters := v.counters.(orphan := v.counters.orphan + multiset{}[entry.channel := |entry.samples|]))
  }

  function RetireV(v: View, cid: Cid): View
  {
    if cid !in v.calls then v
    else
      var call := v.calls[cid];
      v.(calls := v.calls - {cid},
         counters := UnmatchedCounters(v.counters, call))
  }

  /** A response of an untracked call: held, or its full stream given up. */
  function SettleV(v: View, channel: string, x: HeldSample, now: nat): View
  {
    var cid := x.header.cid;
    if cid in v.deferred && |v.deferred[cid].samples| >= MAX_DEFERRED_SAMPLES then ForfeitV(v, cid)
    else
      var entry := if cid in v.deferred then v.deferred[cid] else DeferredResponses(channel, [], now);
      v.(deferred := v.deferred[cid := entry.(samples := entry.samples + [x])])
  }

  predicate IsSample(o: Op) { o.RequestSample? || o.ResponseSample? }

  function CallOf(o: Op): PendingCall
    requires o.RequestSample?
  {
    PendingCall(o.channel, o.header.serviceId, o.methodName, o.header.timestampNs, o.len, false, 0, 0)
  }

  function SeriesOfOp(o: Op): ResponseSeries
    requires o.ResponseSample?
  {
    ResponseSeries(o.channel, o.header.serviceId, o.header.kind)
  }

  function HeldOf(o: Op, tag: nat): HeldSample
    requires o.ResponseSample?
  {
    HeldSample(o.header, o.emitter, o.len, tag)
  }

  /** One sample, when no table is full. */
  function TakeV(v: View, o: Op): View
  {
    if !IsSample(o) then v
    else if o.RequestSample? then (if o.header.kind == Request then AskV(v, o.header.cid, CallOf(o)) else v)
    else if o.header.cid in v.calls then SampleV(CountV(v, SeriesOfOp(o)), o.header.cid, HeldOf(o, v.responses))
    else SettleV(CountV(v, SeriesOfOp(o)), o.channel, HeldOf(o, v.responses), o.now)
  }

  // ---------------------------------------------------------------------------
  // They are the engine's
  // ---------------------------------------------------------------------------

  lemma AnonymousStore(calls: Calls, cid: Cid, call: PendingCall)
    ensures AnonymousCalls(calls[cid := call]) == AnonymousCalls(calls)[cid := Anonymous(call)]
    ensures AnonymousCalls(calls - {cid}) == AnonymousCalls(calls) - {cid}
  {
  }

  lemma AnonymousAfter(calls: Calls, cid: Cid, terminal: bool)
    requires cid in calls
    ensures AnonymousCalls(AfterResponse(calls, cid, terminal)) == AfterResponse(AnonymousCalls(calls), cid, terminal)
  {
    AnonymousStore(calls, cid, calls[cid].(firstResponseSeen := true));
  }

  lemma SampleIsView(s: Engine, cid: Cid, x: HeldSample)
    ensures ViewOf(ReplaySample(s, cid, x)) == SampleV(ViewOf(s), cid, x)
  {
    if cid in s.calls {
      AnonymousAfter(s.calls, cid, x.header.kind.IsTerminal());
      MatchIsView(s, cid, x, ReplaySample(s, cid, x));
    }
  }

  lemma MeasureIsMatch(c: Counters, call: PendingCall, x: HeldSample)
    ensures Measure(c, call, x.header.timestampNs)
            == c.(latency := c.latency + LatencyOf(call, x), clockSkew := c.clockSkew + SkewOf(call, x))
    ensures LatencyOf(Anonymous(call), x) == LatencyOf(call, x) && SkewOf(Anonymous(call), x) == SkewOf(call, x)
  {
    if LatencyOf(call, x) == multiset{} {
      assert c.latency + multiset{} == c.latency;
    }
  }

  lemma MatchIsView(s: Engine, cid: Cid, x: HeldSample, t: Engine)
    requires cid in s.calls && t == ReplaySample(s, cid, x)
    ensures t.config == s.config && t.deferred == s.deferred && t.ledger.responses == s.ledger.responses
    ensures t.calls == AfterResponse(s.calls, cid, x.header.kind.IsTerminal())
    ensures t.counters == MatchCounters(s.counters, Anonymous(s.calls[cid]), x)
    ensures Tracing(t.traced, t.offered) == MatchTracing(s.config.sampleRate, Tracing(s.traced, s.offered), x)
  {
    MeasureIsMatch(s.counters, s.calls[cid], x);
  }

  lemma {:induction false} SamplesAreView(s: Engine, cid: Cid, xs: seq<HeldSample>)
    ensures ViewOf(ReplaySamples(s, cid, xs)) == SamplesV(ViewOf(s), cid, xs)
    decreases |xs|
  {
    if xs != [] {
      SampleIsView(s, cid, xs[0]);
      SamplesAreView(ReplaySample(s, cid, xs[0]), cid, xs[1..]);
    }
  }

  lemma ReplayIsView(s: Engine, cid: Cid)
    ensures ViewOf(Replay(s, cid)) == ReplayV(ViewOf(s), cid)
  {
    if cid in s.deferred {
      SamplesAreView(s.(deferred := s.deferred - {cid}), cid, s.deferred[cid].samples);
    } else {
      assert s.deferred - {cid} == s.deferred;
    }
  }

  lemma ForfeitIsView(s: Engine, cid: Cid)
    ensures ViewOf(Forfeit(s, cid)) == ForfeitV(ViewOf(s), cid)
  {
  }

  lemma RetireIsView(s: Engine, cid: Cid)
    ensures ViewOf(Retire(s, cid)) == RetireV(ViewOf(s), cid)
  {
    if cid in s.calls {
      AnonymousStore(s.calls, cid, s.calls[cid]);
    }
  }

  /** The sample finds room in the table it goes to. */
  predicate HasRoom(s: Engine, o: Op)
  {
    && IsSample(o)
    && (o.RequestSample? ==> |s.calls| < s.config.maxInflight)
    && (o.ResponseSample? ==> |s.deferred| < MAX_DEFERRED)
  }

  lemma DirectIsSample(s: Engine, header: RpcHeader, tag: nat, x: HeldSample)
    requires header.cid in s.calls && x.header == header
    ensures ViewOf(Direct(s, header, tag)) == ViewOf(ReplaySample(s, header.cid, x))
  {
  }

  lemma RequestIsView(s: Engine, o: Op)
    requires HasRoom(s, o) && o.RequestSample?
    ensures ViewOf(Apply(s, o)) == TakeV(ViewOf(s), o)
  {
    if o.header.kind == Request {
      var call := NewCall(s, o.channel, o.header, o.methodName, o.len, o.now);
      AnonymousStore(s.calls, o.header.cid, call);
      assert Anonymous(call) == CallOf(o);
    }
  }

  lemma ResponseIsView(s: Engine, o: Op)
    requires HasRoom(s, o) && o.ResponseSample?
    ensures ViewOf(Apply(s, o)) == TakeV(ViewOf(s), o)
  {
    var counted, x := CountResponse(s, o.channel, o.header), HeldOf(o, s.ledger.responses);
    assert ViewOf(counted) == CountV(ViewOf(s), SeriesOfOp(o));
    if o.header.cid in s.calls {
      DirectIsSample(counted, o.header, s.ledger.responses, x);
      SampleIsView(counted, o.header.cid, x);
    } else {
      assert Apply(s, o) == Defer(counted, o.channel, x, o.now, o.victim);
    }
  }

  /** With room in its table, a sample does to the view what it does to the engine. */
  lemma TakeIsView(s: Engine, o: Op)
    requires HasRoom(s, o)
    ensures ViewOf(Apply(s, o)) == TakeV(ViewOf(s), o)
  {
    if o.RequestSample? { RequestIsView(s, o); } else { ResponseIsView(s, o); }
  }

  // ---------------------------------------------------------------------------
  // Operations on two different calls can be exchanged
  // ---------------------------------------------------------------------------

  lemma LowersCommute(g: map<Key, int>, a: Key, s: bool, b: Key, t: bool)
    ensures LowerIf(LowerIf(g, a, s), b, t) == LowerIf(LowerIf(g, b, t), a, s)
  {
    AdjustCommutes(g, a, -1, b, -1);
  }

  lemma MatchesCommute(c: Counters, p: PendingCall, x: HeldSample, q: PendingCall, y: HeldSample)
    ensures MatchCounters(MatchCounters(c, p, x), q, y) == MatchCounters(MatchCounters(c, q, y), p, x)
  {
    LowersCommute(c.inflight, KeyOf(p), x.header.kind.IsTerminal(), KeyOf(q), y.header.kind.IsTerminal());
    assert c.latency + LatencyOf(p, x) + LatencyOf(q, y) == c.latency + LatencyOf(q, y) + LatencyOf(p, x);
  }

  lemma AftersCommute(calls: Calls, a: Cid, s: bool, b: Cid, t: bool)
    requires a != b && a in calls && b in calls
    ensures AfterResponse(AfterResponse(calls, a, s), b, t) == AfterResponse(AfterResponse(calls, b, t), a, s)
  {
  }

  lemma SampleSample(v: View, a: Cid, x: HeldSample, b: Cid, y: HeldSample)
    requires a != b
    ensures SampleV(SampleV(v, a, x), b, y) == SampleV(SampleV(v, b, y), a, x)
  {
    if a in v.calls && b in v.calls {
      AftersCommute(v.calls, a, x.header.kind.IsTerminal(), b, y.header.kind.IsTerminal());
      MatchesCommute(v.counters, v.calls[a], x, v.calls[b], y);
    }
  }

  lemma SampleCount(v: View, cid: Cid, x: HeldSample, series: ResponseSeries)
    ensures SampleV(CountV(v, series), cid, x) == CountV(SampleV(v, cid, x), series)
  {
  }

  lemma SampleForfeit(v: View, cid: Cid, x: HeldSample, d: Cid)
    ensures SampleV(ForfeitV(v, d), cid, x) == ForfeitV(SampleV(v, cid, x), d)
  {
  }

  lemma SampleSettle(v: View, cid: Cid, x: HeldSample, channel: string, y: HeldSample, now: nat)
    ensures SampleV(SettleV(v, channel, y, now), cid, x) == SettleV(SampleV(v, cid, x), channel, y, now)
  {
    SampleForfeit(v, cid, x, y.header.cid);
  }

  lemma MatchAsk(c: Counters, p: PendingCall, x: HeldSample, call: PendingCall)
    ensures MatchCounters(AskCounters(c, call), p, x) == AskCounters(MatchCounters(c, p, x), call)
  {
    AdjustCommutes(c.inflight, KeyOf(call), 1, KeyOf(p), -1);
    assert LowerIf(Adjust(c.inflight, KeyOf(call), 1), KeyOf(p), x.header.kind.IsTerminal())
           == Adjust(LowerIf(c.inflight, KeyOf(p), x.header.kind.IsTerminal()), KeyOf(call), 1);
  }

  lemma SampleAsk(v: View, cid: Cid, x: HeldSample, b: Cid, call: PendingCall)
    requires cid != b
    ensures SampleV(AskV(v, b, call), cid, x) == AskV(SampleV(v, cid, x), b, call)
  {
    if cid in v.calls {
      MatchAsk(v.counters, v.calls[cid], x, call);
      assert AfterResponse(v.calls[b := call], cid, x.header.kind.IsTerminal())
             == AfterResponse(v.calls, cid, x.header.kind.IsTerminal())[b := call];
    }
  }

  lemma OthersTracked(v: View, cid: Cid, x: HeldSample, d: Cid)
    requires d != cid
    ensures d in SampleV(v, cid, x).calls <==> d in v.calls
    ensures SampleV(v, cid, x).responses == v.responses && SampleV(v, cid, x).deferred == v.deferred
  {
  }

  lemma SampleTake(v: View, cid: Cid, x: HeldSample, o: Op)
    requires IsSample(o) && o.header.cid != cid
    ensures SampleV(TakeV(v, o), cid, x) == TakeV(SampleV(v, cid, x), o)
  {
    var d := o.header.cid;
    if o.RequestSample? {
      SampleAsk(v, cid, x, d, CallOf(o));
    } else {
      var y := HeldOf(o, v.responses);
      SampleCount(v, cid, x, SeriesOfOp(o));
      OthersTracked(v, cid, x, d);
      if d in v.calls {
        SampleSample(CountV(v, SeriesOfOp(o)), d, y, cid, x);
      } else {
        SampleSettle(CountV(v, SeriesOfOp(o)), cid, x, o.channel, y, o.now);
      }
    }
  }

  lemma {:induction false} SamplesTake(v: View, cid: Cid, xs: seq<HeldSample>, o: Op)
    requires IsSample(o) && o.header.cid != cid
    ensures SamplesV(TakeV(v, o), cid, xs) == TakeV(SamplesV(v, cid, xs), o)
    decreases |xs|
  {
    if xs != [] {
      SampleTake(v, cid, xs[0], o);
      SamplesTake(SampleV(v, cid, xs[0]), cid, xs[1..], o);
    }
  }

  lemma WithoutTake(v: View, cid: Cid, o: Op)
    requires IsSample(o) && o.header.cid != cid
    ensures WithoutHeld(TakeV(v, o), cid) == TakeV(WithoutHeld(v, cid), o)
    ensures HeldFor(TakeV(v, o).deferred, cid) == HeldFor(v.deferred, cid)
  {
    if o.ResponseSample? && o.header.cid !in v.calls {
      WithoutSettle(CountV(v, SeriesOfOp(o)), cid, o.channel, HeldOf(o, v.responses), o.now);
    }
  }

  lemma WithoutSettle(v: View, cid: Cid, channel: string, x: HeldSample, now: nat)
    requires x.header.cid != cid
    ensures WithoutHeld(SettleV(v, channel, x, now), cid) == SettleV(WithoutHeld(v, cid), channel, x, now)
    ensures HeldFor(SettleV(v, channel, x, now).deferred, cid) == HeldFor(v.deferred, cid)
  {
    var a, b := WithoutHeld(SettleV(v, channel, x, now), cid), SettleV(WithoutHeld(v, cid), channel, x, now);
    assert a.deferred == b.deferred;
  }

  /** Replaying one call and taking a sample of another. */
  lemma ReplayTake(v: View, cid: Cid, o: Op)
    requires IsSample(o) && o.header.cid != cid
    ensures ReplayV(TakeV(v, o), cid) == TakeV(ReplayV(v, cid), o)
  {
    WithoutTake(v, cid, o);
    SamplesTake(WithoutHeld(v, cid), cid, HeldFor(v.deferred, cid), o);
  }

  lemma AskAsk(v: View, a: Cid, p: PendingCall, b: Cid, q: PendingCall)
    requires a != b
    ensures AskV(AskV(v, a, p), b, q) == AskV(AskV(v, b, q), a, p)
  {
    AdjustCommutes(v.counters.inflight, KeyOf(p), 1, KeyOf(q), 1);
    var one, two := AskV(AskV(v, a, p), b, q), AskV(AskV(v, b, q), a, p);
    assert one.calls == two.calls;
    assert one.counters.requests == two.counters.requests;
  }

  lemma AskSettle(v: View, cid: Cid, call: PendingCall, channel: string, x: HeldSample, now: nat)
    ensures AskV(SettleV(v, channel, x, now), cid, call) == SettleV(AskV(v, cid, call), channel, x, now)
  {
    assert AskV(ForfeitV(v, x.header.cid), cid, call) == ForfeitV(AskV(v, cid, call), x.header.cid);
  }

  lemma AskCount(v: View, cid: Cid, call: PendingCall, series: ResponseSeries)
    ensures AskV(CountV(v, series), cid, call) == CountV(AskV(v, cid, call), series)
  {
  }

  /** Tracking one call and taking a sample of another. */
  lemma AskTake(v: View, cid: Cid, call: PendingCall, o: Op)
    requires IsSample(o) && o.header.cid != cid
    ensures AskV(TakeV(v, o), cid, call) == TakeV(AskV(v, cid, call), o)
  {
    if o.RequestSample? {
      AskAsk(v, cid, call, o.header.cid, CallOf(o));
    } else {
      var counted, x := CountV(v, SeriesOfOp(o)), HeldOf(o, v.responses);
      AskCount(v, cid, call, SeriesOfOp(o));
      if o.header.cid in v.calls {
        SampleAsk(counted, o.header.cid, x, cid, call);
      } else {
        AskSettle(counted, cid, call, o.channel, x, o.now);
      }
    }
  }

  /** Giving a call up and taking a response of an untracked one. */
  lemma RetireTake(v: View, victim: Cid, o: Op)
    requires o.ResponseSample? && o.header.cid !in v.calls
    ensures RetireV(TakeV(v, o), victim) == TakeV(RetireV(v, victim), o)
  {
    var counted, x := CountV(v, SeriesOfOp(o)), HeldOf(o, v.responses);
    assert RetireV(counted, victim) == CountV(RetireV(v, victim), SeriesOfOp(o));
    RetireSettle(counted, victim, o.channel, x, o.now);
  }

  lemma RetireSettle(v: View, victim: Cid, channel: string, x: HeldSample, now: nat)
    ensures RetireV(SettleV(v, channel, x, now), victim) == SettleV(RetireV(v, victim), channel, x, now)
  {
    assert RetireV(ForfeitV(v, x.header.cid), victim) == ForfeitV(RetireV(v, victim), x.header.cid);
  }

  // ---------------------------------------------------------------------------
  // One record more
  // ---------------------------------------------------------------------------

  /** The same state with some latencies and skews more. */
  function AddV(v: View, latency: multiset<LatencySample>, skew: nat): View
  {
    v.(counters := v.counters.(latency := v.counters.latency + latency, clockSkew := v.counters.clockSkew + skew))
  }

  lemma AddSample(v: View, m: multiset<LatencySample>, n: nat, cid: Cid, x: HeldSample)
    ensures SampleV(AddV(v, m, n), cid, x) == AddV(SampleV(v, cid, x), m, n)
  {
    if cid in v.calls {
      var l := LatencyOf(v.calls[cid], x);
      assert v.counters.latency + m + l == v.counters.latency + l + m;
    }
  }

  lemma {:induction false} AddSamples(v: View, m: multiset<LatencySample>, n: nat, cid: Cid, xs: seq<HeldSample>)
    ensures SamplesV(AddV(v, m, n), cid, xs) == AddV(SamplesV(v, cid, xs), m, n)
    decreases |xs|
  {
    if xs != [] {
      AddSample(v, m, n, cid, xs[0]);
      AddSamples(SampleV(v, cid, xs[0]), m, n, cid, xs[1..]);
    }
  }

  lemma AddReplay(v: View, m: multiset<LatencySample>, n: nat, cid: Cid)
    ensures ReplayV(AddV(v, m, n), cid) == AddV(ReplayV(v, cid), m, n)
  {
    AddSamples(WithoutHeld(v, cid), m, n, cid, HeldFor(v.deferred, cid));
  }

  /** Whatever is taken, records added before or after make no difference. */
  lemma AddTake(v: View, m: multiset<LatencySample>, n: nat, o: Op)
    ensures TakeV(AddV(v, m, n), o) == AddV(TakeV(v, o), m, n)
  {
    if o.ResponseSample? {
      var counted, x := CountV(v, SeriesOfOp(o)), HeldOf(o, v.responses);
      assert CountV(AddV(v, m, n), SeriesOfOp(o)) == AddV(counted, m, n);
      AddSample(counted, m, n, o.header.cid, x);
      AddSettle(counted, m, n, o.channel, x, o.now);
    }
  }

  lemma AddSettle(v: View, m: multiset<LatencySample>, n: nat, channel: string, x: HeldSample, now: nat)
    ensures SettleV(AddV(v, m, n), channel, x, now) == AddV(SettleV(v, channel, x, now), m, n)
  {
    assert ForfeitV(AddV(v, m, n), x.header.cid) == AddV(ForfeitV(v, x.header.cid), m, n);
  }

  lemma AddOrder(v: View, m: multiset<LatencySample>, n: nat, m': multiset<LatencySample>, n': nat)
    ensures AddV(AddV(v, m, n), m', n') == AddV(AddV(v, m', n'), m, n)
  {
    assert v.counters.latency + m + m' == v.counters.latency + m' + m;
  }

  lemma AddCancels(a: View, b: View, m: multiset<LatencySample>, n: nat)
    requires AddV(a, m, n) == AddV(b, m, n)
    ensures a == b
  {
    var x, y := AddV(a, m, n), AddV(b, m, n);
    assert a.counters.latency == x.counters.latency - m && b.counters.latency == y.counters.latency - m;
    assert x.counters.(latency := a.counters.latency, clockSkew := a.counters.clockSkew) == a.counters;
    assert y.counters.(latency := b.counters.latency, clockSkew := b.counters.clockSkew) == b.counters;
    assert x.(counters := a.counters) == a && y.(counters := b.counters) == b;
  }
}
