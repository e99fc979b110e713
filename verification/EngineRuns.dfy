/** Runs from a fresh engine that miss a property one would expect of it. */
module EngineRuns {
  import opened Wire
  import opened Correlation
  import opened Engine
  import opened EngineInvariant
  import opened EngineTheorems
  import opened EngineAgreement
  import opened EngineDrain
  import opened EngineOrder
  import opened EngineEarly
  import opened EngineRecords
  import opened EngineLeaks

  ghost function End(states: seq<Engine>): Engine
    requires states != []
  {
    states[|states| - 1]
  }

  lemma Extend(config: Config, ops: seq<Op>, states: seq<Engine>, op: Op)
    requires Run(config, ops, states) && Allowed(End(states), op)
    ensures Run(config, ops + [op], states + [Apply(End(states), op)])
  {
    var n, t := |ops|, Apply(End(states), op);
    var ops', states' := ops + [op], states + [t];
    assert ops'[n] == op && states'[n] == End(states) && states'[n + 1] == t;
    forall i | 0 <= i < n + 1 ensures Leads(states'[i], ops'[i], states'[i + 1]) {
      if i < n {
        assert Leads(states[i], ops[i], states[i + 1]);
      }
    }
  }

  function Asking(cid: Cid): Op
  {
    RequestSample("", RpcHeader(cid, Request, 0, 0, 0), "", 0, 0, cid)
  }

  function Answering(cid: Cid, kind: EventKind): Op
  {
    ResponseSample("", RpcHeader(cid, kind, 0, 0, 0), Emitter(0, 0), 0, 0, cid)
  }

  // ---------------------------------------------------------------------------
  // The gauge
  // ---------------------------------------------------------------------------

  /** With room for two calls, two requests of one id leave the gauge at 2 with one call. */
  lemma GaugeDrifts(config: Config, cid: Cid) returns (ops: seq<Op>, states: seq<Engine>)
    requires config.maxInflight >= 2
    ensures Run(config, ops, states)
    ensures Level(End(states).counters.inflight, Key("", 0)) == 2 && |CallsOf(End(states).calls, Key("", 0))| == 1
  {
    var s0 := Init(config);
    var s1 := Apply(s0, Asking(cid));
    var s2 := Apply(s1, Asking(cid));
    ops, states := [Asking(cid), Asking(cid)], [s0, s1, s2];
    assert s1.calls.Keys == {cid} && |s1.calls| == |s1.calls.Keys|;
    assert Level(s1.counters.inflight, Key("", 0)) == 1;
    assert s2.calls.Keys == {cid};
    assert CallsOf(s2.calls, Key("", 0)) == {cid};
  }

  /** A table of at most one call is emptied before each request: nothing to overwrite. */
  lemma SmallTableNeverOverwrites(s: Engine, op: Op)
    requires Inv(s) && Allowed(s, op) && s.config.maxInflight <= 1
    ensures !Overwrites(s, op)
  {
    if op.RequestSample? && op.header.kind == Request && s.calls != map[] {
      assert |s.calls| == 1;
      Less(s.calls, op.victim);
      assert MakeRoom(s, op.victim).calls == s.calls - {op.victim};
      assert |MakeRoom(s, op.victim).calls| == 0;
    }
  }

  ghost predicate GaugeIsExact(config: Config, ops: seq<Op>, states: seq<Engine>)
    requires Run(config, ops, states)
  {
    forall key: Key :: Level(End(states).counters.inflight, key) == |CallsOf(End(states).calls, key)|
  }

  /** The gauge is exact whatever happens if and only if the table is for one call. */
  lemma GaugeIsAlwaysExactIffOneCallAtMost(config: Config)
    ensures (forall ops, states :: Run(config, ops, states) ==> GaugeIsExact(config, ops, states)) <==> config.maxInflight <= 1
  {
    if config.maxInflight <= 1 {
      forall ops, states | Run(config, ops, states) ensures GaugeIsExact(config, ops, states) {
        SmallTableIsExact(config, ops, states);
      }
    } else {
      var ops, states := GaugeDrifts(config, 0);
      assert !GaugeIsExact(config, ops, states);
    }
  }

  lemma SmallTableIsExact(config: Config, ops: seq<Op>, states: seq<Engine>)
    requires Run(config, ops, states) && config.maxInflight <= 1
    ensures GaugeIsExact(config, ops, states)
  {
    forall j | 0 <= j < |ops| ensures !Overwrites(states[j], ops[j]) {
      RunKeeps(config, ops, states, j);
      ConfigIsFixed(config, ops, states, j);
      assert Leads(states[j], ops[j], states[j + 1]);
      SmallTableNeverOverwrites(states[j], ops[j]);
    }
    GaugeIsExactIffIdsAreFresh(config, ops, states, |ops|);
  }

  /** A capacity of 0 tracks one call all the same. */
  lemma NoCapacityStillTracksOne(config: Config, cid: Cid) returns (ops: seq<Op>, states: seq<Engine>)
    requires config.maxInflight == 0
    ensures Run(config, ops, states) && |End(states).calls| == 1
  {
    var s0 := Init(config);
    var s1 := Apply(s0, Asking(cid));
    ops, states := [Asking(cid)], [s0, s1];
    assert s1.calls.Keys == {cid} && |s1.calls| == |s1.calls.Keys|;
  }

  // ---------------------------------------------------------------------------
  // Lost responses
  // ---------------------------------------------------------------------------

  /** `n` responses of an id nobody asked for are held. */
  lemma {:induction false} HoldMany(config: Config, cid: Cid, n: nat) returns (ops: seq<Op>, states: seq<Engine>)
    requires 1 <= n <= MAX_DEFERRED_SAMPLES
    ensures Run(config, ops, states)
    ensures var s := End(states);
      s.calls == map[] && s.deferred.Keys == {cid} && |s.deferred[cid].samples| == n
  {
    var op := Answering(cid, Next);
    if n == 1 {
      ops, states := [], [Init(config)];
    } else {
      ops, states := HoldMany(config, cid, n - 1);
    }
    var s := End(states);
    assert |s.deferred| == |s.deferred.Keys| <= 1;
    Extend(config, ops, states, op);
    var t := Apply(s, op);
    assert t.deferred.Keys == {cid};
    ops, states := ops + [op], states + [t];
  }

  /** The response after the 4096th is neither held nor counted as an orphan. */
  lemma OverflowLosesAResponse(config: Config, cid: Cid) returns (ops: seq<Op>, states: seq<Engine>)
    ensures Run(config, ops, states)
    ensures |End(states).counters.responses|
            > |End(states).ledger.direct| + |End(states).ledger.replayed| + |HeldTags(End(states).deferred)| + |End(states).counters.orphan|
  {
    ops, states := HoldMany(config, cid, MAX_DEFERRED_SAMPLES);
    var s, op := End(states), Answering(cid, Next);
    assert |s.deferred| == |s.deferred.Keys| == 1;
    assert Leaks(s, op);
    ops, states := LeakBreaksTheSum(config, ops, states, op);
  }

  /** Any leak breaks the sum. */
  lemma LeakBreaksTheSum(config: Config, ops: seq<Op>, states: seq<Engine>, op: Op) returns (ops': seq<Op>, states': seq<Engine>)
    requires Run(config, ops, states) && Allowed(End(states), op) && Leaks(End(states), op)
    ensures Run(config, ops', states')
    ensures |End(states').counters.responses|
            > |End(states').ledger.direct| + |End(states').ledger.replayed| + |HeldTags(End(states').deferred)| + |End(states').counters.orphan|
  {
    Extend(config, ops, states, op);
    StepLoses(End(states), op);
    ops', states' := ops + [op], states + [Apply(End(states), op)];
    ResponsesAreConserved(config, ops', states', |ops'|);
  }

  lemma HoldTwo(s0: Engine, s1: Engine, s2: Engine, cid: Cid)
    requires s0.calls == map[] && s0.deferred == map[]
    requires s1 == Apply(s0, Answering(cid, Complete)) && s2 == Apply(s1, Answering(cid, Next))
    ensures s2.calls == map[] && Allowed(s0, Answering(cid, Complete)) && Allowed(s1, Answering(cid, Next))
    ensures cid in s2.deferred && HasTail(s2.deferred[cid].samples)
  {
    assert s1.deferred.Keys == {cid} && |s1.deferred| == |s1.deferred.Keys|;
    var samples := s2.deferred[cid].samples;
    assert |samples| == 2 && samples[0].header.kind.IsTerminal();
  }

  lemma AskForHeld(s: Engine, t: Engine, cid: Cid)
    requires s.calls == map[] && t == Apply(s, Asking(cid))
    ensures Allowed(s, Asking(cid)) && t.deferred == s.deferred && cid in t.calls
  {
  }

  /** A terminal and one more response, held, and then their request. */
  lemma HeldTail(config: Config, cid: Cid) returns (ops: seq<Op>, states: seq<Engine>)
    ensures Run(config, ops, states)
    ensures var s := End(states);
      cid in Ready(s) && HasTail(s.deferred[cid].samples)
  {
    var s0 := Init(config);
    var s1 := Apply(s0, Answering(cid, Complete));
    var s2 := Apply(s1, Answering(cid, Next));
    var s3 := Apply(s2, Asking(cid));
    ops, states := [Answering(cid, Complete), Answering(cid, Next), Asking(cid)], [s0, s1, s2, s3];
    HoldTwo(s0, s1, s2, cid);
    AskForHeld(s2, s3, cid);
  }

  /** The pass that replays them loses the second one. */
  lemma ReplayLosesATail(config: Config, cid: Cid) returns (ops: seq<Op>, states: seq<Engine>)
    ensures Run(config, ops, states)
    ensures |End(states).counters.responses|
            > |End(states).ledger.direct| + |End(states).ledger.replayed| + |HeldTags(End(states).deferred)| + |End(states).counters.orphan|
  {
    ops, states := HeldTail(config, cid);
    var ready, expired := SomeOrders(End(states), 0);
    ops, states := LeakBreaksTheSum(config, ops, states, ResolveDeferred(0, ready, expired));
  }

  // ---------------------------------------------------------------------------
  // A call answered on both sides of its request
  // ---------------------------------------------------------------------------

  function AnsweringAt(cid: Cid, kind: EventKind, ts: nat): Op
  {
    ResponseSample("", RpcHeader(cid, kind, 0, ts, 0), Emitter(0, 0), 0, 0, cid)
  }

  /** The call that the request of `cid` opens. */
  ghost predicate JustAsked(s: Engine, cid: Cid)
  {
    cid in s.calls && s.calls[cid].(started := 0, serial := 0) == PendingCall("", 0, "", 0, 0, false, 0, 0)
  }

  lemma HoldFirst(s: Engine, op: Op, t: Engine, cid: Cid, ts: nat)
    requires s.calls == map[] && s.deferred == map[] && op == AnsweringAt(cid, Next, ts) && t == Apply(s, op)
    ensures Allowed(s, op) && t.calls == map[] && cid in t.deferred && t.counters.latency == s.counters.latency
  {
  }

  lemma AskFirst(s: Engine, op: Op, t: Engine, cid: Cid)
    requires s.calls == map[] && op == Asking(cid) && t == Apply(s, op)
    ensures Allowed(s, op) && JustAsked(t, cid) && t.deferred == s.deferred && t.counters.latency == s.counters.latency
  {
  }

  lemma MeasuredFirst(c: Counters, call: PendingCall, ts: nat)
    requires call.(started := 0, serial := 0) == PendingCall("", 0, "", 0, 0, false, 0, 0) && c.latency == multiset{}
    ensures Measure(c, call, ts).latency == multiset{LatencySample("", 0, "", ts)}
  {
    assert multiset{} + multiset{LatencySample("", 0, "", ts)} == multiset{LatencySample("", 0, "", ts)};
  }

  lemma AnswerFirst(s: Engine, op: Op, t: Engine, cid: Cid, kind: EventKind, ts: nat)
    requires JustAsked(s, cid) && op == AnsweringAt(cid, kind, ts) && t == Apply(s, op) && s.counters.latency == multiset{}
    ensures Allowed(s, op) && t.counters.latency == multiset{LatencySample("", 0, "", ts)}
    ensures Jumps(s, op) <==> cid in s.deferred
    ensures !kind.IsTerminal() ==> cid in t.calls && t.calls[cid].firstResponseSeen
  {
    MeasuredFirst(CountResponse(s, op.channel, op.header).counters, s.calls[cid], ts);
  }

  lemma AnswerAgain(s: Engine, op: Op, t: Engine, cid: Cid, kind: EventKind, ts: nat)
    requires cid in s.calls && s.calls[cid].firstResponseSeen && op == AnsweringAt(cid, kind, ts) && t == Apply(s, op)
    ensures Allowed(s, op) && t.counters.latency == s.counters.latency && !Jumps(s, op)
  {
  }

  ghost predicate NoneJumps(ops: seq<Op>, states: seq<Engine>)
    requires |states| == |ops| + 1
  {
    forall j :: 0 <= j < |ops| ==> !Jumps(states[j], ops[j])
  }

  lemma ExtendQuietly(config: Config, ops: seq<Op>, states: seq<Engine>, op: Op, t: Engine)
    requires Run(config, ops, states) && Allowed(End(states), op) && t == Apply(End(states), op)
    requires NoneJumps(ops, states) && !Jumps(End(states), op)
    ensures Run(config, ops + [op], states + [t]) && NoneJumps(ops + [op], states + [t])
  {
    Extend(config, ops, states, op);
  }

  /** A response is held. */
  lemma FirstHeld(config: Config, cid: Cid) returns (ops: seq<Op>, states: seq<Engine>)
    ensures Run(config, ops, states) && ops == [AnsweringAt(cid, Next, 1)]
    ensures End(states).calls == map[] && cid in End(states).deferred && End(states).counters.latency == multiset{}
  {
    var s, next := Init(config), AnsweringAt(cid, Next, 1);
    var t := Apply(s, next);
    HoldFirst(s, next, t, cid, 1);
    Extend(config, [], [s], next);
    ops, states := [] + [next], [s] + [t];
  }

  /** Then its request is observed. */
  lemma HeldAndAsked(config: Config, cid: Cid) returns (ops: seq<Op>, states: seq<Engine>)
    ensures Run(config, ops, states) && ops == [AnsweringAt(cid, Next, 1), Asking(cid)]
    ensures cid in End(states).deferred && JustAsked(End(states), cid) && End(states).counters.latency == multiset{}
  {
    ops, states := FirstHeld(config, cid);
    var s, ask := End(states), Asking(cid);
    var t := Apply(s, ask);
    AskFirst(s, ask, t, cid);
    Extend(config, ops, states, ask);
    ops, states := ops + [ask], states + [t];
  }

  /** ... and then a terminal. */
  lemma LateRun(config: Config, cid: Cid) returns (ops: seq<Op>, states: seq<Engine>)
    ensures Run(config, ops, states) && ops == [AnsweringAt(cid, Next, 1), Asking(cid), AnsweringAt(cid, Complete, 2)]
    ensures End(states).counters.latency == multiset{LatencySample("", 0, "", 2)} && !NoneJumps(ops, states)
  {
    ops, states := HeldAndAsked(config, cid);
    var s, last := End(states), AnsweringAt(cid, Complete, 2);
    var t := Apply(s, last);
    AnswerFirst(s, last, t, cid, Complete, 2);
    Extend(config, ops, states, last);
    ops, states := ops + [last], states + [t];
    assert ops[2] == last && states[2] == s;
  }

  /** The request is observed first. */
  lemma AskedOnly(config: Config, cid: Cid) returns (ops: seq<Op>, states: seq<Engine>)
    ensures Run(config, ops, states) && ops == [Asking(cid)] && NoneJumps(ops, states)
    ensures JustAsked(End(states), cid) && End(states).deferred == map[] && End(states).counters.latency == multiset{}
  {
    var s, ask := Init(config), Asking(cid);
    var t := Apply(s, ask);
    AskFirst(s, ask, t, cid);
    ExtendQuietly(config, [], [s], ask, t);
    ops, states := [] + [ask], [s] + [t];
  }

  /** Then it is answered, ... */
  lemma ThenAnswered(config: Config, ops: seq<Op>, states: seq<Engine>, next: Op, cid: Cid, ts: nat) returns (t: Engine)
    requires Run(config, ops, states) && NoneJumps(ops, states) && next == AnsweringAt(cid, Next, ts)
    requires JustAsked(End(states), cid) && End(states).deferred == map[] && End(states).counters.latency == multiset{}
    ensures Run(config, ops + [next], states + [t]) && NoneJumps(ops + [next], states + [t])
    ensures cid in t.calls && t.calls[cid].firstResponseSeen && t.counters.latency == multiset{LatencySample("", 0, "", ts)}
  {
    t := Apply(End(states), next);
    AnswerFirst(End(states), next, t, cid, Next, ts);
    ExtendQuietly(config, ops, states, next, t);
  }

  /** ... and finished. */
  lemma ThenFinished(config: Config, ops: seq<Op>, states: seq<Engine>, last: Op, cid: Cid, ts: nat) returns (t: Engine)
    requires Run(config, ops, states) && NoneJumps(ops, states) && last == AnsweringAt(cid, Complete, ts)
    requires cid in End(states).calls && End(states).calls[cid].firstResponseSeen
    ensures Run(config, ops + [last], states + [t]) && NoneJumps(ops + [last], states + [t])
    ensures t.counters.latency == End(states).counters.latency
  {
    t := Apply(End(states), last);
    AnswerAgain(End(states), last, t, cid, Complete, ts);
    ExtendQuietly(config, ops, states, last, t);
  }

  lemma TimelyRun(config: Config, cid: Cid) returns (ops: seq<Op>, states: seq<Engine>)
    ensures Run(config, ops, states) && ops == [Asking(cid), AnsweringAt(cid, Next, 1), AnsweringAt(cid, Complete, 2)]
    ensures NoneJumps(ops, states) && End(states).counters.latency == multiset{LatencySample("", 0, "", 1)}
  {
    ops, states := AskedOnly(config, cid);
    var t := ThenAnswered(config, ops, states, AnsweringAt(cid, Next, 1), cid, 1);
    ops, states := ops + [AnsweringAt(cid, Next, 1)], states + [t];
    t := ThenFinished(config, ops, states, AnsweringAt(cid, Complete, 2), cid, 2);
    ops, states := ops + [AnsweringAt(cid, Complete, 2)], states + [t];
  }

  lemma QuietIsOnFirst(config: Config, ops: seq<Op>, states: seq<Engine>)
    requires Run(config, ops, states)
    ensures RecordsOnFirst(ops, states, |ops|) <==> NoneJumps(ops, states)
  {
    RecordsAreOnFirstIffNoneJumps(config, ops, states, |ops|);
  }

  lemma {:induction false} RunIsDrain(config: Config, ops: seq<Op>, states: seq<Engine>, i: nat)
    requires Run(config, ops, states) && i <= |ops|
    ensures states[i] == Drain(Init(config), ops[..i])
  {
    if i > 0 {
      RunIsDrain(config, ops, states, i - 1);
      assert Leads(states[i - 1], ops[i - 1], states[i]);
      assert ops[..i][..i - 1] == ops[..i - 1];
    }
  }

  /** A response, its request and then the terminal: the call is measured on the terminal,
      and no later pass makes up for the request having come second. */
  lemma EarlyResponseIsPassedOver(config: Config, cid: Cid)
    returns (ops: seq<Op>, states: seq<Engine>, ops': seq<Op>, states': seq<Engine>)
    ensures Run(config, ops, states) && Run(config, ops', states')
    ensures |ops| == 3 && ops' == [ops[1], ops[0], ops[2]] && Differ(End(states), End(states'))
    ensures !RecordsOnFirst(ops, states, 3) && RecordsOnFirst(ops', states', 3)
    ensures End(states).counters.latency == multiset{LatencySample("", 0, "", 2)}
    ensures End(states').counters.latency == multiset{LatencySample("", 0, "", 1)}
  {
    ops, states := LateRun(config, cid);
    ops', states' := TimelyRun(config, cid);
    QuietIsOnFirst(config, ops, states);
    QuietIsOnFirst(config, ops', states');
    RunsDiffer(config, cid, ops, states, ops', states');
  }

  lemma EndIsDrain(config: Config, ops: seq<Op>, states: seq<Engine>)
    requires Run(config, ops, states)
    ensures End(states) == Drain(Init(config), ops)
  {
    RunIsDrain(config, ops, states, |ops|);
    assert ops[..|ops|] == ops;
  }

  lemma RunsDiffer(config: Config, cid: Cid, ops: seq<Op>, states: seq<Engine>, ops': seq<Op>, states': seq<Engine>)
    requires ops == [AnsweringAt(cid, Next, 1), Asking(cid), AnsweringAt(cid, Complete, 2)]
    requires ops' == [Asking(cid), AnsweringAt(cid, Next, 1), AnsweringAt(cid, Complete, 2)]
    requires Run(config, ops, states) && Run(config, ops', states')
    ensures Differ(End(states), End(states'))
  {
    AroundDiffers(config, AnsweringAt(cid, Next, 1), Asking(cid), AnsweringAt(cid, Complete, 2), states, states');
  }

  /** A response, the request and the terminal of one call. */
  lemma AroundDiffers(config: Config, next: Op, ask: Op, last: Op, states: seq<Engine>, states': seq<Engine>)
    requires Run(config, [next, ask, last], states) && Run(config, [ask, next, last], states') && IsAsk(ask)
    requires IsAnswer(next, ask.header.cid) && !next.header.kind.IsTerminal()
    requires IsAnswer(last, ask.header.cid) && last.header.kind.IsTerminal()
    ensures Differ(End(states), End(states'))
  {
    EndIsDrain(config, [next, ask, last], states);
    EndIsDrain(config, [ask, next, last], states');
    DrainsDiffer(Init(config), next, ask, last, End(states), End(states'));
  }

  lemma DrainsDiffer(s: Engine, next: Op, ask: Op, last: Op, u: Engine, v: Engine)
    requires s.calls == map[] && s.deferred == map[] && IsAsk(ask)
    requires IsAnswer(next, ask.header.cid) && !next.header.kind.IsTerminal()
    requires IsAnswer(last, ask.header.cid) && last.header.kind.IsTerminal()
    requires u == Drain(s, [next, ask, last]) && v == Drain(s, [ask, next, last])
    ensures Differ(u, v)
  {
    AsEarly(s, next, ask, last, u);
    AsInOrder(s, next, ask, last, v);
    FreshPair(s, next, ask, last);
    NeverMadeUpFor(s, [next], ask, [last], u, v);
  }

  lemma NeverMadeUpFor(s: Engine, held: seq<Op>, q: Op, direct: seq<Op>, u: Engine, v: Engine)
    requires FreshCall(s, held, q, direct) && held != [] && direct != []
    requires !Ended(held, q.header.cid) && Ended(direct, q.header.cid)
    requires u == Early(s, held, q, direct) && v == InOrder(s, held + direct, At(q, q.now))
    ensures Differ(u, v)
  {
    EarlyIsHarmlessIff(s, held, q, q.now, direct);
  }

  lemma FreshPair(s: Engine, next: Op, ask: Op, last: Op)
    requires s.calls == map[] && s.deferred == map[] && IsAsk(ask)
    requires IsAnswer(next, ask.header.cid) && !next.header.kind.IsTerminal()
    requires IsAnswer(last, ask.header.cid) && last.header.kind.IsTerminal()
    ensures FreshCall(s, [next], ask, [last])
    ensures !Ended([next], ask.header.cid) && Ended([last], ask.header.cid)
  {
    OneOfEach(ask.header.cid, next, last);
    assert s.deferred.Keys == {};
  }

  lemma AsEarly(s: Engine, next: Op, ask: Op, last: Op, u: Engine)
    requires u == Drain(s, [next, ask, last])
    ensures u == Early(s, [next], ask, [last])
  {
    DrainSnoc(s, [next, ask], last);
    DrainSnoc(s, [next], ask);
    DrainSnoc(Apply(Drain(s, [next]), ask), [], last);
    assert [next] + [ask] == [next, ask] && [next, ask] + [last] == [next, ask, last] && [] + [last] == [last];
  }

  lemma AsInOrder(s: Engine, next: Op, ask: Op, last: Op, v: Engine)
    requires v == Drain(s, [ask, next, last]) && ask.RequestSample?
    ensures v == InOrder(s, [next] + [last], At(ask, ask.now))
  {
    assert At(ask, ask.now) == ask;
    DrainSnoc(s, [], ask);
    DrainCons(s, ask, Drain(s, [ask]), [next, last]);
    assert [] + [ask] == [ask];
    assert [ask] + [next, last] == [ask, next, last] && [next] + [last] == [next, last];
  }

  lemma {:induction false} DrainCons(s: Engine, o: Op, t: Engine, ops: seq<Op>)
    requires t == Drain(s, [o])
    ensures Drain(s, [o] + ops) == Drain(t, ops)
    decreases |ops|
  {
    if ops == [] {
      assert [o] + ops == [o];
    } else {
      var front, last := ops[..|ops| - 1], ops[|ops| - 1];
      DrainCons(s, o, t, front);
      DrainSnoc(s, [o] + front, last);
      DrainSnoc(t, front, last);
      assert [o] + front + [last] == [o] + ops && front + [last] == ops;
    }
  }

  lemma OneOfEach(cid: Cid, next: Op, last: Op)
    requires IsAnswer(next, cid) && !next.header.kind.IsTerminal()
    requires IsAnswer(last, cid) && last.header.kind.IsTerminal()
    ensures !Ended([next], cid) && Ended([last], cid) && FitHeld([next], [last], cid)
    ensures RoomFor({}, [next] + [last])
  {
    EndedByOne(next, cid);
    EndedByOne(last, cid);
    AnswersOfStream([next], cid);
    AnswersOfStream([last], cid);
    TailingIsTrailing([next], cid);
    TailingIsTrailing([last], cid);
    RoomSplit({}, [next], [last]);
    assert [next][..0] == [] && [last][..0] == [];
    assert IdsOf([next]) == {cid};
    assert |{} + IdsOf([next]) + {}| == 1;
  }

  // ---------------------------------------------------------------------------
  // Tracing
  // ---------------------------------------------------------------------------

  /** One more call asked and answered. */
  lemma CloseOne(s: Engine, cid: Cid, asked: Engine, t: Engine)
    requires s.calls == map[] && asked == Apply(s, Asking(cid)) && t == Apply(asked, Answering(cid, Complete))
    ensures Allowed(s, Asking(cid)) && Allowed(asked, Answering(cid, Complete))
    ensures t.calls == map[] && |t.ledger.closed| == |s.ledger.closed| + 1
  {
    assert asked.calls.Keys == {cid};
    assert t.calls == asked.calls - {cid};
  }

  lemma {:induction false} CloseMany(config: Config, cid: Cid, n: nat) returns (ops: seq<Op>, states: seq<Engine>)
    ensures Run(config, ops, states) && End(states).calls == map[] && |End(states).ledger.closed| == n
  {
    if n == 0 {
      ops, states := [], [Init(config)];
    } else {
      ops, states := CloseMany(config, cid, n - 1);
      var s := End(states);
      var asked := Apply(s, Asking(cid));
      var t := Apply(asked, Answering(cid, Complete));
      CloseOne(s, cid, asked, t);
      Extend(config, ops, states, Asking(cid));
      ops, states := ops + [Asking(cid)], states + [asked];
      Extend(config, ops, states, Answering(cid, Complete));
      ops, states := ops + [Answering(cid, Complete)], states + [t];
    }
  }

  lemma OfferedInATurn(rate: nat, n: nat)
    requires rate > 0 && n == U64_RANGE && n % rate != 0
    ensures n / U64_RANGE * PerTurn(rate) + n % U64_RANGE / rate == n / rate + 1
  {
    DivUnique(n, U64_RANGE, 1, 0);
    DivUnique(0, rate, 0, 0);
    DivSucc(n - 1, rate);
  }

  /** Unless the rate divides 2^64, the run of 2^64 calls offers one record too many. */
  lemma WrapOffersOneTooMany(config: Config, cid: Cid) returns (ops: seq<Op>, states: seq<Engine>)
    requires config.sampleRate > 0 && U64_RANGE % config.sampleRate != 0
    ensures Run(config, ops, states) && |End(states).ledger.closed| == U64_RANGE
    ensures End(states).offered == |End(states).ledger.closed| / config.sampleRate + 1
  {
    ops, states := CloseMany(config, cid, U64_RANGE);
    OneTraceInRate(config, ops, states, |ops|);
    OfferedInATurn(config.sampleRate, |End(states).ledger.closed|);
  }
}
