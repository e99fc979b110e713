/** Whose latency each record is: the request and the response it was taken between, and
    whether that response was the first of its call to be observed. */
module EngineRecords {
  import opened Wire
  import opened Correlation
  import opened Bags
  import opened Folds
  import opened Engine
  import opened EngineInvariant
  import opened EngineAgreement

  // ---------------------------------------------------------------------------
  // What was observed
  // ---------------------------------------------------------------------------

  predicate IsAsk(op: Op) { op.RequestSample? && op.header.kind == Request }

  /** The requests of a run, in order: the n-th is the one of serial n. */
  function Asked(ops: seq<Op>): seq<Op>
  {
    if ops == [] then []
    else Asked(ops[..|ops| - 1]) + if IsAsk(ops[|ops| - 1]) then [ops[|ops| - 1]] else []
  }

  /** Its responses, in order: the n-th is the one of tag n. */
  function Heard(ops: seq<Op>): seq<Op>
  {
    if ops == [] then []
    else Heard(ops[..|ops| - 1]) + if ops[|ops| - 1].ResponseSample? then [ops[|ops| - 1]] else []
  }

  /** The operation `op` is where it should be in what was observed. */
  ghost predicate Logged(s: Engine, op: Op, asked: seq<Op>, heard: seq<Op>)
  {
    && (IsAsk(op) ==> s.ledger.requests < |asked| && asked[s.ledger.requests] == op)
    && (op.ResponseSample? ==> s.ledger.responses < |heard| && heard[s.ledger.responses] == op)
  }

  lemma {:induction false} LogsGrow(ops: seq<Op>, n: nat)
    requires n <= |ops|
    ensures Asked(ops[..n]) <= Asked(ops) && Heard(ops[..n]) <= Heard(ops)
    decreases |ops|
  {
    if n < |ops| {
      assert ops[..|ops| - 1][..n] == ops[..n];
      LogsGrow(ops[..|ops| - 1], n);
    } else {
      assert ops[..n] == ops;
    }
  }

  lemma LogsStep(ops: seq<Op>, i: nat)
    requires i < |ops|
    ensures Asked(ops[..i + 1]) == Asked(ops[..i]) + if IsAsk(ops[i]) then [ops[i]] else []
    ensures Heard(ops[..i + 1]) == Heard(ops[..i]) + if ops[i].ResponseSample? then [ops[i]] else []
  {
    assert ops[..i + 1][..i] == ops[..i];
  }

  // ---------------------------------------------------------------------------
  // What the tables remember of it
  // ---------------------------------------------------------------------------

  ghost predicate CallKnown(c: Cid, call: PendingCall, asked: seq<Op>)
  {
    && call.serial < |asked|
    && var q := asked[call.serial];
       && IsAsk(q) && q.header.cid == c
       && call.channel == q.channel && call.serviceId == q.header.serviceId
       && call.methodName == q.methodName && call.requestTs == q.header.timestampNs
  }

  ghost predicate CallsKnown(calls: Calls, asked: seq<Op>)
  {
    forall c :: c in calls ==> CallKnown(c, calls[c], asked)
  }

  ghost predicate SampleKnown(c: Cid, x: HeldSample, heard: seq<Op>, n: nat)
  {
    x.tag < n <= |heard| && heard[x.tag].ResponseSample? && heard[x.tag].header == x.header && x.header.cid == c
  }

  /** A held stream is made of responses of its call, oldest first. */
  ghost predicate StreamKnown(c: Cid, xs: seq<HeldSample>, heard: seq<Op>, n: nat)
  {
    && (forall k :: 0 <= k < |xs| ==> SampleKnown(c, xs[k], heard, n))
    && (forall j, k :: 0 <= j < k < |xs| ==> xs[j].tag < xs[k].tag)
  }

  ghost predicate HeldKnown(table: DeferredTable, heard: seq<Op>, n: nat)
  {
    forall c :: c in table ==> StreamKnown(c, table[c].samples, heard, n)
  }

  ghost predicate Known(s: Engine, asked: seq<Op>, heard: seq<Op>)
  {
    CallsKnown(s.calls, asked) && HeldKnown(s.deferred, heard, s.ledger.responses)
  }

  lemma RequestKnown(s: Engine, op: Op, asked: seq<Op>, heard: seq<Op>)
    requires op.RequestSample? && Known(s, asked, heard) && Logged(s, op, asked, heard)
    ensures Known(Apply(s, op), asked, heard)
  {
  }

  lemma LaterKnown(table: DeferredTable, heard: seq<Op>, n: nat)
    requires HeldKnown(table, heard, n) && n < |heard|
    ensures HeldKnown(table, heard, n + 1)
  {
    forall c | c in table ensures StreamKnown(c, table[c].samples, heard, n + 1) {
      assert StreamKnown(c, table[c].samples, heard, n);
    }
  }

  lemma StreamGrows(c: Cid, xs: seq<HeldSample>, x: HeldSample, heard: seq<Op>, n: nat)
    requires StreamKnown(c, xs, heard, n) && SampleKnown(c, x, heard, n + 1) && x.tag == n
    ensures StreamKnown(c, xs + [x], heard, n + 1)
  {
  }

  lemma HoldKnown(table: DeferredTable, cid: Cid, entry: DeferredResponses, x: HeldSample, heard: seq<Op>, n: nat)
    requires HeldKnown(table, heard, n) && StreamKnown(cid, entry.samples, heard, n)
    requires SampleKnown(cid, x, heard, n + 1) && x.tag == n
    ensures HeldKnown(table[cid := entry.(samples := entry.samples + [x])], heard, n + 1)
  {
    LaterKnown(table, heard, n);
    StreamGrows(cid, entry.samples, x, heard, n);
  }

  lemma FewerKnown(table: DeferredTable, gone: Cid, heard: seq<Op>, n: nat)
    requires HeldKnown(table, heard, n)
    ensures HeldKnown(table - {gone}, heard, n)
  {
  }

  lemma SettleKnown(room: Engine, channel: string, x: HeldSample, now: nat, heard: seq<Op>, n: nat)
    requires HeldKnown(room.deferred, heard, n) && SampleKnown(x.header.cid, x, heard, n + 1) && x.tag == n
    ensures Overflowing(room, x.header.cid) ==> HeldKnown(GiveUp(room, x).deferred, heard, n + 1)
    ensures !Overflowing(room, x.header.cid) ==> HeldKnown(Hold(room, channel, x, now).deferred, heard, n + 1)
  {
    var cid := x.header.cid;
    if Overflowing(room, cid) {
      LaterKnown(room.deferred, heard, n);
      FewerKnown(room.deferred, cid, heard, n + 1);
    } else {
      var entry := if cid in room.deferred then room.deferred[cid] else DeferredResponses(channel, [], now);
      HoldKnown(room.deferred, cid, entry, x, heard, n);
    }
  }

  lemma DeferKnown(s: Engine, channel: string, x: HeldSample, now: nat, victim: Cid, heard: seq<Op>, n: nat)
    requires HeldKnown(s.deferred, heard, n) && SampleKnown(x.header.cid, x, heard, n + 1) && x.tag == n
    ensures HeldKnown(Defer(s, channel, x, now, victim).deferred, heard, n + 1)
    ensures Defer(s, channel, x, now, victim).calls == s.calls
    ensures Defer(s, channel, x, now, victim).ledger.responses == s.ledger.responses
  {
    FewerKnown(s.deferred, victim, heard, n);
    SettleKnown(if |s.deferred| >= MAX_DEFERRED then Forfeit(s, victim) else s, channel, x, now, heard, n);
  }

  lemma ResponseKnown(s: Engine, op: Op, asked: seq<Op>, heard: seq<Op>)
    requires op.ResponseSample? && Known(s, asked, heard) && Logged(s, op, asked, heard)
    ensures Known(Apply(s, op), asked, heard)
  {
    var n := s.ledger.responses;
    if op.header.cid in s.calls {
      LaterKnown(s.deferred, heard, n);
    } else {
      DeferKnown(CountResponse(s, op.channel, op.header), op.channel,
                 HeldSample(op.header, op.emitter, op.len, n), op.now, op.victim, heard, n);
    }
  }

  lemma {:induction false} SamplesKnown(s: Engine, cid: Cid, xs: seq<HeldSample>, asked: seq<Op>, heard: seq<Op>)
    requires Known(s, asked, heard)
    ensures Known(ReplaySamples(s, cid, xs), asked, heard)
    decreases |xs|
  {
    if xs != [] { SamplesKnown(ReplaySample(s, cid, xs[0]), cid, xs[1..], asked, heard); }
  }

  lemma ReplayKnown(s: Engine, cid: Cid, asked: seq<Op>, heard: seq<Op>)
    requires Known(s, asked, heard)
    ensures Known(Replay(s, cid), asked, heard)
  {
    if cid in s.deferred {
      SamplesKnown(s.(deferred := s.deferred - {cid}), cid, s.deferred[cid].samples, asked, heard);
    }
  }

  lemma FoldKnown(s: Engine, ks: seq<Cid>, step: (Engine, Cid) -> Engine, asked: seq<Op>, heard: seq<Op>)
    requires Known(s, asked, heard)
    requires forall u: Engine, k :: Known(u, asked, heard) ==> Known(step(u, k), asked, heard)
    ensures Known(Fold(s, ks, step), asked, heard)
  {
    FoldKeeps(s, ks, step, (u: Engine) => Known(u, asked, heard));
  }

  lemma PassKnown(s: Engine, op: Op, asked: seq<Op>, heard: seq<Op>)
    requires (op.ResolveDeferred? || op.SweepCalls?) && Known(s, asked, heard)
    ensures Known(Apply(s, op), asked, heard)
  {
    forall u: Engine, k | Known(u, asked, heard) ensures Known(Replay(u, k), asked, heard) { ReplayKnown(u, k, asked, heard); }
    if op.ResolveDeferred? {
      FoldKnown(s, op.ready, Replay, asked, heard);
      FoldKnown(Fold(s, op.ready, Replay), op.expired, Forfeit, asked, heard);
    } else {
      FoldKnown(s, op.outlived, Retire, asked, heard);
    }
  }

  lemma StepKnown(s: Engine, op: Op, asked: seq<Op>, heard: seq<Op>)
    requires Known(s, asked, heard) && Logged(s, op, asked, heard)
    ensures Known(Apply(s, op), asked, heard)
  {
    match op
    case RequestSample(_, _, _, _, _, _) => RequestKnown(s, op, asked, heard);
    case ResponseSample(_, _, _, _, _, _) => ResponseKnown(s, op, asked, heard);
    case ResolveDeferred(_, _, _) => PassKnown(s, op, asked, heard);
    case SweepCalls(_, _) => PassKnown(s, op, asked, heard);
  }

  // The ledger numbers requests and responses

  ghost predicate Numbered(s: Engine, requests: nat, responses: nat)
  {
    s.ledger.requests == requests && s.ledger.responses == responses
  }

  lemma {:induction false} SamplesNumbered(s: Engine, cid: Cid, xs: seq<HeldSample>)
    ensures Numbered(ReplaySamples(s, cid, xs), s.ledger.requests, s.ledger.responses)
    decreases |xs|
  {
    if xs != [] { SamplesNumbered(ReplaySample(s, cid, xs[0]), cid, xs[1..]); }
  }

  lemma FoldNumbered(s: Engine, ks: seq<Cid>, step: (Engine, Cid) -> Engine)
    requires forall u: Engine, k :: Numbered(step(u, k), u.ledger.requests, u.ledger.responses)
    ensures Numbered(Fold(s, ks, step), s.ledger.requests, s.ledger.responses)
  {
    FoldKeeps(s, ks, step, (u: Engine) => Numbered(u, s.ledger.requests, s.ledger.responses));
  }

  lemma StepNumbered(s: Engine, op: Op)
    ensures Numbered(Apply(s, op), s.ledger.requests + (if IsAsk(op) then 1 else 0),
                     s.ledger.responses + if op.ResponseSample? then 1 else 0)
  {
    match op
    case RequestSample(_, _, _, _, _, _) =>
    case ResponseSample(_, _, _, _, _, _) =>
    case ResolveDeferred(_, ready, expired) =>
      forall u: Engine, k ensures Numbered(Replay(u, k), u.ledger.requests, u.ledger.responses) {
        if k in u.deferred { SamplesNumbered(u.(deferred := u.deferred - {k}), k, u.deferred[k].samples); }
      }
      FoldNumbered(s, ready, Replay);
      FoldNumbered(Fold(s, ready, Replay), expired, Forfeit);
    case SweepCalls(_, outlived) => FoldNumbered(s, outlived, Retire);
  }

  lemma {:induction false} RunNumbered(config: Config, ops: seq<Op>, states: seq<Engine>, i: nat)
    requires Run(config, ops, states) && i < |states|
    ensures Numbered(states[i], |Asked(ops[..i])|, |Heard(ops[..i])|)
  {
    if i > 0 {
      RunNumbered(config, ops, states, i - 1);
      assert Leads(states[i - 1], ops[i - 1], states[i]);
      StepNumbered(states[i - 1], ops[i - 1]);
      LogsStep(ops, i - 1);
    }
  }

  lemma NumberedIsLogged(s: Engine, ops: seq<Op>, i: nat)
    requires i < |ops| && Numbered(s, |Asked(ops[..i])|, |Heard(ops[..i])|)
    ensures Logged(s, ops[i], Asked(ops), Heard(ops)) && s.ledger.responses <= |Heard(ops)|
  {
    LogsStep(ops, i);
    LogsGrow(ops, i + 1);
    LogsGrow(ops, i);
  }

  lemma RunLogged(config: Config, ops: seq<Op>, states: seq<Engine>, i: nat)
    requires Run(config, ops, states) && i < |ops|
    ensures Logged(states[i], ops[i], Asked(ops), Heard(ops)) && states[i].ledger.responses <= |Heard(ops)|
  {
    RunNumbered(config, ops, states, i);
    NumberedIsLogged(states[i], ops, i);
  }

  lemma {:induction false} KnownAlong(states: seq<Engine>, asked: seq<Op>, heard: seq<Op>, i: nat)
    requires i < |states| && Known(states[0], asked, heard)
    requires forall j :: 0 <= j < i && Known(states[j], asked, heard) ==> Known(states[j + 1], asked, heard)
    ensures Known(states[i], asked, heard)
  {
    if i > 0 { KnownAlong(states, asked, heard, i - 1); }
  }

  lemma RunKnown(config: Config, ops: seq<Op>, states: seq<Engine>, i: nat)
    requires Run(config, ops, states) && i < |states|
    ensures Known(states[i], Asked(ops), Heard(ops))
  {
    forall j | 0 <= j < i && Known(states[j], Asked(ops), Heard(ops)) ensures Known(states[j + 1], Asked(ops), Heard(ops)) {
      RunLogged(config, ops, states, j);
      LeadKnown(states[j], ops[j], states[j + 1], Asked(ops), Heard(ops));
    }
    KnownAlong(states, Asked(ops), Heard(ops), i);
  }

  lemma LeadKnown(s: Engine, op: Op, t: Engine, asked: seq<Op>, heard: seq<Op>)
    requires Leads(s, op, t) && Known(s, asked, heard) && Logged(s, op, asked, heard)
    ensures Known(t, asked, heard)
  {
    StepKnown(s, op, asked, heard);
  }

  // ---------------------------------------------------------------------------
  // The records
  // ---------------------------------------------------------------------------

  /** A record of the call of serial `serial`, taken on the response of tag `tag`. */
  datatype Record = Record(serial: nat, tag: nat)

  /** The record replaying a held stream takes, on its first response: one, unless the call
      was answered before. */
  function RecordsOfStream(calls: Calls, table: DeferredTable, c: Cid): seq<Record>
  {
    if c in calls && c in table && table[c].samples != [] && !calls[c].firstResponseSeen
    then [Record(calls[c].serial, table[c].samples[0].tag)] else []
  }

  function RecordsOfStreams(calls: Calls, table: DeferredTable, ready: seq<Cid>): seq<Record>
  {
    if ready == [] then [] else RecordsOfStream(calls, table, ready[0]) + RecordsOfStreams(calls, table, ready[1..])
  }

  /** The records an operation takes. */
  function RecordsBy(s: Engine, op: Op): seq<Record>
  {
    match op
    case ResponseSample(_, header, _, _, _, _) =>
      if header.cid in s.calls && !s.calls[header.cid].firstResponseSeen
      then [Record(s.calls[header.cid].serial, s.ledger.responses)] else []
    case ResolveDeferred(_, ready, _) => RecordsOfStreams(s.calls, s.deferred, ready)
    case _ => []
  }

  /** The records the first `i` operations of a run take. */
  function Records(ops: seq<Op>, states: seq<Engine>, i: nat): seq<Record>
    requires i <= |ops| && i <= |states|
  {
    if i == 0 then [] else Records(ops, states, i - 1) + RecordsBy(states[i - 1], ops[i - 1])
  }

  /** A record pairs a request with a response of the same id. */
  predicate Pairs(r: Record, asked: seq<Op>, heard: seq<Op>)
  {
    && r.serial < |asked| && IsAsk(asked[r.serial])
    && r.tag < |heard| && heard[r.tag].ResponseSample?
    && heard[r.tag].header.cid == asked[r.serial].header.cid
  }

  predicate AllPair(rs: seq<Record>, asked: seq<Op>, heard: seq<Op>)
  {
    forall k :: 0 <= k < |rs| ==> Pairs(rs[k], asked, heard)
  }

  /** The latency of a request and a response, unless the clocks disagree. */
  function LatencyBetween(q: Op, r: Op): multiset<LatencySample>
    requires q.RequestSample? && r.ResponseSample?
  {
    if r.header.timestampNs < q.header.timestampNs then multiset{}
    else multiset{LatencySample(q.channel, q.header.serviceId, q.methodName, r.header.timestampNs - q.header.timestampNs)}
  }

  function SkewBetween(q: Op, r: Op): nat
    requires q.RequestSample? && r.ResponseSample?
  {
    if r.header.timestampNs < q.header.timestampNs then 1 else 0
  }

  function Latencies(rs: seq<Record>, asked: seq<Op>, heard: seq<Op>): multiset<LatencySample>
    requires AllPair(rs, asked, heard)
  {
    if rs == [] then multiset{}
    else LatencyBetween(asked[rs[0].serial], heard[rs[0].tag]) + Latencies(rs[1..], asked, heard)
  }

  function Skews(rs: seq<Record>, asked: seq<Op>, heard: seq<Op>): nat
    requires AllPair(rs, asked, heard)
  {
    if rs == [] then 0 else SkewBetween(asked[rs[0].serial], heard[rs[0].tag]) + Skews(rs[1..], asked, heard)
  }

  function Serials(rs: seq<Record>): multiset<nat>
  {
    if rs == [] then multiset{} else multiset{rs[0].serial} + Serials(rs[1..])
  }

  lemma {:induction false} LatenciesAppend(a: seq<Record>, b: seq<Record>, asked: seq<Op>, heard: seq<Op>)
    requires AllPair(a, asked, heard) && AllPair(b, asked, heard) && AllPair(a + b, asked, heard)
    ensures Latencies(a + b, asked, heard) == Latencies(a, asked, heard) + Latencies(b, asked, heard)
    decreases |a|
  {
    if a == [] {
      assert a + b == b;
    } else {
      var rest := a[1..];
      assert (a + b)[1..] == rest + b;
      LatenciesAppend(rest, b, asked, heard);
    }
  }

  lemma {:induction false} SkewsAppend(a: seq<Record>, b: seq<Record>, asked: seq<Op>, heard: seq<Op>)
    requires AllPair(a, asked, heard) && AllPair(b, asked, heard) && AllPair(a + b, asked, heard)
    ensures Skews(a + b, asked, heard) == Skews(a, asked, heard) + Skews(b, asked, heard)
    decreases |a|
  {
    if a == [] {
      assert a + b == b;
    } else {
      var rest := a[1..];
      assert (a + b)[1..] == rest + b;
      SkewsAppend(rest, b, asked, heard);
    }
  }

  lemma {:induction false} SerialsAppend(a: seq<Record>, b: seq<Record>)
    ensures Serials(a + b) == Serials(a) + Serials(b)
    decreases |a|
  {
    if a == [] {
      assert a + b == b;
    } else {
      assert (a + b)[1..] == a[1..] + b;
      SerialsAppend(a[1..], b);
    }
  }

  lemma RecordsAppend(a: seq<Record>, b: seq<Record>, asked: seq<Op>, heard: seq<Op>)
    requires AllPair(a, asked, heard) && AllPair(b, asked, heard)
    ensures AllPair(a + b, asked, heard)
    ensures Latencies(a + b, asked, heard) == Latencies(a, asked, heard) + Latencies(b, asked, heard)
    ensures Skews(a + b, asked, heard) == Skews(a, asked, heard) + Skews(b, asked, heard)
    ensures Serials(a + b) == Serials(a) + Serials(b)
  {
    LatenciesAppend(a, b, asked, heard);
    SkewsAppend(a, b, asked, heard);
    SerialsAppend(a, b);
  }

  lemma OneRecord(r: Record, asked: seq<Op>, heard: seq<Op>)
    requires Pairs(r, asked, heard)
    ensures AllPair([r], asked, heard) && Serials([r]) == multiset{r.serial}
    ensures Latencies([r], asked, heard) == LatencyBetween(asked[r.serial], heard[r.tag])
    ensures Skews([r], asked, heard) == SkewBetween(asked[r.serial], heard[r.tag])
  {
    assert [r][1..] == [];
  }

  /** From `s` to `t`, exactly the records `rs` were taken. */
  ghost predicate Takes(s: Engine, t: Engine, rs: seq<Record>, asked: seq<Op>, heard: seq<Op>)
  {
    && AllPair(rs, asked, heard)
    && t.counters.latency == s.counters.latency + Latencies(rs, asked, heard)
    && t.counters.clockSkew == s.counters.clockSkew + Skews(rs, asked, heard)
    && t.ledger.measured == s.ledger.measured + Serials(rs)
  }

  lemma TakesNone(s: Engine, t: Engine, asked: seq<Op>, heard: seq<Op>)
    requires t.counters.latency == s.counters.latency && t.counters.clockSkew == s.counters.clockSkew
    requires t.ledger.measured == s.ledger.measured
    ensures Takes(s, t, [], asked, heard)
  {
    assert s.counters.latency + multiset{} == s.counters.latency && s.ledger.measured + multiset{} == s.ledger.measured;
  }

  lemma TakesBoth(s: Engine, t: Engine, u: Engine, a: seq<Record>, b: seq<Record>, asked: seq<Op>, heard: seq<Op>)
    requires Takes(s, t, a, asked, heard) && Takes(t, u, b, asked, heard)
    ensures Takes(s, u, a + b, asked, heard)
  {
    RecordsAppend(a, b, asked, heard);
  }

  /** One match. */
  lemma MatchTakes(s: Engine, t: Engine, cid: Cid, tag: nat, terminal: bool, asked: seq<Op>, heard: seq<Op>)
    requires cid in s.calls && CallKnown(cid, s.calls[cid], asked)
    requires tag < |heard| && heard[tag].ResponseSample? && heard[tag].header.cid == cid
    requires t.counters.latency == Match(s, cid, heard[tag].header.timestampNs, terminal).counters.latency
    requires t.counters.clockSkew == Match(s, cid, heard[tag].header.timestampNs, terminal).counters.clockSkew
    requires t.ledger.measured == Match(s, cid, heard[tag].header.timestampNs, terminal).ledger.measured
    ensures Takes(s, t, if s.calls[cid].firstResponseSeen then [] else [Record(s.calls[cid].serial, tag)], asked, heard)
  {
    if s.calls[cid].firstResponseSeen {
      TakesNone(s, t, asked, heard);
    } else {
      OneRecord(Record(s.calls[cid].serial, tag), asked, heard);
      assert s.counters.latency + multiset{} == s.counters.latency;
    }
  }

  lemma DirectTakes(s: Engine, op: Op, t: Engine, asked: seq<Op>, heard: seq<Op>)
    requires op.ResponseSample? && CallsKnown(s.calls, asked) && Logged(s, op, asked, heard)
    requires op.header.cid in s.calls && t == Direct(CountResponse(s, op.channel, op.header), op.header, s.ledger.responses)
    ensures Takes(s, t, if s.calls[op.header.cid].firstResponseSeen then []
                        else [Record(s.calls[op.header.cid].serial, s.ledger.responses)], asked, heard)
  {
    MatchTakes(CountResponse(s, op.channel, op.header), t, op.header.cid, s.ledger.responses,
               op.header.kind.IsTerminal(), asked, heard);
  }

  lemma ResponseTakes(s: Engine, op: Op, asked: seq<Op>, heard: seq<Op>)
    requires op.ResponseSample? && Known(s, asked, heard) && Logged(s, op, asked, heard)
    ensures Takes(s, Apply(s, op), RecordsBy(s, op), asked, heard)
  {
    if op.header.cid in s.calls {
      DirectTakes(s, op, Apply(s, op), asked, heard);
    } else {
      TakesNone(s, Apply(s, op), asked, heard);
    }
  }

  // A held stream

  /** Once the call was answered, or is gone, nothing more is recorded. */
  lemma {:induction false} NoMoreRecords(s: Engine, cid: Cid, xs: seq<HeldSample>, asked: seq<Op>, heard: seq<Op>)
    requires cid in s.calls ==> s.calls[cid].firstResponseSeen
    ensures Takes(s, ReplaySamples(s, cid, xs), [], asked, heard)
    decreases |xs|
  {
    if xs == [] {
      TakesNone(s, s, asked, heard);
    } else {
      var t := ReplaySample(s, cid, xs[0]);
      TakesNone(s, t, asked, heard);
      NoMoreRecords(t, cid, xs[1..], asked, heard);
      TakesBoth(s, t, ReplaySamples(s, cid, xs), [], [], asked, heard);
    }
  }

  lemma StreamTakes(s: Engine, cid: Cid, xs: seq<HeldSample>, asked: seq<Op>, heard: seq<Op>)
    requires cid in s.calls && CallKnown(cid, s.calls[cid], asked)
    requires xs != [] && StreamKnown(cid, xs, heard, s.ledger.responses)
    ensures Takes(s, ReplaySamples(s, cid, xs),
                  if s.calls[cid].firstResponseSeen then [] else [Record(s.calls[cid].serial, xs[0].tag)], asked, heard)
  {
    var x := xs[0];
    var t := ReplaySample(s, cid, x);
    assert SampleKnown(cid, x, heard, s.ledger.responses);
    MatchTakes(s, t, cid, x.tag, x.header.kind.IsTerminal(), asked, heard);
    NoMoreRecords(t, cid, xs[1..], asked, heard);
    var rs := if s.calls[cid].firstResponseSeen then [] else [Record(s.calls[cid].serial, x.tag)];
    TakesBoth(s, t, ReplaySamples(s, cid, xs), rs, [], asked, heard);
    assert rs + [] == rs;
  }

  lemma ReplayTakes(s: Engine, cid: Cid, asked: seq<Op>, heard: seq<Op>)
    requires Known(s, asked, heard) && cid in s.calls && cid in s.deferred && s.deferred[cid].samples != []
    ensures Takes(s, Replay(s, cid), RecordsOfStream(s.calls, s.deferred, cid), asked, heard)
  {
    var bare := s.(deferred := s.deferred - {cid});
    assert StreamKnown(cid, s.deferred[cid].samples, heard, s.ledger.responses);
    StreamTakes(bare, cid, s.deferred[cid].samples, asked, heard);
  }

  lemma OtherEntry<K, V>(m: map<K, V>, m': map<K, V>, k: K, c: K)
    requires m - {k} == m' - {k} && c != k
    ensures (c in m <==> c in m') && (c in m ==> m[c] == m'[c])
  {
    assert c in m - {k} <==> c in m' - {k};
    assert c in m ==> (m - {k})[c] == m[c];
  }

  lemma {:induction false} RecordsOfOthers(calls: Calls, calls': Calls, table: DeferredTable, cid: Cid, ks: seq<Cid>)
    requires cid !in ks && calls - {cid} == calls' - {cid}
    ensures RecordsOfStreams(calls, table, ks) == RecordsOfStreams(calls', table - {cid}, ks)
    decreases |ks|
  {
    if ks != [] {
      assert ks[0] in ks;
      OtherEntry(calls, calls', cid, ks[0]);
      RecordsOfOthers(calls, calls', table, cid, ks[1..]);
    }
  }

  /** The streams a pass has still to replay. */
  ghost predicate StreamsReady(s: Engine, ks: seq<Cid>)
  {
    Distinct(ks) && forall k :: k in ks ==> k in s.deferred && k in s.calls && s.deferred[k].samples != []
  }

  lemma ReadyRest(s: Engine, ks: seq<Cid>)
    requires ks != [] && StreamsReady(s, ks)
    ensures StreamsReady(Replay(s, ks[0]), ks[1..]) && ks[0] !in ks[1..]
    ensures Replay(s, ks[0]).deferred == s.deferred - {ks[0]}
    ensures Replay(s, ks[0]).calls - {ks[0]} == s.calls - {ks[0]}
  {
    var k, rest := ks[0], ks[1..];
    var t := Replay(s, k);
    OthersUntouched(s, k);
    ReplayTouchesOne(s.(deferred := s.deferred - {k}), k, s.deferred[k].samples);
    forall c | c in rest ensures c in t.deferred && c in t.calls && t.deferred[c].samples != [] {
      assert c in ks && c != k;
      assert c in s.calls - {k};
    }
  }

  lemma {:induction false} ReplaysTake(s: Engine, ks: seq<Cid>, asked: seq<Op>, heard: seq<Op>)
    requires Known(s, asked, heard) && StreamsReady(s, ks)
    ensures Takes(s, Fold(s, ks, Replay), RecordsOfStreams(s.calls, s.deferred, ks), asked, heard)
    decreases |ks|
  {
    if ks == [] {
      TakesNone(s, s, asked, heard);
    } else {
      var k, rest := ks[0], ks[1..];
      var t := Replay(s, k);
      ReadyRest(s, ks);
      ReplayTakes(s, k, asked, heard);
      ReplayKnown(s, k, asked, heard);
      ReplaysTake(t, rest, asked, heard);
      RecordsOfOthers(s.calls, t.calls, s.deferred, k, rest);
      TakesBoth(s, t, Fold(s, ks, Replay), RecordsOfStream(s.calls, s.deferred, k),
                RecordsOfStreams(s.calls, s.deferred, rest), asked, heard);
    }
  }

  lemma FoldTakesNone(s: Engine, ks: seq<Cid>, step: (Engine, Cid) -> Engine, asked: seq<Op>, heard: seq<Op>)
    requires forall u: Engine, k :: Takes(u, step(u, k), [], asked, heard)
    ensures Takes(s, Fold(s, ks, step), [], asked, heard)
  {
    TakesNone(s, s, asked, heard);
    FoldKeeps(s, ks, step, (u: Engine) => Takes(s, u, [], asked, heard));
  }

  lemma AllReady(s: Engine, ready: seq<Cid>)
    requires HeldBounds(s.deferred) && Lists(ready, Ready(s))
    ensures StreamsReady(s, ready)
  {
    ListsMembers(ready, Ready(s));
    ListsDistinct(ready, Ready(s));
  }

  lemma ResolveTakes(s: Engine, ready: seq<Cid>, expired: seq<Cid>, asked: seq<Op>, heard: seq<Op>)
    requires Known(s, asked, heard) && StreamsReady(s, ready)
    ensures Takes(s, Resolve(s, ready, expired), RecordsOfStreams(s.calls, s.deferred, ready), asked, heard)
  {
    var t, rs := Fold(s, ready, Replay), RecordsOfStreams(s.calls, s.deferred, ready);
    ReplaysTake(s, ready, asked, heard);
    forall u: Engine, k ensures Takes(u, Forfeit(u, k), [], asked, heard) { TakesNone(u, Forfeit(u, k), asked, heard); }
    FoldTakesNone(t, expired, Forfeit, asked, heard);
    TakesBoth(s, t, Fold(t, expired, Forfeit), rs, [], asked, heard);
    assert rs + [] == rs;
  }

  lemma StepTakes(s: Engine, op: Op, asked: seq<Op>, heard: seq<Op>)
    requires Inv(s) && Known(s, asked, heard) && Logged(s, op, asked, heard) && Allowed(s, op)
    ensures Takes(s, Apply(s, op), RecordsBy(s, op), asked, heard)
  {
    match op
    case RequestSample(_, _, _, _, _, _) => TakesNone(s, Apply(s, op), asked, heard);
    case ResponseSample(_, _, _, _, _, _) => ResponseTakes(s, op, asked, heard);
    case ResolveDeferred(_, ready, expired) =>
      AllReady(s, ready);
      ResolveTakes(s, ready, expired, asked, heard);
    case SweepCalls(_, outlived) =>
      forall u: Engine, k ensures Takes(u, Retire(u, k), [], asked, heard) { TakesNone(u, Retire(u, k), asked, heard); }
      FoldTakesNone(s, outlived, Retire, asked, heard);
  }

  lemma {:induction false} StepsTake(ops: seq<Op>, states: seq<Engine>, asked: seq<Op>, heard: seq<Op>, i: nat)
    requires i <= |ops| && |states| == |ops| + 1
    requires forall j :: 0 <= j < i ==> Takes(states[j], states[j + 1], RecordsBy(states[j], ops[j]), asked, heard)
    ensures Takes(states[0], states[i], Records(ops, states, i), asked, heard)
  {
    if i == 0 {
      TakesNone(states[0], states[0], asked, heard);
    } else {
      var j, rs := i - 1, Records(ops, states, i - 1);
      StepsTake(ops, states, asked, heard, j);
      var s, t, more := states[j], states[i], RecordsBy(states[j], ops[j]);
      assert Takes(s, t, more, asked, heard);
      TakesBoth(states[0], s, t, rs, more, asked, heard);
      assert Records(ops, states, i) == rs + more;
    }
  }

  lemma StepInRun(config: Config, ops: seq<Op>, states: seq<Engine>, j: nat)
    requires Run(config, ops, states) && j < |ops|
    ensures Takes(states[j], states[j + 1], RecordsBy(states[j], ops[j]), Asked(ops), Heard(ops))
  {
    assert Leads(states[j], ops[j], states[j + 1]);
    RunKeeps(config, ops, states, j);
    RunKnown(config, ops, states, j);
    RunLogged(config, ops, states, j);
    StepTakes(states[j], ops[j], Asked(ops), Heard(ops));
  }

  /** In every run the exported latencies and skews are those of its records: one per
      measured call, between its own request and a response of its id. */
  lemma RecordsAreExported(config: Config, ops: seq<Op>, states: seq<Engine>, i: nat)
    requires Run(config, ops, states) && i < |states|
    ensures var s, rs, asked, heard := states[i], Records(ops, states, i), Asked(ops), Heard(ops);
      && AllPair(rs, asked, heard)
      && s.counters.latency == Latencies(rs, asked, heard)
      && s.counters.clockSkew == Skews(rs, asked, heard)
      && s.ledger.measured == Serials(rs)
  {
    forall j | 0 <= j < i ensures Takes(states[j], states[j + 1], RecordsBy(states[j], ops[j]), Asked(ops), Heard(ops)) {
      StepInRun(config, ops, states, j);
    }
    StepsTake(ops, states, Asked(ops), Heard(ops), i);
  }

  // ---------------------------------------------------------------------------
  // Whether a record is that of the first response
  // ---------------------------------------------------------------------------

  /** What became of a response is settled: it was matched, counted as an orphan or lost. */
  ghost predicate Settled(l: Ledger, n: nat)
  {
    n in l.direct || n in l.replayed || n in l.orphaned || n in l.triggers || n in l.behind
  }

  /** When the record is taken, every response of its id observed before the one it is
      taken on is settled: none of them still waits for the call. */
  ghost predicate OnFirst(s: Engine, r: Record, asked: seq<Op>, heard: seq<Op>)
    requires Pairs(r, asked, heard)
  {
    forall n :: 0 <= n < r.tag && heard[n].ResponseSample? && heard[n].header.cid == asked[r.serial].header.cid
                ==> Settled(s.ledger, n)
  }

  /** A response of a call not answered yet, while earlier ones of its id are held. */
  predicate Jumps(s: Engine, op: Op)
  {
    && op.ResponseSample? && op.header.cid in s.calls && !s.calls[op.header.cid].firstResponseSeen
    && op.header.cid in s.deferred
  }

  lemma {:induction false} InTags(xs: seq<HeldSample>, n: nat)
    ensures n in Tags(xs) <==> exists k :: 0 <= k < |xs| && xs[k].tag == n
  {
    if xs != [] {
      InTags(xs[1..], n);
      if k :| 0 <= k < |xs| && xs[k].tag == n {
        assert k > 0 ==> xs[1..][k - 1].tag == n;
      }
      if k :| 0 <= k < |xs[1..]| && xs[1..][k].tag == n {
        assert xs[k + 1].tag == n;
      }
    }
  }

  lemma HeldOrSettled(l: Ledger, held: multiset<nat>, n: nat)
    requires held + l.direct + l.replayed + l.orphaned + l.triggers + l.behind + multiset{} == Arrivals(l.responses)
    requires n < l.responses
    ensures !Settled(l, n) <==> n in held
  {
    assert (held + l.direct + l.replayed + l.orphaned + l.triggers + l.behind + multiset{})[n] == 1;
  }

  lemma HeldUnderItsId(table: DeferredTable, heard: seq<Op>, bound: nat, n: nat)
    requires HeldKnown(table, heard, bound) && n < |heard| && heard[n].ResponseSample?
    ensures n in HeldTags(table) <==> heard[n].header.cid in table && n in Tags(table[heard[n].header.cid].samples)
  {
    BagMembers(table, TAGS, n);
    if n in HeldTags(table) {
      var c :| c in table && n in TAGS(table[c]);
      var xs := table[c].samples;
      InTags(xs, n);
      var k :| 0 <= k < |xs| && xs[k].tag == n;
      assert StreamKnown(c, xs, heard, bound);
      assert SampleKnown(c, xs[k], heard, bound);
    } else if heard[n].header.cid in table {
      assert n !in TAGS(table[heard[n].header.cid]);
    }
  }

  /** Exactly the responses that are not settled are held, each under its own id. */
  lemma HeldIffNotSettled(s: Engine, asked: seq<Op>, heard: seq<Op>, n: nat, cid: Cid)
    requires Inv(s) && Known(s, asked, heard) && n < s.ledger.responses <= |heard|
    requires heard[n].ResponseSample? && heard[n].header.cid == cid
    ensures !Settled(s.ledger, n) <==> cid in s.deferred && n in Tags(s.deferred[cid].samples)
  {
    HeldOrSettled(s.ledger, HeldTags(s.deferred), n);
    HeldUnderItsId(s.deferred, heard, s.ledger.responses, n);
  }

  /** A record taken on a direct response. */
  lemma DirectOnFirst(s: Engine, op: Op, r: Record, asked: seq<Op>, heard: seq<Op>)
    requires Inv(s) && Known(s, asked, heard) && Logged(s, op, asked, heard) && op.ResponseSample?
    requires RecordsBy(s, op) == [r] && Pairs(r, asked, heard)
    ensures OnFirst(s, r, asked, heard) <==> !Jumps(s, op)
  {
    var cid := op.header.cid;
    assert CallKnown(cid, s.calls[cid], asked);
    assert r == [r][0] && r.tag == s.ledger.responses && asked[r.serial].header.cid == cid;
    forall n: nat | n < r.tag && heard[n].ResponseSample? && heard[n].header.cid == cid
      ensures !Settled(s.ledger, n) <==> cid in s.deferred && n in Tags(s.deferred[cid].samples)
    {
      HeldIffNotSettled(s, asked, heard, n, cid);
    }
    if cid in s.deferred {
      var x := s.deferred[cid].samples[0];
      assert StreamKnown(cid, s.deferred[cid].samples, heard, s.ledger.responses);
      assert SampleKnown(cid, x, heard, s.ledger.responses);
      InTags(s.deferred[cid].samples, x.tag);
      assert !Settled(s.ledger, x.tag);
    }
  }

  lemma NothingEarlier(c: Cid, xs: seq<HeldSample>, heard: seq<Op>, bound: nat, n: nat)
    requires StreamKnown(c, xs, heard, bound) && xs != [] && n < xs[0].tag
    ensures n !in Tags(xs)
  {
    InTags(xs, n);
  }

  /** A record taken on replay. */
  lemma ReplayedOnFirst(s: Engine, c: Cid, asked: seq<Op>, heard: seq<Op>)
    requires Inv(s) && Known(s, asked, heard) && s.ledger.responses <= |heard| && c in s.calls && c in s.deferred
    ensures var r := Record(s.calls[c].serial, s.deferred[c].samples[0].tag);
      Pairs(r, asked, heard) && OnFirst(s, r, asked, heard)
  {
    var xs := s.deferred[c].samples;
    var r := Record(s.calls[c].serial, xs[0].tag);
    assert CallKnown(c, s.calls[c], asked);
    assert StreamKnown(c, xs, heard, s.ledger.responses);
    assert SampleKnown(c, xs[0], heard, s.ledger.responses);
    forall n: nat | n < r.tag && heard[n].ResponseSample? && heard[n].header.cid == c ensures Settled(s.ledger, n) {
      HeldIffNotSettled(s, asked, heard, n, c);
      NothingEarlier(c, xs, heard, s.ledger.responses, n);
    }
  }

  lemma {:induction false} StreamRecords(calls: Calls, table: DeferredTable, ks: seq<Cid>, r: Record)
    requires r in RecordsOfStreams(calls, table, ks)
    ensures exists c :: c in ks && c in calls && c in table && table[c].samples != []
                        && r == Record(calls[c].serial, table[c].samples[0].tag)
    decreases |ks|
  {
    if r in RecordsOfStreams(calls, table, ks[1..]) {
      StreamRecords(calls, table, ks[1..], r);
    } else {
      assert ks[0] in ks;
    }
  }

  ghost predicate AllOnFirst(s: Engine, rs: seq<Record>, asked: seq<Op>, heard: seq<Op>)
    requires AllPair(rs, asked, heard)
  {
    forall k :: 0 <= k < |rs| ==> OnFirst(s, rs[k], asked, heard)
  }

  lemma StreamsOnFirst(s: Engine, ready: seq<Cid>, r: Record, asked: seq<Op>, heard: seq<Op>)
    requires Inv(s) && Known(s, asked, heard) && s.ledger.responses <= |heard|
    requires r in RecordsOfStreams(s.calls, s.deferred, ready) && Pairs(r, asked, heard)
    ensures OnFirst(s, r, asked, heard)
  {
    StreamRecords(s.calls, s.deferred, ready, r);
    var c :| c in ready && c in s.calls && c in s.deferred && s.deferred[c].samples != []
             && r == Record(s.calls[c].serial, s.deferred[c].samples[0].tag);
    ReplayedOnFirst(s, c, asked, heard);
  }

  lemma StepOnFirst(s: Engine, op: Op, rs: seq<Record>, asked: seq<Op>, heard: seq<Op>)
    requires Inv(s) && Known(s, asked, heard) && Logged(s, op, asked, heard) && s.ledger.responses <= |heard|
    requires rs == RecordsBy(s, op) && AllPair(rs, asked, heard)
    ensures AllOnFirst(s, rs, asked, heard) <==> !Jumps(s, op)
  {
    if op.ResponseSample? {
      if rs != [] { DirectOnFirst(s, op, rs[0], asked, heard); }
    } else if op.ResolveDeferred? {
      forall k | 0 <= k < |rs| ensures OnFirst(s, rs[k], asked, heard) {
        StreamsOnFirst(s, op.ready, rs[k], asked, heard);
      }
    }
  }

  /** Every record the first `i` operations took was, when it was taken, on the first
      response of its call. */
  ghost predicate RecordsOnFirst(ops: seq<Op>, states: seq<Engine>, i: nat)
    requires i <= |ops| && i <= |states|
  {
    forall j :: 0 <= j < i ==>
      AllPair(RecordsBy(states[j], ops[j]), Asked(ops), Heard(ops))
      && AllOnFirst(states[j], RecordsBy(states[j], ops[j]), Asked(ops), Heard(ops))
  }

  /** Calls are measured on the first response observed if and only if no response ever
      reached an unanswered call while earlier ones of its id were held. */
  lemma RecordsAreOnFirstIffNoneJumps(config: Config, ops: seq<Op>, states: seq<Engine>, i: nat)
    requires Run(config, ops, states) && i < |states|
    ensures RecordsOnFirst(ops, states, i) <==> forall j :: 0 <= j < i ==> !Jumps(states[j], ops[j])
  {
    var asked, heard := Asked(ops), Heard(ops);
    forall j | 0 <= j < i
      ensures AllPair(RecordsBy(states[j], ops[j]), asked, heard)
      ensures AllOnFirst(states[j], RecordsBy(states[j], ops[j]), asked, heard) <==> !Jumps(states[j], ops[j])
    {
      FirstInRun(config, ops, states, j);
    }
  }

  lemma FirstInRun(config: Config, ops: seq<Op>, states: seq<Engine>, j: nat)
    requires Run(config, ops, states) && j < |ops|
    ensures var rs, asked, heard := RecordsBy(states[j], ops[j]), Asked(ops), Heard(ops);
      AllPair(rs, asked, heard) && (AllOnFirst(states[j], rs, asked, heard) <==> !Jumps(states[j], ops[j]))
  {
    StepInRun(config, ops, states, j);
    RunKeeps(config, ops, states, j);
    RunKnown(config, ops, states, j);
    RunLogged(config, ops, states, j);
    StepOnFirst(states[j], ops[j], RecordsBy(states[j], ops[j]), Asked(ops), Heard(ops));
  }
}
