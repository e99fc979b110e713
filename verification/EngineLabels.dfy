/** Under which labels the engine counts: the channel, the service, the method and the kind
    observed, over every run. */
module EngineLabels {
  import opened Wire
  import opened Bags
  import opened Folds
  import opened Engine
  import opened EngineInvariant
  import opened EngineRecords

  // ---------------------------------------------------------------------------
  // Requests and responses
  // ---------------------------------------------------------------------------

  /** The requests observed, by channel, service and method. */
  function AskedSeries(ops: seq<Op>): multiset<RequestSeries>
  {
    if ops == [] then multiset{}
    else
      var o := ops[|ops| - 1];
      AskedSeries(ops[..|ops| - 1])
      + if IsAsk(o) then multiset{RequestSeries(o.channel, o.header.serviceId, o.methodName)} else multiset{}
  }

  /** The responses observed, by channel, service and kind. */
  function HeardSeries(ops: seq<Op>): multiset<ResponseSeries>
  {
    if ops == [] then multiset{}
    else
      var o := ops[|ops| - 1];
      HeardSeries(ops[..|ops| - 1])
      + if o.ResponseSample? then multiset{ResponseSeries(o.channel, o.header.serviceId, o.header.kind)} else multiset{}
  }

  /** Exactly these requests and responses are exported, label by label. */
  ghost predicate Counts(s: Engine, requests: multiset<RequestSeries>, responses: multiset<ResponseSeries>)
  {
    s.counters.requests == requests && s.counters.responses == responses
  }

  ghost predicate GivesUpNone(s: Engine, t: Engine)
  {
    t.counters.unmatched == s.counters.unmatched && t.ledger.unmatched == s.ledger.unmatched
  }

  lemma MatchCountsNothing(s: Engine, cid: Cid, ts: nat, terminal: bool)
    requires cid in s.calls
    ensures Counts(Match(s, cid, ts, terminal), s.counters.requests, s.counters.responses)
    ensures GivesUpNone(s, Match(s, cid, ts, terminal))
  {
  }

  lemma SampleCountsNothing(s: Engine, cid: Cid, x: HeldSample, t: Engine)
    requires t == ReplaySample(s, cid, x)
    ensures Counts(t, s.counters.requests, s.counters.responses) && GivesUpNone(s, t)
  {
    if cid in s.calls { MatchCountsNothing(s, cid, x.header.timestampNs, x.header.kind.IsTerminal()); }
  }

  lemma {:induction false} SamplesCountNothing(s: Engine, cid: Cid, xs: seq<HeldSample>)
    ensures Counts(ReplaySamples(s, cid, xs), s.counters.requests, s.counters.responses)
    ensures GivesUpNone(s, ReplaySamples(s, cid, xs))
    decreases |xs|
  {
    if xs != [] {
      var t := ReplaySample(s, cid, xs[0]);
      SampleCountsNothing(s, cid, xs[0], t);
      SamplesCountNothing(t, cid, xs[1..]);
    }
  }

  lemma FoldCountsNothing(s: Engine, ks: seq<Cid>, step: (Engine, Cid) -> Engine)
    requires forall u: Engine, k :: Counts(step(u, k), u.counters.requests, u.counters.responses)
    ensures Counts(Fold(s, ks, step), s.counters.requests, s.counters.responses)
  {
    FoldKeeps(s, ks, step, (u: Engine) => Counts(u, s.counters.requests, s.counters.responses));
  }

  lemma PassCountsNothing(s: Engine, op: Op)
    requires op.ResolveDeferred? || op.SweepCalls?
    ensures Counts(Apply(s, op), s.counters.requests, s.counters.responses)
  {
    if op.ResolveDeferred? {
      forall u: Engine, k ensures Counts(Replay(u, k), u.counters.requests, u.counters.responses) {
        if k in u.deferred { SamplesCountNothing(u.(deferred := u.deferred - {k}), k, u.deferred[k].samples); }
      }
      FoldCountsNothing(s, op.ready, Replay);
      FoldCountsNothing(Fold(s, op.ready, Replay), op.expired, Forfeit);
    } else {
      FoldCountsNothing(s, op.outlived, Retire);
    }
  }

  lemma RequestCounts(s: Engine, op: Op)
    requires op.RequestSample? && op.header.kind == Request
    ensures Counts(Apply(s, op),
      s.counters.requests + multiset{RequestSeries(op.channel, op.header.serviceId, op.methodName)}, s.counters.responses)
  {
  }

  /** Neither a match nor a held response counts anything but itself. */
  lemma DirectCountsNothing(s: Engine, header: RpcHeader, tag: nat)
    requires header.cid in s.calls
    ensures Counts(Direct(s, header, tag), s.counters.requests, s.counters.responses) && GivesUpNone(s, Direct(s, header, tag))
  {
  }

  lemma DeferCountsNothing(s: Engine, channel: string, x: HeldSample, now: nat, victim: Cid)
    ensures Counts(Defer(s, channel, x, now, victim), s.counters.requests, s.counters.responses)
    ensures GivesUpNone(s, Defer(s, channel, x, now, victim))
  {
  }

  lemma ResponseCounts(s: Engine, op: Op)
    requires op.ResponseSample?
    ensures Counts(Apply(s, op), s.counters.requests,
      s.counters.responses + multiset{ResponseSeries(op.channel, op.header.serviceId, op.header.kind)})
    ensures GivesUpNone(s, Apply(s, op))
  {
    var counted, n := CountResponse(s, op.channel, op.header), s.ledger.responses;
    if op.header.cid in s.calls {
      DirectCountsNothing(counted, op.header, n);
    } else {
      DeferCountsNothing(counted, op.channel, HeldSample(op.header, op.emitter, op.len, n), op.now, op.victim);
    }
  }

  lemma StepCounts(s: Engine, op: Op)
    ensures Counts(Apply(s, op),
      s.counters.requests
      + (if IsAsk(op) then multiset{RequestSeries(op.channel, op.header.serviceId, op.methodName)} else multiset{}),
      s.counters.responses
      + if op.ResponseSample? then multiset{ResponseSeries(op.channel, op.header.serviceId, op.header.kind)} else multiset{})
  {
    assert s.counters.requests + multiset{} == s.counters.requests;
    assert s.counters.responses + multiset{} == s.counters.responses;
    if op.RequestSample? {
      if op.header.kind == Request { RequestCounts(s, op); }
    } else if op.ResponseSample? {
      ResponseCounts(s, op);
    } else {
      PassCountsNothing(s, op);
    }
  }

  lemma LeadCounts(s: Engine, op: Op, t: Engine, before: seq<Op>, after: seq<Op>)
    requires t == Apply(s, op) && after == before + [op] && Counts(s, AskedSeries(before), HeardSeries(before))
    ensures Counts(t, AskedSeries(after), HeardSeries(after))
  {
    StepCounts(s, op);
    assert after[..|before|] == before;
  }

  /** In every run the requests and the responses exported under each label are exactly
      those observed with it. */
  lemma {:induction false} CountedAsObserved(config: Config, ops: seq<Op>, states: seq<Engine>, i: nat)
    requires Run(config, ops, states) && i < |states|
    ensures Counts(states[i], AskedSeries(ops[..i]), HeardSeries(ops[..i]))
  {
    if i > 0 {
      CountedAsObserved(config, ops, states, i - 1);
      assert Leads(states[i - 1], ops[i - 1], states[i]);
      LeadCounts(states[i - 1], ops[i - 1], states[i], ops[..i - 1], ops[..i]);
    }
  }

  // ---------------------------------------------------------------------------
  // Calls given up
  // ---------------------------------------------------------------------------

  /** The requests of a channel that were given up. */
  ghost function GivenUp(l: Ledger, asked: seq<Op>, channel: string): set<nat>
  {
    set n | n in l.unmatched && n < |asked| && IsAsk(asked[n]) && asked[n].channel == channel
  }

  ghost predicate UnmatchedLaw(s: Engine, asked: seq<Op>)
  {
    forall channel :: s.counters.unmatched[channel] == |GivenUp(s.ledger, asked, channel)|
  }

  lemma SameUnmatched(s: Engine, t: Engine, asked: seq<Op>)
    requires UnmatchedLaw(s, asked)
    requires t.counters.unmatched == s.counters.unmatched && t.ledger.unmatched == s.ledger.unmatched
    ensures UnmatchedLaw(t, asked)
  {
    forall channel ensures t.counters.unmatched[channel] == |GivenUp(t.ledger, asked, channel)| {
      assert GivenUp(t.ledger, asked, channel) == GivenUp(s.ledger, asked, channel);
    }
  }

  lemma TrackedIsNotGivenUp(s: Engine, c: Cid)
    requires RequestLaw(s.calls, s.ledger) && c in s.calls
    ensures s.calls[c].serial !in s.ledger.unmatched
  {
    var n := s.calls[c].serial;
    BagRemove(s.calls, SERIAL, c);
    assert (TrackedSerials(s.calls) + s.ledger.closed + s.ledger.unmatched + s.ledger.overwritten)[n] <= 1;
    assert n in TrackedSerials(s.calls);
  }

  lemma RetireLabels(s: Engine, c: Cid, asked: seq<Op>)
    requires UnmatchedLaw(s, asked) && RequestLaw(s.calls, s.ledger) && CallsKnown(s.calls, asked)
    ensures UnmatchedLaw(Retire(s, c), asked)
  {
    if c in s.calls {
      var call, t := s.calls[c], Retire(s, c);
      TrackedIsNotGivenUp(s, c);
      assert CallKnown(c, call, asked);
      forall channel ensures t.counters.unmatched[channel] == |GivenUp(t.ledger, asked, channel)| {
        GivenUpMore(s.ledger, t.ledger, call.serial, asked, channel);
      }
    }
  }

  lemma GivenUpMore(l: Ledger, l': Ledger, n: nat, asked: seq<Op>, channel: string)
    requires l'.unmatched == l.unmatched + multiset{n} && n !in l.unmatched && n < |asked| && IsAsk(asked[n])
    ensures |GivenUp(l', asked, channel)| == |GivenUp(l, asked, channel)| + if asked[n].channel == channel then 1 else 0
  {
    if asked[n].channel == channel {
      assert GivenUp(l', asked, channel) == GivenUp(l, asked, channel) + {n};
    } else {
      assert GivenUp(l', asked, channel) == GivenUp(l, asked, channel);
    }
  }

  ghost predicate Labelled(s: Engine, asked: seq<Op>, heard: seq<Op>)
  {
    Inv(s) && Known(s, asked, heard) && UnmatchedLaw(s, asked)
  }

  lemma RetireKeepsLabels(s: Engine, c: Cid, asked: seq<Op>, heard: seq<Op>)
    requires Labelled(s, asked, heard)
    ensures Labelled(Retire(s, c), asked, heard)
  {
    RetireKeeps(s, c, multiset{});
    RetireLabels(s, c, asked);
  }

  lemma SweepLabels(s: Engine, outlived: seq<Cid>, asked: seq<Op>, heard: seq<Op>)
    requires Labelled(s, asked, heard)
    ensures UnmatchedLaw(Sweep(s, outlived), asked)
  {
    forall u: Engine, k | Labelled(u, asked, heard) ensures Labelled(Retire(u, k), asked, heard) {
      RetireKeepsLabels(u, k, asked, heard);
    }
    FoldKeeps(s, outlived, Retire, (u: Engine) => Labelled(u, asked, heard));
  }

  lemma PassGivesUpNone(s: Engine, ready: seq<Cid>, expired: seq<Cid>)
    ensures GivesUpNone(s, Resolve(s, ready, expired))
  {
    forall u: Engine, k | GivesUpNone(s, u) ensures GivesUpNone(s, Replay(u, k)) {
      if k in u.deferred { SamplesCountNothing(u.(deferred := u.deferred - {k}), k, u.deferred[k].samples); }
    }
    FoldKeeps(s, ready, Replay, (u: Engine) => GivesUpNone(s, u));
    FoldKeeps(Fold(s, ready, Replay), expired, Forfeit, (u: Engine) => GivesUpNone(s, u));
  }

  lemma RequestLabels(s: Engine, op: Op, asked: seq<Op>)
    requires op.RequestSample? && UnmatchedLaw(s, asked) && RequestLaw(s.calls, s.ledger) && CallsKnown(s.calls, asked)
    ensures UnmatchedLaw(Apply(s, op), asked)
  {
    if op.header.kind == Request {
      RetireLabels(s, op.victim, asked);
      SameUnmatched(MakeRoom(s, op.victim), Apply(s, op), asked);
    }
  }

  lemma StepLabels(s: Engine, op: Op, t: Engine, asked: seq<Op>, heard: seq<Op>)
    requires Labelled(s, asked, heard) && t == Apply(s, op)
    ensures UnmatchedLaw(t, asked)
  {
    if op.RequestSample? {
      RequestLabels(s, op, asked);
    } else if op.SweepCalls? {
      SweepLabels(s, op.outlived, asked, heard);
    } else {
      QuietLabels(s, op, t);
      SameUnmatched(s, t, asked);
    }
  }

  lemma QuietLabels(s: Engine, op: Op, t: Engine)
    requires (op.ResponseSample? || op.ResolveDeferred?) && t == Apply(s, op)
    ensures GivesUpNone(s, t)
  {
    if op.ResponseSample? { ResponseCounts(s, op); } else { PassGivesUpNone(s, op.ready, op.expired); }
  }

  lemma {:induction false} LabelsAlong(states: seq<Engine>, asked: seq<Op>, i: nat)
    requires i < |states| && UnmatchedLaw(states[0], asked)
    requires forall j :: 0 <= j < i && UnmatchedLaw(states[j], asked) ==> UnmatchedLaw(states[j + 1], asked)
    ensures UnmatchedLaw(states[i], asked)
  {
    if i > 0 { LabelsAlong(states, asked, i - 1); }
  }

  lemma StepInRunLabels(config: Config, ops: seq<Op>, states: seq<Engine>, j: nat)
    requires Run(config, ops, states) && j < |ops| && UnmatchedLaw(states[j], Asked(ops))
    ensures UnmatchedLaw(states[j + 1], Asked(ops))
  {
    assert Leads(states[j], ops[j], states[j + 1]);
    RunKeeps(config, ops, states, j);
    RunKnown(config, ops, states, j);
    StepLabels(states[j], ops[j], states[j + 1], Asked(ops), Heard(ops));
  }

  /** In every run the requests exported as unmatched for a channel are as many as the
      requests observed on that channel that were evicted or outlived their time. */
  lemma UnmatchedByChannel(config: Config, ops: seq<Op>, states: seq<Engine>, i: nat, channel: string)
    requires Run(config, ops, states) && i < |states|
    ensures states[i].counters.unmatched[channel] == |GivenUp(states[i].ledger, Asked(ops), channel)|
  {
    assert forall c :: GivenUp(BLANK, Asked(ops), c) == {};
    forall j | 0 <= j < i && UnmatchedLaw(states[j], Asked(ops)) ensures UnmatchedLaw(states[j + 1], Asked(ops)) {
      StepInRunLabels(config, ops, states, j);
    }
    LabelsAlong(states, Asked(ops), i);
  }
}
