/** One call and its responses: held until the request shows up, or received after it. */
module EngineEarly {
  import opened Wire
  import opened Correlation
  import opened Engine
  import opened EngineViews
  import opened EngineAgreement
  import opened EngineDrain
  import opened EngineOrder
  import opened EngineRecords

  // ---------------------------------------------------------------------------
  // The two orders, the request meeting a table that may be full
  // ---------------------------------------------------------------------------

  /** The responses `held` are drained first, then the request, then the others. */
  ghost function Early(s: Engine, held: seq<Op>, q: Op, direct: seq<Op>): Engine
  {
    Drain(Apply(Drain(s, held), q), direct)
  }

  /** The request is drained first, then the responses. */
  ghost function InOrder(s: Engine, rs: seq<Op>, q: Op): Engine
  {
    Drain(Apply(s, q), rs)
  }

  predicate AllAnswer(rs: seq<Op>, cid: Cid)
  {
    forall i :: 0 <= i < |rs| ==> IsAnswer(rs[i], cid)
  }

  /** A request for an id that is neither tracked nor held, and responses of it on either
      side, which the held table has room for. */
  ghost predicate FreshCall(s: Engine, held: seq<Op>, q: Op, direct: seq<Op>)
  {
    && q.RequestSample? && q.header.kind == Request
    && q.header.cid !in s.calls && q.header.cid !in s.deferred
    && AllAnswer(held, q.header.cid) && AllAnswer(direct, q.header.cid)
    && RoomFor(s.deferred.Keys, held + direct) && FitHeld(held, direct, q.header.cid)
  }

  function RoomV(v: View, victim: Cid): View
  {
    if Full(v.calls, v.config.maxInflight) then RetireV(v, victim) else v
  }

  lemma AskIsView(s: Engine, q: Op)
    requires q.RequestSample? && q.header.kind == Request
    ensures ViewOf(Apply(s, q)) == AskV(RoomV(ViewOf(s), q.victim), q.header.cid, CallOf(q))
    ensures Apply(s, q).deferred == s.deferred
  {
    var room := MakeRoom(s, q.victim);
    RetireIsView(s, q.victim);
    assert ViewOf(s).calls.Keys == s.calls.Keys && |ViewOf(s).calls| == |ViewOf(s).calls.Keys| && |s.calls| == |s.calls.Keys|;
    assert ViewOf(room) == RoomV(ViewOf(s), q.victim);
    var call := NewCall(s, q.channel, q.header, q.methodName, q.len, q.now);
    AnonymousStore(room.calls, q.header.cid, call);
    assert Anonymous(call) == CallOf(q);
  }

  /** Holding responses does not touch the calls, so the same call makes room. */
  lemma {:induction false} RoomThenHold(v: View, cid: Cid, rs: seq<Op>, victim: Cid)
    requires cid !in v.calls && AllAnswer(rs, cid)
    ensures RoomV(DrainV(v, rs), victim) == DrainV(RoomV(v, victim), rs)
    ensures DrainV(v, rs).calls == v.calls && DrainV(v, rs).config == v.config
    decreases |rs|
  {
    if rs != [] {
      var front, r := rs[..|rs| - 1], rs[|rs| - 1];
      RoomThenHold(v, cid, front, victim);
      RetireTake(DrainV(v, front), victim, r);
    }
  }

  lemma {:induction false} AnswersOfStream(rs: seq<Op>, cid: Cid)
    requires AllAnswer(rs, cid)
    ensures AnswersOf(rs, cid) == |rs| && Asks(rs) == 0
  {
    if rs != [] {
      AnswersOfStream(rs[..|rs| - 1], cid);
    }
  }

  lemma {:induction false} RoomFewer(a: set<Cid>, b: set<Cid>, ops: seq<Op>)
    requires a <= b && RoomFor(b, ops)
    ensures RoomFor(a, ops)
    decreases |ops|
  {
    if ops != [] {
      var front := ops[..|ops| - 1];
      RoomFewer(a, b, front);
      SubsetSize(a + IdsOf(front), b + IdsOf(front));
    }
  }

  lemma EarlyView(s: Engine, held: seq<Op>, q: Op, direct: seq<Op>)
    requires FreshCall(s, held, q, direct)
    ensures ViewOf(Early(s, held, q, direct))
            == DrainV(AskV(DrainV(RoomV(ViewOf(s), q.victim), held), q.header.cid, CallOf(q)), direct)
  {
    var cid, t := q.header.cid, Drain(s, held);
    AnswersOfStream(held, cid);
    AnswersOfStream(direct, cid);
    RoomSplit(s.deferred.Keys, held, direct);
    assert ViewOf(s).calls.Keys == s.calls.Keys;
    DrainIsView(s, held);
    AskIsView(t, q);
    RoomThenHold(ViewOf(s), cid, held, q.victim);
    RoomFewer(t.deferred.Keys, s.deferred.Keys + IdsOf(held), direct);
    DrainIsView(Apply(t, q), direct);
  }

  lemma InOrderView(s: Engine, held: seq<Op>, q: Op, direct: seq<Op>)
    requires FreshCall(s, held, q, direct)
    ensures ViewOf(InOrder(s, held + direct, q))
            == DrainV(DrainV(AskV(RoomV(ViewOf(s), q.victim), q.header.cid, CallOf(q)), held), direct)
  {
    var rs := held + direct;
    AnswersOfStream(rs, q.header.cid);
    AskIsView(s, q);
    DrainIsView(Apply(s, q), rs);
    DrainSplit(ViewOf(Apply(s, q)), held, direct);
  }

  lemma RoomAway(s: Engine, victim: Cid, cid: Cid)
    requires cid !in s.calls && cid !in s.deferred
    ensures cid !in RoomV(ViewOf(s), victim).calls && cid !in RoomV(ViewOf(s), victim).deferred
  {
    assert ViewOf(s).calls.Keys == s.calls.Keys;
  }

  lemma {:induction false} FirstOfStream(rs: seq<Op>, cid: Cid)
    requires AllAnswer(rs, cid) && rs != []
    ensures AnswersOf(rs, cid) == |rs| && FirstAnswer(rs, cid) == rs[0]
  {
    AnswersOfStream(rs, cid);
    if |rs| > 1 {
      FirstOfStream(rs[..|rs| - 1], cid);
    } else {
      assert AnswersOf(rs[..0], cid) == 0;
    }
  }

  /** Whether responses of a call, `held` until its request shows up and `direct` after it,
      come to the same as all of them after it. */
  ghost predicate HarmlessSplit(held: seq<Op>, q: Op, direct: seq<Op>)
    requires q.RequestSample? && AllAnswer(held, q.header.cid) && AllAnswer(direct, q.header.cid)
  {
    if held == [] then true
    else if direct == [] then !Trails(held, q.header.cid)
    else !Ended(held, q.header.cid) && !Ended(direct, q.header.cid) && SameRecord(q, held[0], direct[0])
  }

  lemma HarmlessStreams(held: seq<Op>, q: Op, direct: seq<Op>)
    requires q.RequestSample? && AllAnswer(held, q.header.cid) && AllAnswer(direct, q.header.cid)
    ensures Harmless(q, held, direct) <==> HarmlessSplit(held, q, direct)
  {
    var cid := q.header.cid;
    AnswersOfStream(held, cid);
    AnswersOfStream(direct, cid);
    if held != [] { FirstOfStream(held, cid); }
    if direct != [] { FirstOfStream(direct, cid); }
  }

  /** When early responses are harmless, the next pass replaying what is held: if all came
      early, exactly when none follows a terminal; if some came early and some after the
      request, exactly when none is terminal and the first of each side yield the same
      record.  Otherwise no pass makes up for it, unless both sides closed the call and
      left as many responses over.  The table of calls may be full. */
  lemma EarlyIsHarmlessIff(s: Engine, held: seq<Op>, q: Op, early: nat, direct: seq<Op>)
    requires FreshCall(s, held, q, direct)
    ensures var u, v := Early(s, held, q, direct), InOrder(s, held + direct, At(q, early));
      && (Agree(u, v) <==> HarmlessSplit(held, q, direct))
      && (Evened(held, direct, q.header.cid) || (Differ(u, v) <==> !HarmlessSplit(held, q, direct)))
  {
    var u, v := Early(s, held, q, direct), InOrder(s, held + direct, At(q, early));
    EarlyView(s, held, q, direct);
    InOrderView(s, held, At(q, early), direct);
    RoomAway(s, q.victim, q.header.cid);
    var first := Compare(RoomV(ViewOf(s), q.victim), q, held, direct);
    Judge(u, v, q, held, direct, first);
    HarmlessStreams(held, q, direct);
  }

  // ---------------------------------------------------------------------------
  // What a stream records
  // ---------------------------------------------------------------------------

  /** What the first response of a call adds to the latencies. */
  function FirstLatency(q: Op, first: Op): multiset<LatencySample>
    requires q.RequestSample? && first.ResponseSample?
  {
    if first.header.timestampNs >= q.header.timestampNs
    then multiset{LatencySample(q.channel, q.header.serviceId, q.methodName, first.header.timestampNs - q.header.timestampNs)}
    else multiset{}
  }

  function FirstSkew(q: Op, first: Op): nat
    requires q.RequestSample? && first.ResponseSample?
  {
    if first.header.timestampNs < q.header.timestampNs then 1 else 0
  }

  /** The call of `q`, with `v` where it stood at `b` and the responses `rs` in. */
  ghost predicate Recorded(b: View, v: View, q: Op, rs: seq<Op>)
    requires q.RequestSample? && rs != [] && rs[0].ResponseSample?
  {
    var cid := q.header.cid;
    && v.counters.latency == b.counters.latency + FirstLatency(q, rs[0])
    && v.counters.clockSkew == b.counters.clockSkew + FirstSkew(q, rs[0])
    && (cid in v.calls <==> !Ended(rs, cid))
    && (cid in v.calls ==> v.calls[cid] == CallOf(q).(firstResponseSeen := true))
    && v.counters.inflight == LowerIf(b.counters.inflight, KeyOf(CallOf(q)), Ended(rs, cid))
  }

  lemma FirstRecorded(b: View, q: Op, r: Op)
    requires q.RequestSample? && IsAnswer(r, q.header.cid)
    requires q.header.cid in b.calls && b.calls[q.header.cid] == CallOf(q)
    ensures Recorded(b, TakeV(b, r), q, [r])
  {
    EndedByOne(r, q.header.cid);
    var x := HeldOf(r, b.responses);
    assert LatencyOf(CallOf(q), x) == FirstLatency(q, r) && SkewOf(CallOf(q), x) == FirstSkew(q, r);
  }

  lemma EndedByOne(r: Op, cid: Cid)
    requires IsAnswer(r, cid)
    ensures Ended([r], cid) <==> r.header.kind.IsTerminal()
  {
    assert [r][0] == r;
  }

  lemma NextRecorded(b: View, v: View, q: Op, rs: seq<Op>, r: Op)
    requires q.RequestSample? && rs != [] && rs[0].ResponseSample? && IsAnswer(r, q.header.cid)
    requires Recorded(b, v, q, rs) && !Ended(rs, q.header.cid)
    ensures Recorded(b, TakeV(v, r), q, rs + [r])
  {
    EndedSnoc(rs, r, q.header.cid);
    var x := HeldOf(r, v.responses);
    assert LatencyOf(v.calls[q.header.cid], x) == multiset{};
    assert v.counters.latency + multiset{} == v.counters.latency;
  }

  lemma {:induction false} StreamRecorded(b: View, q: Op, rs: seq<Op>)
    requires q.RequestSample? && rs != [] && !Trails(rs, q.header.cid)
    requires AllAnswer(rs, q.header.cid)
    requires q.header.cid in b.calls && b.calls[q.header.cid] == CallOf(q)
    ensures Recorded(b, DrainV(b, rs), q, rs)
    decreases |rs|
  {
    var front, r := rs[..|rs| - 1], rs[|rs| - 1];
    assert rs == front + [r];
    if front == [] {
      OneSample(b, r);
      FirstRecorded(b, q, r);
    } else {
      EndedSnoc(front, r, q.header.cid);
      StreamRecorded(b, q, front);
      NextRecorded(b, DrainV(b, front), q, front, r);
    }
  }

  /** `t` has the view `w`, holds `held`, and tracks the call as long as it is not ended. */
  ghost predicate Tracks(t: Engine, w: View, cid: Cid, ended: bool, held: DeferredTable)
  {
    ViewOf(t) == w && (cid in t.calls <==> !ended) && t.deferred == held
  }

  lemma TracksStep(t: Engine, w: View, cid: Cid, held: DeferredTable, r: Op, t': Engine, w': View)
    requires Tracks(t, w, cid, false, held) && IsAnswer(r, cid) && t' == Apply(t, r) && w' == TakeV(w, r)
    ensures Tracks(t', w', cid, r.header.kind.IsTerminal(), held)
  {
    MatchedIsView(t, r);
  }

  predicate AllOpenAnswers(rs: seq<Op>, cid: Cid)
  {
    forall i :: 0 <= i < |rs| ==> IsAnswer(rs[i], cid) && !rs[i].header.kind.IsTerminal()
  }

  lemma {:induction false} TrackedWhileOpen(s: Engine, cid: Cid, rs: seq<Op>)
    requires cid in s.calls && AllOpenAnswers(rs, cid)
    ensures Tracks(Drain(s, rs), DrainV(ViewOf(s), rs), cid, false, s.deferred)
    decreases |rs|
  {
    if rs != [] {
      TrackedWhileOpen(s, cid, rs[..|rs| - 1]);
      TrackedNext(s, cid, rs);
    }
  }

  lemma TrackedNext(s: Engine, cid: Cid, rs: seq<Op>)
    requires rs != [] && IsAnswer(rs[|rs| - 1], cid)
    requires Tracks(Drain(s, rs[..|rs| - 1]), DrainV(ViewOf(s), rs[..|rs| - 1]), cid, false, s.deferred)
    ensures Tracks(Drain(s, rs), DrainV(ViewOf(s), rs), cid, rs[|rs| - 1].header.kind.IsTerminal(), s.deferred)
  {
    var front, r := rs[..|rs| - 1], rs[|rs| - 1];
    TracksStep(Drain(s, front), DrainV(ViewOf(s), front), cid, s.deferred, r, Drain(s, rs), DrainV(ViewOf(s), rs));
  }

  lemma LastMayEnd(rs: seq<Op>, cid: Cid)
    requires rs != [] && AllAnswer(rs, cid) && !Trails(rs, cid)
    ensures AllOpenAnswers(rs[..|rs| - 1], cid)
    ensures Ended(rs, cid) <==> rs[|rs| - 1].header.kind.IsTerminal()
  {
    assert rs == rs[..|rs| - 1] + [rs[|rs| - 1]];
    EndedSnoc(rs[..|rs| - 1], rs[|rs| - 1], cid);
  }

  /** Responses of a tracked call need no room. */
  lemma TrackedIsView(s: Engine, cid: Cid, rs: seq<Op>)
    requires cid in s.calls && rs != [] && !Trails(rs, cid) && AllAnswer(rs, cid)
    ensures Tracks(Drain(s, rs), DrainV(ViewOf(s), rs), cid, Ended(rs, cid), s.deferred)
  {
    LastMayEnd(rs, cid);
    TrackedWhileOpen(s, cid, rs[..|rs| - 1]);
    TrackedNext(s, cid, rs);
  }

  lemma MatchedIsView(s: Engine, r: Op)
    requires r.ResponseSample? && r.header.cid in s.calls
    ensures ViewOf(Apply(s, r)) == TakeV(ViewOf(s), r)
    ensures r.header.cid in Apply(s, r).calls <==> !r.header.kind.IsTerminal()
    ensures Apply(s, r).deferred == s.deferred
  {
    var counted, x := CountResponse(s, r.channel, r.header), HeldOf(r, s.ledger.responses);
    assert ViewOf(counted) == CountV(ViewOf(s), SeriesOfOp(r));
    DirectIsSample(counted, r.header, s.ledger.responses, x);
    SampleIsView(counted, r.header.cid, x);
  }

  /** A call answered in order, by however many responses, yields exactly one record,
      taken between its request and the first of them, and occupies the gauge until its
      terminal.  What was held for its id before stays held, and came first. */
  lemma CallIsMeasuredOnItsFirstDirectResponse(s: Engine, rs: seq<Op>, q: Op)
    requires q.RequestSample? && q.header.kind == Request && q.header.cid !in s.calls
    requires rs != [] && !Trails(rs, q.header.cid) && AllAnswer(rs, q.header.cid)
    ensures var room, v, open := MakeRoom(s, q.victim), InOrder(s, rs, q), !Ended(rs, q.header.cid);
            && v.counters.latency == s.counters.latency + FirstLatency(q, rs[0])
            && v.counters.clockSkew == s.counters.clockSkew + FirstSkew(q, rs[0])
            && v.deferred == s.deferred
            && (q.header.cid in v.calls <==> open)
            && forall k :: Level(v.counters.inflight, k)
                           == Level(room.counters.inflight, k) + if open && k == Key(q.channel, q.header.serviceId) then 1 else 0
    ensures Jumps(Apply(s, q), rs[0]) <==> q.header.cid in s.deferred
  {
    AskRecorded(s, q, Apply(s, q));
    TrackedIsView(Apply(s, q), q.header.cid, rs);
    StreamRecorded(ViewOf(Apply(s, q)), q, rs);
    ReadRecord(Apply(s, q), InOrder(s, rs, q), q, rs, MakeRoom(s, q.victim).counters.inflight);
  }

  lemma AskRecorded(s: Engine, q: Op, b: Engine)
    requires q.RequestSample? && q.header.kind == Request && b == Apply(s, q)
    ensures b.counters.latency == s.counters.latency && b.counters.clockSkew == s.counters.clockSkew
    ensures b.counters.inflight == Adjust(MakeRoom(s, q.victim).counters.inflight, KeyOf(CallOf(q)), 1)
    ensures q.header.cid in b.calls && ViewOf(b).calls[q.header.cid] == CallOf(q)
    ensures !b.calls[q.header.cid].firstResponseSeen && b.deferred == s.deferred
  {
    AskIsView(s, q);
  }

  lemma ReadRecord(b: Engine, v: Engine, q: Op, rs: seq<Op>, gauge: map<Key, int>)
    requires q.RequestSample? && rs != [] && rs[0].ResponseSample? && Recorded(ViewOf(b), ViewOf(v), q, rs)
    requires b.counters.inflight == Adjust(gauge, KeyOf(CallOf(q)), 1)
    ensures v.counters.latency == b.counters.latency + FirstLatency(q, rs[0])
    ensures v.counters.clockSkew == b.counters.clockSkew + FirstSkew(q, rs[0])
    ensures q.header.cid in v.calls <==> !Ended(rs, q.header.cid)
    ensures forall k :: Level(v.counters.inflight, k)
                        == Level(gauge, k) + if !Ended(rs, q.header.cid) && k == KeyOf(CallOf(q)) then 1 else 0
  {
    assert ViewOf(v).counters == v.counters && ViewOf(b).counters == b.counters;
    assert ViewOf(v).calls.Keys == v.calls.Keys;
  }
}
