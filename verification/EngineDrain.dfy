/** Draining samples: what a request and the responses of its call come to when they are
    taken in either order, as long as nothing of the call is taken in between. */
module EngineDrain {
  import opened Wire
  import opened Correlation
  import opened Engine
  import opened EngineViews

  // ---------------------------------------------------------------------------
  // Draining
  // ---------------------------------------------------------------------------

  ghost function Drain(s: Engine, ops: seq<Op>): Engine
  {
    if ops == [] then s else Apply(Drain(s, ops[..|ops| - 1]), ops[|ops| - 1])
  }

  lemma DrainSnoc(s: Engine, ops: seq<Op>, o: Op)
    ensures Drain(s, ops + [o]) == Apply(Drain(s, ops), o)
  {
    assert (ops + [o])[..|ops|] == ops;
  }

  function DrainV(v: View, ops: seq<Op>): View
  {
    if ops == [] then v else TakeV(DrainV(v, ops[..|ops| - 1]), ops[|ops| - 1])
  }

  predicate IsAnswer(o: Op, cid: Cid) { o.ResponseSample? && o.header.cid == cid }

  /** How many calls the samples may add to the table. */
  function Asks(ops: seq<Op>): nat
  {
    if ops == [] then 0 else Asks(ops[..|ops| - 1]) + if ops[|ops| - 1].RequestSample? then 1 else 0
  }

  /** The calls they answer. */
  function IdsOf(ops: seq<Op>): set<Cid>
  {
    if ops == [] then {}
    else IdsOf(ops[..|ops| - 1]) + if ops[|ops| - 1].ResponseSample? then {ops[|ops| - 1].header.cid} else {}
  }

  /** Each response finds room among streams held for `ids` and for the calls answered
      before it. */
  predicate RoomFor(ids: set<Cid>, ops: seq<Op>)
  {
    ops == []
    || (RoomFor(ids, ops[..|ops| - 1])
        && (ops[|ops| - 1].ResponseSample? ==> |ids + IdsOf(ops[..|ops| - 1])| < MAX_DEFERRED))
  }

  /** How many of them are responses of one call. */
  function AnswersOf(ops: seq<Op>, cid: Cid): nat
  {
    if ops == [] then 0 else AnswersOf(ops[..|ops| - 1], cid) + if IsAnswer(ops[|ops| - 1], cid) then 1 else 0
  }

  /** The samples meet no capacity bound. */
  ghost predicate FitAll(s: Engine, ops: seq<Op>)
  {
    && (forall o :: o in ops ==> IsSample(o))
    && (Asks(ops) > 0 ==> |s.calls| + Asks(ops) <= s.config.maxInflight)
    && RoomFor(s.deferred.Keys, ops)
  }

  lemma GrowByOne(s: Engine, o: Op)
    requires HasRoom(s, o)
    ensures Apply(s, o).config == s.config
    ensures |Apply(s, o).calls| <= |s.calls| + if o.RequestSample? then 1 else 0
    ensures Apply(s, o).deferred.Keys <= s.deferred.Keys + if o.ResponseSample? then {o.header.cid} else {}
  {
    TakeIsView(s, o);
    KeysAfter(ViewOf(s), o);
    SizesAfter(s, Apply(s, o), o, TakeV(ViewOf(s), o));
  }

  lemma SizesAfter(s: Engine, t: Engine, o: Op, w: View)
    requires ViewOf(t) == w
    requires w.calls.Keys <= s.calls.Keys + if o.RequestSample? then {o.header.cid} else {}
    ensures t.config == w.config && t.deferred == w.deferred
    ensures |t.calls| <= |s.calls| + if o.RequestSample? then 1 else 0
  {
    assert w.calls.Keys == t.calls.Keys;
    SubsetSize(t.calls.Keys, s.calls.Keys + if o.RequestSample? then {o.header.cid} else {});
  }

  lemma KeysAfter(v: View, o: Op)
    requires IsSample(o)
    ensures TakeV(v, o).config == v.config
    ensures TakeV(v, o).calls.Keys <= v.calls.Keys + if o.RequestSample? then {o.header.cid} else {}
    ensures TakeV(v, o).deferred.Keys <= v.deferred.Keys + if o.ResponseSample? then {o.header.cid} else {}
  {
  }

  lemma SubsetSize<K>(a: set<K>, b: set<K>)
    requires a <= b
    ensures |a| <= |b|
  {
    assert b == a + (b - a);
  }

  lemma {:induction false} DrainIsView(s: Engine, ops: seq<Op>)
    requires FitAll(s, ops)
    ensures ViewOf(Drain(s, ops)) == DrainV(ViewOf(s), ops)
    ensures Drain(s, ops).config == s.config
    ensures |Drain(s, ops).calls| <= |s.calls| + Asks(ops)
    ensures Drain(s, ops).deferred.Keys <= s.deferred.Keys + IdsOf(ops)
    decreases |ops|
  {
    if ops != [] {
      var front, o := ops[..|ops| - 1], ops[|ops| - 1];
      DrainIsView(s, front);
      assert o in ops;
      var t := Drain(s, front);
      SubsetSize(t.deferred.Keys, s.deferred.Keys + IdsOf(front));
      assert |t.deferred| == |t.deferred.Keys|;
      TakeIsView(t, o);
      GrowByOne(t, o);
    }
  }

  lemma {:induction false} DrainSplit(v: View, a: seq<Op>, b: seq<Op>)
    ensures DrainV(v, a + b) == DrainV(DrainV(v, a), b)
    decreases |b|
  {
    if b == [] {
      assert a + b == a;
    } else {
      assert (a + b)[..|a + b| - 1] == a + b[..|b| - 1];
      DrainSplit(v, a, b[..|b| - 1]);
    }
  }

  lemma OneSample(v: View, o: Op)
    ensures DrainV(v, [o]) == TakeV(v, o)
  {
    assert DrainV(v, [o][..0]) == v;
  }

  lemma {:induction false} RoomSplit(ids: set<Cid>, a: seq<Op>, b: seq<Op>)
    ensures Asks(a + b) == Asks(a) + Asks(b)
    ensures IdsOf(a + b) == IdsOf(a) + IdsOf(b)
    ensures RoomFor(ids, a + b) <==> RoomFor(ids, a) && RoomFor(ids + IdsOf(a), b)
    decreases |b|
  {
    if b == [] {
      assert a + b == a;
    } else {
      var front := b[..|b| - 1];
      assert (a + b)[..|a + b| - 1] == a + front;
      RoomSplit(ids, a, front);
      assert ids + IdsOf(a + front) == ids + IdsOf(a) + IdsOf(front);
    }
  }

  lemma OneAsked(ids: set<Cid>, q: Op)
    requires q.RequestSample?
    ensures IdsOf([q]) == {} && Asks([q]) == 1 && RoomFor(ids, [q])
  {
    assert [q][..0] == [];
  }

  /** A request changes nothing to the room of the responses around it. */
  lemma RoomAround(ids: set<Cid>, q: Op, before: seq<Op>, after: seq<Op>)
    requires q.RequestSample?
    ensures RoomFor(ids, before + [q] + after) <==> RoomFor(ids, before) && RoomFor(ids + IdsOf(before), after)
    ensures Asks(before + [q] + after) == Asks(before) + 1 + Asks(after)
  {
    OneAsked(ids + IdsOf(before), q);
    RoomSplit(ids, before + [q], after);
    RoomSplit(ids, before, [q]);
    assert IdsOf(before + [q]) == IdsOf(before);
  }

  lemma RoomBehind(ids: set<Cid>, q: Op, before: seq<Op>, after: seq<Op>)
    requires q.RequestSample?
    ensures RoomFor(ids, [q] + before + after) <==> RoomFor(ids, before) && RoomFor(ids + IdsOf(before), after)
    ensures Asks([q] + before + after) == Asks(before) + 1 + Asks(after)
  {
    OneAsked(ids, q);
    RoomSplit(ids, [q] + before, after);
    RoomSplit(ids, [q], before);
    assert IdsOf([q] + before) == IdsOf(before) && ids + {} == ids;
  }

  // ---------------------------------------------------------------------------
  // Two places for one request
  // ---------------------------------------------------------------------------

  /** Some response of the call is terminal. */
  predicate Ended(ops: seq<Op>, cid: Cid)
  {
    exists i :: 0 <= i < |ops| && IsAnswer(ops[i], cid) && ops[i].header.kind.IsTerminal()
  }

  /** Some response of the call follows a terminal one. */
  predicate Trails(ops: seq<Op>, cid: Cid)
  {
    exists i, j :: 0 <= i < j < |ops| && IsAnswer(ops[i], cid) && ops[i].header.kind.IsTerminal() && IsAnswer(ops[j], cid)
  }

  lemma EndedSnoc(ops: seq<Op>, o: Op, cid: Cid)
    ensures Ended(ops + [o], cid) <==> Ended(ops, cid) || (IsAnswer(o, cid) && o.header.kind.IsTerminal())
    ensures Trails(ops + [o], cid) <==> Trails(ops, cid) || (IsAnswer(o, cid) && Ended(ops, cid))
  {
    var all := ops + [o];
    assert all[|ops|] == o && forall i :: 0 <= i < |ops| ==> all[i] == ops[i];
    if Ended(ops, cid) {
      var i :| 0 <= i < |ops| && IsAnswer(ops[i], cid) && ops[i].header.kind.IsTerminal();
      assert IsAnswer(all[i], cid) && all[i].header.kind.IsTerminal();
    }
    if Trails(ops, cid) {
      var i, j :| 0 <= i < j < |ops| && IsAnswer(ops[i], cid) && ops[i].header.kind.IsTerminal() && IsAnswer(ops[j], cid);
      assert IsAnswer(all[i], cid) && all[i].header.kind.IsTerminal() && IsAnswer(all[j], cid);
    }
  }

  /** Replaying what `e` holds for the call, once asked, gives `i`. */
  ghost predicate CaughtUp(e: View, i: View, cid: Cid)
  {
    ReplayV(e, cid) == i
  }

  /** After some samples, `n` of them responses of the call, the request first (`i`) or still
      to come (`e`), as long as none follows a terminal. */
  ghost predicate Paired(e: View, i: View, cid: Cid, call: PendingCall, n: nat, ended: bool, trails: bool)
  {
    && cid !in e.calls
    && |HeldFor(e.deferred, cid)| == n
    && (cid in e.deferred <==> n > 0)
    && i.responses == e.responses
    && (!trails ==> CaughtUp(AskV(e, cid, call), i, cid) && cid !in i.deferred && (cid in i.calls <==> !ended))
  }

  ghost predicate InStep(e: View, i: View, cid: Cid, call: PendingCall, p: seq<Op>)
  {
    Paired(e, i, cid, call, AnswersOf(p, cid), Ended(p, cid), Trails(p, cid))
  }

  lemma AnswersSnoc(p: seq<Op>, o: Op, cid: Cid)
    ensures AnswersOf(p + [o], cid) == AnswersOf(p, cid) + if IsAnswer(o, cid) then 1 else 0
  {
    assert (p + [o])[..|p|] == p;
  }

  lemma TakeKeepsOther(v: View, cid: Cid, o: Op)
    requires IsSample(o) && o.header.cid != cid
    ensures var w := TakeV(v, o);
      && (cid in w.calls <==> cid in v.calls)
      && (cid in v.calls ==> w.calls[cid] == v.calls[cid])
      && (cid in w.deferred <==> cid in v.deferred)
      && HeldFor(w.deferred, cid) == HeldFor(v.deferred, cid)
      && w.responses == v.responses + if o.ResponseSample? then 1 else 0
  {
  }

  lemma OtherPaired(e: View, i: View, cid: Cid, call: PendingCall, n: nat, ended: bool, trails: bool, o: Op)
    requires Paired(e, i, cid, call, n, ended, trails) && IsSample(o) && o.header.cid != cid
    ensures Paired(TakeV(e, o), TakeV(i, o), cid, call, n, ended, trails)
  {
    TakeKeepsOther(e, cid, o);
    TakeKeepsOther(i, cid, o);
    AskTake(e, cid, call, o);
    ReplayTake(AskV(e, cid, call), cid, o);
  }

  // A response of the call itself

  lemma {:induction false} SamplesSnoc(v: View, cid: Cid, xs: seq<HeldSample>, x: HeldSample)
    ensures SamplesV(v, cid, xs + [x]) == SampleV(SamplesV(v, cid, xs), cid, x)
    decreases |xs|
  {
    if xs == [] {
      assert SamplesV(SampleV(v, cid, x), cid, []) == SampleV(v, cid, x);
      assert xs + [x] == [x];
    } else {
      assert (xs + [x])[1..] == xs[1..] + [x];
      SamplesSnoc(SampleV(v, cid, xs[0]), cid, xs[1..], x);
    }
  }

  lemma {:induction false} SamplesCount(v: View, cid: Cid, xs: seq<HeldSample>, series: ResponseSeries)
    ensures SamplesV(CountV(v, series), cid, xs) == CountV(SamplesV(v, cid, xs), series)
    decreases |xs|
  {
    if xs != [] {
      SampleCount(v, cid, xs[0], series);
      SamplesCount(SampleV(v, cid, xs[0]), cid, xs[1..], series);
    }
  }

  /** Holding one response more, then asking and replaying, replays it last. */
  lemma HoldThenReplay(e: View, cid: Cid, call: PendingCall, o: Op)
    requires IsAnswer(o, cid) && cid !in e.calls && |HeldFor(e.deferred, cid)| < MAX_DEFERRED_SAMPLES
    ensures ReplayV(AskV(TakeV(e, o), cid, call), cid)
            == SampleV(CountV(ReplayV(AskV(e, cid, call), cid), SeriesOfOp(o)), cid, HeldOf(o, e.responses))
    ensures HeldFor(TakeV(e, o).deferred, cid) == HeldFor(e.deferred, cid) + [HeldOf(o, e.responses)]
    ensures cid in TakeV(e, o).deferred && cid !in TakeV(e, o).calls
  {
    var x, xs := HeldOf(o, e.responses), HeldFor(e.deferred, cid);
    var t := TakeV(e, o);
    var bare := WithoutHeld(AskV(e, cid, call), cid);
    assert HeldFor(t.deferred, cid) == xs + [x];
    assert t.deferred - {cid} == e.deferred - {cid};
    assert WithoutHeld(AskV(t, cid, call), cid) == CountV(bare, SeriesOfOp(o));
    SamplesSnoc(CountV(bare, SeriesOfOp(o)), cid, xs, x);
    SamplesCount(bare, cid, xs, SeriesOfOp(o));
  }

  lemma AnswerNumbers(v: View, o: Op)
    requires o.ResponseSample?
    ensures TakeV(v, o).responses == v.responses + 1
  {
  }

  lemma OwnPaired(e: View, i: View, cid: Cid, call: PendingCall, n: nat, ended: bool, trails: bool, o: Op)
    requires Paired(e, i, cid, call, n, ended, trails) && IsAnswer(o, cid) && n < MAX_DEFERRED_SAMPLES
    ensures Paired(TakeV(e, o), TakeV(i, o), cid, call, n + 1, ended || o.header.kind.IsTerminal(), trails || ended)
  {
    HoldThenReplay(e, cid, call, o);
    AnswerNumbers(e, o);
    AnswerNumbers(i, o);
    if !trails && !ended {
      OwnMatched(e, i, cid, call, o);
    }
  }

  /** Still open: the response is matched at once, or replayed last. */
  lemma OwnMatched(e: View, i: View, cid: Cid, call: PendingCall, o: Op)
    requires IsAnswer(o, cid) && cid !in e.calls && |HeldFor(e.deferred, cid)| < MAX_DEFERRED_SAMPLES
    requires CaughtUp(AskV(e, cid, call), i, cid) && cid in i.calls && i.responses == e.responses
    ensures var i' := TakeV(i, o);
      && CaughtUp(AskV(TakeV(e, o), cid, call), i', cid)
      && (cid in i'.calls <==> !o.header.kind.IsTerminal())
      && i'.deferred == i.deferred && i'.responses == TakeV(e, o).responses
  {
    HoldThenReplay(e, cid, call, o);
  }

  // Whole passes

  /** A sample that neither asks for nor answers the call. */
  predicate Elsewhere(o: Op, cid: Cid)
  {
    IsSample(o) && (o.header.cid == cid ==> o.RequestSample? && o.header.kind != Request)
  }

  /** Only samples of other calls, and responses of this one. */
  predicate Around(ops: seq<Op>, cid: Cid)
  {
    forall k :: 0 <= k < |ops| ==> Elsewhere(ops[k], cid) || IsAnswer(ops[k], cid)
  }

  lemma StepInStep(e: View, i: View, cid: Cid, call: PendingCall, p: seq<Op>, o: Op)
    requires InStep(e, i, cid, call, p) && (Elsewhere(o, cid) || IsAnswer(o, cid))
    requires AnswersOf(p + [o], cid) <= MAX_DEFERRED_SAMPLES
    ensures InStep(TakeV(e, o), TakeV(i, o), cid, call, p + [o])
  {
    EndedSnoc(p, o, cid);
    AnswersSnoc(p, o, cid);
    if IsAnswer(o, cid) {
      OwnPaired(e, i, cid, call, AnswersOf(p, cid), Ended(p, cid), Trails(p, cid), o);
    } else if o.header.cid != cid {
      OtherPaired(e, i, cid, call, AnswersOf(p, cid), Ended(p, cid), Trails(p, cid), o);
    }
  }

  lemma {:induction false} PassesInStep(v: View, cid: Cid, call: PendingCall, p: seq<Op>)
    requires cid !in v.calls && cid !in v.deferred && AnswersOf(p, cid) <= MAX_DEFERRED_SAMPLES
    requires Around(p, cid)
    ensures InStep(DrainV(v, p), DrainV(AskV(v, cid, call), p), cid, call, p)
    decreases |p|
  {
    if p == [] {
      assert v.deferred - {cid} == v.deferred;
    } else {
      var front, o := p[..|p| - 1], p[|p| - 1];
      assert p == front + [o];
      PassesInStep(v, cid, call, front);
      StepInStep(DrainV(v, front), DrainV(AskV(v, cid, call), front), cid, call, front, o);
    }
  }

  /** Samples of other calls after the request change nothing. */
  lemma {:induction false} StaysInStep(e: View, i: View, cid: Cid, p: seq<Op>)
    requires forall k :: 0 <= k < |p| ==> Elsewhere(p[k], cid)
    ensures CaughtUp(e, i, cid) ==> CaughtUp(DrainV(e, p), DrainV(i, p), cid)
    ensures cid in DrainV(e, p).calls <==> cid in e.calls
    ensures cid in e.calls ==> DrainV(e, p).calls[cid] == e.calls[cid]
    ensures HeldFor(DrainV(e, p).deferred, cid) == HeldFor(e.deferred, cid)
    ensures cid in DrainV(e, p).deferred <==> cid in e.deferred
    decreases |p|
  {
    if p != [] {
      var front, o := p[..|p| - 1], p[|p| - 1];
      StaysInStep(e, i, cid, front);
      var e', i' := DrainV(e, front), DrainV(i, front);
      if o.header.cid != cid {
        TakeKeepsOther(e', cid, o);
        ReplayTake(e', cid, o);
      }
    }
  }
}
