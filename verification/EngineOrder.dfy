/** When it matters where a request is observed among the responses of its own call and
    the samples of all the others. */
module EngineOrder {
  import opened Wire
  import opened Correlation
  import opened Engine
  import opened EngineViews
  import opened EngineAgreement
  import opened EngineDrain

  // ---------------------------------------------------------------------------
  // The responses of one call among other samples
  // ---------------------------------------------------------------------------

  /** How many responses of the call follow a terminal one. */
  ghost function Tailing(ops: seq<Op>, cid: Cid): nat
  {
    if ops == [] then 0
    else
      var front, o := ops[..|ops| - 1], ops[|ops| - 1];
      Tailing(front, cid) + if IsAnswer(o, cid) && Ended(front, cid) then 1 else 0
  }

  /** Its first response. */
  function FirstAnswer(ops: seq<Op>, cid: Cid): (o: Op)
    requires AnswersOf(ops, cid) > 0
    ensures IsAnswer(o, cid)
  {
    var front := ops[..|ops| - 1];
    if AnswersOf(front, cid) > 0 then FirstAnswer(front, cid) else ops[|ops| - 1]
  }

  lemma Snoc(ops: seq<Op>, o: Op, cid: Cid)
    ensures AnswersOf(ops + [o], cid) == AnswersOf(ops, cid) + if IsAnswer(o, cid) then 1 else 0
    ensures Tailing(ops + [o], cid) == Tailing(ops, cid) + if IsAnswer(o, cid) && Ended(ops, cid) then 1 else 0
    ensures Ended(ops + [o], cid) <==> Ended(ops, cid) || (IsAnswer(o, cid) && o.header.kind.IsTerminal())
    ensures Trails(ops + [o], cid) <==> Trails(ops, cid) || (IsAnswer(o, cid) && Ended(ops, cid))
    ensures AnswersOf(ops, cid) > 0 ==> FirstAnswer(ops + [o], cid) == FirstAnswer(ops, cid)
    ensures AnswersOf(ops, cid) == 0 && IsAnswer(o, cid) ==> FirstAnswer(ops + [o], cid) == o
  {
    assert (ops + [o])[..|ops|] == ops;
    EndedSnoc(ops, o, cid);
  }

  lemma {:induction false} TailingIsTrailing(ops: seq<Op>, cid: Cid)
    ensures Tailing(ops, cid) > 0 <==> Trails(ops, cid)
    ensures Ended(ops, cid) ==> AnswersOf(ops, cid) > 0
    ensures Tailing(ops, cid) <= AnswersOf(ops, cid)
  {
    if ops != [] {
      var front, o := ops[..|ops| - 1], ops[|ops| - 1];
      assert ops == front + [o];
      TailingIsTrailing(front, cid);
      Snoc(front, o, cid);
    }
  }

  // ---------------------------------------------------------------------------
  // What the two orders leave for the call
  // ---------------------------------------------------------------------------

  /** Alike for all other calls, as far as held streams and orphans go. */
  ghost predicate Alongside(e: View, i: View, cid: Cid)
  {
    && e.deferred - {cid} == i.deferred - {cid} && e.calls.Keys - {cid} == i.calls.Keys - {cid}
    && e.counters.orphan == i.counters.orphan && e.responses == i.responses
  }

  ghost predicate HoldsSome(v: View, cid: Cid, n: nat)
  {
    |HeldFor(v.deferred, cid)| == n && (cid in v.deferred <==> n > 0)
  }

  /** `e` holds `first` and what came after it for the call, `i` only later responses. */
  ghost predicate Apart(e: View, i: View, cid: Cid, first: HeldSample, eOpen: bool, iOpen: bool, eHeld: nat, iHeld: nat)
  {
    && Alongside(e, i, cid)
    && (cid in e.calls <==> eOpen) && (cid in i.calls <==> iOpen)
    && HoldsSome(e, cid, eHeld) && HoldsSome(i, cid, iHeld)
    && eHeld > 0 && HeldFor(e.deferred, cid)[0] == first && first.tag < i.responses
    && forall k :: 0 <= k < iHeld ==> HeldFor(i.deferred, cid)[k].tag > first.tag
  }

  /** A response of the call: matched if it is open, held if it is not. */
  lemma OwnTake(v: View, cid: Cid, o: Op)
    requires IsAnswer(o, cid) && (cid !in v.calls ==> |HeldFor(v.deferred, cid)| < MAX_DEFERRED_SAMPLES)
    ensures var w := TakeV(v, o);
      && w.deferred - {cid} == v.deferred - {cid} && w.calls.Keys - {cid} == v.calls.Keys - {cid}
      && w.counters.orphan == v.counters.orphan && w.responses == v.responses + 1
      && (cid in v.calls ==> w.deferred == v.deferred && (cid in w.calls <==> !o.header.kind.IsTerminal()))
      && (cid !in v.calls ==> w.calls == v.calls && cid in w.deferred
                              && HeldFor(w.deferred, cid) == HeldFor(v.deferred, cid) + [HeldOf(o, v.responses)])
  {
    var w := TakeV(v, o);
    if cid in v.calls {
      assert AfterResponse(v.calls, cid, o.header.kind.IsTerminal()).Keys - {cid} == v.calls.Keys - {cid};
    } else {
      assert w.deferred - {cid} == v.deferred - {cid};
    }
  }

  lemma AlongsideTake(e: View, i: View, cid: Cid, o: Op)
    requires Alongside(e, i, cid) && IsSample(o) && o.header.cid != cid
    ensures Alongside(TakeV(e, o), TakeV(i, o), cid)
  {
    var d := o.header.cid;
    WithoutTake(e, cid, o);
    WithoutTake(i, cid, o);
    assert d in e.calls <==> d in e.calls.Keys - {cid};
    assert d in i.calls <==> d in i.calls.Keys - {cid};
    TakeTouches(e, o);
    TakeTouches(i, o);
    KeysAlongside(e.calls.Keys, i.calls.Keys, cid, d);
    TakeTouches(WithoutHeld(e, cid), o);
    TakeTouches(WithoutHeld(i, cid), o);
    if o.ResponseSample? && d !in e.calls {
      SettleAlike(CountV(WithoutHeld(e, cid), SeriesOfOp(o)), CountV(WithoutHeld(i, cid), SeriesOfOp(o)),
                  o.channel, HeldOf(o, e.responses), o.now);
    }
  }

  lemma KeysAlongside(a: set<Cid>, b: set<Cid>, cid: Cid, d: Cid)
    requires a - {cid} == b - {cid}
    ensures a + {d} - {cid} == b + {d} - {cid} && a - {d} - {cid} == b - {d} - {cid} && a + {} == a && b + {} == b
  {
    assert a - {d} - {cid} == a - {cid} - {d} && b - {d} - {cid} == b - {cid} - {d};
    assert a + {d} - {cid} == (a - {cid}) + ({d} - {cid}) && b + {d} - {cid} == (b - {cid}) + ({d} - {cid});
  }

  lemma AskTouches(v: View, o: Op)
    requires o.RequestSample?
    ensures var w, d := TakeV(v, o), o.header.cid;
      && w.responses == v.responses && w.deferred == v.deferred && w.counters.orphan == v.counters.orphan
      && w.calls.Keys == v.calls.Keys + if o.header.kind == Request then {d} else {}
  {
  }

  lemma AnswerTouches(v: View, o: Op)
    requires o.ResponseSample?
    ensures var w, d := TakeV(v, o), o.header.cid;
      && w.responses == v.responses + 1
      && (d in v.calls ==> w.deferred == v.deferred && w.counters.orphan == v.counters.orphan)
      && w.calls.Keys == if d in v.calls && o.header.kind.IsTerminal() then v.calls.Keys - {d} else v.calls.Keys
  {
  }

  /** What a sample does to the tables of a state. */
  lemma TakeTouches(v: View, o: Op)
    requires IsSample(o)
    ensures var w, d := TakeV(v, o), o.header.cid;
      && w.responses == v.responses + (if o.ResponseSample? then 1 else 0)
      && (!(o.ResponseSample? && d !in v.calls) ==> w.deferred == v.deferred && w.counters.orphan == v.counters.orphan)
      && (o.RequestSample? ==> w.calls.Keys == v.calls.Keys + if o.header.kind == Request then {d} else {})
      && (o.ResponseSample? ==>
            w.calls.Keys == if d in v.calls && o.header.kind.IsTerminal() then v.calls.Keys - {d} else v.calls.Keys)
  {
    if o.RequestSample? { AskTouches(v, o); } else { AnswerTouches(v, o); }
  }

  lemma SettleAlike(v: View, w: View, channel: string, x: HeldSample, now: nat)
    requires v.deferred == w.deferred && v.counters.orphan == w.counters.orphan
    ensures SettleV(v, channel, x, now).deferred == SettleV(w, channel, x, now).deferred
    ensures SettleV(v, channel, x, now).counters.orphan == SettleV(w, channel, x, now).counters.orphan
  {
  }

  lemma OtherApart(e: View, i: View, cid: Cid, first: HeldSample, eOpen: bool, iOpen: bool, eHeld: nat, iHeld: nat, o: Op)
    requires Apart(e, i, cid, first, eOpen, iOpen, eHeld, iHeld) && IsSample(o) && o.header.cid != cid
    ensures Apart(TakeV(e, o), TakeV(i, o), cid, first, eOpen, iOpen, eHeld, iHeld)
  {
    AlongsideTake(e, i, cid, o);
    TakeKeepsOther(e, cid, o);
    TakeKeepsOther(i, cid, o);
  }

  lemma OwnApart(e: View, i: View, cid: Cid, first: HeldSample, eOpen: bool, iOpen: bool, eHeld: nat, iHeld: nat, o: Op)
    requires Apart(e, i, cid, first, eOpen, iOpen, eHeld, iHeld) && IsAnswer(o, cid)
    requires eOpen || eHeld < MAX_DEFERRED_SAMPLES
    requires iOpen || iHeld < MAX_DEFERRED_SAMPLES
    ensures var t := o.header.kind.IsTerminal();
      Apart(TakeV(e, o), TakeV(i, o), cid, first, eOpen && !t, iOpen && !t,
            if eOpen then eHeld else eHeld + 1, if iOpen then iHeld else iHeld + 1)
  {
    OwnTake(e, cid, o);
    OwnTake(i, cid, o);
  }

  /** Before the request: `e` holds every response, `i` what follows a terminal. */
  ghost predicate ApartBefore(e: View, i: View, cid: Cid, first: HeldSample, p: seq<Op>)
  {
    && AnswersOf(p, cid) > 0 && first.header == FirstAnswer(p, cid).header
    && Apart(e, i, cid, first, false, !Ended(p, cid), AnswersOf(p, cid), Tailing(p, cid))
  }

  lemma StepBefore(e: View, i: View, cid: Cid, first: HeldSample, p: seq<Op>, o: Op)
    requires ApartBefore(e, i, cid, first, p) && (Elsewhere(o, cid) || IsAnswer(o, cid))
    requires AnswersOf(p + [o], cid) <= MAX_DEFERRED_SAMPLES
    ensures ApartBefore(TakeV(e, o), TakeV(i, o), cid, first, p + [o])
  {
    Snoc(p, o, cid);
    TailingIsTrailing(p, cid);
    StepApart(e, i, cid, first, false, !Ended(p, cid), AnswersOf(p, cid), Tailing(p, cid), o);
  }

  lemma FirstBefore(e: View, i: View, cid: Cid, call: PendingCall, p: seq<Op>, o: Op)
    requires InStep(e, i, cid, call, p) && AnswersOf(p, cid) == 0 && IsAnswer(o, cid)
    ensures ApartBefore(TakeV(e, o), TakeV(i, o), cid, HeldOf(o, e.responses), p + [o])
  {
    Snoc(p, o, cid);
    TailingIsTrailing(p, cid);
    NothingHeld(AskV(e, cid, call), cid);
    FirstApart(e, cid, call, o);
  }

  lemma {:induction false} BeforeApart(w: View, cid: Cid, call: PendingCall, p: seq<Op>) returns (first: HeldSample)
    requires cid !in w.calls && cid !in w.deferred && AnswersOf(p, cid) <= MAX_DEFERRED_SAMPLES && Around(p, cid)
    ensures AnswersOf(p, cid) > 0 ==> ApartBefore(DrainV(w, p), DrainV(AskV(w, cid, call), p), cid, first, p)
    decreases |p|
  {
    first := HeldSample(RpcHeader(cid, Request, 0, 0, 0), Emitter(0, 0), 0, 0);
    if p != [] {
      var front, o := p[..|p| - 1], p[|p| - 1];
      assert p == front + [o];
      first := BeforeApart(w, cid, call, front);
      var e, i := DrainV(w, front), DrainV(AskV(w, cid, call), front);
      if AnswersOf(front, cid) > 0 {
        StepBefore(e, i, cid, first, front, o);
      } else if IsAnswer(o, cid) {
        PassesInStep(w, cid, call, front);
        first := HeldOf(o, e.responses);
        FirstBefore(e, i, cid, call, front, o);
      }
    }
  }

  lemma NothingHeld(v: View, cid: Cid)
    requires cid !in v.deferred
    ensures ReplayV(v, cid) == v
  {
    assert v.deferred - {cid} == v.deferred;
  }

  lemma FirstApart(e: View, cid: Cid, call: PendingCall, o: Op)
    requires cid !in e.calls && cid !in e.deferred && IsAnswer(o, cid)
    ensures Apart(TakeV(e, o), TakeV(AskV(e, cid, call), o), cid, HeldOf(o, e.responses), false, !o.header.kind.IsTerminal(), 1, 0)
  {
    var i := AskV(e, cid, call);
    assert i.calls.Keys - {cid} == e.calls.Keys - {cid};
    OwnTake(e, cid, o);
    OwnTake(i, cid, o);
  }

  /** How many responses each order is left holding: those before the request with what
      trails after it, or what trails in the whole stream. */
  ghost function LeftLate(before: seq<Op>, after: seq<Op>, cid: Cid): nat
  {
    AnswersOf(before, cid) + Tailing(after, cid)
  }

  ghost function LeftFirst(before: seq<Op>, after: seq<Op>, cid: Cid): nat
  {
    Tailing(before, cid) + if Ended(before, cid) then AnswersOf(after, cid) else Tailing(after, cid)
  }

  /** After it: both match until a terminal, and hold what follows one. */
  ghost predicate ApartAfter(e: View, i: View, cid: Cid, first: HeldSample, before: seq<Op>, p: seq<Op>)
  {
    Apart(e, i, cid, first, !Ended(p, cid), !Ended(before, cid) && !Ended(p, cid),
          LeftLate(before, p, cid), LeftFirst(before, p, cid))
  }

  lemma StepAfter(e: View, i: View, cid: Cid, first: HeldSample, before: seq<Op>, p: seq<Op>, o: Op)
    requires ApartAfter(e, i, cid, first, before, p) && (Elsewhere(o, cid) || IsAnswer(o, cid))
    requires LeftLate(before, p + [o], cid) <= MAX_DEFERRED_SAMPLES
    requires LeftFirst(before, p + [o], cid) <= MAX_DEFERRED_SAMPLES
    ensures ApartAfter(TakeV(e, o), TakeV(i, o), cid, first, before, p + [o])
  {
    Snoc(p, o, cid);
    StepApart(e, i, cid, first, !Ended(p, cid), !Ended(before, cid) && !Ended(p, cid),
              LeftLate(before, p, cid), LeftFirst(before, p, cid), o);
  }

  lemma {:induction false} AfterApart(e: View, i: View, cid: Cid, first: HeldSample, before: seq<Op>, p: seq<Op>)
    requires ApartAfter(e, i, cid, first, before, []) && Around(p, cid)
    requires LeftLate(before, p, cid) <= MAX_DEFERRED_SAMPLES && LeftFirst(before, p, cid) <= MAX_DEFERRED_SAMPLES
    ensures ApartAfter(DrainV(e, p), DrainV(i, p), cid, first, before, p)
    decreases |p|
  {
    if p != [] {
      var front, o := p[..|p| - 1], p[|p| - 1];
      assert p == front + [o];
      AfterApart(e, i, cid, first, before, front);
      StepAfter(DrainV(e, front), DrainV(i, front), cid, first, before, front, o);
    }
  }

  lemma StepApart(e: View, i: View, cid: Cid, first: HeldSample, eOpen: bool, iOpen: bool, eHeld: nat, iHeld: nat, o: Op)
    requires Apart(e, i, cid, first, eOpen, iOpen, eHeld, iHeld) && (Elsewhere(o, cid) || IsAnswer(o, cid))
    requires IsAnswer(o, cid) ==> (eOpen || eHeld < MAX_DEFERRED_SAMPLES) && (iOpen || iHeld < MAX_DEFERRED_SAMPLES)
    ensures var own := IsAnswer(o, cid);
      var ends := own && o.header.kind.IsTerminal();
      Apart(TakeV(e, o), TakeV(i, o), cid, first, eOpen && !ends, iOpen && !ends,
            eHeld + (if own && !eOpen then 1 else 0), iHeld + (if own && !iOpen then 1 else 0))
  {
    if IsAnswer(o, cid) {
      OwnApart(e, i, cid, first, eOpen, iOpen, eHeld, iHeld, o);
    } else if o.header.cid != cid {
      OtherApart(e, i, cid, first, eOpen, iOpen, eHeld, iHeld, o);
    }
  }

  // ---------------------------------------------------------------------------
  // No terminal at all: only the record can differ
  // ---------------------------------------------------------------------------

  function Mark(v: View, cid: Cid): View
    requires cid in v.calls
  {
    v.(calls := v.calls[cid := v.calls[cid].(firstResponseSeen := true)])
  }

  predicate AllOpen(xs: seq<HeldSample>)
  {
    forall k :: 0 <= k < |xs| ==> !xs[k].header.kind.IsTerminal()
  }

  /** A response that is not the last marks the call, and records it if it is the first. */
  lemma OpenSample(v: View, cid: Cid, x: HeldSample)
    requires cid in v.calls && !x.header.kind.IsTerminal()
    ensures SampleV(v, cid, x) == AddV(Mark(v, cid), LatencyOf(v.calls[cid], x), SkewOf(v.calls[cid], x))
    ensures v.calls[cid].firstResponseSeen ==> SampleV(v, cid, x) == v
  {
    if v.calls[cid].firstResponseSeen {
      assert v.calls[cid := v.calls[cid]] == v.calls;
      assert v.counters.latency + multiset{} == v.counters.latency;
    }
  }

  lemma {:induction false} SeenSamples(v: View, cid: Cid, xs: seq<HeldSample>)
    requires cid in v.calls && v.calls[cid].firstResponseSeen && AllOpen(xs)
    ensures SamplesV(v, cid, xs) == v
    decreases |xs|
  {
    if xs != [] {
      OpenSample(v, cid, xs[0]);
      SeenSamples(v, cid, xs[1..]);
    }
  }

  lemma OpenReplay(v: View, cid: Cid)
    requires cid in v.calls && cid in v.deferred && v.deferred[cid].samples != [] && AllOpen(v.deferred[cid].samples)
    ensures var x, call := v.deferred[cid].samples[0], v.calls[cid];
      ReplayV(v, cid) == AddV(Mark(WithoutHeld(v, cid), cid), LatencyOf(call, x), SkewOf(call, x))
    ensures v.calls[cid].firstResponseSeen ==> ReplayV(v, cid) == WithoutHeld(v, cid)
  {
    var xs, bare := v.deferred[cid].samples, WithoutHeld(v, cid);
    OpenSample(bare, cid, xs[0]);
    SeenSamples(SampleV(bare, cid, xs[0]), cid, xs[1..]);
  }

  /** Samples that leave a call open are not terminal. */
  lemma {:induction false} LeftOpen(v: View, cid: Cid, xs: seq<HeldSample>)
    requires cid in SamplesV(v, cid, xs).calls
    ensures cid in v.calls && AllOpen(xs)
    decreases |xs|
  {
    if xs != [] {
      LeftOpen(SampleV(v, cid, xs[0]), cid, xs[1..]);
      assert xs == [xs[0]] + xs[1..];
    }
  }

  /** `e` recorded `y` for the call and holds its earlier responses; `i` recorded `x`. */
  ghost predicate Swapped(e: View, i: View, cid: Cid, call: PendingCall, x: HeldSample, y: HeldSample)
  {
    && cid in e.calls && e.calls[cid].firstResponseSeen
    && AddV(WithoutHeld(e, cid), LatencyOf(call, x), SkewOf(call, x)) == AddV(i, LatencyOf(call, y), SkewOf(call, y))
  }

  /** Where both orders stand but for the record, once the first response after the request
      is in. */
  function Base(e: View, cid: Cid, o: Op): View
    requires cid in e.calls && o.ResponseSample?
  {
    CountV(Mark(WithoutHeld(e, cid), cid), SeriesOfOp(o))
  }

  lemma SwapLate(e: View, cid: Cid, call: PendingCall, o: Op)
    requires cid in e.calls && e.calls[cid] == call && IsAnswer(o, cid) && !o.header.kind.IsTerminal()
    ensures var y := HeldOf(o, e.responses);
      WithoutHeld(TakeV(e, o), cid) == AddV(Base(e, cid, o), LatencyOf(call, y), SkewOf(call, y))
    ensures cid in TakeV(e, o).calls && TakeV(e, o).calls[cid].firstResponseSeen
  {
    OpenSample(CountV(e, SeriesOfOp(o)), cid, HeldOf(o, e.responses));
  }

  lemma SwapFirst(e: View, i: View, cid: Cid, call: PendingCall, x: HeldSample, o: Op)
    requires Opening(e, i, cid, call, x) && IsAnswer(o, cid) && !o.header.kind.IsTerminal()
    ensures TakeV(i, o) == AddV(Base(e, cid, o), LatencyOf(call, x), SkewOf(call, x))
  {
    OpenReplay(e, cid);
    OpenSample(CountV(i, SeriesOfOp(o)), cid, HeldOf(o, i.responses));
  }

  /** Asked, with only open responses held, `x` the first of them. */
  ghost predicate Opening(e: View, i: View, cid: Cid, call: PendingCall, x: HeldSample)
  {
    && cid in e.calls && e.calls[cid] == call && CaughtUp(e, i, cid)
    && cid in e.deferred && e.deferred[cid].samples != [] && AllOpen(e.deferred[cid].samples)
    && e.deferred[cid].samples[0] == x
  }

  /** The first response after the request, with others held. */
  lemma FirstSwap(e: View, i: View, cid: Cid, call: PendingCall, x: HeldSample, o: Op)
    requires Opening(e, i, cid, call, x) && IsAnswer(o, cid) && !o.header.kind.IsTerminal()
    ensures Swapped(TakeV(e, o), TakeV(i, o), cid, call, x, HeldOf(o, e.responses))
  {
    var y := HeldOf(o, e.responses);
    SwapLate(e, cid, call, o);
    SwapFirst(e, i, cid, call, x, o);
    AddOrder(Base(e, cid, o), LatencyOf(call, x), SkewOf(call, x), LatencyOf(call, y), SkewOf(call, y));
  }

  lemma SameHeader(e: View, i: View, cid: Cid, call: PendingCall, x: HeldSample, y: HeldSample, y': HeldSample)
    requires Swapped(e, i, cid, call, x, y) && y.header == y'.header
    ensures Swapped(e, i, cid, call, x, y')
  {
    assert LatencyOf(call, y) == LatencyOf(call, y') && SkewOf(call, y) == SkewOf(call, y');
  }

  /** Nothing taken while a call is open and seen touches what is held for it. */
  lemma OpenTake(e: View, cid: Cid, o: Op)
    requires cid in e.calls && e.calls[cid].firstResponseSeen
    requires Elsewhere(o, cid) || (IsAnswer(o, cid) && !o.header.kind.IsTerminal())
    ensures WithoutHeld(TakeV(e, o), cid) == TakeV(WithoutHeld(e, cid), o)
    ensures cid in TakeV(e, o).calls && TakeV(e, o).calls[cid].firstResponseSeen
  {
    if IsAnswer(o, cid) {
      OpenSample(CountV(e, SeriesOfOp(o)), cid, HeldOf(o, e.responses));
      OpenSample(CountV(WithoutHeld(e, cid), SeriesOfOp(o)), cid, HeldOf(o, e.responses));
    } else if o.header.cid != cid {
      WithoutTake(e, cid, o);
      TakeKeepsOther(e, cid, o);
    }
  }

  lemma SwappedTake(e: View, i: View, cid: Cid, call: PendingCall, x: HeldSample, y: HeldSample, o: Op)
    requires Swapped(e, i, cid, call, x, y)
    requires Elsewhere(o, cid) || (IsAnswer(o, cid) && !o.header.kind.IsTerminal())
    ensures Swapped(TakeV(e, o), TakeV(i, o), cid, call, x, y)
  {
    OpenTake(e, cid, o);
    AddTake(WithoutHeld(e, cid), LatencyOf(call, x), SkewOf(call, x), o);
    AddTake(i, LatencyOf(call, y), SkewOf(call, y), o);
  }

  lemma OpeningStays(e: View, i: View, cid: Cid, call: PendingCall, x: HeldSample, p: seq<Op>)
    requires Opening(e, i, cid, call, x) && forall k :: 0 <= k < |p| ==> Elsewhere(p[k], cid)
    ensures Opening(DrainV(e, p), DrainV(i, p), cid, call, x)
  {
    StaysInStep(e, i, cid, p);
  }

  lemma StepSwapped(e: View, i: View, cid: Cid, call: PendingCall, x: HeldSample, p: seq<Op>, o: Op)
    requires AnswersOf(p, cid) > 0 && Swapped(e, i, cid, call, x, HeldOf(FirstAnswer(p, cid), 0))
    requires !Ended(p + [o], cid) && (Elsewhere(o, cid) || IsAnswer(o, cid))
    ensures Swapped(TakeV(e, o), TakeV(i, o), cid, call, x, HeldOf(FirstAnswer(p + [o], cid), 0))
  {
    Snoc(p, o, cid);
    SwappedTake(e, i, cid, call, x, HeldOf(FirstAnswer(p, cid), 0), o);
  }

  lemma BeginSwapped(e: View, i: View, cid: Cid, call: PendingCall, x: HeldSample, p: seq<Op>, o: Op)
    requires Opening(e, i, cid, call, x) && AnswersOf(p, cid) == 0 && !Ended(p + [o], cid) && IsAnswer(o, cid)
    ensures Swapped(TakeV(e, o), TakeV(i, o), cid, call, x, HeldOf(FirstAnswer(p + [o], cid), 0))
  {
    Snoc(p, o, cid);
    FirstSwap(e, i, cid, call, x, o);
    SameHeader(TakeV(e, o), TakeV(i, o), cid, call, x, HeldOf(o, e.responses), HeldOf(o, 0));
  }

  /** After the request, along samples without any terminal of the call. */
  lemma {:induction false} AfterSwapped(e: View, i: View, cid: Cid, call: PendingCall, x: HeldSample, p: seq<Op>)
    requires Opening(e, i, cid, call, x) && !Ended(p, cid) && Around(p, cid) && AnswersOf(p, cid) > 0
    ensures Swapped(DrainV(e, p), DrainV(i, p), cid, call, x, HeldOf(FirstAnswer(p, cid), 0))
    decreases |p|
  {
    var front, o := p[..|p| - 1], p[|p| - 1];
    assert p == front + [o];
    var e', i' := DrainV(e, front), DrainV(i, front);
    EndedSnoc(front, o, cid);
    if AnswersOf(front, cid) > 0 {
      AfterSwapped(e, i, cid, call, x, front);
      StepSwapped(e', i', cid, call, x, front, o);
    } else {
      NoAnswers(front, cid);
      OpeningStays(e, i, cid, call, x, front);
      BeginSwapped(e', i', cid, call, x, front, o);
    }
  }

  lemma {:induction false} NoAnswers(p: seq<Op>, cid: Cid)
    requires AnswersOf(p, cid) == 0 && Around(p, cid)
    ensures forall k :: 0 <= k < |p| ==> Elsewhere(p[k], cid)
  {
    if p != [] {
      var front, o := p[..|p| - 1], p[|p| - 1];
      assert p == front + [o];
      NoAnswers(front, cid);
    }
  }

  // ---------------------------------------------------------------------------
  // The condition
  // ---------------------------------------------------------------------------

  /** Two responses yield the same record of the call: the same latency, or a skew. */
  predicate SameRecord(q: Op, a: Op, b: Op)
    requires q.RequestSample? && a.ResponseSample? && b.ResponseSample?
  {
    a.header.timestampNs == b.header.timestampNs
    || (a.header.timestampNs < q.header.timestampNs && b.header.timestampNs < q.header.timestampNs)
  }

  /** Responses taken before the request `q` of their call, and after it, come to the same
      as all of them after it: there is none before it, or none after it and none trails a
      terminal, or none is terminal and the first of each side yield the same record. */
  ghost predicate Harmless(q: Op, before: seq<Op>, after: seq<Op>)
    requires q.RequestSample?
  {
    var cid := q.header.cid;
    || AnswersOf(before, cid) == 0
    || (AnswersOf(after, cid) == 0 && !Trails(before, cid))
    || (AnswersOf(before, cid) > 0 && AnswersOf(after, cid) > 0 && !Ended(before, cid) && !Ended(after, cid)
        && SameRecord(q, FirstAnswer(before, cid), FirstAnswer(after, cid)))
  }

  lemma RecordsSame(q: Op, x: HeldSample, y: HeldSample, a: Op, b: Op)
    requires q.RequestSample? && a.ResponseSample? && b.ResponseSample? && x.header == a.header && y.header == b.header
    ensures var call := CallOf(q);
      SameRecord(q, a, b) <==> LatencyOf(call, x) == LatencyOf(call, y) && SkewOf(call, x) == SkewOf(call, y)
  {
    var call, s, t := CallOf(q), x.header.timestampNs, y.header.timestampNs;
    if s >= call.requestTs && t >= call.requestTs {
      var l, m := LatencySample(call.channel, call.serviceId, call.methodName, s - call.requestTs),
                  LatencySample(call.channel, call.serviceId, call.methodName, t - call.requestTs);
      assert LatencyOf(call, x) == multiset{l} && LatencyOf(call, y) == multiset{m};
      if multiset{l} == multiset{m} { assert l in multiset{m}; }
    } else {
      assert SkewOf(call, x) == SkewOf(call, y) ==> s < call.requestTs && t < call.requestTs;
    }
  }

  /** The call is closed in both orders, each left with as many responses that nothing can
      match: the sweep may count them alike in the end, whichever they are. */
  ghost predicate Evened(before: seq<Op>, after: seq<Op>, cid: Cid)
  {
    Ended(before, cid) && Ended(after, cid) && LeftLate(before, after, cid) == LeftFirst(before, after, cid)
  }

  /** How the two orders stand once everything was taken. */
  ghost predicate Compared(e: View, i: View, q: Op, before: seq<Op>, after: seq<Op>, first: HeldSample)
    requires q.RequestSample?
  {
    var cid := q.header.cid;
    && (AnswersOf(before, cid) == 0 ==> e == i)
    && (AnswersOf(before, cid) > 0 ==>
          first.header == FirstAnswer(before, cid).header && ApartAfter(e, i, cid, first, before, after))
    && (AnswersOf(before, cid) > 0 && AnswersOf(after, cid) == 0 && !Trails(before, cid) ==> CaughtUp(e, i, cid))
    && (AnswersOf(before, cid) > 0 && AnswersOf(after, cid) > 0 && !Ended(before, cid) && !Ended(after, cid) ==>
          Swapped(e, i, cid, CallOf(q), first, HeldOf(FirstAnswer(after, cid), 0)) && AllOpen(HeldFor(e.deferred, cid)))
  }

  /** The call's responses, on either side of its request, find room where they are held. */
  ghost predicate FitHeld(before: seq<Op>, after: seq<Op>, cid: Cid)
  {
    LeftLate(before, after, cid) <= MAX_DEFERRED_SAMPLES && LeftFirst(before, after, cid) <= MAX_DEFERRED_SAMPLES
  }

  lemma Compare(w: View, q: Op, before: seq<Op>, after: seq<Op>) returns (first: HeldSample)
    requires q.RequestSample? && q.header.cid !in w.calls && q.header.cid !in w.deferred
    requires Around(before, q.header.cid) && Around(after, q.header.cid) && FitHeld(before, after, q.header.cid)
    ensures var cid, call := q.header.cid, CallOf(q);
      Compared(DrainV(AskV(DrainV(w, before), cid, call), after), DrainV(DrainV(AskV(w, cid, call), before), after),
               q, before, after, first)
  {
    var cid, call := q.header.cid, CallOf(q);
    var e, i := AskV(DrainV(w, before), cid, call), DrainV(AskV(w, cid, call), before);
    first := BeforeApart(w, cid, call, before);
    PassesInStep(w, cid, call, before);
    TailingIsTrailing(before, cid);
    if AnswersOf(before, cid) == 0 {
      NothingHeld(e, cid);
    } else {
      AskedApart(DrainV(w, before), i, cid, call, first, before);
      AfterApart(e, i, cid, first, before, after);
      if AnswersOf(after, cid) == 0 {
        NoAnswers(after, cid);
        StaysInStep(e, i, cid, after);
      } else if !Ended(before, cid) && !Ended(after, cid) {
        LeftOpen(WithoutHeld(e, cid), cid, HeldFor(e.deferred, cid));
        AfterSwapped(e, i, cid, call, first, after);
        HeldAlong(e, cid, after);
      }
    }
  }

  lemma AskedApart(e: View, i: View, cid: Cid, call: PendingCall, first: HeldSample, before: seq<Op>)
    requires ApartBefore(e, i, cid, first, before)
    ensures ApartAfter(AskV(e, cid, call), i, cid, first, before, [])
  {
    assert AskV(e, cid, call).calls.Keys - {cid} == e.calls.Keys - {cid};
  }

  /** What is held for a call stays while it is open. */
  lemma {:induction false} HeldAlong(e: View, cid: Cid, p: seq<Op>)
    requires cid in e.calls && Around(p, cid) && !Ended(p, cid)
    ensures cid in DrainV(e, p).calls && HeldFor(DrainV(e, p).deferred, cid) == HeldFor(e.deferred, cid)
    decreases |p|
  {
    if p != [] {
      var front, o := p[..|p| - 1], p[|p| - 1];
      assert p == front + [o];
      Snoc(front, o, cid);
      HeldAlong(e, cid, front);
      if IsAnswer(o, cid) {
        OwnTake(DrainV(e, front), cid, o);
      } else if o.header.cid != cid {
        TakeKeepsOther(DrainV(e, front), cid, o);
      }
    }
  }

  // ---------------------------------------------------------------------------
  // What later passes make of it
  // ---------------------------------------------------------------------------

  lemma CaughtUpAgrees(u: Engine, v: Engine, cid: Cid)
    requires cid in u.calls && CaughtUp(ViewOf(u), ViewOf(v), cid)
    ensures Agree(u, v)
  {
    ReplayIsView(u, cid);
    if cid in u.deferred {
      CaughtUpAgree(u, v, cid);
    } else {
      SameAgree(u, v);
    }
  }

  /** The call is still open in `u`, and closed in `v`, which holds responses of it. */
  lemma BehindDiffers(u: Engine, v: Engine, cid: Cid)
    requires cid in u.calls && cid in u.deferred && cid !in v.calls && Alongside(ViewOf(u), ViewOf(v), cid)
    requires cid in v.deferred && v.deferred[cid].samples != []
    ensures Differ(u, v)
  {
    OthersUntouched(u, cid);
    assert ViewOf(u).calls.Keys == u.calls.Keys && ViewOf(v).calls.Keys == v.calls.Keys;
    assert Lags(Replay(u, cid), v, cid);
    forall now: nat, ready: seq<Cid>, expired: seq<Cid>, ready': seq<Cid>, expired': seq<Cid>
      | ResolveOrders(u, ready, expired, now) && ResolveOrders(v, ready', expired', now)
      ensures !Same(Resolve(u, ready, expired), Resolve(v, ready', expired'))
    {
      ResolveStaysBehind(u, v, cid, now, ready, expired, ready', expired');
    }
  }

  lemma AlongsideClosed(u: Engine, v: Engine, cid: Cid)
    requires Alongside(ViewOf(u), ViewOf(v), cid) && cid !in u.calls && cid !in v.calls
    ensures Closed(u, v, cid)
  {
    assert ViewOf(u).calls.Keys == u.calls.Keys && ViewOf(v).calls.Keys == v.calls.Keys;
    assert u.calls.Keys - {cid} == u.calls.Keys && v.calls.Keys - {cid} == v.calls.Keys;
  }

  lemma SwappedReplayed(u: Engine, i: View, cid: Cid, call: PendingCall, x: HeldSample, y: HeldSample)
    requires Swapped(ViewOf(u), i, cid, call, x, y) && AllOpen(HeldFor(u.deferred, cid))
    requires cid in u.deferred && u.deferred[cid].samples != []
    ensures cid in u.calls && ViewOf(Replay(u, cid)) == WithoutHeld(ViewOf(u), cid)
    ensures ReplayV(ViewOf(u), cid) == WithoutHeld(ViewOf(u), cid)
  {
    assert ViewOf(u).calls.Keys == u.calls.Keys;
    OpenReplay(ViewOf(u), cid);
    ReplayIsView(u, cid);
  }

  lemma OffsetOfViews(r: Engine, v: Engine, m: multiset<LatencySample>, n: nat, m': multiset<LatencySample>, n': nat)
    requires AddV(ViewOf(r), m, n) == AddV(ViewOf(v), m', n')
    ensures AddV(Visible(r), m, n) == AddV(Visible(v), m', n')
  {
    assert AddV(Visible(r), m, n) == AddV(ViewOf(r), m, n).(responses := 0);
    assert AddV(Visible(v), m', n') == AddV(ViewOf(v), m', n').(responses := 0);
  }

  /** Only the record differs. */
  lemma SwappedJudged(u: Engine, v: Engine, cid: Cid, call: PendingCall, x: HeldSample, y: HeldSample)
    requires Swapped(ViewOf(u), ViewOf(v), cid, call, x, y) && AllOpen(HeldFor(u.deferred, cid))
    requires cid in u.deferred && u.deferred[cid].samples != []
    ensures var same := LatencyOf(call, x) == LatencyOf(call, y) && SkewOf(call, x) == SkewOf(call, y);
      (same ==> Agree(u, v)) && (!same ==> Differ(u, v))
  {
    var m, n, m', n' := LatencyOf(call, x), SkewOf(call, x), LatencyOf(call, y), SkewOf(call, y);
    SwappedReplayed(u, ViewOf(v), cid, call, x, y);
    if m == m' && n == n' {
      AddCancels(WithoutHeld(ViewOf(u), cid), ViewOf(v), m, n);
      CaughtUpAgrees(u, v, cid);
    } else {
      OffsetOfViews(Replay(u, cid), v, m, n, m', n');
      OffsetDiffer(u, v, cid, m, n, m', n');
    }
  }

  /** Responses of the call taken on both sides of its request, some terminal. */
  lemma EndedJudged(u: Engine, v: Engine, cid: Cid, first: HeldSample, before: seq<Op>, after: seq<Op>)
    requires ApartAfter(ViewOf(u), ViewOf(v), cid, first, before, after) && AnswersOf(before, cid) > 0
    requires if AnswersOf(after, cid) == 0 then Trails(before, cid) else Ended(before, cid) || Ended(after, cid)
    ensures !Agree(u, v)
    ensures !Evened(before, after, cid) ==> Differ(u, v)
  {
    TailingIsTrailing(before, cid);
    TailingIsTrailing(after, cid);
    assert ViewOf(u).calls.Keys == u.calls.Keys && ViewOf(v).calls.Keys == v.calls.Keys;
    if Ended(after, cid) {
      AlongsideClosed(u, v, cid);
      ClosedDisagree(u, v, cid);
      if LeftLate(before, after, cid) != LeftFirst(before, after, cid) { ClosedDiffer(u, v, cid); }
    } else {
      BehindDiffers(u, v, cid);
      if Agree(u, v) { NeverBoth(u, v); }
    }
  }

  lemma Judge(u: Engine, v: Engine, q: Op, before: seq<Op>, after: seq<Op>, first: HeldSample)
    requires q.RequestSample? && Compared(ViewOf(u), ViewOf(v), q, before, after, first)
    ensures Agree(u, v) <==> Harmless(q, before, after)
    ensures Evened(before, after, q.header.cid) || (Differ(u, v) <==> !Harmless(q, before, after))
  {
    var cid := q.header.cid;
    TailingIsTrailing(before, cid);
    TailingIsTrailing(after, cid);
    assert ViewOf(u).calls.Keys == u.calls.Keys && ViewOf(u).deferred == u.deferred;
    if AnswersOf(before, cid) == 0 {
      SameAgree(u, v);
    } else if AnswersOf(after, cid) == 0 && !Trails(before, cid) {
      CaughtUpAgrees(u, v, cid);
    } else if AnswersOf(after, cid) > 0 && !Ended(before, cid) && !Ended(after, cid) {
      var y := HeldOf(FirstAnswer(after, cid), 0);
      RecordsSame(q, first, y, FirstAnswer(before, cid), FirstAnswer(after, cid));
      SwappedJudged(u, v, cid, CallOf(q), first, y);
    } else {
      EndedJudged(u, v, cid, first, before, after);
    }
    if Agree(u, v) { NeverBoth(u, v); }
  }

  // ---------------------------------------------------------------------------
  // One drain pass
  // ---------------------------------------------------------------------------

  /** A pass in which the request `q`, the only one of its call, is observed after `before`
      and before `after`; no sample meets a capacity bound. */
  ghost predicate OnePass(s: Engine, q: Op, before: seq<Op>, after: seq<Op>)
  {
    && q.RequestSample? && q.header.kind == Request
    && q.header.cid !in s.calls && q.header.cid !in s.deferred
    && Around(before, q.header.cid) && Around(after, q.header.cid)
    && FitAll(s, before + [q] + after) && FitHeld(before, after, q.header.cid)
  }

  /** The request, observed at another time. */
  function At(q: Op, now: nat): Op
    requires q.RequestSample?
  {
    RequestSample(q.channel, q.header, q.methodName, q.len, now, q.victim)
  }

  /** The pass as it happened. */
  ghost function AsDrained(s: Engine, q: Op, before: seq<Op>, after: seq<Op>): Engine
  {
    Drain(s, before + [q] + after)
  }

  /** The pass with the request moved to its front, at time `early`. */
  ghost function RequestFirst(s: Engine, q: Op, early: nat, before: seq<Op>, after: seq<Op>): Engine
    requires q.RequestSample?
  {
    Drain(s, [At(q, early)] + before + after)
  }

  lemma FitEitherWay(s: Engine, q: Op, early: nat, before: seq<Op>, after: seq<Op>)
    requires OnePass(s, q, before, after)
    ensures FitAll(s, [At(q, early)] + before + after)
  {
    var q' := At(q, early);
    RoomAround(s.deferred.Keys, q, before, after);
    RoomBehind(s.deferred.Keys, q', before, after);
    forall o | o in [q'] + before + after ensures IsSample(o) {
      assert o == q' || o in before || o in after;
    }
  }

  /** What the views of the two passes are. */
  lemma PassViews(s: Engine, q: Op, early: nat, before: seq<Op>, after: seq<Op>)
    requires OnePass(s, q, before, after)
    ensures var v, cid, call := ViewOf(s), q.header.cid, CallOf(q);
      && ViewOf(AsDrained(s, q, before, after)) == DrainV(AskV(DrainV(v, before), cid, call), after)
      && ViewOf(RequestFirst(s, q, early, before, after)) == DrainV(DrainV(AskV(v, cid, call), before), after)
  {
    var v, q' := ViewOf(s), At(q, early);
    FitEitherWay(s, q, early, before, after);
    DrainIsView(s, before + [q] + after);
    DrainIsView(s, [q'] + before + after);
    DrainSplit(v, before + [q], after);
    DrainSplit(v, before, [q]);
    DrainSplit(v, [q'] + before, after);
    DrainSplit(v, [q'], before);
    OneSample(DrainV(v, before), q);
    OneSample(v, q');
  }

  /** In a drain pass of any samples, observing a request where it is or first comes to the
      same for every later pass over the held streams if and only if the responses of its
      call around it are harmless; otherwise no later pass makes up for it, unless the call
      was closed on both sides with as many responses left over. */
  lemma OrderMattersUnlessHarmless(s: Engine, q: Op, early: nat, before: seq<Op>, after: seq<Op>)
    requires OnePass(s, q, before, after)
    ensures var u, v := AsDrained(s, q, before, after), RequestFirst(s, q, early, before, after);
      && (Agree(u, v) <==> Harmless(q, before, after))
      && (Evened(before, after, q.header.cid) || (Differ(u, v) <==> !Harmless(q, before, after)))
  {
    PassViews(s, q, early, before, after);
    assert ViewOf(s).calls.Keys == s.calls.Keys;
    var first := Compare(ViewOf(s), q, before, after);
    Judge(AsDrained(s, q, before, after), RequestFirst(s, q, early, before, after), q, before, after, first);
  }
}
