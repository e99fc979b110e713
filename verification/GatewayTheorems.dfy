/** What the gateway promises over every interleaving, and where it does not. */
module GatewayTheorems {
  import opened Events
  import opened Bridge
  import opened Gateway

  // ---------------------------------------------------------------------------
  // Calls
  // ---------------------------------------------------------------------------

  lemma LinkGrows(steps: seq<Step>, states: seq<State>, j: nat)
    requires Run(steps, states) && 0 < j < |states|
    ensures Grown(states[j - 1].chans, states[j].chans) && |states[j - 1].tables| <= |states[j].tables|
    ensures states[j - 1].answers <= states[j].answers
  {
    assert Leads(states[j - 1], steps[j - 1], states[j]);
    StepGrows(states[j - 1], steps[j - 1]);
    StepAnswers(states[j - 1], steps[j - 1]);
  }

  lemma {:induction false} RunGrows(steps: seq<Step>, states: seq<State>, i: nat, j: nat)
    requires Run(steps, states) && i <= j < |states|
    ensures Grown(states[i].chans, states[j].chans) && |states[i].tables| <= |states[j].tables|
    ensures states[i].answers <= states[j].answers
    decreases j
  {
    if i < j {
      RunGrows(steps, states, i, j - 1);
      LinkGrows(steps, states, j);
      Onward(states[i].chans, states[j - 1].chans, states[j].chans);
    }
  }

  lemma Onward(a: seq<Chan>, b: seq<Chan>, c: seq<Chan>)
    requires Grown(a, b) && Grown(b, c)
    ensures Grown(a, c)
  {
    forall i | 0 <= i < |a| ensures a[i].events <= c[i].events {
      assert a[i].events <= b[i].events;
    }
  }

  /** A call receives intermediate events, then at most one terminal, and nothing
      once it has ended; what it received is what was accepted for it, in order. */
  lemma CallsEndOnce(steps: seq<Step>, states: seq<State>, i: nat, j: nat, c: ChanId)
    requires Run(steps, states) && i <= j < |states| && c < |states[i].chans|
    ensures c < |states[j].chans|
    ensures WellFormed(states[j].chans[c].events)
    ensures states[i].chans[c].events <= states[j].chans[c].events
    ensures Ended(states[i].chans[c].events) ==> states[j].chans[c].events == states[i].chans[c].events
    ensures states[j].chans[c].events == Delivered(states[j].answers, c)
  {
    RunKeeps(steps, states, j);
    RunGrows(steps, states, i, j);
    var before, after := states[i].chans[c].events, states[j].chans[c].events;
    if Ended(before) && |before| < |after| {
      assert false;
    }
  }

  /** Everything accepted for a call, delivered or not. */
  function AcceptedFor(answers: seq<Reply>, c: ChanId): seq<WireEvent>
  {
    if answers == [] then []
    else
      var last := answers[|answers| - 1];
      AcceptedFor(answers[..|answers| - 1], c) + if last.Accepted? && last.chan == c then [last.event] else []
  }

  /** What was accepted for a call is well formed, and once that has a terminal the
      call is neither listed nor about to be pushed to. */
  ghost predicate AcceptanceOk(g: State, c: ChanId)
  {
    var accepted := AcceptedFor(g.answers, c);
    && WellFormed(accepted)
    && (Ended(accepted) ==> !Listed(g.tables, g.chans, c) && !(g.js.Pushing? && g.js.chan == c))
    && (c >= |g.chans| ==> accepted == [])
  }

  lemma AcceptedSnoc(answers: seq<Reply>, answer: Reply, c: ChanId)
    ensures AcceptedFor(answers + [answer], c)
            == AcceptedFor(answers, c) + if answer.Accepted? && answer.chan == c then [answer.event] else []
  {
    assert (answers + [answer])[..|answers|] == answers;
  }

  /** A call is listed only from its opening on, and never again. */
  lemma NeverRelisted(g: State, step: Step, c: ChanId)
    requires Enabled(g, step) && c < |g.chans| && !Listed(g.tables, g.chans, c)
    ensures !Listed(Do(g, step).tables, Do(g, step).chans, c)
  {
    var h := Do(g, step);
    StepGrows(g, step);
    match step
    case InitDone => assert h.tables[..|g.tables|] == g.tables;
    case Insert(t) =>
    case Undo(t) =>
    case Lookup =>
    case _ => assert h.tables == g.tables;
  }

  /** Only a listed call gets pushed to. */
  lemma PushedWasListed(g: State, step: Step)
    requires TablesOk(g.tables, g.chans) && Enabled(g, step) && Do(g, step).js.Pushing?
    ensures g.js == Do(g, step).js || Listed(g.tables, g.chans, Do(g, step).js.chan)
  {
    if !step.Lookup? {
      OnlyLookupPushes(g, step);
    } else {
      assert TableOk(g.tables[g.js.bridge], g.js.bridge, g.chans);
    }
  }

  lemma OnlyLookupPushes(g: State, step: Step)
    requires Enabled(g, step) && Do(g, step).js.Pushing? && !step.Lookup?
    ensures g.js == Do(g, step).js
  {
  }

  /** Only a push accepts anything. */
  lemma OnlyPushAccepts(g: State, step: Step, c: ChanId)
    requires Enabled(g, step) && !step.Push?
    ensures AcceptedFor(Do(g, step).answers, c) == AcceptedFor(g.answers, c)
  {
    var answers := Do(g, step).answers;
    StepAnswers(g, step);
    if answers != g.answers {
      AcceptedSnoc(g.answers, answers[|g.answers|], c);
    }
  }

  lemma OneMore(accepted: seq<WireEvent>, event: WireEvent)
    requires WellFormed(accepted) && !Ended(accepted)
    ensures WellFormed(accepted + [event]) && (Ended(accepted + [event]) <==> !event.NextOf?)
  {
  }

  lemma PushAccepts(g: State, c: ChanId)
    requires JsOk(g) && Enabled(g, Push) && AcceptanceOk(g, c)
    ensures AcceptanceOk(Do(g, Push), c)
  {
    var h, accepted := Do(g, Push), AcceptedFor(g.answers, c);
    PushAnswers(g, h);
    AcceptedSnoc(g.answers, h.answers[|g.answers|], c);
    if h.answers[|g.answers|].Accepted? && g.js.chan == c {
      OneMore(accepted, g.js.event);
      if g.js.last { NeverRelisted(g, Push, c); }
    } else if Ended(accepted) {
      NeverRelisted(g, Push, c);
    }
  }

  lemma PushAnswers(g: State, h: State)
    requires Enabled(g, Push) && h == Do(g, Push)
    ensures |h.answers| == |g.answers| + 1 && h.answers == g.answers + [h.answers[|g.answers|]]
    ensures var answer := h.answers[|g.answers|];
      answer.Accepted? ==> answer.chan == g.js.chan && answer.event == g.js.event
    ensures !h.js.Pushing? && |h.chans| == |g.chans|
  {
  }

  lemma StepKeepsAcceptance(g: State, step: Step, c: ChanId)
    requires Inv(g) && Enabled(g, step) && AcceptanceOk(g, c)
    ensures AcceptanceOk(Do(g, step), c)
  {
    if step.Push? {
      PushAccepts(g, c);
    } else {
      OnlyPushAccepts(g, step, c);
      StepGrows(g, step);
      if Ended(AcceptedFor(g.answers, c)) {
        NeverRelisted(g, step, c);
        if Do(g, step).js.Pushing? { PushedWasListed(g, step); }
      }
    }
  }

  lemma RunKeepsAcceptance(steps: seq<Step>, states: seq<State>, i: nat, c: ChanId)
    requires Run(steps, states) && i < |states|
    ensures AcceptanceOk(states[i], c)
  {
    forall g, step, h | Inv(g) && AcceptanceOk(g, c) && Leads(g, step, h) ensures Inv(h) && AcceptanceOk(h, c) {
      LeadKeeps(g, step, h);
      StepKeepsAcceptance(g, step, c);
    }
    Induct(steps, states, g => Inv(g) && AcceptanceOk(g, c), 0, i);
  }

  lemma {:induction false} AcceptedGrows(answers: seq<Reply>, more: seq<Reply>, c: ChanId)
    requires answers <= more
    ensures AcceptedFor(answers, c) <= AcceptedFor(more, c)
    decreases |more|
  {
    if |answers| < |more| {
      AcceptedGrows(answers, more[..|more| - 1], c);
    } else {
      assert answers == more;
    }
  }

  /** Nothing is accepted after a terminal, even one whose reader was gone: what is
      accepted for a call is intermediate events, then at most one terminal, for good. */
  lemma NothingAcceptedAfterTheTerminal(steps: seq<Step>, states: seq<State>, i: nat, j: nat, c: ChanId)
    requires Run(steps, states) && i <= j < |states|
    ensures WellFormed(AcceptedFor(states[j].answers, c))
    ensures Ended(AcceptedFor(states[i].answers, c)) ==>
              AcceptedFor(states[j].answers, c) == AcceptedFor(states[i].answers, c)
              && !Listed(states[j].tables, states[j].chans, c)
  {
    RunKeepsAcceptance(steps, states, j, c);
    RunGrows(steps, states, i, j);
    AcceptedGrows(states[i].answers, states[j].answers, c);
    var before, after := AcceptedFor(states[i].answers, c), AcceptedFor(states[j].answers, c);
    if Ended(before) && |before| < |after| {
      assert false;
    }
  }

  /** Once accepted, an intermediate event is never lost. */
  lemma AcceptedEventsArrive(steps: seq<Step>, states: seq<State>, j: nat, k: nat)
    requires Run(steps, states) && j < |states| && k < |states[j].answers|
    requires states[j].answers[k].Accepted? && states[j].answers[k].event.NextOf?
    ensures states[j].answers[k].chan < |states[j].chans|
    ensures states[j].answers[k].event in states[j].chans[states[j].answers[k].chan].events
  {
    RunKeeps(steps, states, j);
    DeliveredHolds(states[j].answers, k);
  }

  lemma {:induction false} DeliveredHolds(answers: seq<Reply>, k: nat)
    requires k < |answers| && answers[k].Accepted? && answers[k].delivered
    ensures answers[k].event in Delivered(answers, answers[k].chan)
  {
    if k < |answers| - 1 {
      DeliveredHolds(answers[..|answers| - 1], k);
    }
  }

  /** A channel is listed at most once over all tables, and tables stay bounded. */
  lemma EntriesAreDistinct(steps: seq<Step>, states: seq<State>, i: nat, b: nat, d: nat, x: Cid, y: Cid)
    requires Run(steps, states) && i < |states|
    requires b < |states[i].tables| && x in states[i].tables[b]
    requires d < |states[i].tables| && y in states[i].tables[d]
    ensures |states[i].tables[b]| <= 4096
    ensures states[i].tables[b][x] == states[i].tables[d][y] ==> b == d && x == y
  {
    RunKeeps(steps, states, i);
    assert TableOk(states[i].tables[b], b, states[i].chans) && TableOk(states[i].tables[d], d, states[i].chans);
  }

  lemma ClosedStays(g: State, step: Step, h: State, c: ChanId)
    requires Leads(g, step, h) && c < |g.chans| && !g.chans[c].open
    ensures c < |h.chans| && h.chans[c] == g.chans[c]
  {
  }

  lemma HangupCloses(g: State, h: State, c: ChanId)
    requires Leads(g, Hangup(c), h)
    ensures c < |h.chans| && !h.chans[c].open && h.chans[c].events == g.chans[c].events
  {
  }

  /** Once its reader has hung up, a call receives nothing more. */
  lemma {:induction false} NothingAfterHangup(steps: seq<Step>, states: seq<State>, i: nat, c: ChanId, j: nat)
    requires Run(steps, states) && i < |steps| && steps[i] == Hangup(c) && i < j < |states|
    ensures c < |states[i].chans| && c < |states[j].chans|
    ensures !states[j].chans[c].open && states[j].chans[c].events == states[i].chans[c].events
    decreases j
  {
    assert Leads(states[i], steps[i], states[i + 1]);
    if j == i + 1 {
      HangupCloses(states[i], states[j], c);
    } else {
      NothingAfterHangup(steps, states, i, c, j - 1);
      assert Leads(states[j - 1], steps[j - 1], states[j]);
      ClosedStays(states[j - 1], steps[j - 1], states[j], c);
    }
  }

  /** A step refuses: an answering entry point, a lifecycle change or an admission. */
  predicate Refuses(g: State, step: Step)
    requires Enabled(g, step)
  {
    var h := Do(g, step);
    || (|h.answers| > |g.answers| && h.answers[|h.answers| - 1].Rejected?)
    || (step.Insert? && h.tasks[step.task].Refused?)
  }

  /** A refusal leaves every open call as it was. */
  lemma RefusalsChangeNothing(g: State, step: Step)
    requires Inv(g) && Enabled(g, step) && Refuses(g, step)
    ensures Do(g, step).tables == g.tables && Do(g, step).chans == g.chans
    ensures Do(g, step).phase == g.phase && Do(g, step).installed == g.installed
  {
  }

  predicate IsNextAnswer(value: Value) { value.Obj? && "data" in value.fields && "type" !in value.fields }
  predicate IsLastAnswer(value: Value) { value.Null? || (value.Obj? && "type" !in value.fields) }

  /** The code a step refuses with, if it refuses: the first failing check decides. */
  ghost predicate RefusedWith(g: State, step: Step, code: Code)
  {
    match step
    case Configure => code == GatewayState && g.phase == Running
    case Init => code == GatewayState && g.phase == Running
    case Dispatch(_, _) => code == GatewayState && g.installed.None?
    case Insert(t) =>
      t in g.tasks && g.tasks[t].Admitting? && g.tasks[t].bridge < |g.tables| &&
      var table := g.tables[g.tasks[t].bridge];
      || (code == PendingLimit && |table| >= 4096)
      || (code == DuplicateCid && |table| < 4096 && g.tasks[t].cid in table)
    case Undo(_) => code == Callback
    case Emit(id, value) =>
      || (code == GatewayState && g.installed.None?)
      || (code == InvalidCid && g.installed.Some? && id.None?)
      || (code == InvalidArgs && g.installed.Some? && id.Some? && !IsNextAnswer(value))
    case Resolve(id, value) =>
      || (code == GatewayState && g.installed.None?)
      || (code == InvalidCid && g.installed.Some? && id.None?)
      || (code == InvalidArgs && g.installed.Some? && id.Some? && !IsLastAnswer(value))
    case Lookup => code == UnknownCid && g.js.Answering? && g.js.bridge < |g.tables| && g.js.cid !in g.tables[g.js.bridge]
    case Push => code == Callback && g.js.Pushing? && !g.js.last && g.js.chan < |g.chans| && !g.chans[g.js.chan].open
    case _ => false
  }

  /** What a step told its caller: a refusal of the JavaScript thread, or of the dispatch
      thread that took it. */
  ghost predicate Told(g: State, step: Step, h: State, code: Code)
  {
    if step.Dispatch? || step.Insert? || step.Undo? then step.task in h.tasks && h.tasks[step.task] == Refused(code)
    else h.answers == g.answers + [Rejected(code)]
  }

  lemma TaskRefusals(g: State, step: Step, code: Code)
    requires Enabled(g, step) && (step.Dispatch? || step.Insert? || step.Undo?)
    ensures Told(g, step, Do(g, step), code) <==> RefusedWith(g, step, code)
  {
  }

  lemma EntryRefusals(g: State, step: Step, code: Code)
    requires Enabled(g, step) && (step.Emit? || step.Resolve?)
    ensures Told(g, step, Do(g, step), code) <==> RefusedWith(g, step, code)
  {
    EnvelopesRoundTrip(step.value);
    Appended(g.answers, Do(g, step).answers, code);
  }

  /** Every step refuses exactly under its own condition, and with that code. */
  lemma RefusalsAreExplained(g: State, step: Step, code: Code)
    requires Enabled(g, step)
    ensures Told(g, step, Do(g, step), code) <==> RefusedWith(g, step, code)
  {
    if step.Dispatch? || step.Insert? || step.Undo? {
      TaskRefusals(g, step, code);
    } else if step.Emit? || step.Resolve? {
      EntryRefusals(g, step, code);
    } else {
      Appended(g.answers, Do(g, step).answers, code);
    }
  }

  lemma Appended(before: seq<Reply>, after: seq<Reply>, code: Code)
    ensures after == before ==> after != before + [Rejected(code)]
    ensures after == before + [Rejected(code)] ==> after[|before|] == Rejected(code)
  {
  }

  // ---------------------------------------------------------------------------
  // Admission
  // ---------------------------------------------------------------------------

  /** A call is admitted if and only if fewer than 4096 are open and its id is not among
      them: it then is, with a fresh stream of its own, and the others stay as they were. */
  lemma AdmittedIffRoom(g: State, t: nat)
    requires Enabled(g, Insert(t))
    ensures var b, h := g.tasks[t].bridge, Do(g, Insert(t));
      var cid, c := g.tasks[t].cid, |g.chans|;
      var more: Table := g.tables[b][cid := c];
      if |g.tables[b]| < 4096 && cid !in g.tables[b] then
        && h.tables == g.tables[b := more]
        && h.chans == g.chans + [Chan(b, cid, [], true)]
        && h.tasks == g.tasks[t := Calling(b, cid, c)]
      else
        && h.tables == g.tables && h.chans == g.chans
        && h.tasks == g.tasks[t := Refused(if |g.tables[b]| >= 4096 then PendingLimit else DuplicateCid)]
  {
  }

  /** `n` calls, under the ids below `n`, are open on the first bridge. */
  ghost predicate Opened(g: State, n: nat)
  {
    && g.installed == Some(0) && |g.tables| == 1 && |g.tables[0]| == n && |g.chans| == n
    && (forall cid: Cid :: cid in g.tables[0] <==> cid < n)
    && (forall cid: Cid :: cid < n ==> g.tables[0][cid] == cid && g.chans[cid] == Chan(0, cid, [], true))
    && (forall t :: t in g.tasks ==> t < n)
  }

  lemma OpenOneMore(g: State, n: nat, h: State)
    requires Opened(g, n) && n < 4096
    requires Enabled(g, Dispatch(n, n)) && Enabled(Do(g, Dispatch(n, n)), Insert(n)) && h == Do(Do(g, Dispatch(n, n)), Insert(n))
    ensures Opened(h, n + 1)
  {
    var asked := Do(g, Dispatch(n, n));
    AdmittedIffRoom(asked, n);
    assert h.tables[0].Keys == g.tables[0].Keys + {n};
  }

  lemma {:induction false} OpenMany(n: nat) returns (g: State)
    requires n <= 4096
    ensures Reachable(g) && Opened(g, n)
  {
    if n == 0 {
      g := RunningGateway();
    } else {
      var s := OpenMany(n - 1);
      var asked := Do(s, Dispatch(n - 1, n - 1));
      Reach(s, Dispatch(n - 1, n - 1), asked);
      g := Do(asked, Insert(n - 1));
      Reach(asked, Insert(n - 1), g);
      OpenOneMore(s, n - 1, g);
    }
  }

  /** It can happen: 4096 calls are open at once, and the next one is refused. */
  lemma LimitIsReached() returns (g: State)
    ensures Reachable(g) && Opened(g, 4096)
    ensures var asked := g.(tasks := g.tasks[4096 := Admitting(0, 4096)]);
      Reachable(asked) && Enabled(asked, Insert(4096)) && Do(asked, Insert(4096)).tasks[4096] == Refused(PendingLimit)
  {
    g := OpenMany(4096);
    var asked := g.(tasks := g.tasks[4096 := Admitting(0, 4096)]);
    Reach(g, Dispatch(4096, 4096), asked);
    AdmittedIffRoom(asked, 4096);
  }

  // ---------------------------------------------------------------------------
  // Taking a call back
  // ---------------------------------------------------------------------------

  /** Is the entry under its id still the call's own (or already gone)? */
  predicate StillMine(g: State, t: nat)
    requires Enabled(g, Undo(t))
  {
    var task := g.tasks[t];
    task.cid in g.tables[task.bridge] ==> g.tables[task.bridge][task.cid] == task.chan
  }

  lemma UndoSpares(g: State, t: nat, c: ChanId)
    requires Inv(g) && Enabled(g, Undo(t)) && StillMine(g, t)
    requires c != g.tasks[t].chan && Listed(g.tables, g.chans, c)
    ensures Listed(Do(g, Undo(t)).tables, Do(g, Undo(t)).chans, c)
  {
  }

  /** Taking back a call whose callback failed leaves all other calls open exactly
      when nobody reopened its id meanwhile. */
  lemma UndoIsExactIffStillMine(g: State, t: nat)
    requires Inv(g) && Enabled(g, Undo(t))
    ensures !Listed(Do(g, Undo(t)).tables, Do(g, Undo(t)).chans, g.tasks[t].chan)
    ensures StillMine(g, t) <==>
            forall c :: 0 <= c < |g.chans| && c != g.tasks[t].chan && Listed(g.tables, g.chans, c)
                        ==> Listed(Do(g, Undo(t)).tables, Do(g, Undo(t)).chans, c)
  {
    var task, h := g.tasks[t], Do(g, Undo(t));
    assert TaskOk(task, |g.tables|, g.chans);
    if StillMine(g, t) {
      forall c | 0 <= c < |g.chans| && c != task.chan && Listed(g.tables, g.chans, c) ensures Listed(h.tables, h.chans, c) {
        UndoSpares(g, t, c);
      }
    } else {
      var other := g.tables[task.bridge][task.cid];
      assert TableOk(g.tables[task.bridge], task.bridge, g.chans);
      assert Listed(g.tables, g.chans, other) && !Listed(h.tables, h.chans, other);
    }
  }

  ghost predicate Reachable(g: State)
  {
    exists steps, states :: Run(steps, states) && states[|steps|] == g
  }

  lemma Start()
    ensures Reachable(INITIAL)
  {
    assert Run([], [INITIAL]);
  }

  lemma Reach(g: State, step: Step, h: State)
    requires Reachable(g) && Enabled(g, step) && Do(g, step) == h
    ensures Reachable(h)
  {
    var steps, states :| Run(steps, states) && states[|steps|] == g;
    var steps', states' := steps + [step], states + [h];
    forall i | 0 <= i < |steps'| ensures Leads(states'[i], steps'[i], states'[i + 1]) {
      if i < |steps| {
        assert Leads(states[i], steps[i], states[i + 1]);
      }
    }
    assert Run(steps', states');
  }

  lemma RunningGateway() returns (g: State)
    ensures Reachable(g) && g == State(Running, Some(0), [map[]], [], map[], Free, [], 1, 0)
  {
    Start();
    var starting := State(Running, None, [], [], map[], Starting(0), [], 1, 0);
    Reach(INITIAL, Init, starting);
    g := State(Running, Some(0), [map[]], [], map[], Free, [], 1, 0);
    Reach(starting, InitDone, g);
  }

  /** A gateway where a call was opened, its JavaScript callback still to return. */
  lemma FirstCall(cid: Cid) returns (g: State)
    ensures Reachable(g)
    ensures g == State(Running, Some(0), [map[cid := 0]], [Chan(0, cid, [], true)], map[0 := Calling(0, cid, 0)], Free, [], 1, 0)
  {
    var s := RunningGateway();
    var asked := s.(tasks := map[0 := Admitting(0, cid)]);
    Reach(s, Dispatch(0, cid), asked);
    g := s.(tables := [map[cid := 0]], chans := [Chan(0, cid, [], true)], tasks := map[0 := Calling(0, cid, 0)]);
    Reach(asked, Insert(0), g);
  }

  /** ... which JavaScript then answers, freeing the id. */
  lemma FirstCallAnswered(cid: Cid, g: State) returns (h: State)
    requires Reachable(g)
    requires g == State(Running, Some(0), [map[cid := 0]], [Chan(0, cid, [], true)], map[0 := Calling(0, cid, 0)], Free, [], 1, 0)
    ensures Reachable(h)
    ensures h == g.(tables := [map[]], chans := [Chan(0, cid, [Plain], true)], answers := [Accepted(0, Plain, true)])
  {
    EnvelopesRoundTrip(Null);
    var entered := g.(js := Answering(0, cid, Plain, true, 0));
    Reach(g, Resolve(Some(cid), Null), entered);
    var taken := g.(js := Pushing(0, 0, Plain, true, 0), tables := [map[]]);
    Reach(entered, Lookup, taken);
    h := g.(tables := [map[]], chans := [Chan(0, cid, [Plain], true)], answers := [Accepted(0, Plain, true)]);
    assert g.chans[0].events + [Plain] == [Plain] && g.answers + [Accepted(0, Plain, true)] == h.answers;
    assert Send(g.chans, 0, Plain) == h.chans;
    Reach(taken, Push, h);
  }

  /** It can happen: JavaScript answers the id before the failure is noticed, the id
      is opened again, and the second call is the one taken back. */
  lemma ReopenedCallIsTakenBack(cid: Cid) returns (g: State)
    ensures Reachable(g) && Enabled(g, Undo(0)) && !StillMine(g, 0)
  {
    var s := FirstCall(cid);
    s := FirstCallAnswered(cid, s);
    g := SecondCall(cid, s);
  }

  lemma SecondCall(cid: Cid, s: State) returns (g: State)
    requires Reachable(s)
    requires s == State(Running, Some(0), [map[]], [Chan(0, cid, [Plain], true)], map[0 := Calling(0, cid, 0)], Free,
                        [Accepted(0, Plain, true)], 1, 0)
    ensures Reachable(g) && Enabled(g, Undo(0)) && !StillMine(g, 0)
  {
    var ended := Chan(0, cid, [Plain], true);
    var asked := s.(tasks := map[0 := Calling(0, cid, 0), 1 := Admitting(0, cid)]);
    Reach(s, Dispatch(1, cid), asked);
    var reopened := asked.(tables := [map[cid := 1]], chans := [ended, Chan(0, cid, [], true)],
                         tasks := map[0 := Calling(0, cid, 0), 1 := Calling(0, cid, 1)]);
    Reach(asked, Insert(1), reopened);
    g := reopened.(tasks := map[0 := Undoing(0, cid, 0), 1 := Calling(0, cid, 1)]);
    Reach(reopened, CalledBack(0, false), g);
  }

  // ---------------------------------------------------------------------------
  // Stopping and starting again
  // ---------------------------------------------------------------------------

  lemma {:induction false} RunningUntilStopped(steps: seq<Step>, states: seq<State>, i: nat, j: nat)
    requires Run(steps, states) && i <= j < |states| && states[i].phase == Running
    requires forall k :: i <= k < j ==> !steps[k].Stop?
    ensures states[j].phase == Running
    decreases j
  {
    if i < j {
      RunningUntilStopped(steps, states, i, j - 1);
      assert Leads(states[j - 1], steps[j - 1], states[j]);
    }
  }

  lemma StartsNeverExceedStopsPlusOne(steps: seq<Step>, states: seq<State>, i: nat)
    requires Run(steps, states) && i < |states|
    ensures states[i].starts <= states[i].stops + 1
  {
    RunKeeps(steps, states, i);
  }

  /** Two successful starts have a stop between them. */
  lemma StartsAreSeparatedByAStop(steps: seq<Step>, states: seq<State>, i: nat, j: nat)
    requires Run(steps, states) && i < j < |steps|
    requires steps[i] == Init && states[i].phase != Running
    requires steps[j] == Init && states[j].phase != Running
    ensures exists k :: i < k < j && steps[k].Stop?
  {
    assert Leads(states[i], steps[i], states[i + 1]);
    if forall k :: i < k < j ==> !steps[k].Stop? {
      RunningUntilStopped(steps, states, i + 1, j);
    }
  }

  /** Whoever looked at the lifecycle state after stop `n` has a bridge built since. */
  ghost predicate Anew(g: State, bridges: nat, stops: nat)
  {
    && bridges <= |g.tables| && stops <= g.stops
    && (g.installed.Some? ==> g.installed.value >= bridges)
    && (g.js.Answering? || g.js.Pushing? ==> g.js.seen >= stops ==> g.js.bridge >= bridges)
  }

  lemma AnewKept(g: State, step: Step, h: State, bridges: nat, stops: nat)
    requires LifecycleOk(g) && Leads(g, step, h) && Anew(g, bridges, stops)
    ensures Anew(h, bridges, stops)
  {
  }

  lemma StopStartsAnew(g: State, h: State)
    requires LifecycleOk(g) && Leads(g, Stop, h)
    ensures Anew(h, |g.tables|, g.stops + 1)
  {
  }

  lemma StopCutsOff(steps: seq<Step>, states: seq<State>, i: nat, j: nat)
    requires Run(steps, states) && i < j < |states| && steps[i].Stop?
    ensures Anew(states[j], |states[i].tables|, states[i].stops + 1)
  {
    var bridges, stops := |states[i].tables|, states[i].stops + 1;
    RunKeeps(steps, states, i);
    RunKeeps(steps, states, i + 1);
    StopStartsAnew(states[i], states[i + 1]);
    forall g, step, h | Inv(g) && Anew(g, bridges, stops) && Leads(g, step, h) ensures Inv(h) && Anew(h, bridges, stops) {
      LeadKeeps(g, step, h);
      AnewKept(g, step, h, bridges, stops);
    }
    Induct(steps, states, g => Inv(g) && Anew(g, bridges, stops), i + 1, j);
  }

  /** No call survives a stop: an answer given after it reaches only bridges built
      since, so none of the calls opened before it, nor those a request already on its
      way opens on an old bridge afterwards. */
  lemma NoCallSurvivesAStop(steps: seq<Step>, states: seq<State>, i: nat, j: nat, c: ChanId)
    requires Run(steps, states) && i < j < |states| && steps[i].Stop?
    requires states[j].js.Pushing? && states[j].js.seen > states[i].stops
    ensures states[j].js.chan < |states[j].chans| && states[j].chans[states[j].js.chan].bridge >= |states[i].tables|
    ensures c < |states[j].chans| && states[j].chans[c].bridge < |states[i].tables| ==> states[j].js.chan != c
    ensures c < |states[i].chans| ==> states[j].js.chan != c
  {
    RunKeeps(steps, states, i);
    RunKeeps(steps, states, j);
    RunGrows(steps, states, i, j);
    StopCutsOff(steps, states, i, j);
  }

  /** An answer under way reaches the running bridge exactly when no stop overtook it. */
  lemma AnswersReachTheRunningBridgeIffNotStopped(steps: seq<Step>, states: seq<State>, j: nat)
    requires Run(steps, states) && j < |states| && states[j].js.Pushing?
    ensures states[j].js.chan < |states[j].chans|
    ensures states[j].installed == Some(states[j].chans[states[j].js.chan].bridge) <==> states[j].js.seen == states[j].stops
  {
    RunKeeps(steps, states, j);
  }

  /** One that a stop did overtake: it pushes into a call of a bridge no longer installed. */
  lemma AnswerOvertakenByAStop(cid: Cid) returns (g: State)
    ensures Reachable(g) && Enabled(g, Push) && g.installed == None && g.chans[g.js.chan].open
  {
    var s := FirstCall(cid);
    EnvelopesRoundTrip(Null);
    var entered := s.(js := Answering(0, cid, Plain, true, 0));
    Reach(s, Resolve(Some(cid), Null), entered);
    var stopped := entered.(installed := None, phase := Idle, stops := 1);
    Reach(entered, Stop, stopped);
    g := stopped.(js := Pushing(0, 0, Plain, true, 0), tables := [map[]]);
    Reach(stopped, Lookup, g);
  }

  /** A start ends up running exactly when no stop fell inside it ... */
  lemma StartEndsRunningIffNotStopped(steps: seq<Step>, states: seq<State>, j: nat)
    requires Run(steps, states) && j < |steps| && steps[j].InitDone?
    ensures states[j + 1].installed.Some?
    ensures states[j + 1].phase == Running <==> states[j].js.seen == states[j].stops
  {
    RunKeeps(steps, states, j);
  }

  /** ... otherwise the gateway is idle with a bridge installed, and a second start
      replaces that bridge, and the calls on it, without any stop. */
  lemma StoppedStartIsReplaced(cid: Cid) returns (g: State)
    ensures Reachable(g) && Enabled(g, Init) && Enabled(Do(g, Init), InitDone)
    ensures g.phase == Idle && g.installed == Some(0) && Listed(g.tables, g.chans, 0)
    ensures var started := Do(Do(g, Init), InitDone);
      started.phase == Running && started.installed == Some(1) && started.stops == g.stops
      && Listed(started.tables, started.chans, 0) && started.chans[0].bridge == 0
  {
    var idle := StoppedStart();
    var asked := idle.(tasks := map[0 := Admitting(0, cid)]);
    Reach(idle, Dispatch(0, cid), asked);
    g := idle.(tables := [map[cid := 0]], chans := [Chan(0, cid, [], true)], tasks := map[0 := Calling(0, cid, 0)]);
    Reach(asked, Insert(0), g);
  }

  lemma StoppedStart() returns (g: State)
    ensures Reachable(g)
    ensures g == State(Idle, Some(0), [map[]], [], map[], Free, [], 1, 1)
  {
    Start();
    var starting := State(Running, None, [], [], map[], Starting(0), [], 1, 0);
    Reach(INITIAL, Init, starting);
    var stopped := State(Idle, None, [], [], map[], Starting(0), [], 1, 1);
    Reach(starting, Stop, stopped);
    g := State(Idle, Some(0), [map[]], [], map[], Free, [], 1, 1);
    Reach(stopped, InitDone, g);
  }
}
