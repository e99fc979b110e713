/** A gateway as it runs: lifecycle changes, dispatch threads opening calls and the
    JavaScript thread answering them, interleaved lock by lock. */
module Gateway {
  import opened Events
  import opened Bridge

  // ---------------------------------------------------------------------------
  // State
  // ---------------------------------------------------------------------------

  datatype Phase = Idle | Configured | Running

  /** The event stream of one opened call, and where it was opened. */
  datatype Chan = Chan(bridge: nat, cid: Cid, events: seq<WireEvent>, open: bool)

  /** A dispatch thread inside `start_call`. */
  datatype Task =
    | Admitting(bridge: nat, cid: Cid)
    | Calling(bridge: nat, cid: Cid, chan: ChanId)
    | Undoing(bridge: nat, cid: Cid, chan: ChanId)
    | Started(chan: ChanId)
    | Refused(code: Code)

  /** The JavaScript thread inside an entry point.  `seen` is how many stops there
      had been when it looked at the lifecycle state: bookkeeping. */
  datatype Js =
    | Free
    | Starting(seen: nat)
    | Answering(bridge: nat, cid: Cid, event: WireEvent, last: bool, seen: nat)
    | Pushing(bridge: nat, chan: ChanId, event: WireEvent, last: bool, seen: nat)

  /** What an answering entry point returned.  `event` and `delivered` (was the
      reader still there) are bookkeeping. */
  datatype Reply = Accepted(chan: ChanId, event: WireEvent, delivered: bool) | Rejected(code: Code)

  datatype State = State(
    phase: Phase,
    installed: Option<nat>,
    tables: seq<Table>,
    chans: seq<Chan>,
    tasks: map<nat, Task>,
    js: Js,
    answers: seq<Reply>,
    starts: nat,
    stops: nat)

  const INITIAL := State(Idle, None, [], [], map[], Free, [], 0, 0)

  datatype Step =
    | Configure                                    // registerService
    | Init                                         // init: begin_start ...
    | InitDone                                     // ... complete_start
    | Stop                                         // shutdown
    | Dispatch(task: nat, cid: Cid)                // a request: read the running bridge ...
    | Insert(task: nat)                            // ... admit the call ...
    | CalledBack(task: nat, reached: bool)         // ... call JavaScript ...
    | Undo(task: nat)                              // ... take the call back if it failed
    | Hangup(chan: ChanId)                         // the reader of a call goes away
    | Emit(id: Option<Cid>, value: Value)          // emitNodejsEvent: read the bridge, check ...
    | Resolve(id: Option<Cid>, value: Value)       // resolveNodejsCall: the same
    | Lookup                                       // ... find or take the call ...
    | Push                                         // ... push the event

  // ---------------------------------------------------------------------------
  // Steps
  // ---------------------------------------------------------------------------

  predicate Enabled(g: State, step: Step)
  {
    match step
    case Configure => g.js.Free?
    case Init => g.js.Free?
    case InitDone => g.js.Starting?
    case Stop => true
    case Dispatch(t, _) => t !in g.tasks
    case Insert(t) => t in g.tasks && g.tasks[t].Admitting? && g.tasks[t].bridge < |g.tables|
    case CalledBack(t, _) => t in g.tasks && g.tasks[t].Calling?
    case Undo(t) => t in g.tasks && g.tasks[t].Undoing? && g.tasks[t].bridge < |g.tables| && g.tasks[t].chan < |g.chans|
    case Hangup(c) => c < |g.chans| && g.chans[c].open
    case Emit(_, _) => g.js.Free?
    case Resolve(_, _) => g.js.Free?
    case Lookup => g.js.Answering? && g.js.bridge < |g.tables|
    case Push => g.js.Pushing? && g.js.chan < |g.chans|
  }

  function Reject(g: State, code: Code): State
  {
    g.(js := Free, answers := g.answers + [Rejected(code)])
  }

  /** An answering entry point: the bridge is read first, then the arguments checked. */
  function Answer(g: State, cid: Option<Cid>, event: Outcome<WireEvent>, last: bool): State
  {
    if g.installed.None? then Reject(g, GatewayState)
    else if cid.None? then Reject(g, InvalidCid)
    else if event.Err? then Reject(g, event.code)
    else g.(js := Answering(g.installed.value, cid.value, event.value, last, g.stops))
  }

  /** Queues an event; lost if the reader is gone. */
  function Send(chans: seq<Chan>, c: ChanId, event: WireEvent): seq<Chan>
    requires c < |chans|
  {
    if chans[c].open then chans[c := chans[c].(events := chans[c].events + [event])] else chans
  }

  function Do(g: State, step: Step): State
    requires Enabled(g, step)
  {
    match step
    case Configure => if g.phase == Running then Reject(g, GatewayState) else g.(phase := Configured)
    case Init =>
      if g.phase == Running then Reject(g, GatewayState)
      else g.(phase := Running, js := Starting(g.stops), starts := g.starts + 1)
    case InitDone => g.(tables := g.tables + [map[]], installed := Some(|g.tables|), js := Free)
    case Stop => g.(installed := None, phase := Idle, stops := g.stops + 1)
    case Dispatch(t, cid) =>
      g.(tasks := g.tasks[t := if g.installed.Some? then Admitting(g.installed.value, cid) else Refused(GatewayState)])
    case Insert(t) =>
      var b, cid := g.tasks[t].bridge, g.tasks[t].cid;
      var c := |g.chans|;
      var admitted := Admit(g.tables[b], cid, c);
      if admitted.Err? then g.(tasks := g.tasks[t := Refused(admitted.code)])
      else g.(tables := g.tables[b := admitted.value],
              chans := g.chans + [Chan(b, cid, [], true)],
              tasks := g.tasks[t := Calling(b, cid, c)])
    case CalledBack(t, reached) =>
      var task := g.tasks[t];
      g.(tasks := g.tasks[t := if reached then Started(task.chan) else Undoing(task.bridge, task.cid, task.chan)])
    case Undo(t) =>
      var task := g.tasks[t];
      g.(tables := g.tables[task.bridge := g.tables[task.bridge] - {task.cid}],
         chans := g.chans[task.chan := g.chans[task.chan].(open := false)],
         tasks := g.tasks[t := Refused(Callback)])
    case Hangup(c) => g.(chans := g.chans[c := g.chans[c].(open := false)])
    case Emit(cid, value) => Answer(g, cid, Read(NextEnvelope(value)), false)
    case Resolve(cid, value) => Answer(g, cid, Read(TerminalEnvelope(value)), true)
    case Lookup =>
      var b, cid := g.js.bridge, g.js.cid;
      if cid !in g.tables[b] then Reject(g, UnknownCid)
      else g.(js := Pushing(b, g.tables[b][cid], g.js.event, g.js.last, g.js.seen),
              tables := if g.js.last then g.tables[b := g.tables[b] - {cid}] else g.tables)
    case Push =>
      var c := g.js.chan;
      if !g.js.last && !g.chans[c].open then Reject(g, Callback)
      else g.(chans := Send(g.chans, c, g.js.event),
              js := Free,
              answers := g.answers + [Accepted(c, g.js.event, g.chans[c].open)])
  }

  predicate Leads(g: State, step: Step, h: State)
  {
    Enabled(g, step) && h == Do(g, step)
  }

  ghost predicate Run(steps: seq<Step>, states: seq<State>)
  {
    && |states| == |steps| + 1
    && states[0] == INITIAL
    && forall i :: 0 <= i < |steps| ==> Leads(states[i], steps[i], states[i + 1])
  }

  // ---------------------------------------------------------------------------
  // The invariant
  // ---------------------------------------------------------------------------

  /** A table is bounded and only names channels opened on its bridge under that id. */
  ghost predicate TableOk(table: Table, b: nat, chans: seq<Chan>)
  {
    && |table| <= MAX_PENDING_CALLS
    && forall cid :: cid in table ==>
         table[cid] < |chans| && chans[table[cid]].bridge == b && chans[table[cid]].cid == cid
  }

  ghost predicate TablesOk(tables: seq<Table>, chans: seq<Chan>)
  {
    forall b :: 0 <= b < |tables| ==> TableOk(tables[b], b, chans)
  }

  predicate Ended(events: seq<WireEvent>)
  {
    events != [] && !events[|events| - 1].NextOf?
  }

  /** Intermediate events, then at most one terminal. */
  ghost predicate WellFormed(events: seq<WireEvent>)
  {
    forall i :: 0 <= i < |events| - 1 ==> events[i].NextOf?
  }

  /** The call of channel `c` is in its table. */
  predicate Listed(tables: seq<Table>, chans: seq<Chan>, c: ChanId)
  {
    c < |chans| && chans[c].bridge < |tables| && chans[c].cid in tables[chans[c].bridge]
    && tables[chans[c].bridge][chans[c].cid] == c
  }

  /** What was sent is well formed, and an ended call is no longer listed. */
  ghost predicate StreamsOk(tables: seq<Table>, chans: seq<Chan>)
  {
    forall c :: 0 <= c < |chans| ==>
      chans[c].bridge < |tables| && WellFormed(chans[c].events) && (Ended(chans[c].events) ==> !Listed(tables, chans, c))
  }

  /** A call under way knows the channel it opened. */
  ghost predicate TaskOk(task: Task, bridges: nat, chans: seq<Chan>)
  {
    match task
    case Admitting(b, _) => b < bridges
    case Calling(b, cid, c) => b < bridges && c < |chans| && chans[c].bridge == b && chans[c].cid == cid
    case Undoing(b, cid, c) => b < bridges && c < |chans| && chans[c].bridge == b && chans[c].cid == cid
    case _ => true
  }

  ghost predicate TasksOk(tasks: map<nat, Task>, bridges: nat, chans: seq<Chan>)
  {
    forall t :: t in tasks ==> TaskOk(tasks[t], bridges, chans)
  }

  ghost predicate JsOk(g: State)
  {
    match g.js
    case Free => true
    case Starting(seen) => seen <= g.stops && (seen == g.stops <==> g.phase == Running)
    case Answering(b, _, event, last, _) => b < |g.tables| && (event.NextOf? <==> !last)
    case Pushing(b, c, event, last, _) =>
      && c < |g.chans| && g.chans[c].bridge == b && !Ended(g.chans[c].events)
      && (event.NextOf? <==> !last)
      && (last ==> !Listed(g.tables, g.chans, c))
  }

  /** Only the latest bridge is ever installed, and only a stop removes it. */
  ghost predicate LifecycleOk(g: State)
  {
    && (g.installed.Some? ==> g.installed.value == |g.tables| - 1)
    && g.starts <= g.stops + (if g.phase == Running then 1 else 0)
    && (g.js.Answering? || g.js.Pushing? ==>
          g.js.seen <= g.stops && g.installed == if g.js.seen == g.stops then Some(g.js.bridge) else None)
  }

  /** The events accepted for a call and delivered to its reader, in order. */
  function Delivered(answers: seq<Reply>, c: ChanId): seq<WireEvent>
  {
    if answers == [] then []
    else
      var last := answers[|answers| - 1];
      Delivered(answers[..|answers| - 1], c) + if last.Accepted? && last.chan == c && last.delivered then [last.event] else []
  }

  /** A call received what was accepted for it; only an ending may be accepted and lost. */
  ghost predicate AnswersOk(g: State)
  {
    && (forall c :: 0 <= c < |g.chans| ==> g.chans[c].events == Delivered(g.answers, c))
    && (forall i :: 0 <= i < |g.answers| && g.answers[i].Accepted? ==>
          g.answers[i].chan < |g.chans| && (g.answers[i].delivered || !g.answers[i].event.NextOf?))
  }

  ghost predicate Inv(g: State)
  {
    && TablesOk(g.tables, g.chans) && StreamsOk(g.tables, g.chans)
    && TasksOk(g.tasks, |g.tables|, g.chans) && JsOk(g) && LifecycleOk(g) && AnswersOk(g)
  }

  // ---------------------------------------------------------------------------
  // Every step keeps it
  // ---------------------------------------------------------------------------

  lemma DeliveredStep(answers: seq<Reply>, answer: Reply, c: ChanId)
    ensures Delivered(answers + [answer], c) ==
            Delivered(answers, c) + if answer.Accepted? && answer.chan == c && answer.delivered then [answer.event] else []
  {
    assert (answers + [answer])[..|answers|] == answers;
  }

  lemma NothingDelivered(answers: seq<Reply>, c: ChanId)
    requires forall i :: 0 <= i < |answers| && answers[i].Accepted? ==> answers[i].chan != c
    ensures Delivered(answers, c) == []
  {
  }

  ghost predicate Books(tables: seq<Table>, chans: seq<Chan>)
  {
    TablesOk(tables, chans) && StreamsOk(tables, chans)
  }

  lemma OpeningKeepsBooks(tables: seq<Table>, chans: seq<Chan>, b: nat, cid: Cid)
    requires Books(tables, chans) && b < |tables| && Admit(tables[b], cid, |chans|).Ok?
    ensures Books(tables[b := Admit(tables[b], cid, |chans|).value], chans + [Chan(b, cid, [], true)])
  {
    var table := Admit(tables[b], cid, |chans|).value;
    var more, later := tables[b := table], chans + [Chan(b, cid, [], true)];
    forall x | 0 <= x < |more| ensures TableOk(more[x], x, later) {
      OpenedTableOk(tables, chans, b, cid, x);
    }
    forall c | 0 <= c < |chans| && Listed(more, later, c) ensures Listed(tables, chans, c) {
      OpenedListed(tables, chans, b, cid, c);
    }
  }

  lemma OpenedTableOk(tables: seq<Table>, chans: seq<Chan>, b: nat, cid: Cid, x: nat)
    requires TablesOk(tables, chans) && b < |tables| && x < |tables| && Admit(tables[b], cid, |chans|).Ok?
    ensures TableOk(if x == b then Admit(tables[b], cid, |chans|).value else tables[x], x, chans + [Chan(b, cid, [], true)])
  {
    assert TableOk(tables[x], x, chans);
    if x == b {
      assert Admit(tables[b], cid, |chans|).value.Keys == tables[b].Keys + {cid};
    }
  }

  lemma OpenedListed(tables: seq<Table>, chans: seq<Chan>, b: nat, cid: Cid, c: ChanId)
    requires b < |tables| && c < |chans| && Admit(tables[b], cid, |chans|).Ok?
    requires Listed(tables[b := Admit(tables[b], cid, |chans|).value], chans + [Chan(b, cid, [], true)], c)
    ensures Listed(tables, chans, c)
  {
  }

  lemma ClosingKeepsBooks(tables: seq<Table>, chans: seq<Chan>, b: nat, cid: Cid)
    requires Books(tables, chans) && b < |tables|
    ensures Books(tables[b := tables[b] - {cid}], chans)
  {
    var less := tables[b := tables[b] - {cid}];
    assert TableOk(less[b], b, chans) by {
      assert TableOk(tables[b], b, chans);
      assert less[b].Keys == tables[b].Keys - {cid};
    }
    assert TablesOk(less, chans);
    forall c | 0 <= c < |chans| ensures Listed(less, chans, c) ==> Listed(tables, chans, c) {
    }
  }

  lemma BridgingKeepsBooks(tables: seq<Table>, chans: seq<Chan>)
    requires Books(tables, chans)
    ensures Books(tables + [map[]], chans)
  {
  }

  lemma HangingUpKeepsBooks(tables: seq<Table>, chans: seq<Chan>, c: ChanId)
    requires Books(tables, chans) && c < |chans|
    ensures Books(tables, chans[c := chans[c].(open := false)])
  {
  }

  lemma SendingKeepsBooks(tables: seq<Table>, chans: seq<Chan>, c: ChanId, event: WireEvent)
    requires Books(tables, chans) && c < |chans| && !Ended(chans[c].events)
    requires event.NextOf? || !Listed(tables, chans, c)
    ensures Books(tables, Send(chans, c, event))
  {
    var later := Send(chans, c, event);
    var events := chans[c].events;
    assert WellFormed(events + [event]) by {
      assert events != [] ==> events[|events| - 1].NextOf?;
    }
    assert TablesOk(tables, later);
    forall d | 0 <= d < |later|
      ensures later[d].bridge < |tables| && WellFormed(later[d].events)
      ensures Ended(later[d].events) ==> !Listed(tables, later, d)
    {
    }
  }

  lemma BooksKept(g: State, step: Step)
    requires Books(g.tables, g.chans) && JsOk(g) && Enabled(g, step)
    ensures Books(Do(g, step).tables, Do(g, step).chans)
  {
    match step
    case InitDone => BridgingKeepsBooks(g.tables, g.chans);
    case Insert(t) =>
      var b, cid := g.tasks[t].bridge, g.tasks[t].cid;
      if Admit(g.tables[b], cid, |g.chans|).Ok? {
        OpeningKeepsBooks(g.tables, g.chans, b, cid);
      }
    case Undo(t) =>
      var b, cid, c := g.tasks[t].bridge, g.tasks[t].cid, g.tasks[t].chan;
      ClosingKeepsBooks(g.tables, g.chans, b, cid);
      HangingUpKeepsBooks(g.tables[b := g.tables[b] - {cid}], g.chans, c);
    case Hangup(c) => HangingUpKeepsBooks(g.tables, g.chans, c);
    case Lookup => ClosingKeepsBooks(g.tables, g.chans, g.js.bridge, g.js.cid);
    case Push => SendingKeepsBooks(g.tables, g.chans, g.js.chan, g.js.event);
    case _ =>
  }

  /** Channels are only added, and keep the call they were opened for. */
  ghost predicate Grown(chans: seq<Chan>, later: seq<Chan>)
  {
    && |chans| <= |later|
    && forall c :: 0 <= c < |chans| ==>
         later[c].bridge == chans[c].bridge && later[c].cid == chans[c].cid && chans[c].events <= later[c].events
  }

  lemma StepGrows(g: State, step: Step)
    requires Enabled(g, step)
    ensures Grown(g.chans, Do(g, step).chans) && |g.tables| <= |Do(g, step).tables|
  {
  }

  lemma TasksKept(g: State, step: Step)
    requires TasksOk(g.tasks, |g.tables|, g.chans) && LifecycleOk(g) && Enabled(g, step)
    ensures TasksOk(Do(g, step).tasks, |Do(g, step).tables|, Do(g, step).chans)
  {
    StepGrows(g, step);
    var h := Do(g, step);
    forall t | t in h.tasks ensures TaskOk(h.tasks[t], |h.tables|, h.chans) {
      if t in g.tasks && h.tasks[t] == g.tasks[t] {
        assert TaskOk(g.tasks[t], |g.tables|, g.chans);
      } else {
        NewTaskOk(g, step, t);
      }
    }
  }

  lemma NewTaskOk(g: State, step: Step, t: nat)
    requires TasksOk(g.tasks, |g.tables|, g.chans) && LifecycleOk(g) && Enabled(g, step) && t in Do(g, step).tasks
    requires t in g.tasks ==> Do(g, step).tasks[t] != g.tasks[t]
    ensures TaskOk(Do(g, step).tasks[t], |Do(g, step).tables|, Do(g, step).chans)
  {
    if t in g.tasks {
      assert TaskOk(g.tasks[t], |g.tables|, g.chans);
    }
  }

  /** What other threads do never disturbs an answer under way. */
  lemma JsUndisturbed(g: State, step: Step)
    requires Books(g.tables, g.chans) && JsOk(g) && Enabled(g, step) && g.js.Pushing?
    requires step.Dispatch? || step.Insert? || step.CalledBack? || step.Undo? || step.Hangup?
    ensures JsOk(Do(g, step))
  {
    var c := g.js.chan;
    StepGrows(g, step);
    assert Do(g, step).chans[c].events == g.chans[c].events;
    if step.Insert? {
      assert !g.js.last || !Listed(g.tables, g.chans, c);
    }
  }

  lemma JsKept(g: State, step: Step)
    requires Books(g.tables, g.chans) && JsOk(g) && LifecycleOk(g) && Enabled(g, step)
    ensures JsOk(Do(g, step))
  {
    if g.js.Pushing? && (step.Dispatch? || step.Insert? || step.CalledBack? || step.Undo? || step.Hangup?) {
      JsUndisturbed(g, step);
    } else if step.Lookup? && g.js.cid in g.tables[g.js.bridge] {
      var c := g.tables[g.js.bridge][g.js.cid];
      assert Listed(g.tables, g.chans, c);
    } else if step.Emit? || step.Resolve? {
      EnvelopesRoundTrip(step.value);
    }
  }

  lemma LifecycleKept(g: State, step: Step)
    requires LifecycleOk(g) && JsOk(g) && Enabled(g, step)
    ensures LifecycleOk(Do(g, step))
  {
  }

  lemma AnswersKept(g: State, step: Step)
    requires AnswersOk(g) && JsOk(g) && Enabled(g, step)
    ensures AnswersOk(Do(g, step))
  {
    if step.Push? {
      PushKeepsAnswers(g, Do(g, Push));
    } else {
      SilentKeepsAnswers(g, step, Do(g, step));
    }
  }

  lemma PushKeepsAnswers(g: State, h: State)
    requires AnswersOk(g) && JsOk(g) && Leads(g, Push, h)
    ensures AnswersOk(h)
  {
    forall c | 0 <= c < |h.chans| ensures h.chans[c].events == Delivered(h.answers, c) {
      DeliveredStep(g.answers, h.answers[|g.answers|], c);
    }
  }

  lemma SilentKeepsAnswers(g: State, step: Step, h: State)
    requires AnswersOk(g) && Leads(g, step, h) && !step.Push?
    ensures AnswersOk(h)
  {
    StepAnswers(g, step);
    forall c | 0 <= c < |h.chans| ensures h.chans[c].events == Delivered(h.answers, c) {
      SilentStep(g, step, c);
      if h.answers != g.answers {
        DeliveredStep(g.answers, h.answers[|g.answers|], c);
      }
      if c >= |g.chans| {
        NothingDelivered(g.answers, c);
      }
    }
    StepGrows(g, step);
  }

  /** Every other step leaves what calls received alone. */
  lemma SilentStep(g: State, step: Step, c: ChanId)
    requires Enabled(g, step) && c < |Do(g, step).chans| && !step.Push?
    ensures Do(g, step).chans[c].events == if c < |g.chans| then g.chans[c].events else []
  {
  }

  /** A step answers at most once, and only a push accepts. */
  lemma StepAnswers(g: State, step: Step)
    requires Enabled(g, step)
    ensures var answers := Do(g, step).answers;
      answers == g.answers || (|answers| == |g.answers| + 1 && answers == g.answers + [answers[|g.answers|]]
                               && (answers[|g.answers|].Accepted? ==> step.Push?))
  {
  }

  lemma StepKeeps(g: State, step: Step)
    requires Inv(g) && Enabled(g, step)
    ensures Inv(Do(g, step))
  {
    BooksKept(g, step);
    TasksKept(g, step);
    JsKept(g, step);
    LifecycleKept(g, step);
    AnswersKept(g, step);
  }

  /** Whatever holds at one point of a run and is kept by every step holds from there on. */
  lemma {:induction false} Induct(steps: seq<Step>, states: seq<State>, holds: State -> bool, i: nat, j: nat)
    requires Run(steps, states) && i <= j < |states|
    requires holds(states[i]) && forall g, step, h :: holds(g) && Leads(g, step, h) ==> holds(h)
    ensures holds(states[j])
    decreases j
  {
    if i < j {
      Induct(steps, states, holds, i, j - 1);
      assert Leads(states[j - 1], steps[j - 1], states[j]);
    }
  }

  lemma LeadKeeps(g: State, step: Step, h: State)
    requires Inv(g) && Leads(g, step, h)
    ensures Inv(h)
  {
    StepKeeps(g, step);
  }

  lemma RunKeeps(steps: seq<Step>, states: seq<State>, i: nat)
    requires Run(steps, states) && i < |states|
    ensures Inv(states[i])
  {
    forall g, step, h | Inv(g) && Leads(g, step, h) ensures Inv(h) {
      LeadKeeps(g, step, h);
    }
    Induct(steps, states, Inv, 0, i);
  }
}
