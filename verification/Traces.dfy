/** The trace sink: records go through a bounded queue to a writer thread, and are
    dropped and counted rather than ever blocking the producer. */
module Traces {
  import opened Events

  type Line = string

  const RECENT_KEEP: nat := 10

  // The dropped counter is a 64-bit atomic.
  const COUNTER: nat := 0x1_0000_0000_0000_0000

  // ---------------------------------------------------------------------------
  // The in-memory buffer
  // ---------------------------------------------------------------------------

  lemma KeepLast<T>(lines: seq<T>, line: T, n: nat)
    requires n > 0
    ensures LastN(lines + [line], n) ==
            (if |LastN(lines, n)| >= n then LastN(lines, n)[1..] else LastN(lines, n)) + [line]
  {
  }

  class Recent {
    var lines: seq<Line>
    ghost var all: seq<Line>

    ghost predicate Valid()
      reads this
    {
      lines == LastN(all, RECENT_KEEP)
    }

    constructor ()
      ensures Valid() && all == []
    {
      lines, all := [], [];
    }

    method Push(line: Line)
      requires Valid()
      modifies this
      ensures Valid() && all == old(all) + [line]
      ensures |lines| == (if |old(lines)| < 10 then |old(lines)| + 1 else 10) && lines[|lines| - 1] == line
    {
      KeepLast(all, line, RECENT_KEEP);
      if |lines| >= RECENT_KEEP {
        lines := lines[1..];
      }
      lines := lines + [line];
      all := all + [line];
    }

    /** The writer loop: receives until the queue is closed and empty. */
    method Drain(received: seq<Line>)
      requires Valid()
      modifies this
      ensures Valid() && all == old(all) + received
    {
      var i := 0;
      while i < |received|
        invariant 0 <= i <= |received|
        invariant Valid() && all == old(all) + received[..i]
      {
        assert received[..i + 1] == received[..i] + [received[i]];
        Push(received[i]);
        i := i + 1;
      }
      assert received[..i] == received;
    }
  }

  // ---------------------------------------------------------------------------
  // Producer and writer
  // ---------------------------------------------------------------------------

  datatype Writer = Waiting | Writing(line: Line) | Done

  /** One call of `emit`, and whether the queue took it: bookkeeping. */
  datatype Offer = Offer(line: Line, taken: bool)

  datatype Sink = Sink(
    capacity: nat,
    open: bool,
    queue: seq<Line>,
    writer: Writer,
    handled: seq<Line>,
    recent: seq<Line>,
    dropped: nat,
    offers: seq<Offer>)

  function Fresh(capacity: nat): Sink
  {
    Sink(capacity, true, [], Waiting, [], [], 0, [])
  }

  datatype Step =
    | Emit(line: Line, met: bool)   // `met`: is the writer blocked receiving, for a queue with no slot
    | Receive
    | Write
    | Close                         // the sink is dropped: its sender goes first ...
    | Exit                          // ... and the writer ends on a closed, empty queue

  predicate Enabled(s: Sink, step: Step)
  {
    match step
    case Emit(_, _) => true
    case Receive => s.writer.Waiting? && s.queue != []
    case Write => s.writer.Writing?
    case Close => s.open
    case Exit => s.writer.Waiting? && s.queue == [] && !s.open
  }

  function Do(s: Sink, step: Step): Sink
    requires Enabled(s, step)
  {
    match step
    case Emit(line, met) =>
      if s.open && |s.queue| < s.capacity then
        s.(queue := s.queue + [line], offers := s.offers + [Offer(line, true)])
      else if s.open && s.capacity == 0 && s.writer.Waiting? && met then
        s.(writer := Writing(line), offers := s.offers + [Offer(line, true)])
      else
        s.(dropped := (s.dropped + 1) % COUNTER, offers := s.offers + [Offer(line, false)])
    case Receive => s.(writer := Writing(s.queue[0]), queue := s.queue[1..])
    case Write =>
      s.(writer := Waiting,
         handled := s.handled + [s.writer.line],
         recent := (if |s.recent| >= RECENT_KEEP then s.recent[1..] else s.recent) + [s.writer.line])
    case Close => s.(open := false)
    case Exit => s.(writer := Done)
  }

  predicate Leads(s: Sink, step: Step, t: Sink)
  {
    Enabled(s, step) && t == Do(s, step)
  }

  ghost predicate Run(capacity: nat, steps: seq<Step>, states: seq<Sink>)
  {
    && |states| == |steps| + 1
    && states[0] == Fresh(capacity)
    && forall i :: 0 <= i < |steps| ==> Leads(states[i], steps[i], states[i + 1])
  }

  // ---------------------------------------------------------------------------
  // What every interleaving keeps
  // ---------------------------------------------------------------------------

  /** The records the queue took, in the order they were emitted. */
  function Taken(offers: seq<Offer>): seq<Line>
  {
    if offers == [] then []
    else
      var last := offers[|offers| - 1];
      Taken(offers[..|offers| - 1]) + if last.taken then [last.line] else []
  }

  /** How many it did not take. */
  function Missed(offers: seq<Offer>): (n: nat)
    ensures n + |Taken(offers)| == |offers|
  {
    if offers == [] then 0
    else Missed(offers[..|offers| - 1]) + if offers[|offers| - 1].taken then 0 else 1
  }

  function Held(writer: Writer): seq<Line>
  {
    if writer.Writing? then [writer.line] else []
  }

  ghost predicate Inv(s: Sink)
  {
    && |s.queue| <= s.capacity
    && Taken(s.offers) == s.handled + Held(s.writer) + s.queue
    && s.dropped == Missed(s.offers) % COUNTER
    && s.recent == LastN(s.handled, RECENT_KEEP)
    && (s.writer.Done? ==> s.queue == [] && !s.open)
  }

  lemma TakenStep(offers: seq<Offer>, offer: Offer)
    ensures Taken(offers + [offer]) == Taken(offers) + if offer.taken then [offer.line] else []
    ensures Missed(offers + [offer]) == Missed(offers) + if offer.taken then 0 else 1
  {
    assert (offers + [offer])[..|offers|] == offers;
  }

  lemma Counted(n: nat)
    ensures (n % COUNTER + 1) % COUNTER == (n + 1) % COUNTER
  {
  }

  lemma TakenKeeps(s: Sink, line: Line, met: bool)
    requires Inv(s)
    requires s.open && (|s.queue| < s.capacity || (s.capacity == 0 && s.writer.Waiting? && met))
    ensures Inv(Do(s, Emit(line, met)))
  {
    TakenStep(s.offers, Offer(line, true));
    assert s.handled + Held(s.writer) + s.queue + [line] == s.handled + Held(s.writer) + (s.queue + [line]);
  }

  lemma DroppedKeeps(s: Sink, line: Line, met: bool)
    requires Inv(s)
    requires !(s.open && (|s.queue| < s.capacity || (s.capacity == 0 && s.writer.Waiting? && met)))
    ensures Inv(Do(s, Emit(line, met)))
  {
    TakenStep(s.offers, Offer(line, false));
    Counted(Missed(s.offers));
  }

  lemma StepKeeps(s: Sink, step: Step)
    requires Inv(s) && Enabled(s, step)
    ensures Inv(Do(s, step)) && Do(s, step).capacity == s.capacity
  {
    match step
    case Emit(line, met) =>
      if s.open && (|s.queue| < s.capacity || (s.capacity == 0 && s.writer.Waiting? && met)) {
        TakenKeeps(s, line, met);
      } else {
        DroppedKeeps(s, line, met);
      }
    case Receive => ReceiveKeeps(s);
    case Write => WriteKeeps(s);
    case _ =>
  }

  lemma ReceiveKeeps(s: Sink)
    requires Inv(s) && Enabled(s, Receive)
    ensures Inv(Do(s, Receive))
  {
    assert s.handled + [] + s.queue == s.handled + [s.queue[0]] + s.queue[1..];
  }

  lemma WriteKeeps(s: Sink)
    requires Inv(s) && Enabled(s, Write)
    ensures Inv(Do(s, Write))
  {
    KeepLast(s.handled, s.writer.line, RECENT_KEEP);
    assert s.handled + [s.writer.line] + s.queue == (s.handled + [s.writer.line]) + [] + s.queue;
  }

  lemma {:induction false} RunKeeps(capacity: nat, steps: seq<Step>, states: seq<Sink>, i: nat)
    requires Run(capacity, steps, states) && i < |states|
    ensures Inv(states[i]) && states[i].capacity == capacity
  {
    if i > 0 {
      RunKeeps(capacity, steps, states, i - 1);
      assert Leads(states[i - 1], steps[i - 1], states[i]);
      StepKeeps(states[i - 1], steps[i - 1]);
    }
  }

  /** Over every interleaving: nothing is reordered, duplicated or lost uncounted. */
  lemma RecordsAreConserved(capacity: nat, steps: seq<Step>, states: seq<Sink>, i: nat)
    requires Run(capacity, steps, states) && i < |states|
    ensures var s := states[i];
      && |s.queue| <= capacity
      && Taken(s.offers) == s.handled + Held(s.writer) + s.queue
      && s.dropped == (|s.offers| - |s.handled| - |Held(s.writer)| - |s.queue|) % 0x1_0000_0000_0000_0000
      && |s.recent| == (if |s.handled| < 10 then |s.handled| else 10)
      && forall k :: 0 <= k < |s.recent| ==> s.recent[k] == s.handled[|s.handled| - |s.recent| + k]
  {
    RunKeeps(capacity, steps, states, i);
    LastNItems(states[i].handled, RECENT_KEEP);
  }

  /** A record is dropped exactly when the queue is closed or has no room for it. */
  lemma DroppedIffNoRoom(s: Sink, line: Line, met: bool)
    requires Inv(s)
    ensures var t := Do(s, Emit(line, met));
      (Taken(t.offers) == Taken(s.offers) <==>
         !s.open || (|s.queue| == s.capacity && !(s.capacity == 0 && s.writer.Waiting? && met)))
      && (Taken(t.offers) != Taken(s.offers) ==> Taken(t.offers) == Taken(s.offers) + [line])
  {
    TakenStep(s.offers, Do(s, Emit(line, met)).offers[|s.offers|]);
  }

  // ---------------------------------------------------------------------------
  // Dropping the sink
  // ---------------------------------------------------------------------------

  /** Once the writer has been joined, everything taken has been handled. */
  lemma DroppingDrains(capacity: nat, steps: seq<Step>, states: seq<Sink>, i: nat)
    requires Run(capacity, steps, states) && i < |states| && states[i].writer.Done?
    ensures states[i].handled == Taken(states[i].offers)
    ensures states[i].dropped == (|states[i].offers| - |states[i].handled|) % COUNTER
  {
    RunKeeps(capacity, steps, states, i);
    var s := states[i];
    assert s.handled + [] + [] == s.handled;
  }

  predicate WriterStep(step: Step)
  {
    step.Receive? || step.Write? || step.Exit?
  }

  /** Steps the writer still owes. */
  function Left(s: Sink): nat
  {
    if s.writer.Done? then 0 else 2 * |s.queue| + 1 + |Held(s.writer)|
  }

  function NextOfWriter(s: Sink): Step
  {
    if s.writer.Writing? then Write else if s.queue != [] then Receive else Exit
  }

  /** Joining after the queue is closed returns: the writer always has a step, only
      that one, and each brings it closer to its end. */
  lemma JoinReturns(s: Sink, step: Step)
    requires Inv(s) && !s.open && !s.writer.Done?
    ensures Enabled(s, NextOfWriter(s)) && WriterStep(NextOfWriter(s))
    ensures WriterStep(step) && Enabled(s, step) ==> step == NextOfWriter(s) && Left(Do(s, step)) == Left(s) - 1
    ensures Left(s) == 1 ==> Do(s, NextOfWriter(s)).writer.Done?
  {
  }

  /** Left to itself after the close, the writer ends, having handled what was taken. */
  lemma {:induction false} WriterFinishes(s: Sink) returns (end: Sink)
    requires Inv(s) && !s.open
    ensures Inv(end) && end.writer.Done? && end.offers == s.offers
    ensures end.handled == Taken(s.offers) && end.recent == LastN(Taken(s.offers), RECENT_KEEP)
    decreases Left(s)
  {
    if s.writer.Done? {
      end := s;
      assert s.handled + [] + [] == s.handled;
    } else {
      JoinReturns(s, NextOfWriter(s));
      StepKeeps(s, NextOfWriter(s));
      end := WriterFinishes(Do(s, NextOfWriter(s)));
    }
  }

  lemma OpenWriterStep(s: Sink, step: Step, t: Sink)
    requires s.open && !s.writer.Done? && WriterStep(step) && Leads(s, step, t)
    ensures t.open && !t.writer.Done? && Left(t) == Left(s) - 1
  {
  }

  /** Joining with the sender alive would not return: taking only its own steps, the writer
      never ends, and is stuck once it has handled what was queued. */
  lemma {:induction false} JoinBeforeClosingHangs(steps: seq<Step>, states: seq<Sink>, i: nat)
    requires |states| == |steps| + 1 && states[0].open && !states[0].writer.Done?
    requires forall k :: 0 <= k < |steps| ==> WriterStep(steps[k]) && Leads(states[k], steps[k], states[k + 1])
    requires i <= |steps|
    ensures states[i].open && !states[i].writer.Done? && Left(states[i]) == Left(states[0]) - i
    ensures i < Left(states[0])
    ensures (forall step :: WriterStep(step) ==> !Enabled(states[i], step)) <==> i == Left(states[0]) - 1
  {
    if i > 0 {
      JoinBeforeClosingHangs(steps, states, i - 1);
      OpenWriterStep(states[i - 1], steps[i - 1], states[i]);
    }
    var s := states[i];
    if Left(s) > 1 {
      assert WriterStep(NextOfWriter(s)) && Enabled(s, NextOfWriter(s));
    }
  }
}
