/** The multicast subject as it runs: many calls interleaved lock by lock and send
    by send, with receivers that read or vanish at any moment. */
module SubjectMachine {
  import opened Events
  import opened SubjectSpec

  // ---------------------------------------------------------------------------
  // State
  // ---------------------------------------------------------------------------

  /** The fields the `state` lock protects; subscribers are channel numbers. */
  datatype Cell<!T, !E> = Cell(
    replay: seq<T>,
    capacity: nat,
    completed: bool,
    error: Option<ObservableError<E>>,
    subscribers: seq<nat>)

  /** An unbounded channel: everything ever queued, how much was read, and whether
      the receiver is still there. */
  datatype Chan<!T, !E> = Chan(sent: seq<Event<T, E>>, read: nat, open: bool)

  /** Where a call stands. */
  datatype Pc<!T, !E> =
    | WantEmit(call: Call<T, E>)
    | HasEmit(call: Call<T, E>)
    | InState(call: Call<T, E>)
    | Sending(event: Event<T, E>, targets: seq<nat>)
    | Replaying(chan: nat, rest: seq<Event<T, E>>)
    | WantState(chan: nat)
    | Registering(chan: nat)
    | Releasing
    | Finished

  datatype Machine<!T, !E> = Machine(
    cell: Cell<T, E>,
    chans: seq<Chan<T, E>>,
    emit: Option<nat>,
    lock: Option<nat>,
    pcs: map<nat, Pc<T, E>>)

  datatype Step<!T, !E> =
    | Start(call: nat, what: Call<T, E>)   // a call is made
    | Abandon(call: nat)                   // its future is dropped while it waits for `emit`
    | Advance(call: nat)                   // it takes one step
    | Read(chan: nat)                      // a receiver takes one event
    | Close(chan: nat)                     // a receiver goes away

  function Initial<T, E>(capacity: nat): Machine<T, E>
  {
    Machine(Cell([], capacity, false, None, []), [], None, None, map[])
  }

  // ---------------------------------------------------------------------------
  // Critical sections
  // ---------------------------------------------------------------------------

  predicate IsTerminated<T, E>(cell: Cell<T, E>)
  {
    cell.completed || cell.error.Some?
  }

  function TerminalEvent<T, E>(cell: Cell<T, E>): Option<Event<T, E>>
  {
    if cell.error.Some? then Some(Error(cell.error.value))
    else if cell.completed then Some(Complete)
    else None
  }

  /** The subscribers whose receiver is still there, in order. */
  function Live<T, E>(subscribers: seq<nat>, chans: seq<Chan<T, E>>): (live: seq<nat>)
    ensures forall c :: c in live <==> c in subscribers && c < |chans| && chans[c].open
    ensures |live| <= |subscribers|
  {
    if subscribers == [] then []
    else
      var rest := Live(subscribers[1..], chans);
      var c := subscribers[0];
      if c < |chans| && chans[c].open then [c] + rest else rest
  }

  function Remember<T, E>(cell: Cell<T, E>, v: T): Cell<T, E>
  {
    if cell.capacity == 0 then cell
    else
      var kept := if |cell.replay| == cell.capacity then cell.replay[1..] else cell.replay;
      cell.(replay := kept + [v])
  }

  /** What a broadcasting call does to the cell while it holds `state`. */
  function Record<T, E>(cell: Cell<T, E>, call: Call<T, E>): Cell<T, E>
  {
    match call
    case DoNext(v) => Remember(cell, v)
    case DoComplete => cell.(completed := true)
    case DoError(e) => cell.(error := Some(Business(e)))
    case DoSubscribe => cell
  }

  function EventOf<T, E>(call: Call<T, E>): Event<T, E>
    requires !call.DoSubscribe?
  {
    match call
    case DoNext(v) => Next(v)
    case DoComplete => Complete
    case DoError(e) => Error(Business(e))
  }

  // ---------------------------------------------------------------------------
  // Steps
  // ---------------------------------------------------------------------------

  predicate CanAdvance<T, E>(m: Machine<T, E>, t: nat)
  {
    t in m.pcs &&
    match m.pcs[t]
    case WantEmit(_) => m.emit.None?
    case HasEmit(_) => m.lock.None?
    case WantState(_) => m.lock.None?
    case Finished => false
    case _ => true
  }

  predicate Enabled<T, E>(m: Machine<T, E>, step: Step<T, E>)
  {
    match step
    case Start(t, _) => t !in m.pcs
    case Abandon(t) => t in m.pcs && m.pcs[t].WantEmit?
    case Advance(t) => CanAdvance(m, t)
    case Read(c) => c < |m.chans| && m.chans[c].open && m.chans[c].read < |m.chans[c].sent|
    case Close(c) => c < |m.chans| && m.chans[c].open
  }

  /** Queues one event; lost if the receiver is gone. */
  function Send<T, E>(chans: seq<Chan<T, E>>, c: nat, event: Event<T, E>): seq<Chan<T, E>>
  {
    if c < |chans| && chans[c].open then chans[c := chans[c].(sent := chans[c].sent + [event])] else chans
  }

  /** The critical section of a call, releasing `state` at its end. */
  function Enter<T, E>(m: Machine<T, E>, t: nat, call: Call<T, E>): Machine<T, E>
  {
    if call.DoSubscribe? then
      var c := |m.chans|;
      m.(lock := None,
         chans := m.chans + [Chan([], 0, true)],
         pcs := m.pcs[t := Replaying(c, Nexts(m.cell.replay) + AsSeq(TerminalEvent(m.cell)))])
    else if IsTerminated(m.cell) then
      m.(lock := None, pcs := m.pcs[t := Releasing])
    else
      var live := Live(m.cell.subscribers, m.chans);
      m.(lock := None,
         cell := Record(m.cell, call).(subscribers := live),
         pcs := m.pcs[t := Sending(EventOf(call), live)])
  }

  function Move<T, E>(m: Machine<T, E>, t: nat): Machine<T, E>
    requires CanAdvance(m, t)
  {
    match m.pcs[t]
    case WantEmit(call) => m.(emit := Some(t), pcs := m.pcs[t := HasEmit(call)])
    case HasEmit(call) => m.(lock := Some(t), pcs := m.pcs[t := InState(call)])
    case InState(call) => Enter(m, t, call)
    case Sending(event, targets) =>
      if targets == [] then m.(pcs := m.pcs[t := Releasing])
      else m.(chans := Send(m.chans, targets[0], event), pcs := m.pcs[t := Sending(event, targets[1..])])
    case Replaying(c, rest) =>
      if rest == [] then m.(pcs := m.pcs[t := WantState(c)])
      else m.(chans := Send(m.chans, c, rest[0]), pcs := m.pcs[t := Replaying(c, rest[1..])])
    case WantState(c) => m.(lock := Some(t), pcs := m.pcs[t := Registering(c)])
    case Registering(c) =>
      m.(lock := None,
         cell := if IsTerminated(m.cell) then m.cell else m.cell.(subscribers := m.cell.subscribers + [c]),
         pcs := m.pcs[t := Releasing])
    case Releasing => m.(emit := None, pcs := m.pcs[t := Finished])
  }

  function Do<T, E>(m: Machine<T, E>, step: Step<T, E>): Machine<T, E>
    requires Enabled(m, step)
  {
    match step
    case Start(t, call) => m.(pcs := m.pcs[t := WantEmit(call)])
    case Abandon(t) => m.(pcs := m.pcs[t := Finished])
    case Advance(t) => Move(m, t)
    case Read(c) => m.(chans := m.chans[c := m.chans[c].(read := m.chans[c].read + 1)])
    case Close(c) => m.(chans := m.chans[c := m.chans[c].(open := false)])
  }

  ghost predicate Leads<T, E>(m: Machine<T, E>, step: Step<T, E>, m': Machine<T, E>)
  {
    Enabled(m, step) && m' == Do(m, step)
  }

  ghost predicate Run<T, E>(capacity: nat, steps: seq<Step<T, E>>, states: seq<Machine<T, E>>)
  {
    && |states| == |steps| + 1
    && states[0] == Initial(capacity)
    && forall i :: 0 <= i < |steps| ==> Leads(states[i], steps[i], states[i + 1])
  }

  // ---------------------------------------------------------------------------
  // Locks
  // ---------------------------------------------------------------------------

  predicate Owns<T, E>(pc: Pc<T, E>)
  {
    !pc.WantEmit? && !pc.Finished?
  }

  predicate HoldsState<T, E>(pc: Pc<T, E>)
  {
    pc.InState? || pc.Registering?
  }

  /** `emit` is held by exactly the call that is past its acquisition, and `state`
      is held by exactly the call inside a critical section. */
  ghost predicate Locks<T, E>(m: Machine<T, E>)
  {
    && (forall t :: t in m.pcs ==> (Owns(m.pcs[t]) <==> m.emit == Some(t)))
    && (forall t :: t in m.pcs ==> (HoldsState(m.pcs[t]) <==> m.lock == Some(t)))
    && (m.emit.Some? ==> m.emit.value in m.pcs)
    && (m.lock.Some? ==> m.lock == m.emit)
  }

  lemma StepKeepsLocks<T, E>(m: Machine<T, E>, step: Step<T, E>)
    requires Locks(m) && Enabled(m, step)
    ensures Locks(Do(m, step))
  {
  }
}
