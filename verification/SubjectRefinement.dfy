/** The interleaved subject refines the atomic one. */
module SubjectRefinement {
  import opened Events
  import opened Folds
  import opened SubjectSpec
  import opened SubjectMachine

  // ---------------------------------------------------------------------------
  // Abstraction
  // ---------------------------------------------------------------------------

  /** What the call holding `emit` still has to queue on channel `c`. */
  function Pending<T, E>(m: Machine<T, E>, c: nat): seq<Event<T, E>>
  {
    if m.emit.None? || m.emit.value !in m.pcs then []
    else
      match m.pcs[m.emit.value]
      case Sending(event, targets) => if c in targets then [event] else []
      case Replaying(d, rest) => if c == d then rest else []
      case _ => []
  }

  /** The channel a subscription in progress has not registered yet. */
  function Newcomer<T, E>(m: Machine<T, E>): Option<nat>
  {
    if m.emit.None? || m.emit.value !in m.pcs then None
    else
      match m.pcs[m.emit.value]
      case Replaying(c, _) => Some(c)
      case WantState(c) => Some(c)
      case Registering(c) => Some(c)
      case _ => None
  }

  ghost predicate Wired<T, E>(m: Machine<T, E>)
  {
    && Distinct(m.cell.subscribers)
    && (forall c :: c in m.cell.subscribers ==> c < |m.chans|)
    && (Newcomer(m).Some? ==> Newcomer(m).value < |m.chans| && Newcomer(m).value !in m.cell.subscribers)
    && (!IsTerminated(m.cell) ==>
          forall c :: 0 <= c < |m.chans| && m.chans[c].open ==> c in m.cell.subscribers || Newcomer(m) == Some(c))
    && (m.emit.Some? && m.emit.value in m.pcs && m.pcs[m.emit.value].Sending? ==>
          Distinct(m.pcs[m.emit.value].targets) && forall c :: c in m.pcs[m.emit.value].targets ==> c < |m.chans|)
  }

  ghost predicate SameCell<T, E>(cell: Cell<T, E>, a: Atomic<T, E>)
  {
    && a.capacity == cell.capacity
    && cell.replay == LastN(a.values, cell.capacity)
    && TerminalEvent(cell) == a.terminal
  }

  ghost predicate SameQueues<T, E>(m: Machine<T, E>, a: Atomic<T, E>)
  {
    && (forall c :: c in a.queues <==> 0 <= c < |m.chans| && m.chans[c].open)
    && (forall c :: c in a.queues ==> m.chans[c].sent + Pending(m, c) == a.queues[c])
  }

  /** Each listening receiver was queued what the atomic subject handed it, short
      of what the call holding `emit` is about to queue. */
  ghost predicate Refines<T, E>(m: Machine<T, E>, a: Atomic<T, E>)
  {
    Locks(m) && Wired(m) && SameCell(m.cell, a) && SameQueues(m, a)
  }

  /** The atomic counterpart of a step: a call takes effect in its critical
      section, a receiver leaves when it closes, nothing else happens. */
  function AbstractStep<T, E>(m: Machine<T, E>, step: Step<T, E>, a: Atomic<T, E>): Atomic<T, E>
  {
    match step
    case Advance(t) =>
      if t in m.pcs && m.pcs[t].InState? then Perform(a, m.pcs[t].call, |m.chans|) else a
    case Close(c) => Leave(a, c)
    case _ => a
  }

  // ---------------------------------------------------------------------------
  // Simulation, step by step
  // ---------------------------------------------------------------------------

  lemma RememberIsLastN<T, E>(cell: Cell<T, E>, values: seq<T>, v: T)
    requires cell.replay == LastN(values, cell.capacity)
    ensures Remember(cell, v).replay == LastN(values + [v], cell.capacity)
  {
  }

  lemma RecordIsSame<T, E>(cell: Cell<T, E>, a: Atomic<T, E>, call: Call<T, E>, live: seq<nat>, c: nat)
    requires SameCell(cell, a) && !call.DoSubscribe? && !IsTerminated(cell)
    ensures SameCell(Record(cell, call).(subscribers := live), Perform(a, call, c))
    ensures var b := Perform(a, call, c);
            b.queues.Keys == a.queues.Keys && forall d :: d in a.queues ==> b.queues[d] == a.queues[d] + [EventOf(call)]
  {
    if call.DoNext? { RememberIsLastN(cell, a.values, call.value); }
  }

  lemma {:induction false} LiveIsDistinct<T, E>(subscribers: seq<nat>, chans: seq<Chan<T, E>>)
    requires Distinct(subscribers)
    ensures Distinct(Live(subscribers, chans))
  {
    if subscribers != [] {
      LiveIsDistinct(subscribers[1..], chans);
      assert subscribers[0] !in subscribers[1..];
    }
  }

  lemma EnterBroadcast<T, E>(m: Machine<T, E>, t: nat, a: Atomic<T, E>)
    requires Refines(m, a) && t in m.pcs && m.pcs[t].InState? && !m.pcs[t].call.DoSubscribe? && !IsTerminated(m.cell)
    ensures Refines(Move(m, t), Perform(a, m.pcs[t].call, |m.chans|))
  {
    StepKeepsLocks(m, Advance(t));
    RecordIsSame(m.cell, a, m.pcs[t].call, Live(m.cell.subscribers, m.chans), |m.chans|);
    BroadcastQueues(m, t, a);
    BroadcastWired(m, t);
  }

  lemma BroadcastQueues<T, E>(m: Machine<T, E>, t: nat, a: Atomic<T, E>)
    requires Refines(m, a) && t in m.pcs && m.pcs[t].InState? && !m.pcs[t].call.DoSubscribe? && !IsTerminated(m.cell)
    ensures SameQueues(Move(m, t), Perform(a, m.pcs[t].call, |m.chans|))
  {
    var call, live := m.pcs[t].call, Live(m.cell.subscribers, m.chans);
    var m', a' := Move(m, t), Perform(a, call, |m.chans|);
    RecordIsSame(m.cell, a, call, live, |m.chans|);
    assert m.emit == Some(t) && m'.emit == Some(t) && m'.pcs[t] == Sending(EventOf(call), live);
    forall c | c in a'.queues ensures m'.chans[c].sent + Pending(m', c) == a'.queues[c] {
      assert c in live;
      assert Pending(m, c) == [];
      assert m.chans[c].sent + [] == m.chans[c].sent;
    }
  }

  lemma BroadcastWired<T, E>(m: Machine<T, E>, t: nat)
    requires Locks(m) && Wired(m) && t in m.pcs && m.pcs[t].InState? && !m.pcs[t].call.DoSubscribe? && !IsTerminated(m.cell)
    ensures Wired(Move(m, t))
  {
    LiveIsDistinct(m.cell.subscribers, m.chans);
    assert m.emit == Some(t) && Newcomer(m) == None && Newcomer(Move(m, t)) == None;
  }

  lemma EnterSubscribe<T, E>(m: Machine<T, E>, t: nat, a: Atomic<T, E>)
    requires Refines(m, a) && t in m.pcs && m.pcs[t].InState? && m.pcs[t].call.DoSubscribe?
    ensures Refines(Move(m, t), Perform(a, m.pcs[t].call, |m.chans|))
  {
    StepKeepsLocks(m, Advance(t));
    SubscribeQueues(m, t, a);
    SubscribeWired(m, t);
  }

  lemma SubscribeWired<T, E>(m: Machine<T, E>, t: nat)
    requires Locks(m) && Wired(m) && t in m.pcs && m.pcs[t].InState? && m.pcs[t].call.DoSubscribe?
    ensures Wired(Move(m, t))
  {
    assert m.emit == Some(t) && Newcomer(m) == None && Newcomer(Move(m, t)) == Some(|m.chans|);
  }

  lemma SubscribeQueues<T, E>(m: Machine<T, E>, t: nat, a: Atomic<T, E>)
    requires Locks(m) && SameCell(m.cell, a) && SameQueues(m, a) && t in m.pcs && m.pcs[t].InState? && m.pcs[t].call.DoSubscribe?
    ensures SameQueues(Move(m, t), Perform(a, m.pcs[t].call, |m.chans|))
  {
    var n := |m.chans|;
    var m', a' := Move(m, t), Perform(a, DoSubscribe, n);
    assert m.emit == Some(t) && m'.emit == Some(t);
    assert m'.pcs[t] == Replaying(n, Nexts(m.cell.replay) + AsSeq(TerminalEvent(m.cell)));
    forall c | c in a'.queues ensures m'.chans[c].sent + Pending(m', c) == a'.queues[c] {
      if c == n {
        assert m'.chans[n].sent == [];
      } else {
        assert c in a.queues && Pending(m, c) == [] == Pending(m', c);
      }
    }
  }

  lemma SendOne<T, E>(m: Machine<T, E>, t: nat, a: Atomic<T, E>)
    requires Refines(m, a) && t in m.pcs && m.pcs[t].Sending? && m.pcs[t].targets != []
    ensures Refines(Move(m, t), a)
  {
    StepKeepsLocks(m, Advance(t));
    SendQueues(m, t, a);
    SendWired(m, t);
  }

  lemma SendQueues<T, E>(m: Machine<T, E>, t: nat, a: Atomic<T, E>)
    requires Locks(m) && Wired(m) && SameQueues(m, a) && t in m.pcs && m.pcs[t].Sending? && m.pcs[t].targets != []
    ensures SameQueues(Move(m, t), a)
  {
    var m' := Move(m, t);
    var event, targets := m.pcs[t].event, m.pcs[t].targets;
    assert m.emit == Some(t);
    var rest := targets[1..];
    assert targets[0] !in rest;
    forall c | c in a.queues ensures m'.chans[c].sent + Pending(m', c) == a.queues[c] {
      if c == targets[0] {
        assert m.chans[c].sent + [event] + [] == m.chans[c].sent + [event];
      } else {
        assert c in targets <==> c in rest;
      }
    }
  }

  lemma SendWired<T, E>(m: Machine<T, E>, t: nat)
    requires Locks(m) && Wired(m) && t in m.pcs && m.pcs[t].Sending? && m.pcs[t].targets != []
    ensures Wired(Move(m, t))
  {
    assert m.emit == Some(t) && Newcomer(m) == None && Newcomer(Move(m, t)) == None;
    assert forall c :: c in m.pcs[t].targets[1..] ==> c in m.pcs[t].targets;
  }

  lemma ReplayOne<T, E>(m: Machine<T, E>, t: nat, a: Atomic<T, E>)
    requires Refines(m, a) && t in m.pcs && m.pcs[t].Replaying? && m.pcs[t].rest != []
    ensures Refines(Move(m, t), a)
  {
    var m' := Move(m, t);
    var d, rest := m.pcs[t].chan, m.pcs[t].rest;
    assert m.emit == Some(t);
    StepKeepsLocks(m, Advance(t));
    forall c | c in a.queues ensures m'.chans[c].sent + Pending(m', c) == a.queues[c] {
      if c == d {
        assert m.chans[c].sent + [rest[0]] + rest[1..] == m.chans[c].sent + rest;
      }
    }
    assert SameQueues(m', a);
  }

  lemma Register<T, E>(m: Machine<T, E>, t: nat, a: Atomic<T, E>)
    requires Refines(m, a) && t in m.pcs && m.pcs[t].Registering?
    ensures Refines(Move(m, t), a)
  {
    var m' := Move(m, t);
    StepKeepsLocks(m, Advance(t));
    RegisterTouches(m, t);
    assert SameQueues(m', a);
    RegisterWired(m, t);
  }

  lemma RegisterTouches<T, E>(m: Machine<T, E>, t: nat)
    requires Locks(m) && t in m.pcs && m.pcs[t].Registering?
    ensures Move(m, t).chans == m.chans && forall c: nat :: Pending(m, c) == [] == Pending(Move(m, t), c)
  {
    assert m.emit == Some(t);
  }

  lemma RegisterWired<T, E>(m: Machine<T, E>, t: nat)
    requires Locks(m) && Wired(m) && t in m.pcs && m.pcs[t].Registering?
    ensures Wired(Move(m, t))
  {
    assert m.emit == Some(t) && Newcomer(m) == Some(m.pcs[t].chan) && Newcomer(Move(m, t)) == None;
  }

  /** A step that only moves a call along, queueing nothing. */
  lemma QuietMove<T, E>(m: Machine<T, E>, t: nat, a: Atomic<T, E>)
    requires Refines(m, a) && Quiet(m, t)
    ensures Refines(Move(m, t), a)
  {
    StepKeepsLocks(m, Advance(t));
    QuietTouches(m, t);
    var m' := Move(m, t);
    assert SameQueues(m', a);
    assert Wired(m');
  }

  predicate Quiet<T, E>(m: Machine<T, E>, t: nat)
  {
    CanAdvance(m, t) &&
    match m.pcs[t]
    case InState(call) => !call.DoSubscribe? && IsTerminated(m.cell)
    case Sending(_, targets) => targets == []
    case Replaying(_, rest) => rest == []
    case Registering(_) => false
    case _ => true
  }

  lemma QuietTouches<T, E>(m: Machine<T, E>, t: nat)
    requires Locks(m) && Quiet(m, t)
    ensures Move(m, t).cell == m.cell && Move(m, t).chans == m.chans
    ensures forall c: nat :: Pending(Move(m, t), c) == Pending(m, c)
    ensures Newcomer(Move(m, t)) == Newcomer(m)
    ensures var m' := Move(m, t);
      !(m'.emit.Some? && m'.emit.value in m'.pcs && m'.pcs[m'.emit.value].Sending?)
      || (m'.emit == m.emit && m'.pcs[m'.emit.value] == m.pcs[m.emit.value])
  {
  }

  lemma Environment<T, E>(m: Machine<T, E>, step: Step<T, E>, a: Atomic<T, E>)
    requires Refines(m, a) && Enabled(m, step) && !step.Advance?
    ensures Refines(Do(m, step), AbstractStep(m, step, a))
  {
    StepKeepsLocks(m, step);
    EnvironmentTouches(m, step);
    assert SameQueues(Do(m, step), AbstractStep(m, step, a));
    assert Wired(Do(m, step));
  }

  lemma EnvironmentTouches<T, E>(m: Machine<T, E>, step: Step<T, E>)
    requires Locks(m) && Enabled(m, step) && !step.Advance?
    ensures Do(m, step).cell == m.cell && Do(m, step).emit == m.emit
    ensures m.emit.Some? ==> m.emit.value in m.pcs && Do(m, step).pcs[m.emit.value] == m.pcs[m.emit.value]
    ensures forall c: nat :: Pending(Do(m, step), c) == Pending(m, c)
    ensures Newcomer(Do(m, step)) == Newcomer(m)
  {
  }

  /** Every step of the interleaved subject is one step of the atomic one, or none. */
  lemma Simulates<T, E>(m: Machine<T, E>, step: Step<T, E>, a: Atomic<T, E>)
    requires Refines(m, a) && Enabled(m, step)
    ensures Refines(Do(m, step), AbstractStep(m, step, a))
  {
    match step
    case Advance(t) =>
      match m.pcs[t] {
        case InState(call) =>
          if call.DoSubscribe? { EnterSubscribe(m, t, a); }
          else if IsTerminated(m.cell) { QuietMove(m, t, a); }
          else { EnterBroadcast(m, t, a); }
        case Sending(_, targets) => if targets == [] { QuietMove(m, t, a); } else { SendOne(m, t, a); }
        case Replaying(_, rest) => if rest == [] { QuietMove(m, t, a); } else { ReplayOne(m, t, a); }
        case Registering(_) => Register(m, t, a);
        case _ => QuietMove(m, t, a);
      }
    case _ => Environment(m, step, a);
  }

  // ---------------------------------------------------------------------------
  // Whole runs
  // ---------------------------------------------------------------------------

  /** The atomic subject after the first `i` steps of a run. */
  ghost function AbstractRun<T, E>(capacity: nat, steps: seq<Step<T, E>>, states: seq<Machine<T, E>>, i: nat): Atomic<T, E>
    requires i <= |steps| && i <= |states|
  {
    if i == 0 then Fresh(capacity)
    else AbstractStep(states[i - 1], steps[i - 1], AbstractRun(capacity, steps, states, i - 1))
  }

  lemma StepKeepsShape<T, E>(m: Machine<T, E>, step: Step<T, E>, a: Atomic<T, E>)
    requires Refines(m, a) && Enabled(m, step) && Shape(a)
    ensures Shape(AbstractStep(m, step, a))
  {
    if step.Advance? && m.pcs[step.call].InState? {
      PerformKeepsShape(a, m.pcs[step.call].call, |m.chans|);
    }
  }

  lemma {:induction false} RunRefines<T, E>(capacity: nat, steps: seq<Step<T, E>>, states: seq<Machine<T, E>>, i: nat)
    requires Run(capacity, steps, states) && i < |states|
    ensures Refines(states[i], AbstractRun(capacity, steps, states, i))
    ensures Shape(AbstractRun(capacity, steps, states, i))
  {
    if i > 0 {
      RunRefines(capacity, steps, states, i - 1);
      LeadRefines(states[i - 1], steps[i - 1], states[i], AbstractRun(capacity, steps, states, i - 1));
    } else {
      FreshRefines<T, E>(capacity);
    }
  }

  lemma LeadRefines<T, E>(m: Machine<T, E>, step: Step<T, E>, m': Machine<T, E>, a: Atomic<T, E>)
    requires Refines(m, a) && Shape(a) && Leads(m, step, m')
    ensures Refines(m', AbstractStep(m, step, a)) && Shape(AbstractStep(m, step, a))
  {
    Simulates(m, step, a);
    StepKeepsShape(m, step, a);
  }

  lemma FreshRefines<T, E>(capacity: nat)
    ensures Refines(Initial<T, E>(capacity), Fresh(capacity)) && Shape(Fresh<T, E>(capacity))
  {
  }

  ghost predicate TerminalLast<T, E>(sent: seq<Event<T, E>>)
  {
    forall i :: 0 <= i < |sent| - 1 ==> !sent[i].IsTerminal()
  }

  /** In every interleaving, what was queued for a listening subscriber is the
      last values emitted before it joined, then every later value in emission
      order, then the terminal if there was one - short of what the call holding
      `emit` is still queueing, so exactly that whenever `emit` is free. */
  lemma QueueHistory<T, E>(capacity: nat, steps: seq<Step<T, E>>, states: seq<Machine<T, E>>, i: nat, c: nat)
    requires Run(capacity, steps, states) && i < |states|
    requires c < |states[i].chans| && states[i].chans[c].open
    ensures var a := AbstractRun(capacity, steps, states, i);
            && c in a.joined && a.joined[c] <= |a.values| && a.capacity == capacity
            && states[i].chans[c].sent + Pending(states[i], c) == Expected(a, a.joined[c])
            && (states[i].emit.None? ==> states[i].chans[c].sent == Expected(a, a.joined[c]))
            && TerminalLast(states[i].chans[c].sent)
  {
    RunRefines(capacity, steps, states, i);
    CapacityIsFixed(capacity, steps, states, i);
    var a := AbstractRun(capacity, steps, states, i);
    assert c in a.queues;
    var sent, pending := states[i].chans[c].sent, Pending(states[i], c);
    assert sent + pending == Expected(a, a.joined[c]);
    ExpectedEndsOnce(a, a.joined[c]);
    assert forall k :: 0 <= k < |sent| ==> sent[k] == (sent + pending)[k];
    if states[i].emit.None? { assert sent + [] == sent; }
  }

  lemma {:induction false} CapacityIsFixed<T, E>(capacity: nat, steps: seq<Step<T, E>>, states: seq<Machine<T, E>>, i: nat)
    requires Run(capacity, steps, states) && i < |states|
    ensures AbstractRun(capacity, steps, states, i).capacity == capacity
  {
    if i > 0 { CapacityIsFixed(capacity, steps, states, i - 1); }
  }

  lemma ExpectedEndsOnce<T, E>(a: Atomic<T, E>, joined: nat)
    requires joined <= |a.values|
    ensures TerminalLast(Expected(a, joined))
  {
  }

  /** Even a receiver that vanished half-way was never queued anything past a
      terminal. */
  lemma {:induction false} NothingAfterATerminal<T, E>(capacity: nat, steps: seq<Step<T, E>>, states: seq<Machine<T, E>>, i: nat, c: nat)
    requires Run(capacity, steps, states) && i < |states| && c < |states[i].chans|
    ensures TerminalLast(states[i].chans[c].sent)
  {
    if states[i].chans[c].open {
      QueueHistory(capacity, steps, states, i, c);
    } else {
      assert i > 0;
      var m, step := states[i - 1], steps[i - 1];
      assert c < |m.chans| && states[i].chans[c].sent == m.chans[c].sent;
      NothingAfterATerminal(capacity, steps, states, i - 1, c);
    }
  }

  // ---------------------------------------------------------------------------
  // Each call takes effect once
  // ---------------------------------------------------------------------------

  predicate IsEffect<T, E>(m: Machine<T, E>, step: Step<T, E>, t: nat)
  {
    step == Advance(t) && t in m.pcs && m.pcs[t].InState?
  }

  /** How often call `t` took effect in the first `i` steps. */
  ghost function Effects<T, E>(steps: seq<Step<T, E>>, states: seq<Machine<T, E>>, t: nat, i: nat): nat
    requires i <= |steps| && i <= |states|
  {
    if i == 0 then 0 else Effects(steps, states, t, i - 1) + if IsEffect(states[i - 1], steps[i - 1], t) then 1 else 0
  }

  predicate Past<T, E>(pc: Pc<T, E>)
  {
    !pc.WantEmit? && !pc.HasEmit? && !pc.InState?
  }

  /** A call passes its one effect in the step that performs it, and in no other. */
  lemma StepEffect<T, E>(m: Machine<T, E>, step: Step<T, E>, m': Machine<T, E>, t: nat)
    requires Leads(m, step, m')
    ensures var was, now := t in m.pcs && Past(m.pcs[t]), t in m'.pcs && Past(m'.pcs[t]);
      && (IsEffect(m, step, t) ==> !was && now)
      && (!IsEffect(m, step, t) && step != Abandon(t) ==> was == now)
      && (step == Abandon(t) ==> !was && now && m'.pcs[t].Finished? && !IsEffect(m, step, t))
      && (t in m.pcs && m.pcs[t].Finished? ==> t in m'.pcs && m'.pcs[t].Finished? && step != Abandon(t) && !IsEffect(m, step, t))
  {
  }

  /** Where a call stands: abandoned, or past its effect, which it then had once. */
  ghost predicate HadItsEffect<T, E>(m: Machine<T, E>, t: nat, effects: nat, abandoned: bool)
  {
    && effects == (if t in m.pcs && Past(m.pcs[t]) && !abandoned then 1 else 0)
    && (abandoned ==> t in m.pcs && m.pcs[t].Finished?)
  }

  lemma EffectStep<T, E>(m: Machine<T, E>, step: Step<T, E>, m': Machine<T, E>, t: nat, effects: nat, abandoned: bool)
    requires Leads(m, step, m') && HadItsEffect(m, t, effects, abandoned)
    ensures HadItsEffect(m', t, effects + (if IsEffect(m, step, t) then 1 else 0), abandoned || step == Abandon(t))
  {
    StepEffect(m, step, m', t);
  }

  /** A call takes effect exactly once, between its start and its end, unless it
      was abandoned while waiting for `emit`: then never. */
  lemma {:induction false} EachCallTakesEffectOnce<T, E>(capacity: nat, steps: seq<Step<T, E>>, states: seq<Machine<T, E>>, t: nat, i: nat)
    requires Run(capacity, steps, states) && i < |states|
    ensures HadItsEffect(states[i], t, Effects(steps, states, t, i), Abandon(t) in steps[..i])
  {
    if i > 0 {
      EachCallTakesEffectOnce(capacity, steps, states, t, i - 1);
      EffectStep(states[i - 1], steps[i - 1], states[i], t, Effects(steps, states, t, i - 1), Abandon(t) in steps[..i - 1]);
      assert steps[..i] == steps[..i - 1] + [steps[i - 1]];
    }
  }

  // ---------------------------------------------------------------------------
  // Progress
  // ---------------------------------------------------------------------------

  /** How many steps of its own a call needs to release `emit`. */
  function Remaining<T, E>(cell: Cell<T, E>, pc: Pc<T, E>): nat
    decreases match pc case WantEmit(_) => 2 case HasEmit(_) => 1 case _ => 0
  {
    match pc
    case WantEmit(call) => Remaining(cell, HasEmit(call)) + 1
    case HasEmit(call) => Remaining(cell, InState(call)) + 1
    case InState(call) => if call.DoSubscribe? then |cell.replay| + 6 else |cell.subscribers| + 3
    case Sending(_, targets) => |targets| + 2
    case Replaying(_, rest) => |rest| + 4
    case WantState(_) => 3
    case Registering(_) => 2
    case Releasing => 1
    case Finished => 0
  }

  /** The call holding `emit` can always move, whatever the receivers do, and each
      of its steps brings it closer to releasing it. */
  lemma OwnerAdvances<T, E>(m: Machine<T, E>, a: Atomic<T, E>, t: nat)
    requires Refines(m, a) && m.emit == Some(t)
    ensures CanAdvance(m, t)
    ensures Remaining(Move(m, t).cell, Move(m, t).pcs[t]) < Remaining(m.cell, m.pcs[t])
  {
  }

  /** No other call and no receiver can lengthen what the owner has left. */
  lemma OthersDoNotDelay<T, E>(m: Machine<T, E>, t: nat, step: Step<T, E>)
    requires Locks(m) && m.emit == Some(t) && Enabled(m, step) && step != Advance(t)
    ensures Do(m, step).emit == Some(t)
    ensures Do(m, step).cell == m.cell && Do(m, step).pcs[t] == m.pcs[t]
  {
  }

  /** How many of the steps `i` up to `j` are steps of call `t`. */
  ghost function OwnSteps<T, E>(steps: seq<Step<T, E>>, t: nat, i: nat, j: nat): nat
    requires i <= j <= |steps|
    decreases j
  {
    if i == j then 0 else OwnSteps(steps, t, i, j - 1) + if steps[j - 1] == Advance(t) then 1 else 0
  }

  lemma OneStepSpends<T, E>(m: Machine<T, E>, a: Atomic<T, E>, t: nat, step: Step<T, E>)
    requires Refines(m, a) && m.emit == Some(t) && t in m.pcs && Enabled(m, step)
    ensures t in Do(m, step).pcs
    ensures Remaining(Do(m, step).cell, Do(m, step).pcs[t]) + (if step == Advance(t) then 1 else 0)
            <= Remaining(m.cell, m.pcs[t])
  {
    if step == Advance(t) {
      OwnerAdvances(m, a, t);
    } else {
      OthersDoNotDelay(m, t, step);
    }
  }

  /** What call `t` has left, if it is there. */
  function Left<T, E>(m: Machine<T, E>, t: nat): nat
  {
    if t in m.pcs then Remaining(m.cell, m.pcs[t]) else 0
  }

  /** Step `j` of a run, taken while call `t` owns `emit`. */
  lemma StepSpends<T, E>(capacity: nat, steps: seq<Step<T, E>>, states: seq<Machine<T, E>>, t: nat, j: nat)
    requires Run(capacity, steps, states) && j < |steps| && states[j].emit == Some(t)
    ensures t in states[j].pcs && t in states[j + 1].pcs
    ensures Left(states[j + 1], t) + (if steps[j] == Advance(t) then 1 else 0) <= Left(states[j], t)
  {
    RunRefines(capacity, steps, states, j);
    assert Leads(states[j], steps[j], states[j + 1]);
    OneStepSpends(states[j], AbstractRun(capacity, steps, states, j), t, steps[j]);
  }

  lemma {:induction false} SpendingAddsUp<T, E>(steps: seq<Step<T, E>>, t: nat, left: seq<nat>, i: nat, j: nat)
    requires i <= j <= |steps| < |left|
    requires forall k :: i <= k < j ==> left[k + 1] + (if steps[k] == Advance(t) then 1 else 0) <= left[k]
    ensures OwnSteps(steps, t, i, j) + left[j] <= left[i]
    decreases j
  {
    if i < j { SpendingAddsUp(steps, t, left, i, j - 1); }
  }

  lemma OwnerSpendsItsSteps<T, E>(capacity: nat, steps: seq<Step<T, E>>, states: seq<Machine<T, E>>, t: nat, i: nat, j: nat)
    requires Run(capacity, steps, states) && i <= j < |states|
    requires forall k :: i <= k < j ==> states[k].emit == Some(t)
    ensures OwnSteps(steps, t, i, j) + Left(states[j], t) <= Left(states[i], t)
  {
    var left := seq(|states|, k requires 0 <= k < |states| => Left(states[k], t));
    forall k | i <= k < j ensures left[k + 1] + (if steps[k] == Advance(t) then 1 else 0) <= left[k] {
      StepSpends(capacity, steps, states, t, k);
    }
    SpendingAddsUp(steps, t, left, i, j);
  }

  lemma LeftAtStart<T, E>(m: Machine<T, E>, t: nat)
    requires t in m.pcs && m.pcs[t].HasEmit?
    ensures Left(m, t) <= |m.cell.replay| + |m.cell.subscribers| + 7
  {
    assert Remaining(m.cell, m.pcs[t]) == Remaining(m.cell, InState(m.pcs[t].call)) + 1;
  }

  lemma OwnerInRun<T, E>(capacity: nat, steps: seq<Step<T, E>>, states: seq<Machine<T, E>>, t: nat, i: nat)
    requires Run(capacity, steps, states) && i < |states|
    ensures t in states[i].pcs && states[i].pcs[t].HasEmit? ==> states[i].emit == Some(t)
    ensures states[i].emit == Some(t) ==> Left(states[i], t) > 0
  {
    RunRefines(capacity, steps, states, i);
  }

  /** A call that has just got `emit` releases it after at most as many steps of
      its own as there are replayed values and subscribers, plus seven: however
      the other calls and the receivers interleave with it. */
  lemma OwnerFinishes<T, E>(capacity: nat, steps: seq<Step<T, E>>, states: seq<Machine<T, E>>, t: nat, i: nat, j: nat)
    requires Run(capacity, steps, states) && i <= j < |states|
    requires t in states[i].pcs && states[i].pcs[t].HasEmit?
    requires OwnSteps(steps, t, i, j) >= |states[i].cell.replay| + |states[i].cell.subscribers| + 7
    ensures exists k :: i < k <= j && states[k].emit != Some(t)
  {
    OwnerInRun(capacity, steps, states, t, i);
    LeftAtStart(states[i], t);
    if forall k :: i < k <= j ==> states[k].emit == Some(t) {
      OwnerSpendsItsSteps(capacity, steps, states, t, i, j);
      OwnerInRun(capacity, steps, states, t, j);
    }
  }

  /** As long as a call is unfinished, some call can move: no deadlock. */
  lemma NoDeadlock<T, E>(capacity: nat, steps: seq<Step<T, E>>, states: seq<Machine<T, E>>, i: nat, t: nat)
    requires Run(capacity, steps, states) && i < |states|
    requires t in states[i].pcs && !states[i].pcs[t].Finished?
    ensures exists u: nat :: CanAdvance(states[i], u)
    ensures states[i].lock.Some? ==> states[i].lock == states[i].emit
  {
    RunRefines(capacity, steps, states, i);
    var m := states[i];
    if m.emit.Some? {
      OwnerAdvances(m, AbstractRun(capacity, steps, states, i), m.emit.value);
      assert CanAdvance(m, m.emit.value);
    } else {
      assert CanAdvance(m, t);
    }
  }
}
