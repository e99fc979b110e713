/** What a subscriber is queued, told from the calls of the run alone. */
module SubjectHistory {
  import opened Events
  import opened SubjectSpec
  import opened SubjectMachine
  import opened SubjectRefinement

  /** Some event ended the stream. */
  predicate Over<T, E>(said: seq<Event<T, E>>)
  {
    said != [] && !said[|said| - 1].Next?
  }

  /** The event a call stands for. */
  function Says<T, E>(call: Call<T, E>): seq<Event<T, E>>
  {
    match call
    case DoNext(v) => [Next(v)]
    case DoComplete => [Complete]
    case DoError(e) => [Error(Business(e))]
    case DoSubscribe => []
  }

  /** The call that takes effect in a step, if one does. */
  function Effective<T, E>(m: Machine<T, E>, step: Step<T, E>): Option<Call<T, E>>
  {
    if step.Advance? && step.call in m.pcs && m.pcs[step.call].InState? then Some(m.pcs[step.call].call) else None
  }

  function SaidNext<T, E>(said: seq<Event<T, E>>, call: Option<Call<T, E>>): seq<Event<T, E>>
  {
    if call.None? || Over(said) then said else said + Says(call.value)
  }

  /** The events said in the first `i` steps of a run: those of the calls that took effect,
      in that order, up to the one that ended the stream. */
  ghost function Said<T, E>(steps: seq<Step<T, E>>, states: seq<Machine<T, E>>, i: nat): seq<Event<T, E>>
    requires i <= |steps| && i <= |states|
  {
    if i == 0 then [] else SaidNext(Said(steps, states, i - 1), Effective(states[i - 1], steps[i - 1]))
  }

  /** How many values are among them. */
  function ValuesIn<T, E>(said: seq<Event<T, E>>): nat
  {
    if Over(said) then |said| - 1 else |said|
  }

  /** How many values had been said when channel `c` was made. */
  ghost function JoinedAt<T, E>(steps: seq<Step<T, E>>, states: seq<Machine<T, E>>, i: nat, c: nat): nat
    requires i <= |steps| && i <= |states|
  {
    if i == 0 then 0
    else if c < |states[i - 1].chans| then JoinedAt(steps, states, i - 1, c)
    else ValuesIn(Said(steps, states, i - 1))
  }

  // ---------------------------------------------------------------------------
  // The atomic subject says the same
  // ---------------------------------------------------------------------------

  ghost predicate SameStory<T, E>(a: Atomic<T, E>, said: seq<Event<T, E>>)
  {
    && said == Nexts(a.values) + AsSeq(a.terminal)
    && (a.terminal.Some? ==> !a.terminal.value.Next?)
  }

  lemma StoryCounts<T, E>(a: Atomic<T, E>, said: seq<Event<T, E>>)
    requires SameStory(a, said)
    ensures Over(said) <==> a.terminal.Some?
    ensures ValuesIn(said) == |a.values|
  {
  }

  lemma StoryStep<T, E>(a: Atomic<T, E>, said: seq<Event<T, E>>, call: Call<T, E>, c: nat)
    requires SameStory(a, said)
    ensures SameStory(Perform(a, call, c), SaidNext(said, Some(call)))
  {
    StoryCounts(a, said);
    if a.terminal.None? && call.DoNext? {
      NextsSnoc<T, E>(a.values, call.value);
    }
  }

  lemma {:induction false} RunSays<T, E>(capacity: nat, steps: seq<Step<T, E>>, states: seq<Machine<T, E>>, i: nat)
    requires i <= |steps| && i <= |states|
    ensures SameStory(AbstractRun(capacity, steps, states, i), Said(steps, states, i))
  {
    if i == 0 {
      assert Nexts<T, E>([]) == [];
    } else {
      RunSays(capacity, steps, states, i - 1);
      var m, step, a := states[i - 1], steps[i - 1], AbstractRun(capacity, steps, states, i - 1);
      if Effective(m, step).Some? {
        StoryStep(a, Said(steps, states, i - 1), Effective(m, step).value, |m.chans|);
      }
    }
  }

  /** The atomic subject counts a newcomer in where the run does. */
  ghost predicate JoinedAlike<T, E>(a: Atomic<T, E>, m: Machine<T, E>, steps: seq<Step<T, E>>, states: seq<Machine<T, E>>, i: nat)
    requires i <= |steps| && i <= |states|
  {
    forall c :: c in a.joined ==> c < |m.chans| && a.joined[c] == JoinedAt(steps, states, i, c)
  }

  lemma JoinStep<T, E>(capacity: nat, steps: seq<Step<T, E>>, states: seq<Machine<T, E>>, i: nat)
    requires 0 < i <= |steps| && i < |states| && Leads(states[i - 1], steps[i - 1], states[i])
    requires JoinedAlike(AbstractRun(capacity, steps, states, i - 1), states[i - 1], steps, states, i - 1)
    ensures JoinedAlike(AbstractRun(capacity, steps, states, i), states[i], steps, states, i)
  {
    var m, step, a := states[i - 1], steps[i - 1], AbstractRun(capacity, steps, states, i - 1);
    RunSays(capacity, steps, states, i - 1);
    StoryCounts(a, Said(steps, states, i - 1));
    ChansGrow(m, step, states[i]);
    var b := AbstractRun(capacity, steps, states, i);
    forall c | c in b.joined ensures c < |states[i].chans| && b.joined[c] == JoinedAt(steps, states, i, c) {
      if c < |m.chans| {
        assert c in a.joined;
      }
    }
  }

  lemma ChansGrow<T, E>(m: Machine<T, E>, step: Step<T, E>, m': Machine<T, E>)
    requires Leads(m, step, m')
    ensures |m'.chans| == |m.chans| + if Effective(m, step) == Some(DoSubscribe) then 1 else 0
  {
  }

  lemma {:induction false} RunJoins<T, E>(capacity: nat, steps: seq<Step<T, E>>, states: seq<Machine<T, E>>, i: nat)
    requires Run(capacity, steps, states) && i < |states|
    ensures JoinedAlike(AbstractRun(capacity, steps, states, i), states[i], steps, states, i)
  {
    if i > 0 {
      RunJoins(capacity, steps, states, i - 1);
      assert Leads(states[i - 1], steps[i - 1], states[i]);
      JoinStep(capacity, steps, states, i);
    }
  }

  function Min(a: nat, b: nat): nat { if a <= b then a else b }

  lemma ExpectedIsSuffix<T, E>(a: Atomic<T, E>, said: seq<Event<T, E>>, joined: nat)
    requires SameStory(a, said) && joined <= |a.values|
    ensures Expected(a, joined) == said[joined - Min(a.capacity, joined)..]
  {
    var r := Min(a.capacity, joined);
    var kept := LastN(a.values[..joined], a.capacity);
    LastNItems(a.values[..joined], a.capacity);
    assert kept == a.values[joined - r..joined];
    assert Nexts<T, E>(kept) + Nexts(a.values[joined..]) == Nexts(a.values)[joined - r..];
  }

  /** In every interleaving, what is queued for a listening subscriber, with what the call
      holding `emit` is still queueing, is what was said from the last `capacity` values
      before it joined on: replayed values, later ones and the end, each once, in order. */
  lemma QueueIsWhatWasSaid<T, E>(capacity: nat, steps: seq<Step<T, E>>, states: seq<Machine<T, E>>, i: nat, c: nat)
    requires Run(capacity, steps, states) && i < |states|
    requires c < |states[i].chans| && states[i].chans[c].open
    ensures var said, joined := Said(steps, states, i), JoinedAt(steps, states, i, c);
      && joined <= ValuesIn(said)
      && states[i].chans[c].sent + Pending(states[i], c)
         == said[if capacity <= joined then joined - capacity else 0..]
  {
    QueueHistory(capacity, steps, states, i, c);
    RunSays(capacity, steps, states, i);
    RunJoins(capacity, steps, states, i);
    var a := AbstractRun(capacity, steps, states, i);
    StoryCounts(a, Said(steps, states, i));
    ExpectedIsSuffix(a, Said(steps, states, i), a.joined[c]);
  }

  /** `kept` are the last `capacity` values of what was said, and no more. */
  ghost predicate KeepsLast<T, E>(kept: seq<T>, said: seq<Event<T, E>>, capacity: nat)
  {
    var n := ValuesIn(said);
    |kept| == (if n < capacity then n else capacity) && said[n - |kept|..n] == Nexts(kept)
  }

  lemma SliceOfNexts<T, E>(values: seq<T>, end: seq<Event<T, E>>, from: nat)
    requires from <= |values|
    ensures (Nexts(values) + end)[from..|values|] == Nexts(values[from..])
  {
  }

  lemma KeptValues<T, E>(a: Atomic<T, E>, said: seq<Event<T, E>>, kept: seq<T>)
    requires SameStory(a, said) && kept == LastN(a.values, a.capacity)
    ensures KeepsLast(kept, said, a.capacity)
  {
    StoryCounts(a, said);
    var from := if |a.values| < a.capacity then 0 else |a.values| - a.capacity;
    assert kept == a.values[from..];
    SliceOfNexts(a.values, AsSeq(a.terminal), from);
  }

  /** The replay buffer holds the last `capacity` values said, and no more. */
  lemma ReplayBuffer<T, E>(capacity: nat, steps: seq<Step<T, E>>, states: seq<Machine<T, E>>, i: nat)
    requires Run(capacity, steps, states) && i < |states|
    ensures KeepsLast(states[i].cell.replay, Said(steps, states, i), capacity)
  {
    var a := AbstractRun(capacity, steps, states, i);
    CellOfRun(capacity, steps, states, i, a);
    RunSays(capacity, steps, states, i);
    KeptValues(a, Said(steps, states, i), states[i].cell.replay);
  }

  lemma CellOfRun<T, E>(capacity: nat, steps: seq<Step<T, E>>, states: seq<Machine<T, E>>, i: nat, a: Atomic<T, E>)
    requires Run(capacity, steps, states) && i < |states| && a == AbstractRun(capacity, steps, states, i)
    ensures states[i].cell.replay == LastN(a.values, capacity) && a.capacity == capacity
  {
    RunRefines(capacity, steps, states, i);
    CapacityIsFixed(capacity, steps, states, i);
  }

  // ---------------------------------------------------------------------------
  // Receivers
  // ---------------------------------------------------------------------------

  /** What one step does to a channel that exists. */
  ghost predicate ChanStep<T, E>(step: Step<T, E>, c: nat, before: Chan<T, E>, after: Chan<T, E>)
  {
    && before.sent <= after.sent && (!before.open ==> after == before)
    && after.read == (if step == Read(c) then before.read + 1 else before.read)
    && (after.open <==> before.open && step != Close(c))
    && (step == Read(c) ==> before.read < |before.sent|) && (step == Close(c) ==> after.sent == before.sent)
  }

  lemma StepOfChan<T, E>(m: Machine<T, E>, step: Step<T, E>, m': Machine<T, E>, c: nat)
    requires Leads(m, step, m') && c < |m.chans|
    ensures c < |m'.chans| && ChanStep(step, c, m.chans[c], m'.chans[c])
  {
  }

  lemma NewChan<T, E>(m: Machine<T, E>, step: Step<T, E>, m': Machine<T, E>, c: nat)
    requires Leads(m, step, m') && |m.chans| <= c < |m'.chans|
    ensures m'.chans[c] == Chan([], 0, true) && step != Read(c) && step != Close(c)
  {
  }

  /** How often the receiver of channel `c` read in the first `i` steps. */
  function ReadsOf<T(==), E(==)>(steps: seq<Step<T, E>>, i: nat, c: nat): nat
    requires i <= |steps|
  {
    if i == 0 then 0 else ReadsOf(steps, i - 1, c) + if steps[i - 1].Read? && steps[i - 1].chan == c then 1 else 0
  }

  /** A receiver has read one event per read, never one that was not queued; once it has
      closed, nothing is queued for it any more. */
  lemma {:induction false} ReceiverReads<T, E>(capacity: nat, steps: seq<Step<T, E>>, states: seq<Machine<T, E>>, i: nat, c: nat)
    requires Run(capacity, steps, states) && i < |states|
    ensures c < |states[i].chans| ==> ReadsOf(steps, i, c) == states[i].chans[c].read <= |states[i].chans[c].sent|
    ensures c >= |states[i].chans| ==> ReadsOf(steps, i, c) == 0
    ensures c < |states[i].chans| ==> (states[i].chans[c].open <==> forall j :: 0 <= j < i ==> steps[j] != Close(c))
    ensures c >= |states[i].chans| ==> forall j :: 0 <= j < i ==> steps[j] != Close(c)
  {
    if i > 0 {
      ReceiverReads(capacity, steps, states, i - 1, c);
      var m, step, m' := states[i - 1], steps[i - 1], states[i];
      assert Leads(m, step, m');
      ChansGrow(m, step, m');
      if c < |m.chans| {
        StepOfChan(m, step, m', c);
      } else if c < |m'.chans| {
        NewChan(m, step, m', c);
      }
    }
  }

  lemma {:induction false} NothingAfterClose<T, E>(capacity: nat, steps: seq<Step<T, E>>, states: seq<Machine<T, E>>, i: nat, c: nat, j: nat)
    requires Run(capacity, steps, states) && i < |steps| && steps[i] == Close(c) && i < j < |states|
    ensures c < |states[i].chans| && c < |states[j].chans| && states[j].chans[c].sent == states[i].chans[c].sent
    ensures !states[j].chans[c].open
    decreases j
  {
    assert Leads(states[i], steps[i], states[i + 1]);
    if j == i + 1 {
      StepOfChan(states[i], steps[i], states[j], c);
    } else {
      NothingAfterClose(capacity, steps, states, i, c, j - 1);
      assert Leads(states[j - 1], steps[j - 1], states[j]);
      StepOfChan(states[j - 1], steps[j - 1], states[j], c);
    }
  }

  /** A call that broadcasts keeps exactly the subscribers whose receiver is still there. */
  lemma BroadcastPrunes<T, E>(m: Machine<T, E>, step: Step<T, E>, m': Machine<T, E>, c: nat)
    requires Leads(m, step, m') && Effective(m, step).Some? && !Effective(m, step).value.DoSubscribe?
    requires m.cell.error.None? && !m.cell.completed
    ensures c in m'.cell.subscribers <==> c in m.cell.subscribers && c < |m.chans| && m.chans[c].open
  {
  }
}
