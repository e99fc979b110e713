/** The multicast subject as a mutable object, one call at a time. */
module Subject {
  import opened Events
  import SubjectSpec

  /** The sending half of a subscriber's unbounded queue. */
  class Sender<T, E> {
    var sent: seq<Event<T, E>>
    var closed: bool
    /** How many values the subject had emitted when this subscriber joined. */
    ghost var joined: nat

    constructor (ghost joined: nat)
      ensures sent == [] && !closed && this.joined == joined
    {
      sent, closed := [], false;
      this.joined := joined;
    }

    /** Queues one event; lost once the receiver is gone. */
    method Send(event: Event<T, E>)
      modifies this`sent
      ensures sent == if closed then old(sent) else old(sent) + [event]
    {
      if !closed {
        sent := sent + [event];
      }
    }

    /** Queues the replayed values, in order. */
    method SendReplay(replayed: seq<T>)
      requires !closed
      modifies this`sent
      ensures sent == old(sent) + Nexts(replayed)
    {
      var i := 0;
      while i < |replayed|
        invariant 0 <= i <= |replayed|
        invariant sent == old(sent) + Nexts(replayed[..i])
      {
        Send(Next(replayed[i]));
        assert Nexts<T, E>(replayed[..i + 1]) == Nexts(replayed[..i]) + [Next(replayed[i])];
        i := i + 1;
      }
      assert replayed[..i] == replayed;
    }
  }

  /** What a subscriber that joined after `joined` of `values` must be sent: the
      history the atomic subject promises. */
  ghost function Promise<T, E>(capacity: nat, values: seq<T>, terminal: Option<Event<T, E>>, joined: nat): seq<Event<T, E>>
    requires joined <= |values|
  {
    SubjectSpec.Expected(SubjectSpec.Atomic(capacity, values, terminal, map[], map[]), joined)
  }

  lemma PromiseGrows<T, E>(capacity: nat, values: seq<T>, v: T, joined: nat)
    requires joined <= |values|
    ensures Promise<T, E>(capacity, values + [v], None, joined) == Promise(capacity, values, None, joined) + [Next(v)]
  {
    assert (values + [v])[..joined] == values[..joined];
    assert (values + [v])[joined..] == values[joined..] + [v];
  }

  lemma PromiseEnds<T, E>(capacity: nat, values: seq<T>, event: Event<T, E>, joined: nat)
    requires joined <= |values|
    ensures Promise(capacity, values, Some(event), joined) == Promise(capacity, values, None, joined) + [event]
  {
  }

  lemma PromiseToNewcomer<T, E>(capacity: nat, values: seq<T>, terminal: Option<Event<T, E>>)
    ensures Promise(capacity, values, terminal, |values|)
            == if terminal.Some? then Nexts(LastN(values, capacity)) + [terminal.value] else Nexts(LastN(values, capacity))
  {
    assert values[..|values|] == values && values[|values|..] == [];
    assert Nexts<T, E>([]) == [];
  }

  lemma LastIsSlice<T>(values: seq<T>, n: nat)
    ensures LastN(values, n) == values[if n <= |values| then |values| - n else 0..]
  {
  }

  /** A newcomer is promised the last `capacity` values, and the end if there was one. */
  lemma PromiseIsSlice<T, E>(capacity: nat, values: seq<T>, terminal: Option<Event<T, E>>)
    ensures Promise(capacity, values, terminal, |values|)
            == Nexts(values[if capacity <= |values| then |values| - capacity else 0..])
               + if terminal.Some? then [terminal.value] else []
  {
    PromiseToNewcomer(capacity, values, terminal);
    LastIsSlice(values, capacity);
    assert Nexts<T, E>(LastN(values, capacity)) + [] == Nexts(LastN(values, capacity));
  }

  class MulticastSubject<T(==), E> {
    var replay: seq<T>
    const capacity: nat
    var completed: bool
    var error: Option<ObservableError<E>>
    var subscribers: seq<Sender<T, E>>
    /** Every value emitted so far. */
    ghost var values: seq<T>

    predicate IsTerminated()
      reads this
    {
      completed || error.Some?
    }

    function TerminalEvent(): Option<Event<T, E>>
      reads this
    {
      if error.Some? then Some(Error(error.value)) else if completed then Some(Complete) else None
    }

    ghost function Promised(joined: nat): seq<Event<T, E>>
      reads this
      requires joined <= |values|
    {
      Promise(capacity, values, TerminalEvent(), joined)
    }

    /** The replay buffer holds the last values, and every registered subscriber
        that still listens was sent exactly what it was promised. */
    ghost predicate Valid()
      reads this, subscribers
    {
      && replay == LastN(values, capacity)
      && (forall i, j :: 0 <= i < j < |subscribers| ==> subscribers[i] != subscribers[j])
      && (forall tx :: tx in subscribers ==> tx.joined <= |values|)
      && (forall tx :: tx in subscribers && !tx.closed ==> tx.sent == Promised(tx.joined))
    }

    constructor (capacity: nat)
      ensures values == [] && subscribers == [] && this.capacity == capacity && !IsTerminated()
      ensures Valid()
    {
      this.capacity := capacity;
      replay, completed, error, subscribers, values := [], false, None, [], [];
    }

    /** Drops the subscribers whose receiver is gone. */
    method RetainLive()
      modifies this`subscribers
      ensures forall tx :: tx in subscribers <==> tx in old(subscribers) && !tx.closed
      ensures (forall i, j :: 0 <= i < j < |old(subscribers)| ==> old(subscribers)[i] != old(subscribers)[j])
              ==> (forall i, j :: 0 <= i < j < |subscribers| ==> subscribers[i] != subscribers[j])
    {
      var live: seq<Sender<T, E>> := [];
      var i := 0;
      while i < |subscribers|
        invariant 0 <= i <= |subscribers|
        invariant forall tx :: tx in live <==> tx in subscribers[..i] && !tx.closed
        invariant (forall j, k :: 0 <= j < k < |subscribers| ==> subscribers[j] != subscribers[k])
                  ==> (forall j, k :: 0 <= j < k < |live| ==> live[j] != live[k])
      {
        if !subscribers[i].closed {
          live := live + [subscribers[i]];
        }
        i := i + 1;
      }
      assert subscribers[..i] == subscribers;
      subscribers := live;
    }

    /** Sends one event to each of `targets`, and touches nothing else. */
    method Broadcast(targets: seq<Sender<T, E>>, event: Event<T, E>)
      requires forall i, j :: 0 <= i < j < |targets| ==> targets[i] != targets[j]
      requires forall tx :: tx in targets ==> !tx.closed
      modifies (set tx | tx in targets)`sent
      ensures forall tx :: tx in targets ==> tx.sent == old(tx.sent) + [event]
    {
      var i := 0;
      while i < |targets|
        invariant 0 <= i <= |targets|
        invariant forall j :: 0 <= j < i ==> targets[j].sent == old(targets[j].sent) + [event]
        invariant forall j :: i <= j < |targets| ==> targets[j].sent == old(targets[j].sent)
      {
        targets[i].Send(event);
        i := i + 1;
      }
    }

    /** Sends one event to the subscribers that are still there. */
    method Publish(event: Event<T, E>)
      requires forall i, j :: 0 <= i < j < |subscribers| ==> subscribers[i] != subscribers[j]
      modifies this`subscribers, (set tx | tx in subscribers)`sent
      ensures forall tx :: tx in subscribers <==> tx in old(subscribers) && !tx.closed
      ensures forall i, j :: 0 <= i < j < |subscribers| ==> subscribers[i] != subscribers[j]
      ensures forall tx :: tx in subscribers ==> tx.sent == old(tx.sent) + [event]
    {
      RetainLive();
      Broadcast(subscribers, event);
    }

    /** Keeps a value for late subscribers, dropping the oldest beyond capacity. */
    method Remember(value: T)
      requires replay == LastN(values, capacity)
      modifies this`replay
      ensures replay == LastN(values + [value], capacity)
    {
      if capacity > 0 {
        if |replay| == capacity {
          replay := replay[1..];
        }
        replay := replay + [value];
      }
    }

    /** Emits a value to all current subscribers; ignored once terminated. */
    method Next(value: T)
      requires Valid()
      modifies this`replay, this`subscribers, this`values, (set tx | tx in subscribers)`sent
      ensures Valid()
      ensures old(IsTerminated()) ==> values == old(values) && subscribers == old(subscribers)
      ensures old(IsTerminated()) ==> forall tx :: tx in subscribers ==> tx.sent == old(tx.sent)
      ensures !old(IsTerminated()) ==> values == old(values) + [value]
      ensures !old(IsTerminated()) ==> forall tx :: tx in subscribers <==> tx in old(subscribers) && !tx.closed
      ensures !old(IsTerminated()) ==> forall tx :: tx in subscribers ==> tx.sent == old(tx.sent) + [Event.Next(value)]
    {
      if IsTerminated() { return; }
      Remember(value);
      Publish(Event.Next(value));
      values := values + [value];
      forall tx | tx in subscribers ensures tx.joined <= |values| && tx.sent == Promised(tx.joined) {
        PromiseGrows<T, E>(capacity, old(values), value, tx.joined);
      }
    }

    /** Ends the stream for all current and future subscribers. */
    method Finish(failure: Option<E>)
      requires Valid()
      modifies this`completed, this`error, this`subscribers, (set tx | tx in subscribers)`sent
      ensures Valid() && IsTerminated()
      ensures old(IsTerminated()) ==> completed == old(completed) && error == old(error) && subscribers == old(subscribers)
      ensures old(IsTerminated()) ==> forall tx :: tx in subscribers ==> tx.sent == old(tx.sent)
      ensures !old(IsTerminated()) ==>
                TerminalEvent() == Some(if failure.Some? then Error(Business(failure.value)) else Complete)
                && (forall tx :: tx in subscribers <==> tx in old(subscribers) && !tx.closed)
                && (forall tx :: tx in subscribers ==> tx.sent == old(tx.sent) + [TerminalEvent().value])
    {
      if IsTerminated() { return; }
      var event: Event<T, E>;
      if failure.Some? {
        error := Some(Business(failure.value));
        event := Error(Business(failure.value));
      } else {
        completed := true;
        event := Complete;
      }
      Publish(event);
      forall tx | tx in subscribers ensures tx.sent == Promised(tx.joined) {
        PromiseEnds(capacity, values, event, tx.joined);
      }
    }

    /** A new subscriber: replayed values and terminal first, then live events. */
    method Subscribe() returns (rx: Sender<T, E>)
      requires Valid()
      modifies this`subscribers
      ensures Valid() && fresh(rx) && !rx.closed
      ensures rx.joined == |values| && rx.sent == Promised(|values|)
      ensures rx.sent == Nexts(values[if capacity <= |values| then |values| - capacity else 0..])
                         + if error.Some? then [Error(error.value)] else if completed then [Complete] else []
      ensures subscribers == if IsTerminated() then old(subscribers) else old(subscribers) + [rx]
    {
      rx := Welcome();
      PromiseIsSlice(capacity, values, TerminalEvent());
      if !IsTerminated() {
        subscribers := subscribers + [rx];
      }
    }

    /** The queue of a newcomer. */
    method Welcome() returns (rx: Sender<T, E>)
      requires replay == LastN(values, capacity)
      ensures fresh(rx) && !rx.closed && rx.joined == |values| && rx.sent == Promised(|values|)
    {
      rx := new Sender(|values|);
      rx.SendReplay(replay);
      if TerminalEvent().Some? {
        rx.Send(TerminalEvent().value);
      }
      PromiseToNewcomer(capacity, values, TerminalEvent());
    }
  }
}
