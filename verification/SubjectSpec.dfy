/** The multicast subject as an atomic object: what each call promises. */
module SubjectSpec {
  import opened Events

  /** `values` is everything emitted, `queues` everything handed so far to each
      subscriber still listening, `joined` how many values preceded it. */
  datatype Atomic<!T, !E> = Atomic(
    capacity: nat,
    values: seq<T>,
    terminal: Option<Event<T, E>>,
    queues: map<nat, seq<Event<T, E>>>,
    joined: map<nat, nat>)

  datatype Call<+T, +E> = DoSubscribe | DoNext(value: T) | DoComplete | DoError(error: E)

  function Fresh<T, E>(capacity: nat): Atomic<T, E>
  {
    Atomic(capacity, [], None, map[], map[])
  }

  function AsSeq<T>(o: Option<T>): seq<T>
  {
    if o.Some? then [o.value] else []
  }

  /** Hands `event` to everyone listening. */
  function Broadcast<T, E>(a: Atomic<T, E>, event: Event<T, E>): Atomic<T, E>
  {
    a.(queues := map c | c in a.queues :: a.queues[c] + [event])
  }

  function End<T, E>(a: Atomic<T, E>, event: Event<T, E>): Atomic<T, E>
  {
    if a.terminal.Some? then a else Broadcast(a, event).(terminal := Some(event))
  }

  /** One call, at once; a subscription gets the queue `c`. */
  function Perform<T, E>(a: Atomic<T, E>, call: Call<T, E>, c: nat): Atomic<T, E>
  {
    match call
    case DoNext(v) => if a.terminal.Some? then a else Broadcast(a, Next(v)).(values := a.values + [v])
    case DoComplete => End(a, Complete)
    case DoError(e) => End(a, Error(Business(e)))
    case DoSubscribe =>
      a.(queues := a.queues[c := Nexts(LastN(a.values, a.capacity)) + AsSeq(a.terminal)],
         joined := a.joined[c := |a.values|])
  }

  /** A subscriber stops listening. */
  function Leave<T, E>(a: Atomic<T, E>, c: nat): Atomic<T, E>
  {
    a.(queues := a.queues - {c}, joined := a.joined - {c})
  }

  // ---------------------------------------------------------------------------
  // What a subscriber sees
  // ---------------------------------------------------------------------------

  /** The replayed values, then every later value in emission order, then the
      terminal if there was one. */
  function Expected<T, E>(a: Atomic<T, E>, joined: nat): seq<Event<T, E>>
    requires joined <= |a.values|
  {
    Nexts(LastN(a.values[..joined], a.capacity)) + Nexts(a.values[joined..]) + AsSeq(a.terminal)
  }

  ghost predicate Shape<T, E>(a: Atomic<T, E>)
  {
    && a.queues.Keys == a.joined.Keys
    && (a.terminal.Some? ==> a.terminal.value.IsTerminal())
    && forall c :: c in a.joined ==> a.joined[c] <= |a.values| && a.queues[c] == Expected(a, a.joined[c])
  }

  lemma NextsSnoc<T, E>(values: seq<T>, v: T)
    ensures Nexts<T, E>(values + [v]) == Nexts(values) + [Next(v)]
  {
  }

  /** One more value is expected by whoever has joined. */
  lemma ExpectedGrows<T, E>(a: Atomic<T, E>, b: Atomic<T, E>, v: T, joined: nat)
    requires joined <= |a.values| && b.values == a.values + [v] && b.capacity == a.capacity
    requires a.terminal.None? && b.terminal.None?
    ensures Expected(b, joined) == Expected(a, joined) + [Next(v)]
  {
    assert b.values[..joined] == a.values[..joined];
    assert b.values[joined..] == a.values[joined..] + [v];
    NextsSnoc<T, E>(a.values[joined..], v);
  }

  lemma NextKeepsShape<T, E>(a: Atomic<T, E>, v: T)
    requires Shape(a) && a.terminal.None?
    ensures Shape(Perform(a, DoNext(v), 0))
  {
    var b := Perform(a, DoNext(v), 0);
    forall c | c in b.joined ensures b.joined[c] <= |b.values| && b.queues[c] == Expected(b, b.joined[c]) {
      ExpectedGrows(a, b, v, a.joined[c]);
    }
  }

  lemma EndKeepsShape<T, E>(a: Atomic<T, E>, event: Event<T, E>)
    requires Shape(a) && event.IsTerminal()
    ensures Shape(End(a, event))
  {
    var b := End(a, event);
    if a.terminal.None? {
      forall c | c in b.joined ensures b.joined[c] <= |b.values| && b.queues[c] == Expected(b, b.joined[c]) {
        assert a.queues[c] + [event] == Expected(b, a.joined[c]);
      }
    }
  }

  lemma SubscribeKeepsShape<T, E>(a: Atomic<T, E>, c: nat)
    requires Shape(a)
    ensures Shape(Perform(a, DoSubscribe, c))
  {
    var b := Perform(a, DoSubscribe, c);
    assert a.values[..|a.values|] == a.values;
    assert b.queues[c] == Expected(b, |a.values|);
    forall d | d in b.joined && d != c ensures b.joined[d] <= |b.values| && b.queues[d] == Expected(b, b.joined[d]) {
      assert d in a.joined;
    }
  }

  /** Every call keeps the shape of every subscriber's queue. */
  lemma PerformKeepsShape<T, E>(a: Atomic<T, E>, call: Call<T, E>, c: nat)
    requires Shape(a)
    ensures Shape(Perform(a, call, c))
  {
    match call
    case DoNext(v) => if a.terminal.None? { NextKeepsShape(a, v); }
    case DoComplete => EndKeepsShape(a, Complete);
    case DoError(e) => EndKeepsShape(a, Error(Business(e)));
    case DoSubscribe => SubscribeKeepsShape(a, c);
  }
}
