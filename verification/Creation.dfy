/** Streams built locally: ready-made lists, and the deferred factory. */
module Creation {
  import opened Events
  import opened Stream

  // ---------------------------------------------------------------------------
  // Ready-made streams
  // ---------------------------------------------------------------------------

  function From<T, E>(values: seq<T>): seq<Event<T, E>>
  {
    Nexts(values) + [Complete]
  }

  function Of<T, E>(value: T): seq<Event<T, E>>
  {
    [Next(value), Complete]
  }

  function ThrowError<T, E>(error: E): seq<Event<T, E>>
  {
    [Error(Business(error))]
  }

  /** What the stream made from a future carries once the future has resolved. */
  function FromFuture<T, E>(resolved: Option<T>, error: E): seq<Event<T, E>>
  {
    if resolved.Some? then Of(resolved.value) else ThrowError(error)
  }

  /** Collecting undoes `from`; a future that fails comes back as its own
      business error. */
  lemma CollectUndoesFrom<T, E>(values: seq<T>, resolved: Option<T>, error: E)
    ensures Collect<T, E>(From(values), []) == Ok(values)
    ensures Collect(FromFuture(resolved, error), []) == if resolved.Some? then Ok([resolved.value]) else Err(Business(error))
  {
    CollectForm<T, E>([], values, [Complete]);
    assert [] + values == values;
    if resolved.Some? {
      assert Nexts<T, E>([resolved.value]) + [Complete] == Of(resolved.value);
      CollectForm<T, E>([], [resolved.value], [Complete]);
      assert [] + [resolved.value] == [resolved.value];
    } else {
      var thrown := ThrowError<T, E>(error);
      assert Nexts<T, E>([]) + thrown == thrown;
      CollectForm<T, E>([], [], thrown);
    }
  }

  /** Read by `next`, they yield what they were given and end cleanly, once and for all: a
      value, or the one error. */
  lemma ReadyMadeEndsCleanly<T, E>(values: seq<T>, value: T, error: E, n: nat)
    ensures NthNext<T, E>(From(values), n) == if n < |values| then Some(Ok(values[n])) else None
    ensures NthNext<T, E>(Of(value), n) == if n == 0 then Some(Ok(value)) else None
    ensures NthNext<T, E>(ThrowError(error), n) == if n == 0 then Some(Err(Business(error))) else None
  {
    var from, of, thrown := From<T, E>(values), Of<T, E>(value), ThrowError<T, E>(error);
    NextOnAnyList(from, n);
    NextOnAnyList(of, n);
    NextOnAnyList(thrown, n);
    assert from[|values|].IsTerminal() && of[1].IsTerminal() && thrown[0].IsTerminal();
  }

  // ---------------------------------------------------------------------------
  // Deferred
  // ---------------------------------------------------------------------------

  /** A future: it answers `Pending` a number of times, then yields a stream. */
  datatype Future<!T, !E> = Future(delay: nat, result: Source<T, E>)

  class Deferred<T, E> {
    /** The factory, reduced to the future it makes; taken by the first poll. */
    var factory: Option<Future<T, E>>
    var pending: Option<Future<T, E>>
    var stream: Observable?<T, E>
    ghost var runs: nat

    /** Exactly one of the three is held, and the factory ran iff it is gone. */
    ghost predicate Valid()
      reads this
    {
      || (factory.Some? && pending.None? && stream == null && runs == 0)
      || (factory.None? && pending.Some? && stream == null && runs == 1)
      || (factory.None? && pending.None? && stream != null && runs == 1)
    }

    /** What is still ahead: polls that will answer `Pending`, then a source. */
    ghost function Ahead(): Future<T, E>
      requires Valid()
      reads this, stream
    {
      if factory.Some? then factory.value
      else if pending.Some? then pending.value
      else Future(0, stream.source)
    }

    constructor (made: Future<T, E>)
      ensures Valid() && runs == 0 && Ahead() == made
    {
      factory, pending, stream, runs := Some(made), None, null, 0;
    }

    /** Polls once: the first poll runs the factory, and no other does. */
    method PollNext() returns (p: Poll<Option<Event<T, E>>>)
      requires Valid()
      modifies this, stream
      ensures Valid() && runs == 1
      ensures (p, Ahead()) == PollAhead(old(Ahead()))
      ensures stream != null ==> stream == old(stream) || fresh(stream)
    {
      if pending.None? && stream == null {
        // The factory is there: taking it cannot fail.
        var made := factory.value;
        factory := None;
        pending := Some(made);
        runs := runs + 1;
      }
      if pending.Some? {
        if pending.value.delay > 0 {
          pending := Some(pending.value.(delay := pending.value.delay - 1));
          return Pending;
        }
        stream := new Observable(pending.value.result);
        pending := None;
      }
      // The stream is there: going round again is never needed.
      p := stream.PollNext();
    }
  }

  function PollAhead<T, E>(f: Future<T, E>): (Poll<Option<Event<T, E>>>, Future<T, E>)
  {
    if f.delay > 0 then (Pending, f.(delay := f.delay - 1))
    else
      var (p, rest) := PollSource(f.result);
      (p, Future(0, rest))
  }

  // Polls, in a row

  function AheadAfter<T, E>(f: Future<T, E>, n: nat): Future<T, E>
  {
    if n == 0 then f else PollAhead(AheadAfter(f, n - 1)).1
  }

  function SourceAfter<T, E>(s: Source<T, E>, n: nat): Source<T, E>
  {
    if n == 0 then s else PollSource(SourceAfter(s, n - 1)).1
  }

  /** The `n`-th poll of a deferred stream, counting from 0: `Pending` while its
      future is, then exactly the polls of the stream the future produced. */
  lemma {:induction false} DeferredIsItsStream<T, E>(f: Future<T, E>, n: nat)
    ensures AheadAfter(f, n) == if n <= f.delay then f.(delay := f.delay - n) else Future(0, SourceAfter(f.result, n - f.delay))
    ensures PollAhead(AheadAfter(f, n)).0 ==
            if n < f.delay then Pending else PollSource(SourceAfter(f.result, n - f.delay)).0
  {
    if n > 0 { DeferredIsItsStream(f, n - 1); }
  }
}
