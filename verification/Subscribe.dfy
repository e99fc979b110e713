/** The push side: one task pulls a stream and calls an observer back. */
module Subscribe {
  import opened Events
  import opened Stream

  /** A cancellation token: a flag that is set and never cleared. */
  class Token {
    var cancelled: bool

    constructor ()
      ensures !cancelled
    {
      cancelled := false;
    }

    method Cancel()
      modifies this
      ensures cancelled
    {
      cancelled := true;
    }
  }

  datatype Callback<!T, !E> = OnNext(value: T) | OnError(error: ObservableError<E>) | OnComplete {
    predicate IsTerminal() { !OnNext? }
  }

  class Observer<T, E> {
    var calls: seq<Callback<T, E>>

    constructor ()
      ensures calls == []
    {
      calls := [];
    }

    method Notify(call: Callback<T, E>)
      modifies this
      ensures calls == old(calls) + [call]
    {
      calls := calls + [call];
    }
  }

  /** One wake-up of the push task: whether somebody cancelled meanwhile, and
      which side of the race is polled first. */
  datatype Wake = Wake(cancel: bool, streamFirst: bool)

  datatype Stop = Asleep | Unsubscribed | Ended

  /** What an observer that is never cancelled is told about a list of events. */
  function Told<T, E>(es: seq<Event<T, E>>): seq<Callback<T, E>>
  {
    if es == [] then [OnComplete]
    else
      match es[0]
      case Next(v) => [OnNext(v)] + Told(es[1..])
      case Complete => [OnComplete]
      case Error(e) => [OnError(e)]
  }

  lemma {:induction false} ToldEndsOnce<T, E>(es: seq<Event<T, E>>)
    ensures Told(es) != [] && Told(es)[|Told(es)| - 1].IsTerminal()
    ensures forall i :: 0 <= i < |Told(es)| - 1 ==> i < |es| && Told(es)[i].OnNext? && es[i] == Next(Told(es)[i].value)
    ensures var n := |Told(es)| - 1;
      n <= |es| && Told(es)[n] == if n < |es| && es[n].Error? then OnError(es[n].error) else OnComplete
    ensures var n := |Told(es)| - 1;
      n < |es| ==> es[n].IsTerminal()
  {
    if es != [] && es[0].Next? { ToldEndsOnce(es[1..]); }
  }

  /** One wake-up: the race is decided, and its outcome told. */
  method WakeUp<T, E>(stream: Observable<T, E>, observer: Observer<T, E>, token: Token, wake: Wake)
    returns (stop: Stop, ghost told: seq<Callback<T, E>>)
    modifies stream`source, stream`terminated, observer, token
    ensures observer.calls == old(observer.calls) + told
    ensures stop == Ended ==> told == Told(old(Coming(stream.source)))
    ensures stop != Ended ==> told + Told(Coming(stream.source)) == Told(old(Coming(stream.source)))
    ensures stop != Ended ==> told == [] || (|told| == 1 && told[0].OnNext?)
    ensures stop == Unsubscribed ==> token.cancelled && told == []
    ensures token.cancelled == (old(token.cancelled) || wake.cancel)
    ensures stop == Asleep && token.cancelled ==> |told| == 1
  {
    told := [];
    stop := Asleep;
    if wake.cancel {
      token.Cancel();
    }
    if !wake.streamFirst && token.cancelled {
      stop := Unsubscribed;
      return;
    }
    var p := stream.PollNext();
    if p.Pending? {
      if token.cancelled {
        stop := Unsubscribed;
      }
    } else {
      Tell(observer, p.value);
      told := [Says(p.value)];
      stop := if Says(p.value).OnNext? then Asleep else Ended;
      ToldNext(old(Coming(stream.source)), p.value, Coming(stream.source));
    }
  }

  /** The callback an outcome of the stream becomes: its end counts as a completion. */
  function Says<T, E>(event: Option<Event<T, E>>): Callback<T, E>
  {
    match event
    case Some(Next(v)) => OnNext(v)
    case Some(Error(e)) => OnError(e)
    case Some(Complete) => OnComplete
    case None => OnComplete
  }

  method Tell<T, E>(observer: Observer<T, E>, event: Option<Event<T, E>>)
    modifies observer
    ensures observer.calls == old(observer.calls) + [Says(event)]
  {
    match event
    case Some(Next(v)) => observer.Notify(OnNext(v));
    case Some(Error(e)) => observer.Notify(OnError(e));
    case Some(Complete) => observer.Notify(OnComplete);
    case None => observer.Notify(OnComplete);
  }

  lemma ToldNext<T, E>(es: seq<Event<T, E>>, event: Option<Event<T, E>>, rest: seq<Event<T, E>>)
    requires if event.Some? then es == [event.value] + rest else es == []
    ensures Told(es) == if Says(event).OnNext? then [Says(event)] + Told(rest) else [Says(event)]
  {
  }

  lemma Regroup<A>(a: seq<A>, b: seq<A>, c: seq<A>)
    ensures a + b + c == a + (b + c)
  {
  }

  /** The push loop, for any schedule of wake-ups: the observer is told a prefix of
      the whole story and nothing else.  The rest of the story is still in the
      stream unless the loop ended: no event is pulled and dropped.  Once the token
      is cancelled each wake-up delivers an event or is the last one. */
  method RunPush<T, E>(stream: Observable<T, E>, observer: Observer<T, E>, token: Token, wakes: seq<Wake>)
    returns (stop: Stop, ghost told: seq<Callback<T, E>>)
    modifies stream`source, stream`terminated, observer, token
    ensures observer.calls == old(observer.calls) + told
    ensures stop == Ended ==> told == Told(old(Coming(stream.source)))
    ensures stop != Ended ==> told + Told(Coming(stream.source)) == Told(old(Coming(stream.source)))
    ensures stop != Ended ==> forall i :: 0 <= i < |told| ==> told[i].OnNext?
    ensures stop == Unsubscribed ==> token.cancelled
    ensures old(token.cancelled) ==> token.cancelled
    ensures stop == Asleep && old(token.cancelled) ==> |told| == |wakes|
  {
    ghost var story := Told(Coming(stream.source));
    told := [];
    stop := Asleep;
    var i := 0;
    while i < |wakes| && stop == Asleep
      invariant 0 <= i <= |wakes|
      invariant observer.calls == old(observer.calls) + told
      invariant stop == Ended ==> told == story
      invariant stop != Ended ==> told + Told(Coming(stream.source)) == story
      invariant stop != Ended ==> forall j :: 0 <= j < |told| ==> told[j].OnNext?
      invariant stop == Unsubscribed ==> token.cancelled
      invariant old(token.cancelled) ==> token.cancelled
      invariant stop == Asleep && old(token.cancelled) ==> |told| == i
    {
      ghost var said;
      stop, said := WakeUp(stream, observer, token, wakes[i]);
      Regroup(old(observer.calls), told, said);
      Regroup(told, said, Told(Coming(stream.source)));
      told := told + said;
      i := i + 1;
    }
  }

  /** The spawned task: whatever made the push loop return, the token is cancelled
      afterwards, so the join below resolves. */
  method SpawnPush<T, E>(stream: Observable<T, E>, observer: Observer<T, E>, token: Token, wakes: seq<Wake>)
    returns (stop: Stop, ghost told: seq<Callback<T, E>>)
    modifies stream`source, stream`terminated, observer, token
    ensures observer.calls == old(observer.calls) + told
    ensures told <= Told(old(Coming(stream.source)))
    ensures stop == Ended <==> told == Told(old(Coming(stream.source)))
    ensures stop != Asleep ==> token.cancelled
  {
    stop, told := RunPush(stream, observer, token, wakes);
    ToldEndsOnce(old(Coming(stream.source)));
    ToldEndsOnce(Coming(stream.source));
    if stop != Asleep {
      token.Cancel();
    }
  }

  /** The handle of a running subscription. */
  class Subscription {
    const token: Token

    constructor (token: Token)
      ensures this.token == token
    {
      this.token := token;
    }

    method Unsubscribe()
      modifies token
      ensures token.cancelled
    {
      token.Cancel();
    }

    /** Awaiting the handle joins the subscription. */
    method Join() returns (done: bool)
      ensures done <==> token.cancelled
    {
      done := token.cancelled;
    }
  }

  /** A subscription whose handle is awaited after the wake-ups `wakes`, and after it was
      unsubscribed if `leave`: it has resolved if the stream ended, it was cancelled, or
      it was unsubscribed. */
  method SubscribeAndJoin<T, E>(stream: Observable<T, E>, observer: Observer<T, E>, wakes: seq<Wake>, leave: bool)
    returns (stop: Stop, done: bool)
    modifies stream`source, stream`terminated, observer
    ensures stop == Ended ==> observer.calls == old(observer.calls) + Told(old(Coming(stream.source)))
    ensures stop != Asleep || leave ==> done
  {
    var token := new Token();
    var handle := new Subscription(token);
    ghost var told;
    stop, told := SpawnPush(stream, observer, token, wakes);
    if leave {
      handle.Unsubscribe();
    }
    done := handle.Join();
  }

  lemma OnNextsSplit<T, E>(vs: seq<T>, n: nat)
    requires n < |vs|
    ensures OnNexts<T, E>(vs[n..]) == [OnNext(vs[n])] + OnNexts(vs[n + 1..])
  {
  }

  /** Without cancellation a run to the end tells exactly what collecting the
      stream gathers, then how it ended. */
  lemma {:induction false} PushAgreesWithCollect<T, E>(es: seq<Event<T, E>>, gathered: seq<T>)
    ensures match Collect(es, gathered)
            case Ok(vs) => gathered <= vs && Told(es) == OnNexts(vs[|gathered|..]) + [OnComplete]
            case Err(e) => Told(es)[|Told(es)| - 1] == OnError(e)
    decreases |es|
  {
    ToldEndsOnce(es);
    if es == [] || es[0].Complete? {
      assert gathered[|gathered|..] == [];
    } else if es[0].Next? {
      ToldEndsOnce(es[1..]);
      PushAgreesWithCollect(es[1..], gathered + [es[0].value]);
      match Collect(es, gathered)
      case Ok(vs) =>
        assert vs[|gathered|] == es[0].value;
        OnNextsSplit<T, E>(vs, |gathered|);
      case Err(_) =>
    }
  }

  function OnNexts<T, E>(values: seq<T>): (calls: seq<Callback<T, E>>)
    ensures |calls| == |values|
    ensures forall i :: 0 <= i < |values| ==> calls[i] == OnNext(values[i])
  {
    seq(|values|, i requires 0 <= i < |values| => OnNext(values[i]))
  }
}
