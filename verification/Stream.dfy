/** The pull-based observable: three kinds of source behind one sequence of events. */
module Stream {
  import opened Events

  datatype Poll<+A> = Pending | Ready(value: A)

  datatype Result<+V, +E> = Ok(value: V) | Err(error: ObservableError<E>)

  /** Where the events come from.
      - `Channel`: what is already queued, then what the producer will still do:
        at each wake-up either nothing or one more event, after which it is gone;
      - `Inline`: events computed in advance;
      - `Pipeline`: what a wrapped stream answers, poll after poll. */
  datatype Source<!T, !E> =
    | Channel(queue: seq<Event<T, E>>, arrivals: seq<Option<Event<T, E>>>)
    | Inline(queue: seq<Event<T, E>>)
    | Pipeline(script: seq<Poll<Event<T, E>>>)

  function Arriving<T, E>(arrivals: seq<Option<Event<T, E>>>): seq<Event<T, E>>
  {
    if arrivals == [] then []
    else (if arrivals[0].Some? then [arrivals[0].value] else []) + Arriving(arrivals[1..])
  }

  function Scripted<T, E>(script: seq<Poll<Event<T, E>>>): seq<Event<T, E>>
  {
    if script == [] then []
    else (if script[0].Ready? then [script[0].value] else []) + Scripted(script[1..])
  }

  /** The events a source will still produce, in order. */
  function Coming<T, E>(s: Source<T, E>): seq<Event<T, E>>
  {
    match s
    case Channel(queue, arrivals) => queue + Arriving(arrivals)
    case Inline(queue) => queue
    case Pipeline(script) => Scripted(script)
  }

  /** How often a poll may still find nothing. */
  function Waits<T, E>(s: Source<T, E>): nat
  {
    match s
    case Channel(queue, arrivals) => |arrivals|
    case Inline(_) => 0
    case Pipeline(script) => |script|
  }

  /** One poll of a source. */
  function PollSource<T, E>(s: Source<T, E>): (Poll<Option<Event<T, E>>>, Source<T, E>)
  {
    match s
    case Channel(queue, arrivals) =>
      if queue != [] then (Ready(Some(queue[0])), Channel(queue[1..], arrivals))
      else if arrivals == [] then (Ready(None), s)
      else (if arrivals[0].Some? then Ready(Some(arrivals[0].value)) else Pending, Channel([], arrivals[1..]))
    case Inline(queue) =>
      if queue != [] then (Ready(Some(queue[0])), Inline(queue[1..])) else (Ready(None), s)
    case Pipeline(script) =>
      if script == [] then (Ready(None), s)
      else (if script[0].Ready? then Ready(Some(script[0].value)) else Pending, Pipeline(script[1..]))
  }

  const CLOSED_EARLY := TransportError("stream closed before completion")

  // ---------------------------------------------------------------------------
  // The object
  // ---------------------------------------------------------------------------

  class Observable<T, E> {
    var source: Source<T, E>
    var terminated: bool
    /** Whether a release action is attached, and the flags it was run with. */
    var cleanup: bool
    var released: seq<bool>

    constructor (source: Source<T, E>)
      ensures this.source == source && !terminated && !cleanup && released == []
    {
      this.source := source;
      terminated, cleanup, released := false, false, [];
    }

    /** Attaches the release action; ignored without a channel to release. */
    method WithCleanup()
      modifies this`cleanup
      ensures cleanup == (old(cleanup) || source.Channel?)
    {
      if source.Channel? {
        cleanup := true;
      }
    }

    /** Polls the source once. */
    method PollNext() returns (p: Poll<Option<Event<T, E>>>)
      modifies this`source, this`terminated
      ensures (p, source) == PollSource(old(source))
      ensures p.Pending? ==> Coming(source) == Coming(old(source)) && Waits(source) < Waits(old(source)) && terminated == old(terminated)
      ensures p == Ready(None) ==> Coming(old(source)) == [] && source == old(source) && terminated == old(terminated)
      ensures p.Ready? && p.value.Some? ==>
                Coming(old(source)) == [p.value.value] + Coming(source)
                && terminated == (old(terminated) || p.value.value.IsTerminal())
      ensures source.Channel? == old(source).Channel?
    {
      match source {
        case Channel(queue, arrivals) =>
          if queue != [] {
            p := Ready(Some(queue[0]));
            source := Channel(queue[1..], arrivals);
            assert queue + Arriving(arrivals) == [queue[0]] + (queue[1..] + Arriving(arrivals));
          } else if arrivals == [] {
            p := Ready(None);
          } else {
            source := Channel([], arrivals[1..]);
            assert Coming(source) == Arriving(arrivals[1..]);
            assert Coming(old(source)) == Arriving(arrivals);
            p := if arrivals[0].Some? then Ready(Some(arrivals[0].value)) else Pending;
          }
        case Inline(queue) =>
          if queue != [] {
            p := Ready(Some(queue[0]));
            source := Inline(queue[1..]);
          } else {
            p := Ready(None);
          }
        case Pipeline(script) =>
          if script == [] {
            p := Ready(None);
          } else {
            source := Pipeline(script[1..]);
            p := if script[0].Ready? then Ready(Some(script[0].value)) else Pending;
          }
      }
      if p.Ready? && p.value.Some? && p.value.value.IsTerminal() {
        terminated := true;
      }
    }

    /** Awaits the next event; `None` once the source is closed. */
    method Recv() returns (event: Option<Event<T, E>>)
      modifies this`source, this`terminated
      ensures event == Head(Coming(old(source)))
      ensures Coming(source) == Tail(Coming(old(source)))
      ensures terminated == (old(terminated) || (event.Some? && event.value.IsTerminal()))
      ensures source.Channel? == old(source).Channel?
    {
      var p := PollNext();
      while p.Pending?
        invariant p.Pending? ==> Coming(source) == Coming(old(source)) && terminated == old(terminated)
        invariant p.Ready? ==> p.value == Head(Coming(old(source))) && Coming(source) == Tail(Coming(old(source)))
        invariant p.Ready? ==> terminated == (old(terminated) || (p.value.Some? && p.value.value.IsTerminal()))
        invariant source.Channel? == old(source).Channel?
        decreases p.Pending?, Waits(source)
      {
        p := PollNext();
      }
      event := p.value;
    }

    /** Awaits the next value: `None` is a clean end, and a source that closes
        without a terminal is reported once as a technical error. */
    method Next() returns (item: Option<Result<T, E>>)
      modifies this`source, this`terminated
      ensures (item, Coming(source), terminated) == NextSpec(Coming(old(source)), old(terminated))
      ensures source.Channel? == old(source).Channel?
    {
      var event := Recv();
      match event
      case Some(Next(v)) => item := Some(Ok(v));
      case Some(Error(e)) => item := Some(Err(e));
      case Some(Complete) => item := None;
      case None =>
        if terminated {
          item := None;
        } else {
          terminated := true;
          item := Some(Err(Technical(CLOSED_EARLY)));
        }
    }

    /** Dropping the stream runs the attached action, told whether it ended. */
    method Drop()
      modifies this`cleanup, this`released
      ensures !(old(cleanup) && source.Channel?) ==> cleanup == old(cleanup) && released == old(released)
      ensures old(cleanup) && source.Channel? ==> !cleanup && released == old(released) + [terminated]
    {
      if source.Channel? && cleanup {
        cleanup := false;
        released := released + [terminated];
      }
    }
  }

  // ---------------------------------------------------------------------------
  // What the calls return, as functions of the events still to come
  // ---------------------------------------------------------------------------

  function Head<A>(s: seq<A>): Option<A> { if s == [] then None else Some(s[0]) }

  function Tail<A>(s: seq<A>): seq<A> { if s == [] then [] else s[1..] }

  function View<T, E>(event: Event<T, E>): Option<Result<T, E>>
  {
    match event
    case Next(v) => Some(Ok(v))
    case Error(e) => Some(Err(e))
    case Complete => None
  }

  function NextSpec<T, E>(events: seq<Event<T, E>>, terminated: bool): (Option<Result<T, E>>, seq<Event<T, E>>, bool)
  {
    if events != [] then (View(events[0]), events[1..], terminated || events[0].IsTerminal())
    else if terminated then (None, [], true)
    else (Some(Err(Technical(CLOSED_EARLY))), [], true)
  }

  /** The state after `n` calls to `next`. */
  function After<T, E>(events: seq<Event<T, E>>, n: nat): (seq<Event<T, E>>, bool)
  {
    if n == 0 then (events, false)
    else
      var (rest, terminated) := After(events, n - 1);
      var (_, rest', terminated') := NextSpec(rest, terminated);
      (rest', terminated')
  }

  /** What the `n`-th call to `next` returns, counting from 0. */
  function NthNext<T, E>(events: seq<Event<T, E>>, n: nat): Option<Result<T, E>>
  {
    var (rest, terminated) := After(events, n);
    NextSpec(rest, terminated).0
  }

  predicate HasTerminal<T, E>(events: seq<Event<T, E>>)
  {
    exists i :: 0 <= i < |events| && events[i].IsTerminal()
  }

  lemma {:induction false} AfterForm<T, E>(events: seq<Event<T, E>>, n: nat)
    ensures n <= |events| ==> After(events, n) == (events[n..], HasTerminal(events[..n]))
    ensures n > |events| ==> After(events, n) == ([], true)
  {
    if n == 0 {
      assert events[0..] == events;
    } else {
      AfterForm(events, n - 1);
      if n <= |events| {
        assert events[..n] == events[..n - 1] + [events[n - 1]];
        assert events[n - 1..][1..] == events[n..];
        if events[n - 1].IsTerminal() {
          assert events[..n][n - 1].IsTerminal();
        } else if HasTerminal(events[..n - 1]) {
          var i :| 0 <= i < n - 1 && events[..n - 1][i].IsTerminal();
          assert events[..n][i].IsTerminal();
        }
      } else if n == |events| + 1 {
        assert events[|events|..] == [];
      }
    }
  }

  /** The `n`-th answer of `next` on any list of events, whatever the source and
      whenever they arrive: the view of the `n`-th event; past the end one
      technical error if no terminal was ever seen, and `None` for ever after. */
  lemma NextOnAnyList<T, E>(events: seq<Event<T, E>>, n: nat)
    ensures NthNext(events, n) ==
            if n < |events| then
              match events[n]
              case Next(v) => Some(Ok(v))
              case Error(e) => Some(Err(e))
              case Complete => None
            else if n == |events| && !HasTerminal(events) then Some(Err(Technical(CLOSED_EARLY)))
            else None
  {
    AfterForm(events, n);
    if n <= |events| {
      assert n == |events| ==> events[..n] == events && events[n..] == [];
    }
  }

  /** A stream of values that closes without a terminal: its values, one error,
      then nothing. */
  lemma AbruptCloseIsReportedOnce<T, E>(values: seq<T>, n: nat)
    ensures NthNext<T, E>(Nexts(values), n) ==
            if n < |values| then Some(Ok(values[n]))
            else if n == |values| then Some(Err(Technical(TransportError("stream closed before completion"))))
            else None
  {
    NextOnAnyList<T, E>(Nexts(values), n);
  }

  // ---------------------------------------------------------------------------
  // The release flag
  // ---------------------------------------------------------------------------

  datatype Use = UseRecv | UseNext | UsePoll

  datatype Seen<!T, !E> = Delivered(event: Event<T, E>) | AtEnd | ReportedAbrupt | Waiting

  /** One use of the stream; `idle` says whether a poll finds nothing yet. */
  function UseSpec<T, E>(events: seq<Event<T, E>>, terminated: bool, use: Use, idle: bool): (Seen<T, E>, seq<Event<T, E>>, bool)
  {
    if use.UsePoll? && idle then (Waiting, events, terminated)
    else if events != [] then (Delivered(events[0]), events[1..], terminated || events[0].IsTerminal())
    else if use.UseNext? && !terminated then (ReportedAbrupt, [], true)
    else (AtEnd, [], terminated)
  }

  predicate Ends<T, E>(seen: Seen<T, E>)
  {
    seen.ReportedAbrupt? || (seen.Delivered? && seen.event.IsTerminal())
  }

  function Log<T, E>(events: seq<Event<T, E>>, terminated: bool, uses: seq<(Use, bool)>): (seq<Seen<T, E>>, bool)
    decreases |uses|
  {
    if uses == [] then ([], terminated)
    else
      var (seen, rest, flag) := UseSpec(events, terminated, uses[0].0, uses[0].1);
      var (log, last) := Log(rest, flag, uses[1..]);
      ([seen] + log, last)
  }

  /** Whatever mixture of calls was made, the flag handed to the release action is
      true exactly when a terminal was delivered or an abrupt close reported. */
  lemma {:induction false} ReleaseFlag<T, E>(events: seq<Event<T, E>>, terminated: bool, uses: seq<(Use, bool)>)
    ensures var (log, flag) := Log(events, terminated, uses);
            flag <==> terminated || exists i :: 0 <= i < |log| && Ends(log[i])
    decreases |uses|
  {
    if uses != [] {
      var (seen, rest, flag) := UseSpec(events, terminated, uses[0].0, uses[0].1);
      ReleaseFlag(rest, flag, uses[1..]);
      var (log, last) := Log(rest, flag, uses[1..]);
      var whole := [seen] + log;
      assert Ends(seen) ==> Ends(whole[0]);
      assert forall i :: 0 <= i < |log| ==> whole[i + 1] == log[i];
      if last && !terminated && !Ends(seen) {
        var i :| 0 <= i < |log| && Ends(log[i]);
        assert Ends(whole[i + 1]);
      }
    }
  }

  /** What a use returns to its caller. */
  datatype Got<!T, !E> =
    | GotEvent(event: Option<Event<T, E>>)
    | GotItem(item: Option<Result<T, E>>)
    | GotPoll(poll: Poll<Option<Event<T, E>>>)

  function Returned<T, E>(use: Use, seen: Seen<T, E>): Got<T, E>
  {
    match use
    case UseRecv => GotEvent(if seen.Delivered? then Some(seen.event) else None)
    case UseNext =>
      GotItem(if seen.Delivered? then View(seen.event)
              else if seen.ReportedAbrupt? then Some(Err(Technical(CLOSED_EARLY))) else None)
    case UsePoll =>
      GotPoll(if seen.Waiting? then Pending else if seen.Delivered? then Ready(Some(seen.event)) else Ready(None))
  }

  /** One use of the object is the use specified above. */
  method Perform<T, E>(stream: Observable<T, E>, use: Use) returns (got: Got<T, E>, ghost seen: Seen<T, E>, ghost idle: bool)
    modifies stream`source, stream`terminated
    ensures (seen, Coming(stream.source), stream.terminated)
            == UseSpec(old(Coming(stream.source)), old(stream.terminated), use, idle)
    ensures got == Returned(use, seen)
    ensures stream.source.Channel? == old(stream.source).Channel?
  {
    idle := false;
    match use {
      case UseRecv =>
        var event := stream.Recv();
        got := GotEvent(event);
      case UseNext =>
        var item := stream.Next();
        got := GotItem(item);
      case UsePoll =>
        var poll := stream.PollNext();
        got := GotPoll(poll);
        idle := poll.Pending?;
    }
    seen := UseSpec(old(Coming(stream.source)), old(stream.terminated), use, idle).0;
  }

  ghost function Pair(uses: seq<Use>, idles: seq<bool>): seq<(Use, bool)>
    requires |uses| == |idles|
  {
    seq(|uses|, i requires 0 <= i < |uses| => (uses[i], idles[i]))
  }

  method PerformAll<T, E>(stream: Observable<T, E>, uses: seq<Use>) returns (gots: seq<Got<T, E>>, ghost idles: seq<bool>)
    modifies stream`source, stream`terminated
    ensures |gots| == |idles| == |uses|
    ensures var (log, flag) := Log(old(Coming(stream.source)), old(stream.terminated), Pair(uses, idles));
      |log| == |uses| && stream.terminated == flag
      && forall i :: 0 <= i < |uses| ==> gots[i] == Returned(uses[i], log[i])
    ensures stream.source.Channel? == old(stream.source).Channel?
    decreases |uses|
  {
    if uses == [] {
      gots, idles := [], [];
    } else {
      ghost var seen;
      ghost var idle;
      var got;
      got, seen, idle := Perform(stream, uses[0]);
      var rest;
      rest, idles := PerformAll(stream, uses[1..]);
      gots := [got] + rest;
      idles := [idle] + idles;
      assert Pair(uses, idles)[1..] == Pair(uses[1..], idles[1..]);
    }
  }

  /** Attaches a release action, uses the stream in any way and drops it: the action of
      a channel is told, once, whether a terminal was delivered or an abrupt close
      reported; without a channel it never is. */
  method UseAndDrop<T, E>(stream: Observable<T, E>, uses: seq<Use>) returns (gots: seq<Got<T, E>>, ghost idles: seq<bool>)
    modifies stream
    ensures |gots| == |idles| == |uses|
    ensures var log := Log(old(Coming(stream.source)), old(stream.terminated), Pair(uses, idles)).0;
      var ended := old(stream.terminated) || exists i :: 0 <= i < |log| && Ends(log[i]);
      && |log| == |uses| && (forall i :: 0 <= i < |uses| ==> gots[i] == Returned(uses[i], log[i]))
      && stream.released == old(stream.released) + (if old(stream.source).Channel? then [ended] else [])
    ensures old(stream.source).Channel? ==> !stream.cleanup
  {
    stream.WithCleanup();
    gots, idles := PerformAll(stream, uses);
    ReleaseFlag(old(Coming(stream.source)), old(stream.terminated), Pair(uses, idles));
    stream.Drop();
  }

  // ---------------------------------------------------------------------------
  // Terminals
  // ---------------------------------------------------------------------------

  function First<T, E>(es: seq<Event<T, E>>): Result<T, E>
  {
    if es == [] then Err(Empty)
    else
      match es[0]
      case Next(v) => Ok(v)
      case Error(e) => Err(e)
      case Complete => Err(Empty)
  }

  /** The last value, `last` being the one read so far. */
  function Last<T, E>(es: seq<Event<T, E>>, last: Option<T>): Result<T, E>
  {
    if es == [] || es[0].Complete? then (if last.Some? then Ok(last.value) else Err(Empty))
    else if es[0].Error? then Err(es[0].error)
    else Last(es[1..], Some(es[0].value))
  }

  /** Every value, `values` being those gathered so far. */
  function Collect<T, E>(es: seq<Event<T, E>>, values: seq<T>): Result<seq<T>, E>
  {
    if es == [] || es[0].Complete? then Ok(values)
    else if es[0].Error? then Err(es[0].error)
    else Collect(es[1..], values + [es[0].value])
  }

  /** Whether a whole read ends on a terminal rather than on a close. */
  predicate EndsOnTerminal<T, E>(es: seq<Event<T, E>>)
  {
    es != [] && (es[0].IsTerminal() || EndsOnTerminal(es[1..]))
  }

  predicate Attached<T, E>(stream: Observable<T, E>)
    reads stream
  {
    stream.cleanup && stream.source.Channel? && !stream.terminated
  }

  /** Awaits the first event, then drops the stream: a call of which only a value
      was read counts as abandoned. */
  method FirstEvent<T, E>(stream: Observable<T, E>) returns (r: Result<T, E>)
    modifies stream
    ensures r == First(old(Coming(stream.source)))
    ensures old(Attached(stream)) ==> stream.released == old(stream.released) + [old(Coming(stream.source)) != [] && r.Err?]
  {
    var event := stream.Recv();
    match event {
      case Some(Next(v)) => r := Ok(v);
      case Some(Error(e)) => r := Err(e);
      case Some(Complete) => r := Err(Empty);
      case None => r := Err(Empty);
    }
    stream.Drop();
  }

  /** Keeps the last value; a terminal error wins over a value already read. */
  method LastEvent<T, E>(stream: Observable<T, E>) returns (r: Result<T, E>)
    modifies stream
    ensures r == Last(old(Coming(stream.source)), None)
    ensures old(Attached(stream)) ==> stream.released == old(stream.released) + [EndsOnTerminal(old(Coming(stream.source)))]
  {
    ghost var es := Coming(stream.source);
    var last: Option<T> := None;
    while true
      invariant Last(es, None) == Last(Coming(stream.source), last)
      invariant EndsOnTerminal(es) == EndsOnTerminal(Coming(stream.source))
      invariant stream.terminated == old(stream.terminated) && stream.cleanup == old(stream.cleanup)
      invariant stream.released == old(stream.released) && stream.source.Channel? == old(stream.source).Channel?
      decreases |Coming(stream.source)|
    {
      var event := stream.Recv();
      match event {
        case Some(Next(v)) => last := Some(v);
        case Some(Error(e)) => r := Err(e); break;
        case Some(Complete) => r := if last.Some? then Ok(last.value) else Err(Empty); break;
        case None => r := if last.Some? then Ok(last.value) else Err(Empty); break;
      }
    }
    stream.Drop();
  }

  /** Gathers every value; a terminal error discards them. */
  method CollectValues<T, E>(stream: Observable<T, E>) returns (r: Result<seq<T>, E>)
    modifies stream
    ensures r == Collect(old(Coming(stream.source)), [])
    ensures old(Attached(stream)) ==> stream.released == old(stream.released) + [EndsOnTerminal(old(Coming(stream.source)))]
  {
    ghost var es := Coming(stream.source);
    var values: seq<T> := [];
    while true
      invariant Collect(es, []) == Collect(Coming(stream.source), values)
      invariant EndsOnTerminal(es) == EndsOnTerminal(Coming(stream.source))
      invariant stream.terminated == old(stream.terminated) && stream.cleanup == old(stream.cleanup)
      invariant stream.released == old(stream.released) && stream.source.Channel? == old(stream.source).Channel?
      decreases |Coming(stream.source)|
    {
      var event := stream.Recv();
      match event {
        case Some(Next(v)) => values := values + [v];
        case Some(Error(e)) => r := Err(e); break;
        case Some(Complete) => r := Ok(values); break;
        case None => r := Ok(values); break;
      }
    }
    stream.Drop();
  }

  /** The two accumulating reads stay in step. */
  lemma {:induction false} ReadsInStep<T, E>(es: seq<Event<T, E>>, values: seq<T>)
    ensures var last := if values == [] then None else Some(values[|values| - 1]);
            match Collect(es, values)
            case Err(e) => Last(es, last) == Err(e)
            case Ok(vs) => values <= vs && Last(es, last) == if vs == [] then Err(Empty) else Ok(vs[|vs| - 1])
    decreases |es|
  {
    if es != [] && es[0].Next? {
      ReadsInStep(es[1..], values + [es[0].value]);
    }
  }

  /** On every list of events the three terminals tell one story: a collected list
      starts with the first value and ends with the last one, an empty one makes
      both report `Empty`, and an error that discards the collected values is
      what `last_value` reports. */
  lemma TerminalsAgree<T, E>(es: seq<Event<T, E>>)
    ensures match Collect(es, [])
            case Ok(vs) =>
              (vs == [] ==> First(es) == Err(Empty) && Last(es, None) == Err(Empty))
              && (vs != [] ==> First(es) == Ok(vs[0]) && Last(es, None) == Ok(vs[|vs| - 1]))
            case Err(e) =>
              Last(es, None) == Err(e) && (First(es).Ok? || First(es) == Err(e))
  {
    ReadsInStep(es, []);
    if es != [] && es[0].Next? {
      assert [] + [es[0].value] == [es[0].value];
      ReadsInStep(es[1..], [es[0].value]);
    }
  }

  /** Reading by `next` until it yields no value. */
  function ReadByNext<T, E>(es: seq<Event<T, E>>, terminated: bool, values: seq<T>): Result<seq<T>, E>
    decreases |es|
  {
    var (item, rest, flag) := NextSpec(es, terminated);
    match item
    case None => Ok(values)
    case Some(Err(e)) => Err(e)
    case Some(Ok(v)) => ReadByNext(rest, flag, values + [v])
  }

  /** Reading a list by `next` and collecting it agree if and only if it ends on a
      terminal; on a list that just closes, `next` reports an error and the collected
      values are a clean end. */
  lemma {:induction false} ReadsAgreeIffTerminal<T, E>(es: seq<Event<T, E>>, values: seq<T>)
    ensures ReadByNext(es, false, values) == Collect(es, values) <==> EndsOnTerminal(es)
    ensures !EndsOnTerminal(es) ==> ReadByNext(es, false, values) == Err(Technical(CLOSED_EARLY)) && Collect(es, values).Ok?
    decreases |es|
  {
    if es != [] && es[0].Next? {
      ReadsAgreeIffTerminal(es[1..], values + [es[0].value]);
    }
  }

  /** Read to the end, a stream of values that completes or fails yields them, or
      its error. */
  lemma {:induction false} CollectForm<T, E>(gathered: seq<T>, values: seq<T>, end: seq<Event<T, E>>)
    requires end == [] || end[0].IsTerminal()
    ensures Collect(Nexts(values) + end, gathered) ==
            if end != [] && end[0].Error? then Err(end[0].error) else Ok(gathered + values)
    decreases |values|
  {
    var es := Nexts<T, E>(values) + end;
    if values == [] {
      assert es == end;
      assert gathered + values == gathered;
    } else {
      assert es[1..] == Nexts(values[1..]) + end;
      CollectForm(gathered + [values[0]], values[1..], end);
      assert gathered + [values[0]] + values[1..] == gathered + values;
    }
  }
}
