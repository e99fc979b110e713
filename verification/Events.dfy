/** The event vocabulary of a stream. */
module Events {

  datatype Option<+T> = None | Some(value: T)

  datatype RpcError =
    | SerializationError
    | TransportError(message: string)
    | Timeout
    | Cancelled
    | Internal(message: string)
    | ProtocolMismatch(message: string)
    | UnknownMethod(message: string)
    | UnknownService(message: string)
    | IncompatibleVersion(expected: nat, actual: nat)

  /** The single error type of the streaming API. */
  datatype ObservableError<+E> = Business(error: E) | Technical(cause: RpcError) | Empty

  datatype Event<+T, +E> = Next(value: T) | Complete | Error(error: ObservableError<E>) {
    predicate IsTerminal() { !Next? }
  }

  function Nexts<T, E>(values: seq<T>): (events: seq<Event<T, E>>)
    ensures |events| == |values|
    ensures forall i :: 0 <= i < |values| ==> events[i] == Next(values[i])
  {
    seq(|values|, i requires 0 <= i < |values| => Next(values[i]))
  }

  /** The last `n` items of `s`, or all of them. */
  function LastN<T>(s: seq<T>, n: nat): seq<T>
  {
    if |s| <= n then s else s[|s| - n..]
  }

  lemma LastNItems<T>(s: seq<T>, n: nat)
    ensures |LastN(s, n)| == if |s| < n then |s| else n
    ensures forall k :: 0 <= k < |LastN(s, n)| ==> LastN(s, n)[k] == s[|s| - |LastN(s, n)| + k]
  {
  }
}
