/** Vocabulary shared by every module: the middleware's error codes and the two
    result shapes its calls return. */
module Common {

  /** The error codes of `dmw::ErrorCode`. */
  datatype ErrorCode =
    | InvalidArgument
    | InvalidState
    | InvalidName
    | TypeMismatch
    | AlreadyExists
    | NotFound
    | AlreadyRegistered
    | NotRegistered
    | Busy
    | Timeout
    | Unsupported
    | IncompatibleQos
    | ParentDestroyed
    | ResourceExhausted
    | DDSError
    | ContextShutdown
    | Interrupted
    | ProtocolFault

  datatype Option<+T> = None | Some(value: T)

  /** A call either yields a value or reports one error code. */
  datatype Result<+T> = Success(value: T) | Failure(error: ErrorCode)

  /** No element of `s` occurs twice. */
  ghost predicate Distinct<T>(s: seq<T>) {
    forall i, j :: 0 <= i < j < |s| ==> s[i] != s[j]
  }

  /** The history kept under `key`, empty when nothing was recorded. */
  function At<K, V>(m: map<K, seq<V>>, key: K): seq<V> {
    if key in m then m[key] else []
  }

  /** The first position of `x` in `s`. */
  function IndexOf<T(==)>(s: seq<T>, x: T): (k: nat)
    requires x in s
    ensures k < |s| && s[k] == x && x !in s[..k]
  {
    if s[0] == x then 0 else 1 + IndexOf(s[1..], x)
  }

  /** `s` with the first occurrence of `x` taken out. */
  function Removed<T(==)>(s: seq<T>, x: T): (r: seq<T>)
    requires x in s
  {
    var k := IndexOf(s, x);
    s[..k] + s[k + 1..]
  }
}
