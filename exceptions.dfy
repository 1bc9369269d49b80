/** Outcome types shared by the model: an optional value, and a result that
    either carries a value or the exception the Java code would have thrown. */
module Exceptions {

  datatype Option<+T> = None | Some(value: T)

  /** The exceptions that can escape from one discovery call. */
  datatype Exception =
    | ConnectFailed               // the ZooKeeper client could not be constructed
    | ListFailed(path: string)    // getChildren on this path failed
    | ReadFailed(path: string)    // exists/getData on this node path failed
    | DecodeFailed(path: string)  // the node's data did not decode as a Service
    | BadHealthUrl(url: string)   // the HTTP library rejected the health URL

  datatype Result<+T> = Ok(value: T) | Err(error: Exception)

  /** Two steps run one after the other, each producing a list: the first
      exception wins, otherwise the lists are concatenated. */
  function Append<T>(a: Result<seq<T>>, b: Result<seq<T>>): (r: Result<seq<T>>)
    ensures r.Ok? <==> a.Ok? && b.Ok?
    ensures r.Ok? ==> r.value == a.value + b.value
    ensures a.Err? ==> r == Err(a.error)
    ensures a.Ok? && b.Err? ==> r == Err(b.error)
  {
    match a
    case Err(e) => Err(e)
    case Ok(x) =>
      match b
      case Err(e) => Err(e)
      case Ok(y) => Ok(x + y)
  }

  /** A single value as a one-element list. */
  function Single<T>(a: Result<T>): (r: Result<seq<T>>)
    ensures r.Ok? <==> a.Ok?
    ensures r.Ok? ==> r.value == [a.value]
    ensures r.Err? ==> r.error == a.error
  {
    match a
    case Err(e) => Err(e)
    case Ok(x) => Ok([x])
  }

  lemma AppendAssociative<T>(a: Result<seq<T>>, b: Result<seq<T>>, c: Result<seq<T>>)
    ensures Append(Append(a, b), c) == Append(a, Append(b, c))
  {
    if a.Ok? && b.Ok? && c.Ok? {
      assert (a.value + b.value) + c.value == a.value + (b.value + c.value);
    }
  }

  lemma AppendUnit<T>(a: Result<seq<T>>)
    ensures Append(Ok([]), a) == a && Append(a, Ok([])) == a
  {
    if a.Ok? {
      assert [] + a.value == a.value && a.value + [] == a.value;
    }
  }

  /** Two outcomes agree when both fail, or both succeed with the same value. */
  predicate SameOutcome<T(==)>(a: Result<T>, b: Result<T>)
  {
    a.Ok? == b.Ok? && (a.Ok? ==> a.value == b.value)
  }

  lemma AppendRespectsSameOutcome<T>(a: Result<seq<T>>, a': Result<seq<T>>, b: Result<seq<T>>, b': Result<seq<T>>)
    requires SameOutcome(a, a') && SameOutcome(b, b')
    ensures SameOutcome(Append(a, b), Append(a', b'))
  {
  }
}
