/** Small value wrappers shared by the front-end and back-end models. */
module Wrappers {

  /** A value that may be absent (`null`/`undefined` in TypeScript, `None` in Python). */
  datatype Option<+T> = None | Some(value: T)

  /** A computation that either produced a value or failed with an error. */
  datatype Result<+R, +E> = Success(value: R) | Failure(error: E)

  /** How a front-end `await` settles: the promise is fulfilled with a value,
      or it rejects with an `Error` whose `message` is kept. */
  datatype Settled<+T> = Fulfilled(value: T) | Rejected(message: string)

  /** `[x]` for `Some(x)`, `[]` for `None`. */
  function OptionToSeq<T>(o: Option<T>): (s: seq<T>)
    ensures |s| <= 1
    ensures s == [] <==> o.None?
    ensures o.Some? ==> s[0] == o.value
  {
    match o
    case None => []
    case Some(x) => [x]
  }
}
