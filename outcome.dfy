/**
 * Optional values and the outcome of Rust code that can panic.
 *
 * A call that reaches `unreachable!()`, `todo!()`, an `unwrap()` on an empty
 * value or an explicit `panic!` does not return; `Run` records which of these
 * ended it, or the value it returned.
 */
module Outcome {

  datatype Option<T> = None | Some(value: T)

  /** Why a call panicked. */
  datatype Abort =
    | Unreachable   // `unreachable!()`
    | Todo          // `todo!()`
    | UnwrapNone    // `unwrap()` of `None` or of an `Err`
    | Panic         // an explicit `panic!(...)`

  /** What a call that may panic produces. `:-` propagates a panic. */
  datatype Run<T> = Returns(value: T) | Aborts(reason: Abort)
  {
    predicate IsFailure() { Aborts? }

    function PropagateFailure<U>(): Run<U>
      requires Aborts?
    {
      Aborts(reason)
    }

    function Extract(): T
      requires Returns?
    {
      value
    }
  }

  /** `Option::unwrap`. */
  function Unwrap<T>(o: Option<T>): (r: Run<T>)
    ensures r.Returns? <==> o.Some?
    ensures r.Returns? ==> r.value == o.value
    ensures r.Aborts? ==> r.reason == UnwrapNone
  {
    match o
    case Some(v) => Returns(v)
    case None => Aborts(UnwrapNone)
  }
}
