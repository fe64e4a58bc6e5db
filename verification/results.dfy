/**
 The values a type descriptor is asked about, the result objects its `try`,
 `success` and `failure` produce, and the two ways an operation can end:
 returning a value, or raising one of the exceptions the sum combinator
 can raise.
 */
module Results {

  /** An argument that may be absent, such as the block of `try` or the
      error of `failure`. */
  datatype Option<+T> = None | Some(value: T)

  /** Runtime values. `Nil` is Ruby's `nil`, the value `optional?` probes. */
  datatype Value =
    | Nil
    | Bool(b: bool)
    | Int(i: int)
    | Dec(d: real)
    | Str(s: string)

  /** Metadata (and construction options) attached to a descriptor: an
      immutable mapping whose key order does not matter. */
  type Meta = map<string, Value>

  /** The error a failed result carries; its contents belong to the leaf
      types that produce it. */
  datatype Error = Error(message: string)

  /** A type's verdict on an input: `Success` carries the (possibly coerced)
      value, `Failure` echoes the original input together with an error. */
  datatype Result =
    | Success(input: Value)
    | Failure(input: Value, error: Error)

  /** The exceptions the sum combinator can raise.
      - `ArgumentError`: `success` called on an input neither side accepts;
      - `ConstraintError`: a constrained sum's `call` on an input both sides reject;
      - `NoMethodError`: `error` read from a result that is a `Success`. */
  datatype Exception =
    | ArgumentError(input: Value)
    | ConstraintError(result: Result, input: Value)
    | NoMethodError(receiver: Result)

  /** How a Ruby method call completes: it returns a value or raises an
      exception. */
  datatype Completion<+T> = Returned(value: T) | Raised(exception: Exception)

  /** The block handed to `try`: it receives the failure and decides what
      `try` ends with (a result, or an exception it raises). */
  type Handler = Result -> Completion<Result>

  /** What `try` does with a failure: yield it to the block when one is
      given, otherwise return it as it is. */
  function Yield(block: Option<Handler>, failure: Result): Completion<Result>
  {
    match block
    case None => Returned(failure)
    case Some(k) => k(failure)
  }

  /** Reading `.error` off a result: only a `Failure` has one, asking a
      `Success` for it raises `NoMethodError`. */
  function ErrorOf(r: Result): Completion<Error>
  {
    match r
    case Failure(_, e) => Returned(e)
    case Success(_) => Raised(NoMethodError(r))
  }
}
