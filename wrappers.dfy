/**
 * Failure-compatible wrappers shared by the model, and the exceptions the
 * modelled Python code can raise.
 */
module Wrappers {

  /** Python's `Optional[T]`: `None` or a value. */
  datatype Option<+T> = None | Some(value: T)

  /** The exceptions raised by the modelled code, one constructor per cause. */
  datatype Error =
    | ValueError(msg: string)   // explicit `raise ValueError(...)` or `random.sample`
    | ZeroDivisionError         // a float division by zero
    | IndexError                // `[-1]` on an empty list
    | StatisticsError           // `NormalDist.from_samples` with fewer than two samples
    | PeriodTooLarge            // `RuntimeError("Period is too large")`
    | AssertionError            // a failed `assert` statement

  /** The outcome of a call that either returns a value or raises. */
  datatype Result<+R> = Success(value: R) | Failure(error: Error) {
    predicate IsFailure() { Failure? }

    function PropagateFailure<U>(): Result<U>
      requires Failure?
    {
      Failure(error)
    }

    function Extract(): R
      requires Success?
    {
      value
    }
  }

  /** The outcome of a call that returns nothing or raises. */
  datatype Outcome = Pass | Fail(error: Error) {
    predicate IsFailure() { Fail? }

    function PropagateFailure<U>(): Result<U>
      requires Fail?
    {
      Failure(error)
    }
  }
}
