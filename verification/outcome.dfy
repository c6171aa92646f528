/** The result of a step that either produces a value or terminates the
    process with a diagnostic (the shim's only error path is abort()). */
module Outcomes {

  datatype Outcome<+T> = Ok(value: T) | Abort(message: string) {

    predicate IsFailure() {
      Abort?
    }

    function PropagateFailure<U>(): Outcome<U>
      requires Abort?
    {
      Abort(message)
    }

    function Extract(): T
      requires Ok?
    {
      value
    }
  }
}
