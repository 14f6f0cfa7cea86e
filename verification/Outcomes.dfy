/** Results of calls that may raise.  `ValueError` carries the stable code of a Python
    `ValueError`; `Fault` stands for any other exception (a missing key, a violated primary key). */
module Outcomes {

  datatype Option<+T> = None | Some(value: T) {
    function GetOr(default: T): T {
      if Some? then value else default
    }
  }

  datatype Error = ValueError(code: string) | Fault(kind: string)

  datatype Result<+T> = Ok(value: T) | Err(error: Error) {
    predicate IsFailure() {
      Err?
    }

    function PropagateFailure<U>(): Result<U>
      requires Err?
    {
      Err(error)
    }

    function Extract(): T
      requires Ok?
    {
      value
    }
  }

  /** The outcome of a guard: it lets the caller go on, or raises. */
  datatype Guard = Pass | Fail(error: Error) {
    predicate IsFailure() {
      Fail?
    }

    function PropagateFailure<U>(): Result<U>
      requires Fail?
    {
      Err(error)
    }
  }

  /** Raises a `ValueError` with the given code unless the condition holds. */
  function Need(condition: bool, code: string): Guard {
    if condition then Pass else Fail(ValueError(code))
  }

  /** A call into the live runtime, which may refuse with a code of its own. */
  function Accept(refusal: Option<string>): Guard {
    if refusal.None? then Pass else Fail(ValueError(refusal.value))
  }
}
