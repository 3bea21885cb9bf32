/** Option and Result values, and the exceptions psymple raises, as data. */
module Wrappers {

  datatype Option<T> = None | Some(value: T)

  /** The exception classes the modelled code raises (or lets Python raise). */
  datatype Error =
    | ValueError
    | WiringError
    | ValidationError
    | DependencyError
    | ParsingError
    /** whatever sympy's `parse_expr` raises on text it cannot parse */
    | SyntaxError
    | SystemError
    | TypeError
    | KeyError
    | IndexError
    | NotImplementedError
    /** a failing Python `assert` statement */
    | AssertionError
    /** an attribute looked up on `None`, or a method the object does not have */
    | AttributeError
    /** a local variable read before any assignment to it */
    | UnboundLocalError
    /** a bare `Exception` raised with a message */
    | GeneralException
    /** `next()` on an exhausted generator */
    | StopIteration

  datatype Result<T> = Ok(value: T) | Err(error: Error)
  {
    predicate IsFailure() { Err? }
    function PropagateFailure<U>(): Result<U> requires Err? { Err(error) }
    function Extract(): T requires Ok? { value }
  }
}
