/** Failure-compatible wrappers shared by every module of the model:
    `Option` for nullable / absent values and `Result` for operations that
    throw or answer with an HTTP error. */
module Wrappers {

  datatype Option<+T> = None | Some(value: T) {

    /** The value, or `default` when absent (the source's `??` / `||` fallbacks). */
    function GetOr(default: T): T {
      match this
      case Some(v) => v
      case None => default
    }
  }

  datatype Result<+R, +E> = Ok(value: R) | Err(error: E) {

    predicate IsFailure() {
      Err?
    }

    function PropagateFailure<U>(): Result<U, E>
      requires Err?
    {
      Err(error)
    }

    function Extract(): R
      requires Ok?
    {
      value
    }
  }

  /** JavaScript truthiness of an optional string: absent and `''` are falsy. */
  predicate TruthyStr(s: Option<string>) {
    s.Some? && s.value != ""
  }

  /** JavaScript truthiness of an optional number: absent and `0` are falsy
      (NaN is not modelled). */
  predicate TruthyNum(x: Option<real>) {
    x.Some? && x.value != 0.0
  }
}
