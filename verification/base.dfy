/** Failure-carrying wrappers shared by every module of the model. */
module Base {

  /** A value that may be absent: JavaScript `undefined`/`null`, Python `None`. */
  datatype Option<+T> = None | Some(value: T) {
    function GetOr(default: T): T {
      match this
      case Some(v) => v
      case None => default
    }
  }

  /** A string that JavaScript counts as true: present and not empty. */
  predicate Filled(s: Option<string>) {
    s.Some? && s.value != ""
  }

  /** `s || fallback` for an optional string. */
  function OrElse(s: Option<string>, fallback: string): (r: string)
    ensures Filled(s) ==> r == s.value
    ensures !Filled(s) ==> r == fallback
  {
    if Filled(s) then s.value else fallback
  }

  /** The outcome of an operation that can throw: `Err` carries the thrown message. */
  datatype Result<+T> = Ok(value: T) | Err(error: string) {
    predicate IsFailure() { Err? }

    function PropagateFailure<U>(): Result<U>
      requires Err?
    {
      Err(error)
    }

    function Extract(): T
      requires Ok?
    {
      value
    }
  }
}
