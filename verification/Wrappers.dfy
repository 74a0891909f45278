/** Result types shared by the modules of this project. */
module Wrappers {

  datatype Option<+T> = None | Some(value: T) {
    predicate IsFailure() { None? }
    function PropagateFailure<U>(): Option<U> requires None? { None }
    function Extract(): T requires Some? { value }
    function GetOr(default: T): T { if Some? then value else default }
  }

  /** How an operation that may raise ends.  `Refused` stands for the error the
      callers are written to catch, `Crashed` for any other exception. */
  datatype Outcome<+T> = Ok(value: T) | Refused | Crashed {
    predicate IsFailure() { !Ok? }
    function PropagateFailure<U>(): Outcome<U>
      requires !Ok?
    {
      if Refused? then Refused else Crashed
    }
    function Extract(): T requires Ok? { value }

    function Map<U>(f: T -> U): Outcome<U> {
      if Ok? then Ok(f(value)) else PropagateFailure()
    }
  }
}
