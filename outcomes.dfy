/** Failure-carrying values for the calculator: the exceptions the program
    raises become `Err` values, and "returns nothing" becomes `None`. */
module Outcomes {

  datatype Option<+T> = None | Some(value: T)

  /** The two ways a calculation fails in the program. */
  datatype Error =
    /** the base training has no calorie formula (NotImplementedError) */
    | NotImplemented
    /** a constructor called with the wrong number of arguments (TypeError) */
    | ArgumentCount(expected: nat, given: nat)

  datatype Result<+T> = Ok(value: T) | Err(error: Error)
}
