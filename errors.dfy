/** The exceptions the facade raises, and the failure-compatible wrappers the model
    uses in place of Python's raise/return. */
module Errors {

  /** One constructor per kind of exception the core raises. */
  datatype Error =
    | UnsupportedSecType(secType: string, localSymbol: string)  // create_instrument on an unknown secType
    | ValueError                                                // int(), strptime, date/datetime, tuple unpacking
    | AttributeError(field: string)                             // quote lookup of a missing field
    | MidUnavailable                                            // option mid without both bid and ask
    | AssertionFailed                                           // a failed `assert` in a drain loop
    | UnexpectedMessage(typeName: string)                       // get_market_data on a foreign event
    | TypeError                                                 // a call with the wrong number of arguments

  datatype Option<+T> = None | Some(value: T)

  /** Either the value a Python call returns or the exception it raises. */
  datatype Result<+T> = Ok(value: T) | Err(error: Error) {
    predicate IsFailure() { Err? }

    function PropagateFailure<U>(): Result<U>
      requires Err?
    {
      Err(error)
    }

    function Extract(): T
      requires Ok?
    {
      value
    }
  }
}
