/** Outcomes of the modelled Python code: a value, Python's `None`, or a
    raised exception of a given kind. */
module Outcomes {

  datatype Option<+T> = None | Some(value: T)

  /** The exception kinds the modelled code raises. `raise NotImplemented(...)`
      in the CX constructor actually raises `TypeError` (the singleton is not
      callable), so it is recorded as `TypeError`. */
  datatype Error = IndexError | ValueError | TypeError | AttributeError | ArithmeticError

  datatype Result<+T> = Ok(value: T) | Err(error: Error)

  /** A Python value handed to a setter or validator: an `int`, or anything else. */
  datatype Value = Int(n: int) | NonInt
}
