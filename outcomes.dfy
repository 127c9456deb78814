/** Option and Result values for the handlers' `null`/`undefined` returns and thrown errors. */
module Outcomes {

  /** `None` stands for an absent value (`null`, `undefined` or a missing optional field). */
  datatype Option<+T> = None | Some(value: T)

  /** `Err(message)` stands for a handler that throws `new Error(message)`. */
  datatype Result<+T> = Ok(value: T) | Err(message: string)
}
