/** Outcome of an operation whose source aborts the call (`assert!`) on some inputs. */
module Wrappers {

  /** `Ok(value)` is a normal return; `Err(message)` stands for the panic the source raises. */
  datatype Result<+T> = Ok(value: T) | Err(message: string)

  /** An optional value. */
  datatype Option<+T> = None | Some(value: T)
}
