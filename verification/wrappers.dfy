/** The success-or-failure value that the opcode decoder returns, shaped like
    Rust's `Result<T, E>`, and an optional value used by the reference
    operand table. */
module Wrappers {

  datatype Result<+T, +E> = Ok(value: T) | Err(error: E)

  datatype Option<+T> = None | Some(value: T)
}
