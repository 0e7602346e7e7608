/** Wrappers shared by every module: an optional value (the C++
    `std::optional`) and a result that carries either a value or the error
    a constructor would have thrown. */
module Common {

  datatype Option<+T> = None | Some(value: T)

  datatype Result<+T, +E> = Ok(value: T) | Err(error: E)

  /** A check that either passes or fails with an error (a `void` function
      that may throw). */
  datatype Outcome<+E> = Pass | Fail(error: E)

  /** The unsigned 32-bit integers (`uint32_t`). */
  type Uint32 = x: int | 0 <= x < 0x1_0000_0000
}
