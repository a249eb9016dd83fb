/** Primitive vocabulary shared by the whole model: the fixed-width integer
    ranges of the Rust source, `Option`, `Result` and `Duration`. */
module Base {

  const U8_LIMIT: int := 0x100
  const U16_LIMIT: int := 0x1_0000
  const U32_LIMIT: int := 0x1_0000_0000

  type u8 = x: int | 0 <= x < U8_LIMIT
  type u16 = x: int | 0 <= x < U16_LIMIT
  type u32 = x: int | 0 <= x < U32_LIMIT
  type i8 = x: int | -0x80 <= x < 0x80
  type i16 = x: int | -0x8000 <= x < 0x8000

  const I16_MIN: i16 := -0x8000
  const U16_MIN: u16 := 0

  /** Rust's `Option<T>`. */
  datatype Option<+T> = None | Some(value: T)

  /** Rust's `Result<T, E>`. */
  datatype Result<+T, +E> = Ok(value: T) | Err(error: E)

  /** `core::time::Duration`, as a whole number of nanoseconds. */
  datatype Duration = Duration(nanos: nat)

  function FromMillis(ms: nat): (d: Duration)
    ensures d.nanos / 1_000_000 == ms && d.nanos % 1_000_000 == 0
  {
    Duration(ms * 1_000_000)
  }
}
