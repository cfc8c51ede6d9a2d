/** Option and Result, the two failure-carrying types the Rust sources use,
    and the fixed-width unsigned integers they compute with. */
module Wrappers {

  datatype Option<+T> = None | Some(value: T)

  /** `Result<T, E>`; `Result<(), E>` stands for Rust's `Result<()>`. */
  datatype Result<+T, +E> = Ok(value: T) | Err(error: E)

  type u8 = x: int | 0 <= x < 0x100
  type u16 = x: int | 0 <= x < 0x1_0000
  type u32 = x: int | 0 <= x < 0x1_0000_0000
  type i32 = x: int | -0x8000_0000 <= x < 0x8000_0000

  const U32_LIMIT: int := 0x1_0000_0000

  /** Rust's `as i32` on a `u32`: two's-complement reinterpretation. */
  function U32AsI32(x: u32): (r: i32)
    ensures (r as int - x as int) % U32_LIMIT == 0
    ensures x < 0x8000_0000 ==> r == x
  {
    if x < 0x8000_0000 then x else x - U32_LIMIT
  }

  function Min(a: int, b: int): int
  {
    if a <= b then a else b
  }
}
