/** Fixed-width unsigned integers of the Rust source, and the truncating
    `as u16` / `as u8` casts it applies to lengths. */
module Ints {

  type U8 = x: nat | x < 0x100
  type U16 = x: nat | x < 0x1_0000

  /** `n as u16`: keeps the low 16 bits. */
  function AsU16(n: nat): (r: U16)
    ensures n < 0x1_0000 ==> r == n
    ensures r <= n
  {
    n % 0x1_0000
  }

  /** `n as u8`: keeps the low 8 bits. */
  function AsU8(n: nat): (r: U8)
    ensures n < 0x100 ==> r == n
    ensures r <= n
  {
    n % 0x100
  }
}
