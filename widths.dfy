/** Fixed-width integers of the C and Go sides, and the conversions the code performs between them. */
module Widths {

  const TWO_63: int := 0x8000_0000_0000_0000
  const TWO_64: int := 0x1_0000_0000_0000_0000

  /** Largest value of a C `int` (the type of byte counts on the callback interface). */
  const INT_MAX: int := 0x7fff_ffff

  type uint8 = x: int | 0 <= x < 0x100
  type uint32 = x: int | 0 <= x < 0x1_0000_0000
  type uint64 = x: int | 0 <= x < TWO_64
  type int64 = x: int | -TWO_63 <= x < TWO_63
  type cint = x: int | -0x8000_0000 <= x <= INT_MAX

  /** Go's `int64(v)` on a C `unsigned long long`: the bits are reinterpreted in two's complement. */
  function Int64Of(v: uint64): (r: int64)
    ensures 0 <= r <==> v < TWO_63
    ensures 0 <= r ==> r == v
    ensures r < 0 ==> r == v - TWO_64
  {
    if v < TWO_63 then v else v - TWO_64
  }

  /** Go's `uint8(v)` on a C `unsigned`: keeps the low eight bits. */
  function Uint8Of(v: uint32): (r: uint8)
    ensures v < 0x100 ==> r == v
    ensures (v - r) % 0x100 == 0
  {
    v % 0x100
  }

  /** C's `a += (ulonglong) b` on an `unsigned long long`: addition modulo 2^64. */
  function AddULongLong(a: uint64, b: nat): (r: uint64)
    ensures a + b < TWO_64 ==> r == a + b
    ensures (a + b - r) % TWO_64 == 0
  {
    (a + b) % TWO_64
  }

  function Min(a: nat, b: nat): (m: nat)
    ensures m <= a && m <= b && (m == a || m == b)
  {
    if a <= b then a else b
  }
}
