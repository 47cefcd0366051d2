/**
 * The C++ scalar types the demos rely on, with their ranges written out:
 * a 32-bit `int` and a signed 8-bit `char` (the common ABI choice).
 */
module CInt {

  const INT_MIN: int := -0x8000_0000
  const INT_MAX: int := 0x7FFF_FFFF

  /** True iff `x` is representable in a 32-bit two's-complement `int`. */
  predicate InInt(x: int) {
    INT_MIN <= x <= INT_MAX
  }

  type Int = x: int | InInt(x)

  /** A signed `char` value. */
  type Char = c: int | -128 <= c <= 127

  /**
   * Storing an `int` into a `char`: the unique `char` congruent to `v`
   * modulo 256 (two's-complement truncation).
   */
  function NarrowToChar(v: int): (c: Char)
    ensures (v - c) % 256 == 0
    ensures -128 <= v <= 127 ==> c == v
  {
    (v + 128) % 256 - 128
  }

  /** Every character of `s` is 7-bit ASCII. */
  predicate IsAscii(s: string) {
    s == [] || (s[0] as int < 128 && IsAscii(s[1..]))
  }

  /** The `char` codes of an ASCII string literal. */
  function FromAscii(s: string): (r: seq<Char>)
    requires IsAscii(s)
    ensures |r| == |s|
    ensures forall i :: 0 <= i < |s| ==> r[i] == s[i] as int
  {
    if s == [] then [] else [s[0] as int] + FromAscii(s[1..])
  }
}
