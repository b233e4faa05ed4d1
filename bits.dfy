/**
 * Byte and word helpers shared by every component: big-endian composition of two
 * bytes into a word, the halves of a word, Rust's `i8` reading of a byte and its
 * sign extension to `u16`.
 */
module Bits {

  /** Rust's `i8`. */
  newtype i8 = x: int | -128 <= x < 128

  /** A bus address, Rust's `u16` read as a number. */
  type u16 = x: int | 0 <= x < 0x10000

  /** A register word used as a bus address. */
  function Address(w: bv16): u16
  {
    w as int
  }

  /** The high byte of a word, `(w >> 8) as u8`. */
  function Hi(w: bv16): bv8
  {
    ((w >> 8) & 0xFF) as bv8
  }

  /** The low byte of a word, `(w & 0xFF) as u8`. */
  function Lo(w: bv16): bv8
  {
    (w & 0xFF) as bv8
  }

  /** `u16::from_be_bytes([hi, lo])`: the word whose halves are `hi` and `lo`. */
  function Word(hi: bv8, lo: bv8): (w: bv16)
    ensures Hi(w) == hi && Lo(w) == lo
  {
    ((hi as bv16) << 8) | (lo as bv16)
  }

  /** A word is its high byte times 256 plus its low byte. */
  lemma WordValue(hi: bv8, lo: bv8)
    ensures Word(hi, lo) == (hi as bv16) * 0x100 + lo as bv16
  {
  }

  /** Splitting a word and joining the halves gives the word back. */
  lemma WordOfHalves(w: bv16)
    ensures Word(Hi(w), Lo(w)) == w
  {
  }

  /** `b as i8`: the two's-complement reading of a byte. */
  function AsI8(b: bv8): (x: i8)
    ensures b as int == if x < 0 then x as int + 256 else x as int
  {
    if b < 0x80 then b as int as i8 else (b as int - 256) as i8
  }

  /** `(b as i8) as u16`: sign extension of a byte to a word. */
  function SignExtend(b: bv8): (w: bv16)
    ensures Lo(w) == b
    ensures Hi(w) == if b < 0x80 then 0 else 0xFF
  {
    if b < 0x80 then b as bv16 else (b as bv16) + 0xFF00
  }

  /** Read as unsigned, the sign extension of `b` is `b as i8` modulo 2^16. */
  lemma SignExtendValue(b: bv8)
    ensures AsI8(b) >= 0 ==> SignExtend(b) as int == AsI8(b) as int
    ensures AsI8(b) < 0 ==> SignExtend(b) as int == AsI8(b) as int + 0x10000
  {
  }

  /** `2^k`: the factor of a left shift by `k`, and the divisor of a right shift. */
  function Pow2(k: nat): (p: nat)
    ensures p >= 1
  {
    if k == 0 then 1 else 2 * Pow2(k - 1)
  }

  /** `x >> s` on a natural number: never larger than `x`. */
  function ShiftRight(x: nat, s: nat): (r: nat)
    ensures r <= x
    ensures r == x / Pow2(s)
  {
    DivNotLarger(x, Pow2(s));
    x / Pow2(s)
  }

  /** Dividing by a positive number never increases a natural number. */
  lemma DivNotLarger(x: nat, d: nat)
    requires d >= 1
    ensures x / d <= x
  {
    var q := x / d;
    assert x == d * q + x % d;
    MulNotSmaller(q, d);
  }

  /** Multiplying by a positive number never decreases a natural number. */
  lemma {:induction false} MulNotSmaller(a: nat, d: nat)
    requires d >= 1
    ensures a <= d * a
  {
    if d > 1 {
      MulNotSmaller(a, d - 1);
      assert d * a == (d - 1) * a + a;
    }
  }
}
