/** Fixed-width integers and the word/byte helpers of `virtual_cpu_core::bytes`
    (a file not part of this model; the helpers are fixed by their call sites:
    a word is 256 * high + low). */
module Bytes {
  import Bits

  type u8 = x: int | 0 <= x < 256
  type u16 = x: int | 0 <= x < 0x1_0000

  /** `assemble_word(high, low)`. */
  function AssembleWord(high: u8, low: u8): (w: u16)
    ensures HighOrderByte(w) == high && LowOrderByte(w) == low
  {
    256 * high + low
  }

  /** `high_order_byte(v)`. */
  function HighOrderByte(v: u16): u8
  {
    v / 256
  }

  /** `low_order_byte(v)`. */
  function LowOrderByte(v: u16): u8
  {
    v % 256
  }

  lemma WordOfBytes(v: u16)
    ensures AssembleWord(HighOrderByte(v), LowOrderByte(v)) == v
  {
  }

  /** `u8` arithmetic as a release build performs it: wrap-around modulo 2^8. */
  function Wrap8(x: int): (r: u8)
    ensures (r - x) % 256 == 0
  {
    x % 256
  }

  /** `u16` addition of k as a release build performs it: wrap-around modulo 2^16. */
  function Add16(a: u16, k: int): (r: u16)
    ensures (r - a - k) % 0x1_0000 == 0
  {
    (a + k) % 0x1_0000
  }

  /** Successive wrapping additions add up. */
  lemma Add16Twice(a: u16, j: int, k: int)
    ensures Add16(Add16(a, j), k) == Add16(a, j + k)
  {
    var m := 0x1_0000;
    var q := (a + j) / m;
    assert Add16(a, j) + k == (a + j + k) - m * q;
    assert ((a + j + k) - m * q) % m == (a + j + k) % m by {
      ModShift(a + j + k, m, q);
    }
  }

  /** Adding k back undoes subtracting it. */
  lemma Add16Undo(a: u16, k: int)
    ensures Add16(Add16(a, -k), k) == a
  {
    Add16Twice(a, -k, k);
    Bits.DivModUnique(a, 0x1_0000, 0, a);
  }

  lemma ModShift(x: int, m: int, q: int)
    requires m > 0
    ensures (x - m * q) % m == x % m
  {
    var r := x % m;
    var d := x / m;
    assert x - m * q == m * (d - q) + r;
    Bits.DivModUnique(x - m * q, m, d - q, r);
  }

  /** `b as u8` for a bool. */
  function BoolByte(b: bool): (r: u8)
    ensures r <= 1 && (r == 1 <==> b)
  {
    if b then 1 else 0
  }
}
