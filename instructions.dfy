/** The helpers of virtual-cpu-8080/src/instructions.rs: opcode fields,
    immediate operands, and the small byte and word operations the
    dispatchers pass around as functions.  The `u8` operators and methods
    the dispatchers apply inline (`!`, `<<`, `>>`, `rotate_left`,
    `rotate_right`) are here too. */
module Instructions {
  import opened Bytes
  import opened Bits
  import opened Flags
  import opened Registers

  // ---------------------------------------------------------------------
  // Opcode fields

  /** `x & 0x07`: the low three bits. */
  function LowField(x: u8): u8
  {
    x % 8
  }

  /** `(x >> 3) & 0x07`: bits 3 to 5. */
  function MiddleField(x: u8): u8
  {
    (x / 8) % 8
  }

  /** `x & 0x3f`: the low six bits. */
  function LowSix(x: u8): u8
  {
    x % 64
  }

  /** `x & 0x38`: bits 3 to 5 in place (the restart vector of RST). */
  function RestartBits(x: u8): u8
  {
    8 * MiddleField(x)
  }

  /** Within a row of eight opcodes starting at a multiple of 8, the low
      field counts up from 0 and the middle field is that of the row. */
  lemma FieldsInRow(x: u8, base: u8)
    requires base % 8 == 0 && base <= x < base + 8
    ensures LowField(x) == x - base && MiddleField(x) == MiddleField(base)
  {
    DivModUnique(x, 8, base / 8, x - base);
  }

  /** The field functions are the masks the dispatchers write. */
  lemma FieldMasks(x: u8)
    ensures LowField(x) == And(x, 0x07)
    ensures MiddleField(x) == And(x / 8, 0x07)
    ensures LowSix(x) == And(x, 0x3f)
    ensures RestartBits(x) == And(x, 0x38)
  {
    assert Pow2(3) == 8 && Pow2(6) == 64;
    LowMask(x, 3);
    LowMask(x, 6);
    var x1 := x / 2;
    var x2 := x1 / 2;
    var x3 := x2 / 2;
    assert x3 == x / 8;
    LowMask(x3, 3);
    ShiftedMask(x, 28);
    ShiftedMask(x1, 14);
    ShiftedMask(x2, 7);
  }

  /** The 3-bit code of a register in an opcode; 6 is the memory operand M. */
  function CodeFor(reg: Name8): u8
  {
    match reg
    case B => 0
    case C => 1
    case D => 2
    case E => 3
    case H => 4
    case L => 5
    case A => 7
  }

  /** `register_for_code`: the register named by the low three bits of
      code; code 6 panics, so callers must not pass it. */
  function RegisterForCode(code: u8): (reg: Name8)
    requires code % 8 != 6
    ensures CodeFor(reg) == code % 8
  {
    var k := LowField(code);
    if k == 0 then B
    else if k == 1 then C
    else if k == 2 then D
    else if k == 3 then E
    else if k == 4 then H
    else if k == 5 then L
    else A
  }

  /** Decoding a register's code gives the register back. */
  lemma RegisterCodeRoundTrip(reg: Name8)
    ensures RegisterForCode(CodeFor(reg)) == reg
  {
  }

  /** The eight branch conditions, named after the `Flags8080` predicates
      `predicate_for` returns. */
  datatype Condition = NonZero | Zero | NoCarry | Carry | ParityOdd | ParityEven | Plus | Minus
  {
    /** The condition's 3-bit code in an opcode. */
    function Code(): u8
    {
      match this
      case NonZero => 0
      case Zero => 1
      case NoCarry => 2
      case Carry => 3
      case ParityOdd => 4
      case ParityEven => 5
      case Plus => 6
      case Minus => 7
    }

  }

  /** `predicate_for`: the condition named by bits 3 to 5 of the opcode. */
  function PredicateFor(opcode: u8): (cond: Condition)
    ensures cond.Code() == (opcode / 8) % 8
  {
    var k := MiddleField(opcode);
    if k == 0 then NonZero
    else if k == 1 then Zero
    else if k == 2 then NoCarry
    else if k == 3 then Carry
    else if k == 4 then ParityOdd
    else if k == 5 then ParityEven
    else if k == 6 then Plus
    else Minus
  }

  // ---------------------------------------------------------------------
  // Immediate operands

  /** `word_arg_from`: the little-endian word in bytes 1 and 2; a shorter
      instruction makes the indexing panic. */
  function WordArgFrom(instruction: seq<u8>): (w: u16)
    requires |instruction| >= 3
    ensures LowOrderByte(w) == instruction[1] && HighOrderByte(w) == instruction[2]
  {
    AssembleWord(instruction[2], instruction[1])
  }

  /** `byte_arg_from`: byte 1; a shorter instruction makes it panic.  It
      is the low byte of the word `word_arg_from` reads from the first two
      bytes followed by any third. */
  function ByteArgFrom(instruction: seq<u8>): (b: u8)
    requires |instruction| >= 2
    ensures b == LowOrderByte(WordArgFrom(instruction[..2] + [0]))
  {
    instruction[1]
  }

  /** `offset as i8`: the byte read as a two's-complement number. */
  function Signed8(offset: u8): (v: int)
    ensures -128 <= v < 128
    ensures (v - offset) % 256 == 0
  {
    if offset < 0x80 then offset else offset - 256
  }

  /** `wrapping_neg` on a byte. */
  function Negate8(x: u8): (r: u8)
    ensures (r + x) % 256 == 0
  {
    (256 - x) % 256
  }

  /** `apply_offset`: base moved by the signed offset, the i32 sum cast back
      to u16 (so it wraps round modulo 2^16). */
  function ApplyOffset(base: u16, offset: u8): (r: u16)
    ensures 0 <= base + Signed8(offset) < 0x1_0000 ==> r == base + Signed8(offset)
    ensures base + Signed8(offset) < 0 ==> r == base + Signed8(offset) + 0x1_0000
    ensures base + Signed8(offset) >= 0x1_0000 ==> r == base + Signed8(offset) - 0x1_0000
  {
    (base + Signed8(offset)) % 0x1_0000
  }

  /** Moving by an offset and then by its negation returns to the start,
      for every offset except -128, whose negation is itself. */
  lemma ApplyOffsetInverse(base: u16, offset: u8)
    requires offset != 0x80
    ensures ApplyOffset(ApplyOffset(base, offset), Negate8(offset)) == base
  {
    assert Signed8(Negate8(offset)) == -Signed8(offset);
  }

  // ---------------------------------------------------------------------
  // Byte and word operations

  /** `and8`. */
  function And8(a: u8, b: u8): (r: u8)
    ensures forall i: nat :: Bit(r, i) == (Bit(a, i) && Bit(b, i))
  {
    AndBound(a, b);
    forall i: nat ensures Bit(And(a, b), i) == (Bit(a, i) && Bit(b, i)) {
      AndBit(a, b, i);
    }
    And(a, b)
  }

  /** `xor8`. */
  function Xor8(a: u8, b: u8): (r: u8)
    ensures forall i: nat :: Bit(r, i) == (Bit(a, i) != Bit(b, i))
  {
    XorBound(a, b, 8);
    forall i: nat ensures Bit(Xor(a, b), i) == (Bit(a, i) != Bit(b, i)) {
      XorBit(a, b, i);
    }
    Xor(a, b)
  }

  /** `or8`. */
  function Or8(a: u8, b: u8): (r: u8)
    ensures forall i: nat :: Bit(r, i) == (Bit(a, i) || Bit(b, i))
  {
    OrBound(a, b, 8);
    forall i: nat ensures Bit(Or(a, b), i) == (Bit(a, i) || Bit(b, i)) {
      OrBit(a, b, i);
    }
    Or(a, b)
  }

  /** `inc8`: the successor, 0xff wrapping round to 0. */
  function Inc8(n: u8): (r: u8)
    ensures n < 0xff ==> r == n + 1
    ensures n == 0xff ==> r == 0
  {
    (n + 1) % 0x100
  }

  /** `dec8`: the predecessor, undoing `inc8`. */
  function Dec8(n: u8): (r: u8)
    ensures Inc8(r) == n
  {
    (n - 1) % 0x100
  }

  /** `inc16`: the successor, 0xffff wrapping round to 0. */
  function Inc16(n: u16): (r: u16)
    ensures n < 0xffff ==> r == n + 1
    ensures n == 0xffff ==> r == 0
  {
    (n + 1) % 0x1_0000
  }

  /** `dec16`: the predecessor, undoing `inc16`. */
  function Dec16(n: u16): (r: u16)
    ensures Inc16(r) == n
  {
    (n - 1) % 0x1_0000
  }

  lemma IncDec8(n: u8)
    ensures Dec8(Inc8(n)) == n
  {
  }

  lemma IncDec16(n: u16)
    ensures Dec16(Inc16(n)) == n
  {
  }

  /** `!x` on a u8: every bit flipped. */
  function Not8(x: u8): (r: u8)
    ensures forall i | 0 <= i < 8 :: Bit(r, i) == !Bit(x, i)
  {
    forall i | 0 <= i < 8 ensures Bit(255 - x, i) == !Bit(x, i) {
      ComplementBit(x, 8, i);
    }
    255 - x
  }

  /** `x << 1` on a u8: bits move up one place, bit 7 falls off. */
  function ShiftLeft8(x: u8): (r: u8)
    ensures !Bit(r, 0)
    ensures forall i | 1 <= i < 8 :: Bit(r, i) == Bit(x, i - 1)
  {
    var r := 2 * (x % 0x80);
    forall i | 1 <= i < 8 ensures Bit(r, i) == Bit(x, i - 1) {
      ModBit(x, 7, i - 1);
    }
    r
  }

  /** `x >> 1` on a u8: bits move down one place, bit 7 becomes 0. */
  function ShiftRight8(x: u8): (r: u8)
    ensures !Bit(r, 7)
    ensures forall i | 0 <= i < 7 :: Bit(r, i) == Bit(x, i + 1)
  {
    HighBitsClear(x / 2, 7, 7);
    x / 2
  }

  /** `x.rotate_left(1)`: bit i moves to bit i + 1, bit 7 to bit 0. */
  function RotateLeft8(x: u8): (r: u8)
    ensures Bit(r, 0) == Bit(x, 7)
    ensures forall i | 0 <= i < 7 :: Bit(r, i + 1) == Bit(x, i)
  {
    RotateLeftBits(x);
    2 * (x % 0x80) + x / 0x80
  }

  lemma RotateLeftBits(x: u8)
    ensures var r := 2 * (x % 0x80) + x / 0x80;
            Bit(r, 0) == Bit(x, 7) && forall i | 0 <= i < 7 :: Bit(r, i + 1) == Bit(x, i)
  {
    var lo, hi := x % 0x80, x / 0x80;
    assert Pow2(7) == 0x80;
    TopBit(x, 7);
    DivModUnique(2 * lo + hi, 2, lo, hi);
    forall i | 0 <= i < 7 ensures Bit(2 * lo + hi, i + 1) == Bit(x, i) {
      ModBit(x, 7, i);
    }
  }

  /** `x.rotate_right(1)`: bit i + 1 moves to bit i, bit 0 to bit 7. */
  function RotateRight8(x: u8): (r: u8)
    ensures Bit(r, 7) == Bit(x, 0)
    ensures forall i | 0 <= i < 7 :: Bit(r, i) == Bit(x, i + 1)
  {
    RotateRightBits(x);
    x / 2 + 0x80 * (x % 2)
  }

  lemma RotateRightBits(x: u8)
    ensures var r := x / 2 + 0x80 * (x % 2);
            Bit(r, 7) == Bit(x, 0) && forall i | 0 <= i < 7 :: Bit(r, i) == Bit(x, i + 1)
  {
    var r := x / 2 + 0x80 * (x % 2);
    assert Pow2(7) == 0x80;
    TopBit(r, 7);
    DivModUnique(r, 0x80, x % 2, x / 2);
    forall i | 0 <= i < 7 ensures Bit(r, i) == Bit(x, i + 1) {
      ModBit(r, 7, i);
    }
  }

  /** Rotating right undoes rotating left, and the other way round. */
  lemma RotateInverse(x: u8)
    ensures RotateRight8(RotateLeft8(x)) == x
    ensures RotateLeft8(RotateRight8(x)) == x
  {
    var r := RotateLeft8(x);
    assert r / 2 == x % 0x80 && r % 2 == x / 0x80;
    var s := RotateRight8(x);
    assert s % 0x80 == x / 2 && s / 0x80 == x % 2;
  }
}
