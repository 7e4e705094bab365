/** The 8080 register file (virtual-cpu-8080/src/registers.rs): seven 8-bit
    registers, the pairs BC, DE and HL viewed as 16-bit registers, and the
    flags.  The `update8`/`update16` helpers come from the `Registers8` and
    `Registers16` traits of virtual-cpu-core. */
module Registers {
  import opened Bytes
  import opened Bits
  import opened Flags

  datatype Name8 = A | B | C | D | E | H | L
  datatype Name16 = BC | DE | HL

  /** The register holding the high byte of a pair. */
  function High(pair: Name16): Name8
  {
    match pair
    case BC => B
    case DE => D
    case HL => H
  }

  /** The register holding the low byte of a pair. */
  function Low(pair: Name16): Name8
  {
    match pair
    case BC => C
    case DE => E
    case HL => L
  }

  /** The value of the register file. */
  datatype RegisterFile = RegisterFile(a: u8, b: u8, c: u8, d: u8, e: u8, h: u8, l: u8, cc: Flags8080)
  {
    /** `get8`: the register's field.  What it reads back after a store
        is stated by `With8` and `With16`. */
    function Get8(reg: Name8): u8
    {
      match reg
      case A => a
      case B => b
      case C => c
      case D => d
      case E => e
      case H => h
      case L => l
    }

    /** `set8` as a value: reg holds val, every other register and the
        flags are untouched. */
    function With8(reg: Name8, val: u8): (r: RegisterFile)
      ensures r.Get8(reg) == val
      ensures forall other | other != reg :: r.Get8(other) == Get8(other)
      ensures r.cc == cc
    {
      match reg
      case A => this.(a := val)
      case B => this.(b := val)
      case C => this.(c := val)
      case D => this.(d := val)
      case E => this.(e := val)
      case H => this.(h := val)
      case L => this.(l := val)
    }

    /** `get16`: a pair reads its high register as the high byte. */
    function Get16(pair: Name16): (w: u16)
      ensures HighOrderByte(w) == Get8(High(pair))
      ensures LowOrderByte(w) == Get8(Low(pair))
    {
      match pair
      case BC => AssembleWord(b, c)
      case DE => AssembleWord(d, e)
      case HL => AssembleWord(h, l)
    }

    /** `set16` as a value: the pair reads back val, the registers outside
        the pair and the flags are untouched. */
    function With16(pair: Name16, val: u16): (r: RegisterFile)
      ensures r.Get16(pair) == val
      ensures r.Get8(High(pair)) == HighOrderByte(val)
      ensures r.Get8(Low(pair)) == LowOrderByte(val)
      ensures forall other | other != High(pair) && other != Low(pair) :: r.Get8(other) == Get8(other)
      ensures r.cc == cc
    {
      WordOfBytes(val);
      match pair
      case BC => this.(b := HighOrderByte(val), c := LowOrderByte(val))
      case DE => this.(d := HighOrderByte(val), e := LowOrderByte(val))
      case HL => this.(h := HighOrderByte(val), l := LowOrderByte(val))
    }

    /** `update8`: reg holds updater applied to its old value. */
    function Update8(reg: Name8, updater: u8 -> u8): (r: RegisterFile)
      ensures r.Get8(reg) == updater(Get8(reg))
      ensures forall other | other != reg :: r.Get8(other) == Get8(other)
      ensures r.cc == cc
    {
      With8(reg, updater(Get8(reg)))
    }

    /** `update16`: pair holds updater applied to its old value. */
    function Update16(pair: Name16, updater: u16 -> u16): (r: RegisterFile)
      ensures r.Get16(pair) == updater(Get16(pair))
      ensures forall other | other != High(pair) && other != Low(pair) :: r.Get8(other) == Get8(other)
      ensures r.cc == cc
    {
      With16(pair, updater(Get16(pair)))
    }

    /** `set_flags_from_r8`. */
    function SetFlagsFromR8(reg: Name8): (r: RegisterFile)
      ensures forall n :: r.Get8(n) == Get8(n)
      ensures r.cc.z <==> Get8(reg) == 0
      ensures r.cc.s <==> Get8(reg) >= 0x80
      ensures r.cc.p <==> Popcount(Get8(reg)) % 2 == 0
      ensures r.cc.cy == cc.cy && r.cc.ac == cc.ac
    {
      this.(cc := cc.SetFlagsNoCarry(Get8(reg)))
    }
  }

  /** `Registers8080::new`: all registers zero, all flags clear. */
  const NEW_REGISTERS := RegisterFile(0, 0, 0, 0, 0, 0, 0, NEW_FLAGS)

  /** The pairs are views on the 8-bit registers: writing one half of a pair
      shows up in the pair at that half only. */
  lemma PairIsView(r: RegisterFile, pair: Name16, val: u8)
    ensures r.With8(High(pair), val).Get16(pair) == AssembleWord(val, r.Get8(Low(pair)))
    ensures r.With8(Low(pair), val).Get16(pair) == AssembleWord(r.Get8(High(pair)), val)
  {
    var hi := r.With8(High(pair), val).Get16(pair);
    WordOfBytes(hi);
    var lo := r.With8(Low(pair), val).Get16(pair);
    WordOfBytes(lo);
  }

  /** Writing a pair leaves the other pairs as they were. */
  lemma PairsIndependent(r: RegisterFile, pair: Name16, other: Name16, val: u16)
    requires pair != other
    ensures r.With16(pair, val).Get16(other) == r.Get16(other)
  {
    var w, w' := r.Get16(other), r.With16(pair, val).Get16(other);
    WordOfBytes(w);
    WordOfBytes(w');
  }

  class Registers8080 {
    var a: u8
    var b: u8
    var c: u8
    var d: u8
    var e: u8
    var h: u8
    var l: u8
    var cc: Flags8080

    function Value(): RegisterFile
      reads this
    {
      RegisterFile(a, b, c, d, e, h, l, cc)
    }

    /** `Registers8080::new`. */
    constructor ()
      ensures Value() == NEW_REGISTERS
    {
      a, b, c, d, e, h, l := 0, 0, 0, 0, 0, 0, 0;
      cc := NEW_FLAGS;
    }

    /** `get8`: storing the value read back with `set8` changes nothing. */
    function Get8(reg: Name8): (v: u8)
      reads this
      ensures Value().With8(reg, v) == Value()
    {
      Value().Get8(reg)
    }

    /** `set8`. */
    method Set8(reg: Name8, val: u8)
      modifies this
      ensures Value() == old(Value()).With8(reg, val)
    {
      match reg
      case A => a := val;
      case B => b := val;
      case C => c := val;
      case D => d := val;
      case E => e := val;
      case H => h := val;
      case L => l := val;
    }

    /** `get16`: storing the value read back with `set16` changes nothing. */
    function Get16(pair: Name16): (w: u16)
      reads this
      ensures Value().With16(pair, w) == Value()
    {
      Value().Get16(pair)
    }

    /** `set16`. */
    method Set16(pair: Name16, val: u16)
      modifies this
      ensures Value() == old(Value()).With16(pair, val)
    {
      match pair
      case BC => b, c := HighOrderByte(val), LowOrderByte(val);
      case DE => d, e := HighOrderByte(val), LowOrderByte(val);
      case HL => h, l := HighOrderByte(val), LowOrderByte(val);
    }

    /** `update8`. */
    method Update8(reg: Name8, updater: u8 -> u8)
      modifies this
      ensures Value() == old(Value()).Update8(reg, updater)
    {
      Set8(reg, updater(Get8(reg)));
    }

    /** `update16`. */
    method Update16(pair: Name16, updater: u16 -> u16)
      modifies this
      ensures Value() == old(Value()).Update16(pair, updater)
    {
      Set16(pair, updater(Get16(pair)));
    }

    /** `set_flags_from_r8`. */
    method SetFlagsFromR8(reg: Name8)
      modifies this
      ensures Value() == old(Value()).SetFlagsFromR8(reg)
    {
      cc := cc.SetFlagsNoCarry(Get8(reg));
    }
  }
}
