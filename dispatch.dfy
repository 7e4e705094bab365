/** What the two dispatchers (virtual-cpu-8080/src/cpu.rs and
    virtual-cpu-gbz80/src/cpu.rs) have in common: the instructions their
    match arms carry out, the effect of each arm on the machine, and the
    imperative `Execute` that performs an arm on a `State8080`.

    An arm either finishes here, hands over to a `State8080` primitive
    whose source is not part of this model (the call is returned as a
    `Primitive`), or panics (a `Fault`). */
module Dispatch {
  import opened Wrappers
  import opened Bytes
  import opened Bits
  import opened Flags
  import opened Memory
  import opened Registers
  import opened Instructions
  import opened State

  /** The operation of `operate8`, by bits 3 to 5 of the opcode. */
  datatype AluOp = Add | Adc | Sub | Sbb | Ana | Xra | Ora | Cmp
  {
    function Code(): u8
    {
      match this
      case Add => 0
      case Adc => 1
      case Sub => 2
      case Sbb => 3
      case Ana => 4
      case Xra => 5
      case Ora => 6
      case Cmp => 7
    }
  }

  /** An 8-bit operand: a register, or M, the byte HL points at. */
  datatype Operand = Reg(name: Name8) | AtHL

  /** The register pairs `push_r16`/`pop_r16` take: BC, DE, HL, or A with
      the flags (AF, "PSW"). */
  datatype StackPair = Pair(pair: Name16) | AF

  /** One match arm of a dispatcher. */
  datatype Instr =
    | Nop
    | Halt                            // HLT: reported as unimplemented
    | Unimplemented                   // `unimplemented_instruction`
    | MovRR(dest: Name8, src: Name8)  // mov_rr8
    | MovRP(dest: Name8, ptr: Name16) // mov_rp8: load through a pair
    | MovPR(ptr: Name16, src: Name8)  // mov_pr8: store through a pair
    | MovRI(dest: Name8)              // mov_ri8 with the byte operand
    | MovPI                           // mov_pi8(HL, byte operand)
    | MovRA(dest: Name8)              // mov_ra8 from the word operand
    | MovAR(src: Name8)               // mov_ar8 to the word operand
    | MovRI16(destPair: Name16)           // mov_ri16 with the word operand
    | MovRA16(destPair: Name16)           // mov_ra16 from the word operand
    | MovAR16(srcPair: Name16)           // mov_ar16 to the word operand
    | IncPair(pair: Name16)           // update16(pair, inc16)
    | DecPair(pair: Name16)           // update16(pair, dec16)
    | LoadSp                          // set_sp(word operand)
    | IncSp                           // set_sp(get_sp() + 1)
    | DecSp                           // set_sp(get_sp() - 1)
    | SpFromHL                        // set_sp(get16(HL))
    | StoreSp                         // m.set_word(word operand, get_sp())
    | Rlc | Rrc | Ral | Rar | Daa | Cma
    | SetCarry | ComplementCarry | ClearCarry
    | IncM | DecM                     // INR M / DCR M
    | StoreStep(up: bool)             // mov_pr8(HL, A) then HL += 1 or -= 1
    | LoadStep(up: bool)              // mov_rp8(A, HL) then HL += 1 or -= 1
    | Alu(op: AluOp, operand: Operand)
    | AluImm(op: AluOp)               // operate8 with the byte operand
    | UnaryMath(reg: Name8, up: bool) // unary_math_r8(reg, inc8 or dec8)
    | AddPair(pair: Name16)           // add_rr16
    | AddSp                           // add_ri16(get_sp())
    | RetIf(cond: Condition)          // ret_if(instruction)
    | JumpIf(cond: Condition)         // jump_if(instruction)
    | CallIf(cond: Condition)         // call_if(instruction)
    | Push(pushed: StackPair)            // push_r16
    | Pop(popped: StackPair)            // pop_r16
    | Interrupts(enable: bool)        // set_interrupt_flag
    | Return                          // ret
    | Jump                            // jump_a(word operand)
    | JumpHL                          // jump_a(get16(HL))
    | Call                            // call_a(word operand)
    | Restart(vector: u16)            // call_a(vector)
    | Out                             // m.output(byte operand, A)
    | In                              // mov_ri8(A, m.input(byte operand))
    | Xthl
    | Xchg

  /** A call into a `State8080` primitive this model does not define. */
  datatype Primitive =
    | Operate(op: AluOp, operand: u8)     // add_ri8, adc_ri8, sub_ri8, sbb_ri8,
                                          // logical_operation_ri, cmp_ri8
    | UnaryMathR8(reg: Name8, up: bool)
    | AddRr16(pair: Name16)
    | AddRi16(value: u16)
    | RetIfCall(instruction: seq<u8>)
    | JumpIfCall(instruction: seq<u8>)
    | CallIfCall(instruction: seq<u8>)
    | PushR16(src: StackPair)
    | PopR16(dest: StackPair)
    | SetInterruptFlag(enabled: bool)

  /** Why an instruction panics. */
  datatype Fault =
    | UnimplementedInstruction(opcode: u8, pc: u16) // `unimplemented_instruction`
    | MissingOperand                                // the instruction slice is too short
    | FetchPastEnd                                  // `view` past address 0xffff

  /** Port traffic through the `Machine` trait (`input`/`output`). */
  datatype Io = NoIo | Output(port: u8, value: u8) | Input(port: u8)

  datatype Status = Continue | Defer(call: Primitive) | Panic(fault: Fault)

  /** The outcome of one arm: its status, the machine afterwards, and any
      port traffic. */
  datatype Effect = Effect(status: Status, after: Machine, io: Io)

  /** How many operand bytes the arm itself reads from the instruction. */
  function OperandBytes(instr: Instr): nat
  {
    match instr
    case MovRI(_) => 1
    case MovPI => 1
    case AluImm(_) => 1
    case Out => 1
    case In => 1
    case MovRA(_) => 2
    case MovAR(_) => 2
    case MovRI16(_) => 2
    case MovRA16(_) => 2
    case MovAR16(_) => 2
    case LoadSp => 2
    case StoreSp => 2
    case Jump => 2
    case Call => 2
    case _ => 0
  }

  // ---------------------------------------------------------------------
  // The accumulator and carry arms of group 0

  /** Only A and the carry may differ between r and r'. */
  predicate AccumulatorOnly(r: RegisterFile, r': RegisterFile)
  {
    (forall n | n != A :: r'.Get8(n) == r.Get8(n)) && r'.cc == r.cc.(cy := r'.cc.cy)
  }

  /** RLC: A rotated left; the carry receives old bit 7. */
  function RotateLeftCircular(r: RegisterFile): (r': RegisterFile)
    ensures r'.Get8(A) == RotateLeft8(r.Get8(A))
    ensures r'.cc.cy == Bit(r.Get8(A), 7)
    ensures AccumulatorOnly(r, r')
  {
    var x := r.Get8(A);
    AndPow2(x, 7);
    var r1 := r.With8(A, RotateLeft8(x));
    r1.(cc := r1.cc.(cy := And(x, 0x80) != 0))
  }

  /** RRC: A rotated right; the carry receives old bit 0. */
  function RotateRightCircular(r: RegisterFile): (r': RegisterFile)
    ensures r'.Get8(A) == RotateRight8(r.Get8(A))
    ensures r'.cc.cy == Bit(r.Get8(A), 0)
    ensures AccumulatorOnly(r, r')
  {
    var x := r.Get8(A);
    LowMask(x, 1);
    var r1 := r.With8(A, RotateRight8(x));
    r1.(cc := r1.cc.(cy := And(x, 0x01) == 1))
  }

  /** RAL: A and the carry rotated left together as nine bits. */
  function RotateLeftThroughCarry(r: RegisterFile): (r': RegisterFile)
    ensures Bit(r'.Get8(A), 0) == r.cc.cy
    ensures forall i | 1 <= i < 8 :: Bit(r'.Get8(A), i) == Bit(r.Get8(A), i - 1)
    ensures r'.cc.cy == Bit(r.Get8(A), 7)
    ensures AccumulatorOnly(r, r')
  {
    var x := r.Get8(A);
    var c := BoolByte(r.cc.cy);
    var shifted := ShiftLeft8(x);
    OrBound(c, shifted, 8);
    var a := Or(c, shifted);
    forall i: nat ensures Bit(a, i) == ((i == 0 && r.cc.cy) || Bit(shifted, i)) {
      OrBit(c, shifted, i);
      ScaledBit(c, 0, i);
    }
    AndPow2(x, 7);
    r.(a := a, cc := r.cc.(cy := And(x, 0x80) != 0))
  }

  /** RAR: A and the carry rotated right together as nine bits. */
  function RotateRightThroughCarry(r: RegisterFile): (r': RegisterFile)
    ensures Bit(r'.Get8(A), 7) == r.cc.cy
    ensures forall i | 0 <= i < 7 :: Bit(r'.Get8(A), i) == Bit(r.Get8(A), i + 1)
    ensures r'.cc.cy == Bit(r.Get8(A), 0)
    ensures AccumulatorOnly(r, r')
  {
    var x := r.Get8(A);
    var c := BoolByte(r.cc.cy) * 0x80;
    var shifted := ShiftRight8(x);
    assert Pow2(7) == 0x80;
    OrBound(c, shifted, 8);
    var a := Or(c, shifted);
    forall i: nat ensures Bit(a, i) == ((i == 7 && r.cc.cy) || Bit(shifted, i)) {
      OrBit(c, shifted, i);
      ScaledBit(BoolByte(r.cc.cy), 7, i);
    }
    LowMask(x, 1);
    r.(a := a, cc := r.cc.(cy := And(x, 0x01) == 1))
  }

  /** RAR undoes RAL. */
  lemma RotateThroughCarryInverse(r: RegisterFile)
    ensures RotateRightThroughCarry(RotateLeftThroughCarry(r)) == r
  {
    var r1 := RotateLeftThroughCarry(r);
    var r2 := RotateRightThroughCarry(r1);
    forall i | 0 <= i < 8 ensures Bit(r2.Get8(A), i) == Bit(r.Get8(A), i) {
      if i < 7 {
        assert Bit(r2.Get8(A), i) == Bit(r1.Get8(A), i + 1);
      }
    }
    BitsDetermine(r2.Get8(A), r.Get8(A), 8);
    assert r2.Get8(B) == r.Get8(B) && r2.Get8(C) == r.Get8(C) && r2.Get8(D) == r.Get8(D);
    assert r2.Get8(E) == r.Get8(E) && r2.Get8(H) == r.Get8(H) && r2.Get8(L) == r.Get8(L);
  }

  /** RRC undoes RLC on the accumulator. */
  lemma RotateCircularInverse(r: RegisterFile)
    ensures RotateRightCircular(RotateLeftCircular(r)).Get8(A) == r.Get8(A)
    ensures RotateLeftCircular(RotateRightCircular(r)).Get8(A) == r.Get8(A)
  {
    RotateInverse(r.Get8(A));
  }

  /** The first half of DAA: 6 is added to A (wrapping) when its low
      nibble is above 9. */
  function DecimalAdjustLow(r: RegisterFile): (r': RegisterFile)
    ensures r.Get8(A) % 16 > 9 ==> r'.Get8(A) == (r.Get8(A) + 6) % 256
    ensures r.Get8(A) % 16 <= 9 ==> r'.Get8(A) == r.Get8(A)
    ensures r' == r.(a := r'.a)
  {
    LowMask(r.Get8(A), 4);
    if And(r.Get8(A), 0x0f) > 9 then r.(a := Wrap8(r.a + 6)) else r
  }

  /** The second half of DAA: whether 0x60 is to be added, that is,
      whether the high nibble of A is above 9. */
  function DecimalAdjustHigh(a: u8): (b: bool)
    ensures b <==> a / 16 > 9
  {
    HighNibble(a);
    And(a, 0xf0) > 0x90
  }

  /** a & 0xf0 is the high nibble of a, in place. */
  lemma HighNibble(a: u8)
    ensures And(a, 0xf0) == 16 * (a / 16)
  {
    var a1 := a / 2;
    var a2 := a1 / 2;
    var a3 := a2 / 2;
    var a4 := a3 / 2;
    ShiftedMask(a, 0x78);
    ShiftedMask(a1, 0x3c);
    ShiftedMask(a2, 0x1e);
    ShiftedMask(a3, 0x0f);
    assert Pow2(4) - 1 == 0x0f;
    LowMask(a4, 4);
    DivModUnique(a4, 16, 0, a4);
    assert a4 == a / 16;
  }

  /** XCHG: DE and HL swap. */
  function Exchange(r: RegisterFile): (r': RegisterFile)
    ensures r'.Get16(DE) == r.Get16(HL) && r'.Get16(HL) == r.Get16(DE)
    ensures r'.Get16(BC) == r.Get16(BC) && r'.Get8(A) == r.Get8(A) && r'.cc == r.cc
  {
    r.(d := r.h, h := r.d, e := r.l, l := r.e)
  }

  lemma ExchangeTwice(r: RegisterFile)
    ensures Exchange(Exchange(r)) == r
  {
  }

  /** XTHL: HL swaps with the word on top of the stack; no other cell of
      memory changes. */
  function ExchangeTop(mach: Machine): (m: Machine)
    ensures m.regs.Get16(HL) == WordAt(mach.mem, mach.sp)
    ensures WordAt(m.mem, m.sp) == mach.regs.Get16(HL)
    ensures m.mem == WithWord(mach.mem, mach.sp, mach.regs.Get16(HL))
    ensures m.sp == mach.sp && m.pc == mach.pc && m.len == mach.len
    ensures forall n | n != H && n != L :: m.regs.Get8(n) == mach.regs.Get8(n)
    ensures m.regs.cc == mach.regs.cc
  {
    var (newHl, m1) := mach.PopWord();
    var oldHl := m1.regs.Get16(HL);
    var m2 := m1.PushWord(oldHl);
    Add16Undo(mach.sp, -2);
    WordRoundTrip(m1.mem, mach.sp, oldHl);
    m2.(regs := m2.regs.With16(HL, newHl))
  }

  /** Two XTHLs restore the machine. */
  lemma ExchangeTopTwice(mach: Machine)
    ensures ExchangeTop(ExchangeTop(mach)) == mach
  {
    var once := ExchangeTop(mach);
    var twice := ExchangeTop(once);
    WordRoundTrip(mach.mem, mach.sp, mach.regs.Get16(HL));
    WordOverwrite(mach.mem, mach.sp, mach.regs.Get16(HL), WordAt(mach.mem, mach.sp));
    WordRewrite(mach.mem, mach.sp);
    assert twice.mem == mach.mem;
    assert twice.regs.Get16(HL) == mach.regs.Get16(HL);
    SameRegisters(twice.regs, mach.regs);
  }

  /** Register files that agree on every register and on the flags are
      equal. */
  lemma SameRegisters(r: RegisterFile, r': RegisterFile)
    requires r.Get16(HL) == r'.Get16(HL)
    requires forall n | n != H && n != L :: r.Get8(n) == r'.Get8(n)
    requires r.cc == r'.cc
    ensures r == r'
  {
    assert r.Get8(A) == r'.Get8(A) && r.Get8(B) == r'.Get8(B) && r.Get8(C) == r'.Get8(C);
    assert r.Get8(D) == r'.Get8(D) && r.Get8(E) == r'.Get8(E);
  }

  // ---------------------------------------------------------------------
  // One arm

  /** Arms that move data between registers, memory and the stack pointer. */
  predicate IsTransfer(instr: Instr)
  {
    instr.Nop? || instr.Halt? || instr.Unimplemented? || instr.MovRR? || instr.MovRP? ||
    instr.MovPR? || instr.MovRI? || instr.MovPI? || instr.MovRA? || instr.MovAR? ||
    instr.MovRI16? || instr.MovRA16? || instr.MovAR16? || instr.IncPair? || instr.DecPair? ||
    instr.LoadSp? || instr.IncSp? || instr.DecSp? || instr.SpFromHL? || instr.StoreSp?
  }

  /** Arms that work on the accumulator, the carry or the byte HL points at. */
  predicate IsAccumulator(instr: Instr)
  {
    instr.Rlc? || instr.Rrc? || instr.Ral? || instr.Rar? || instr.Daa? || instr.Cma? ||
    instr.SetCarry? || instr.ComplementCarry? || instr.ClearCarry? || instr.IncM? ||
    instr.DecM? || instr.StoreStep? || instr.LoadStep?
  }

  /** Arms that only call a primitive this model does not define. */
  predicate IsDeferred(instr: Instr)
  {
    instr.Alu? || instr.AluImm? || instr.UnaryMath? || instr.AddPair? || instr.AddSp? ||
    instr.RetIf? || instr.JumpIf? || instr.CallIf? || instr.Push? || instr.Pop? ||
    instr.Interrupts?
  }

  /** The effect of the arm instr on mach, for the fetched instruction
      bytes and the byte the `Machine` trait's `input` would return. */
  function Apply(mach: Machine, instr: Instr, instruction: seq<u8>, input: u8): (e: Effect)
    requires |instruction| >= 1
    ensures |instruction| < 1 + OperandBytes(instr) ==> e == Effect(Panic(MissingOperand), mach, NoIo)
    ensures e.status.Panic? ==> e.after == mach
  {
    if |instruction| < 1 + OperandBytes(instr) then Effect(Panic(MissingOperand), mach, NoIo)
    else if IsTransfer(instr) then ApplyTransfer(mach, instr, instruction)
    else if IsAccumulator(instr) then ApplyAccumulator(mach, instr)
    else if IsDeferred(instr) then ApplyDeferred(mach, instr, instruction)
    else ApplyControl(mach, instr, instruction, input)
  }

  function ApplyTransfer(mach: Machine, instr: Instr, instruction: seq<u8>): (e: Effect)
    requires IsTransfer(instr) && 1 <= |instruction| && 1 + OperandBytes(instr) <= |instruction|
    ensures e.status.Panic? ==> e.after == mach
  {
    var regs := mach.regs;
    match instr
    case Nop => Effect(Continue, mach, NoIo)
    case Halt => Effect(Panic(UnimplementedInstruction(instruction[0], mach.pc)), mach, NoIo)
    case Unimplemented => Effect(Panic(UnimplementedInstruction(instruction[0], mach.pc)), mach, NoIo)
    case MovRR(dest, src) => Effect(Continue, mach.MovRr8(dest, src), NoIo)
    case MovRP(dest, ptr) => Effect(Continue, mach.MovRp8(dest, ptr), NoIo)
    case MovPR(ptr, src) => Effect(Continue, mach.MovPr8(ptr, src), NoIo)
    case MovRI(dest) => Effect(Continue, mach.MovRi8(dest, ByteArgFrom(instruction)), NoIo)
    case MovPI => Effect(Continue, mach.MovPi8(HL, ByteArgFrom(instruction)), NoIo)
    case MovRA(dest) => Effect(Continue, mach.MovRa8(dest, WordArgFrom(instruction)), NoIo)
    case MovAR(src) => Effect(Continue, mach.MovAr8(WordArgFrom(instruction), src), NoIo)
    case MovRI16(dest) => Effect(Continue, mach.MovRi16(dest, WordArgFrom(instruction)), NoIo)
    case MovRA16(dest) => Effect(Continue, mach.MovRa16(dest, WordArgFrom(instruction)), NoIo)
    case MovAR16(src) => Effect(Continue, mach.MovAr16(WordArgFrom(instruction), src), NoIo)
    case IncPair(pair) => Effect(Continue, mach.(regs := regs.Update16(pair, Inc16)), NoIo)
    case DecPair(pair) => Effect(Continue, mach.(regs := regs.Update16(pair, Dec16)), NoIo)
    case LoadSp => Effect(Continue, mach.(sp := WordArgFrom(instruction)), NoIo)
    case IncSp => Effect(Continue, mach.(sp := Add16(mach.sp, 1)), NoIo)
    case DecSp => Effect(Continue, mach.(sp := Add16(mach.sp, -1)), NoIo)
    case SpFromHL => Effect(Continue, mach.(sp := regs.Get16(HL)), NoIo)
    case StoreSp => Effect(Continue, mach.(mem := WithWord(mach.mem, WordArgFrom(instruction), mach.sp)), NoIo)
  }

  function ApplyAccumulator(mach: Machine, instr: Instr): (e: Effect)
    requires IsAccumulator(instr)
    ensures e.status.Continue? || e.status.Defer?
  {
    var regs := mach.regs;
    match instr
    case Rlc => Effect(Continue, mach.(regs := RotateLeftCircular(regs)), NoIo)
    case Rrc => Effect(Continue, mach.(regs := RotateRightCircular(regs)), NoIo)
    case Ral => Effect(Continue, mach.(regs := RotateLeftThroughCarry(regs)), NoIo)
    case Rar => Effect(Continue, mach.(regs := RotateRightThroughCarry(regs)), NoIo)
    case Daa =>
      var m1 := mach.(regs := DecimalAdjustLow(regs));
      if DecimalAdjustHigh(m1.regs.Get8(A)) then Effect(Defer(Operate(Add, 0x60)), m1, NoIo)
      else Effect(Continue, m1, NoIo)
    case Cma => Effect(Continue, mach.(regs := regs.Update8(A, Not8)), NoIo)
    case SetCarry => Effect(Continue, mach.(regs := regs.(cc := regs.cc.(cy := true))), NoIo)
    case ComplementCarry => Effect(Continue, mach.(regs := regs.(cc := regs.cc.(cy := !regs.cc.cy))), NoIo)
    case ClearCarry => Effect(Continue, mach.(regs := regs.(cc := regs.cc.(cy := false))), NoIo)
    case IncM =>
      var v := Inc8(mach.GetIndirect8(HL));
      Effect(Continue, mach.(regs := regs.(cc := regs.cc.SetFlagsNoCarry(v))).MovPi8(HL, v), NoIo)
    case DecM =>
      var v := Dec8(mach.GetIndirect8(HL));
      Effect(Continue, mach.(regs := regs.(cc := regs.cc.SetFlagsNoCarry(v))).MovPi8(HL, v), NoIo)
    case StoreStep(up) =>
      var m1 := mach.MovPr8(HL, A);
      Effect(Continue, m1.(regs := m1.regs.Update16(HL, if up then Inc16 else Dec16)), NoIo)
    case LoadStep(up) =>
      var m1 := mach.MovRp8(A, HL);
      Effect(Continue, m1.(regs := m1.regs.Update16(HL, if up then Inc16 else Dec16)), NoIo)
  }

  /** INR M and DCR M move the byte HL points at by one, wrapping; z, s
      and p describe the new byte, and the carries, the registers, sp and
      pc are left alone. */
  lemma MemoryIncDec(mach: Machine, up: bool)
    ensures var hl := mach.regs.Get16(HL);
            var v := if up then Inc8(mach.mem[hl]) else Dec8(mach.mem[hl]);
            var e := ApplyAccumulator(mach, if up then IncM else DecM);
            && e.status == Continue && e.io == NoIo
            && e.after.mem == mach.mem[hl := v]
            && e.after.sp == mach.sp && e.after.pc == mach.pc && e.after.len == mach.len
            && (forall n :: e.after.regs.Get8(n) == mach.regs.Get8(n))
            && (e.after.regs.cc.z <==> v == 0) && (e.after.regs.cc.s <==> v >= 0x80)
            && (e.after.regs.cc.p <==> Popcount(v) % 2 == 0)
            && e.after.regs.cc.cy == mach.regs.cc.cy && e.after.regs.cc.ac == mach.regs.cc.ac
  {
  }

  /** CMA flips every bit of A and nothing else, so two CMAs, like two
      CMCs, restore the machine. */
  lemma ComplementTwice(mach: Machine)
    ensures var once := ApplyAccumulator(mach, Cma).after;
            && (forall i | 0 <= i < 8 :: Bit(once.regs.Get8(A), i) == !Bit(mach.regs.Get8(A), i))
            && (forall n | n != A :: once.regs.Get8(n) == mach.regs.Get8(n))
            && mach.RegistersOnly(once) && once.regs.cc == mach.regs.cc
            && ApplyAccumulator(once, Cma).after == mach
    ensures var once := ApplyAccumulator(mach, ComplementCarry).after;
            && once.regs.cc.cy == !mach.regs.cc.cy
            && (forall n :: once.regs.Get8(n) == mach.regs.Get8(n))
            && mach.RegistersOnly(once) && CarryOnly(mach.regs.cc, once.regs.cc)
            && ApplyAccumulator(once, ComplementCarry).after == mach
  {
  }

  /** STC sets the carry and nothing else, so a second STC changes
      nothing. */
  lemma ApplySetCarry(mach: Machine)
    ensures var once := ApplyAccumulator(mach, SetCarry).after;
            && once.regs.cc.cy
            && (forall n :: once.regs.Get8(n) == mach.regs.Get8(n))
            && mach.RegistersOnly(once) && CarryOnly(mach.regs.cc, once.regs.cc)
            && ApplyAccumulator(once, SetCarry).after == once
  {
  }

  /** The flags other than the carry agree. */
  predicate CarryOnly(f: Flags8080, f': Flags8080)
  {
    f'.z == f.z && f'.s == f.s && f'.p == f.p && f'.ac == f.ac
  }

  function ApplyDeferred(mach: Machine, instr: Instr, instruction: seq<u8>): (e: Effect)
    requires IsDeferred(instr) && 1 <= |instruction| && 1 + OperandBytes(instr) <= |instruction|
    ensures e.status.Defer? && e.after == mach && e.io == NoIo
  {
    match instr
    case Alu(op, operand) =>
      var v := match operand case Reg(n) => mach.regs.Get8(n) case AtHL => mach.GetIndirect8(HL);
      Effect(Defer(Operate(op, v)), mach, NoIo)
    case AluImm(op) => Effect(Defer(Operate(op, ByteArgFrom(instruction))), mach, NoIo)
    case UnaryMath(reg, up) => Effect(Defer(UnaryMathR8(reg, up)), mach, NoIo)
    case AddPair(pair) => Effect(Defer(AddRr16(pair)), mach, NoIo)
    case AddSp => Effect(Defer(AddRi16(mach.sp)), mach, NoIo)
    case RetIf(_) => Effect(Defer(RetIfCall(instruction)), mach, NoIo)
    case JumpIf(_) => Effect(Defer(JumpIfCall(instruction)), mach, NoIo)
    case CallIf(_) => Effect(Defer(CallIfCall(instruction)), mach, NoIo)
    case Push(src) => Effect(Defer(PushR16(src)), mach, NoIo)
    case Pop(dest) => Effect(Defer(PopR16(dest)), mach, NoIo)
    case Interrupts(enable) => Effect(Defer(SetInterruptFlag(enable)), mach, NoIo)
  }

  function ApplyControl(mach: Machine, instr: Instr, instruction: seq<u8>, input: u8): (e: Effect)
    requires !IsTransfer(instr) && !IsAccumulator(instr) && !IsDeferred(instr)
    requires 1 <= |instruction| && 1 + OperandBytes(instr) <= |instruction|
    ensures e.status.Continue?
  {
    match instr
    case Return => Effect(Continue, mach.Ret(), NoIo)
    case Jump => Effect(Continue, mach.JumpA(WordArgFrom(instruction)), NoIo)
    case JumpHL => Effect(Continue, mach.JumpA(mach.regs.Get16(HL)), NoIo)
    case Call => Effect(Continue, mach.CallA(WordArgFrom(instruction)), NoIo)
    case Restart(vector) => Effect(Continue, mach.CallA(vector), NoIo)
    case Out => Effect(Continue, mach, Output(ByteArgFrom(instruction), mach.regs.Get8(A)))
    case In => Effect(Continue, mach.MovRi8(A, input), Input(ByteArgFrom(instruction)))
    case Xthl => Effect(Continue, ExchangeTop(mach), NoIo)
    case Xchg => Effect(Continue, mach.(regs := Exchange(mach.regs)), NoIo)
  }

  /** Arms that set the program counter themselves. */
  predicate IsBranch(instr: Instr)
  {
    instr.Return? || instr.Jump? || instr.JumpHL? || instr.Call? || instr.Restart?
  }

  /** An arm panics exactly when its operand bytes are missing or it is
      HLT or unimplemented; only the primitive calls are deferred; and an
      arm that is not a branch leaves the program counter and the recorded
      instruction length alone. */
  lemma ApplyStatus(mach: Machine, instr: Instr, instruction: seq<u8>, input: u8)
    requires |instruction| >= 1
    ensures var e := Apply(mach, instr, instruction, input);
            && (e.status.Panic? <==> |instruction| < 1 + OperandBytes(instr) || instr.Halt? || instr.Unimplemented?)
            && (e.status.Defer? ==> IsDeferred(instr) || instr.Daa?)
            && (!IsBranch(instr) ==> e.after.pc == mach.pc && e.after.len == mach.len)
  {
    if |instruction| < 1 + OperandBytes(instr) {
    } else if IsTransfer(instr) {
      TransferStatus(mach, instr, instruction);
    } else if IsAccumulator(instr) {
      AccumulatorStatus(mach, instr);
    } else if !IsDeferred(instr) {
      ControlStatus(mach, instr, instruction, input);
    }
  }

  lemma TransferStatus(mach: Machine, instr: Instr, instruction: seq<u8>)
    requires IsTransfer(instr) && 1 <= |instruction| && 1 + OperandBytes(instr) <= |instruction|
    ensures var e := ApplyTransfer(mach, instr, instruction);
            && (e.status.Panic? <==> instr.Halt? || instr.Unimplemented?)
            && !e.status.Defer?
            && e.after.pc == mach.pc && e.after.len == mach.len
  {
  }

  lemma AccumulatorStatus(mach: Machine, instr: Instr)
    requires IsAccumulator(instr)
    ensures var e := ApplyAccumulator(mach, instr);
            && (e.status.Defer? ==> instr.Daa?)
            && e.after.pc == mach.pc && e.after.len == mach.len
  {
  }

  lemma ControlStatus(mach: Machine, instr: Instr, instruction: seq<u8>, input: u8)
    requires !IsTransfer(instr) && !IsAccumulator(instr) && !IsDeferred(instr)
    requires 1 <= |instruction| && 1 + OperandBytes(instr) <= |instruction|
    ensures var e := ApplyControl(mach, instr, instruction, input);
            !IsBranch(instr) ==> e.after.pc == mach.pc && e.after.len == mach.len
  {
  }

  /** The arms the single-step lemmas use, one at a time. */
  lemma ApplyStore(mach: Machine, ptr: Name16, src: Name8, instruction: seq<u8>, input: u8)
    requires |instruction| >= 1
    ensures Apply(mach, MovPR(ptr, src), instruction, input) == Effect(Continue, mach.MovPr8(ptr, src), NoIo)
  {
  }

  lemma ApplyCall(mach: Machine, instruction: seq<u8>, input: u8)
    requires |instruction| >= 3
    ensures Apply(mach, Call, instruction, input) == Effect(Continue, mach.CallA(WordArgFrom(instruction)), NoIo)
  {
  }

  lemma ApplyRestart(mach: Machine, vector: u16, instruction: seq<u8>, input: u8)
    requires |instruction| >= 1
    ensures Apply(mach, Restart(vector), instruction, input) == Effect(Continue, mach.CallA(vector), NoIo)
  {
  }

  lemma ApplyReturn(mach: Machine, instruction: seq<u8>, input: u8)
    requires |instruction| >= 1
    ensures Apply(mach, Return, instruction, input) == Effect(Continue, mach.Ret(), NoIo)
  {
  }

  /** LDI (HL),A and LDD (HL),A: A is stored at HL, then HL steps by one
      (wrapping); no other register, no flag and neither sp nor pc moves. */
  lemma ApplyStoreStep(mach: Machine, up: bool, instruction: seq<u8>, input: u8)
    requires |instruction| >= 1
    ensures var hl := mach.regs.Get16(HL);
            var e := Apply(mach, StoreStep(up), instruction, input);
            && e.status == Continue && e.io == NoIo
            && e.after.mem == mach.mem[hl := mach.regs.Get8(A)]
            && e.after.regs.Get16(HL) == (if up then Inc16(hl) else Dec16(hl))
            && (forall n | n != H && n != L :: e.after.regs.Get8(n) == mach.regs.Get8(n))
            && e.after.regs.cc == mach.regs.cc
            && e.after.sp == mach.sp && e.after.pc == mach.pc && e.after.len == mach.len
  {
  }

  /** LDI A,(HL) and LDD A,(HL): A receives the byte at HL, then HL steps
      by one (wrapping); memory, the flags, sp and pc are left alone. */
  lemma ApplyLoadStep(mach: Machine, up: bool, instruction: seq<u8>, input: u8)
    requires |instruction| >= 1
    ensures var hl := mach.regs.Get16(HL);
            var e := Apply(mach, LoadStep(up), instruction, input);
            && e.status == Continue && e.io == NoIo
            && e.after.mem == mach.mem
            && e.after.regs.Get8(A) == mach.mem[hl]
            && e.after.regs.Get16(HL) == (if up then Inc16(hl) else Dec16(hl))
            && (forall n | n != A && n != H && n != L :: e.after.regs.Get8(n) == mach.regs.Get8(n))
            && e.after.regs.cc == mach.regs.cc
            && e.after.sp == mach.sp && e.after.pc == mach.pc && e.after.len == mach.len
  {
  }

  /** CCF on the gbz80 dispatcher, as written, clears the carry. */
  lemma ApplyClearCarry(mach: Machine, instruction: seq<u8>, input: u8)
    requires |instruction| >= 1
    ensures Apply(mach, ClearCarry, instruction, input)
         == Effect(Continue, mach.(regs := mach.regs.(cc := mach.regs.cc.(cy := false))), NoIo)
  {
  }

  /** Performs the arm instr on st, as the dispatchers' match arms do. */
  method Execute(st: State8080, instr: Instr, instruction: seq<u8>, input: u8) returns (status: Status, io: Io)
    requires st.Valid() && |instruction| >= 1
    modifies st.m.cells, st.s, st.p, st.r
    ensures Effect(status, st.Snapshot(), io) == Apply(old(st.Snapshot()), instr, instruction, input)
  {
    ApplyByKind(st.Snapshot(), instr, instruction, input);
    if |instruction| < 1 + OperandBytes(instr) {
      status, io := Panic(MissingOperand), NoIo;
    } else if IsTransfer(instr) {
      status := ExecuteTransfer(st, instr, instruction);
      io := NoIo;
    } else if IsAccumulator(instr) {
      status := ExecuteAccumulator(st, instr);
      io := NoIo;
    } else if IsDeferred(instr) {
      status := ExecuteDeferred(st, instr, instruction);
      io := NoIo;
    } else {
      status, io := ExecuteControl(st, instr, instruction, input);
    }
  }

  /** `Apply` by the kind of arm, once the operands are there. */
  lemma ApplyByKind(mach: Machine, instr: Instr, instruction: seq<u8>, input: u8)
    requires |instruction| >= 1
    ensures |instruction| >= 1 + OperandBytes(instr) ==>
      Apply(mach, instr, instruction, input)
        == if IsTransfer(instr) then ApplyTransfer(mach, instr, instruction)
           else if IsAccumulator(instr) then ApplyAccumulator(mach, instr)
           else if IsDeferred(instr) then ApplyDeferred(mach, instr, instruction)
           else ApplyControl(mach, instr, instruction, input)
  {
  }

  method ExecuteTransfer(st: State8080, instr: Instr, instruction: seq<u8>) returns (status: Status)
    requires st.Valid() && IsTransfer(instr) && 1 <= |instruction| && 1 + OperandBytes(instr) <= |instruction|
    modifies st.m.cells, st.s, st.r
    ensures Effect(status, st.Snapshot(), NoIo) == ApplyTransfer(old(st.Snapshot()), instr, instruction)
  {
    status := Continue;
    match instr
    case Nop =>
    case Halt => status := Panic(UnimplementedInstruction(instruction[0], st.p.GetPc()));
    case Unimplemented => status := Panic(UnimplementedInstruction(instruction[0], st.p.GetPc()));
    case MovRR(dest, src) => st.MovRr8(dest, src);
    case MovRP(dest, ptr) => st.MovRp8(dest, ptr);
    case MovPR(ptr, src) => st.MovPr8(ptr, src);
    case MovRI(dest) => st.MovRi8(dest, ByteArgFrom(instruction));
    case MovPI => st.MovPi8(HL, ByteArgFrom(instruction));
    case MovRA(dest) => st.MovRa8(dest, WordArgFrom(instruction));
    case MovAR(src) => st.MovAr8(WordArgFrom(instruction), src);
    case MovRI16(dest) => st.MovRi16(dest, WordArgFrom(instruction));
    case MovRA16(dest) => st.MovRa16(dest, WordArgFrom(instruction));
    case MovAR16(src) => st.MovAr16(WordArgFrom(instruction), src);
    case IncPair(pair) => st.r.Update16(pair, Inc16);
    case DecPair(pair) => st.r.Update16(pair, Dec16);
    case LoadSp => st.s.SetSp(WordArgFrom(instruction));
    case IncSp => st.s.SetSp(Add16(st.s.GetSp(), 1));
    case DecSp => st.s.SetSp(Add16(st.s.GetSp(), -1));
    case SpFromHL => st.s.SetSp(st.r.Get16(HL));
    case StoreSp => st.m.SetWord(WordArgFrom(instruction), st.s.GetSp());
  }

  method ExecuteAccumulator(st: State8080, instr: Instr) returns (status: Status)
    requires st.Valid() && IsAccumulator(instr)
    modifies st.m.cells, st.r
    ensures Effect(status, st.Snapshot(), NoIo) == ApplyAccumulator(old(st.Snapshot()), instr)
  {
    status := Continue;
    if instr.Rlc? || instr.Rrc? || instr.Ral? || instr.Rar? {
      ExecuteRotate(st, instr);
      return;
    }
    match instr
    case Daa =>
      if And(st.r.Get8(A), 0x0f) > 9 {
        st.r.a := Wrap8(st.r.a + 6);
      }
      if And(st.r.Get8(A), 0xf0) > 0x90 {
        status := Defer(Operate(Add, 0x60));
      }
    case Cma => st.r.Update8(A, Not8);
    case SetCarry => st.r.cc := st.r.cc.(cy := true);
    case ComplementCarry => st.r.cc := st.r.cc.(cy := !st.r.cc.cy);
    case ClearCarry => st.r.cc := st.r.cc.(cy := false);
    case IncM =>
      var v := Inc8(st.GetIndirect8(HL));
      st.r.cc := st.r.cc.SetFlagsNoCarry(v);
      st.MovPi8(HL, v);
    case DecM =>
      var v := Dec8(st.GetIndirect8(HL));
      st.r.cc := st.r.cc.SetFlagsNoCarry(v);
      st.MovPi8(HL, v);
    case StoreStep(up) =>
      st.MovPr8(HL, A);
      st.r.Update16(HL, if up then Inc16 else Dec16);
    case LoadStep(up) =>
      st.MovRp8(A, HL);
      st.r.Update16(HL, if up then Inc16 else Dec16);
  }

  /** The four rotates of the accumulator. */
  method ExecuteRotate(st: State8080, instr: Instr)
    requires st.Valid() && (instr.Rlc? || instr.Rrc? || instr.Ral? || instr.Rar?)
    modifies st.r
    ensures Effect(Continue, st.Snapshot(), NoIo) == ApplyAccumulator(old(st.Snapshot()), instr)
  {
    var x := st.r.Get8(A);
    ghost var regs := st.r.Value();
    match instr
    case Rlc =>
      st.r.Set8(A, RotateLeft8(x));
      st.r.cc := st.r.cc.(cy := And(x, 0x80) != 0);
      assert st.r.Value() == RotateLeftCircular(regs);
    case Rrc =>
      st.r.Set8(A, RotateRight8(x));
      st.r.cc := st.r.cc.(cy := And(x, 0x01) == 1);
      assert st.r.Value() == RotateRightCircular(regs);
    case Ral =>
      OrBound(BoolByte(st.r.cc.cy), ShiftLeft8(x), 8);
      st.r.a := Or(BoolByte(st.r.cc.cy), ShiftLeft8(x));
      st.r.cc := st.r.cc.(cy := And(x, 0x80) != 0);
      assert st.r.Value() == RotateLeftThroughCarry(regs);
    case Rar =>
      assert Pow2(7) == 0x80;
      OrBound(BoolByte(st.r.cc.cy) * 0x80, ShiftRight8(x), 8);
      st.r.a := Or(BoolByte(st.r.cc.cy) * 0x80, ShiftRight8(x));
      st.r.cc := st.r.cc.(cy := And(x, 0x01) == 1);
      assert st.r.Value() == RotateRightThroughCarry(regs);
  }

  method ExecuteDeferred(st: State8080, instr: Instr, instruction: seq<u8>) returns (status: Status)
    requires st.Valid() && IsDeferred(instr) && 1 <= |instruction| && 1 + OperandBytes(instr) <= |instruction|
    ensures Effect(status, st.Snapshot(), NoIo) == ApplyDeferred(st.Snapshot(), instr, instruction)
  {
    match instr
    case Alu(op, operand) =>
      var v := if operand.Reg? then st.r.Get8(operand.name) else st.GetIndirect8(HL);
      status := Defer(Operate(op, v));
    case AluImm(op) => status := Defer(Operate(op, ByteArgFrom(instruction)));
    case UnaryMath(reg, up) => status := Defer(UnaryMathR8(reg, up));
    case AddPair(pair) => status := Defer(AddRr16(pair));
    case AddSp => status := Defer(AddRi16(st.s.GetSp()));
    case RetIf(_) => status := Defer(RetIfCall(instruction));
    case JumpIf(_) => status := Defer(JumpIfCall(instruction));
    case CallIf(_) => status := Defer(CallIfCall(instruction));
    case Push(src) => status := Defer(PushR16(src));
    case Pop(dest) => status := Defer(PopR16(dest));
    case Interrupts(enable) => status := Defer(SetInterruptFlag(enable));
  }

  method ExecuteControl(st: State8080, instr: Instr, instruction: seq<u8>, input: u8) returns (status: Status, io: Io)
    requires st.Valid() && !IsTransfer(instr) && !IsAccumulator(instr) && !IsDeferred(instr)
    requires 1 <= |instruction| && 1 + OperandBytes(instr) <= |instruction|
    modifies st.m.cells, st.s, st.p, st.r
    ensures Effect(status, st.Snapshot(), io) == ApplyControl(old(st.Snapshot()), instr, instruction, input)
  {
    status, io := Continue, NoIo;
    match instr
    case Return => st.Ret();
    case Jump => st.JumpA(WordArgFrom(instruction));
    case JumpHL => st.JumpA(st.r.Get16(HL));
    case Call => st.CallA(WordArgFrom(instruction));
    case Restart(vector) => st.CallA(vector);
    case Out => io := Output(ByteArgFrom(instruction), st.r.Get8(A));
    case In =>
      st.MovRi8(A, input);
      io := Input(ByteArgFrom(instruction));
    case Xthl =>
      var newHl := st.PopWord();
      var oldHl := st.r.Get16(HL);
      st.PushWord(oldHl);
      st.r.Set16(HL, newHl);
    case Xchg =>
      st.r.d, st.r.h := st.r.h, st.r.d;
      st.r.e, st.r.l := st.r.l, st.r.e;
  }
}
