/** The Game Boy (gbz80) dispatcher (virtual-cpu-gbz80/src/cpu.rs).  It runs
    on the 8080's `State8080`, fetches with the 8080's instruction-length
    table and shares `get_operand`, `mov_for` and `operate8` with the 8080;
    its own cycle table repeats the 8080's entry for entry.  Group 0 and group 3
    differ: several opcodes are reported as unimplemented and a few are
    re-purposed. */
module CpuGb {
  import opened Wrappers
  import opened Bytes
  import opened Memory
  import opened Registers
  import opened Instructions
  import opened Program
  import opened State
  import opened Dispatch
  import opened Emulation
  import opened Cpu8080

  /** The gbz80's own `OPCODE_TIMING`, one row of sixteen opcodes per line. */
  const OPCODE_TIMING_GB: seq<seq<nat>> := [
    [4, 10, 7, 5, 5, 5, 7, 4, 4, 10, 7, 5, 5, 5, 7, 4],
    [4, 10, 7, 5, 5, 5, 7, 4, 4, 10, 7, 5, 5, 5, 7, 4],
    [4, 10, 16, 5, 5, 5, 7, 4, 4, 10, 16, 5, 5, 5, 7, 4],
    [4, 10, 13, 5, 10, 10, 10, 4, 4, 10, 13, 5, 5, 5, 7, 4],
    [5, 5, 5, 5, 5, 5, 7, 5, 5, 5, 5, 5, 5, 5, 7, 5],
    [5, 5, 5, 5, 5, 5, 7, 5, 5, 5, 5, 5, 5, 5, 7, 5],
    [5, 5, 5, 5, 5, 5, 7, 5, 5, 5, 5, 5, 5, 5, 7, 5],
    [7, 7, 7, 7, 7, 7, 7, 7, 5, 5, 5, 5, 5, 5, 7, 5],
    [4, 4, 4, 4, 4, 4, 7, 4, 4, 4, 4, 4, 4, 4, 7, 4],
    [4, 4, 4, 4, 4, 4, 7, 4, 4, 4, 4, 4, 4, 4, 7, 4],
    [4, 4, 4, 4, 4, 4, 7, 4, 4, 4, 4, 4, 4, 4, 7, 4],
    [4, 4, 4, 4, 4, 4, 7, 4, 4, 4, 4, 4, 4, 4, 7, 4],
    [11, 10, 10, 10, 17, 11, 7, 11, 11, 10, 10, 10, 10, 17, 7, 11],
    [11, 10, 10, 10, 17, 11, 7, 11, 11, 10, 10, 10, 10, 17, 7, 11],
    [11, 10, 10, 18, 17, 11, 7, 11, 11, 5, 10, 5, 17, 17, 7, 11],
    [11, 10, 10, 4, 17, 11, 7, 11, 11, 5, 10, 4, 17, 17, 7, 11]
  ]

  /** The cycle count of an opcode on the gbz80: the table repeats the
      8080's entry for entry. */
  function TimingGb(opcode: u8): (n: nat)
    ensures n == Timing(opcode)
  {
    assert OPCODE_TIMING_GB == OPCODE_TIMING;
    OPCODE_TIMING_GB[opcode / 16][opcode % 16]
  }

  /** `emulate_group0` of the gbz80, by the low six bits of the opcode.
      No arm is HLT or a port access; which arms are unimplemented and
      which find their operands is stated by `Group0GbUnimplemented` and
      `Group0GbLayout`. */
  function Group0Gb(low: u8): (i: Instr)
    requires low < 0x40
    ensures i != Halt && !i.In? && !i.Out?
  {
    match low
    case 0x00 => Nop
    case 0x01 => MovRI16(BC)
    case 0x02 => MovPR(BC, B)          // LD (BC),A: stores B, as written
    case 0x03 => IncPair(BC)
    case 0x04 => UnaryMath(B, true)
    case 0x05 => UnaryMath(B, false)
    case 0x06 => MovRI(B)
    case 0x07 => Rlc
    case 0x08 => StoreSp               // LD (nn),SP
    case 0x09 => AddPair(BC)
    case 0x0a => MovRP(A, BC)
    case 0x0b => DecPair(BC)
    case 0x0c => UnaryMath(C, true)
    case 0x0d => UnaryMath(C, false)
    case 0x0e => MovRI(C)
    case 0x0f => Rrc
    case 0x10 => Unimplemented         // STOP
    case 0x11 => MovRI16(DE)
    case 0x12 => MovPR(DE, A)
    case 0x13 => IncPair(DE)
    case 0x14 => UnaryMath(D, true)
    case 0x15 => UnaryMath(D, false)
    case 0x16 => MovRI(D)
    case 0x17 => Ral
    case 0x18 => Unimplemented         // JR n
    case 0x19 => AddPair(DE)
    case 0x1a => MovRP(A, DE)
    case 0x1b => DecPair(DE)
    case 0x1c => UnaryMath(E, true)
    case 0x1d => UnaryMath(E, false)
    case 0x1e => MovRI(E)
    case 0x1f => Rar
    case 0x20 => Unimplemented         // JR NZ,n
    case 0x21 => MovRI16(HL)
    case 0x22 => StoreStep(true)       // LDI (HL),A
    case 0x23 => IncPair(HL)
    case 0x24 => UnaryMath(H, true)
    case 0x25 => UnaryMath(H, false)
    case 0x26 => MovRI(H)
    case 0x27 => Daa
    case 0x28 => Unimplemented         // JR Z,n
    case 0x29 => AddPair(HL)
    case 0x2a => LoadStep(true)        // LDI A,(HL)
    case 0x2b => DecPair(HL)
    case 0x2c => UnaryMath(L, true)
    case 0x2d => UnaryMath(L, false)
    case 0x2e => MovRI(L)
    case 0x2f => Cma
    case 0x30 => Unimplemented         // JR NC,n
    case 0x31 => LoadSp
    case 0x32 => StoreStep(false)      // LDD (HL),A
    case 0x33 => IncSp
    case 0x34 => IncM
    case 0x35 => DecM
    case 0x36 => MovPI
    case 0x37 => SetCarry
    case 0x38 => Unimplemented         // JR C,n
    case 0x39 => AddSp
    case 0x3a => LoadStep(false)       // LDD A,(HL)
    case 0x3b => DecSp
    case 0x3c => UnaryMath(A, true)
    case 0x3d => UnaryMath(A, false)
    case 0x3e => MovRI(A)
    case 0x3f => ClearCarry            // CCF: clears the carry, as written
  }

  /** `emulate_group3` of the gbz80, one arm per opcode.  OUT (0xd3) and
      IN (0xdb) are unimplemented, so no arm is a port access, nor is any
      HLT; which arms are unimplemented and which find their operands is
      stated by `Group3GbUnimplemented` and `Group3GbLayout`. */
  function Group3Gb(opcode: u8): (i: Instr)
    requires opcode >= 0xc0
    ensures i != Halt && !i.In? && !i.Out?
  {
    match opcode
    case 0xc0 => RetIf(PredicateFor(opcode))
    case 0xc1 => Pop(Pair(BC))
    case 0xc2 => JumpIf(PredicateFor(opcode))
    case 0xc3 => Jump
    case 0xc4 => CallIf(PredicateFor(opcode))
    case 0xc5 => Push(Pair(BC))
    case 0xc6 => AluImm(Add)
    case 0xc7 => Restart(0x00)
    case 0xc8 => RetIf(PredicateFor(opcode))
    case 0xc9 => Return
    case 0xca => JumpIf(PredicateFor(opcode))
    case 0xcb => Unimplemented         // prefix
    case 0xcc => CallIf(PredicateFor(opcode))
    case 0xcd => Call
    case 0xce => AluImm(Adc)
    case 0xcf => Restart(0x08)
    case 0xd0 => RetIf(PredicateFor(opcode))
    case 0xd1 => Pop(Pair(DE))
    case 0xd2 => JumpIf(PredicateFor(opcode))
    case 0xd3 => Unimplemented
    case 0xd4 => CallIf(PredicateFor(opcode))
    case 0xd5 => Push(Pair(DE))
    case 0xd6 => AluImm(Sub)
    case 0xd7 => Restart(0x10)
    case 0xd8 => RetIf(PredicateFor(opcode))
    case 0xd9 => Unimplemented         // RETI
    case 0xda => JumpIf(PredicateFor(opcode))
    case 0xdb => Unimplemented
    case 0xdc => CallIf(PredicateFor(opcode))
    case 0xdd => Unimplemented
    case 0xde => AluImm(Sbb)
    case 0xdf => Restart(0x18)
    case 0xe0 => Unimplemented         // LDH (n),A
    case 0xe1 => Pop(Pair(HL))
    case 0xe2 => Unimplemented         // LDH (C),A
    case 0xe3 => Unimplemented
    case 0xe4 => Unimplemented
    case 0xe5 => Push(Pair(HL))
    case 0xe6 => AluImm(Ana)
    case 0xe7 => Restart(0x20)
    case 0xe8 => Unimplemented         // ADD SP,d
    case 0xe9 => Unimplemented         // JP (HL)
    case 0xea => MovAR(A)              // LD (nn),A
    case 0xeb => Unimplemented
    case 0xec => Unimplemented
    case 0xed => Unimplemented
    case 0xee => AluImm(Xra)
    case 0xef => Restart(0x28)
    case 0xf0 => Unimplemented         // LDH A,(n)
    case 0xf1 => Pop(AF)
    case 0xf2 => Unimplemented
    case 0xf3 => Interrupts(false)
    case 0xf4 => Unimplemented
    case 0xf5 => Push(AF)
    case 0xf6 => AluImm(Ora)
    case 0xf7 => Restart(0x30)
    case 0xf8 => Unimplemented         // LDHL SP,d
    case 0xf9 => SpFromHL
    case 0xfa => MovRA(A)              // LD A,(nn)
    case 0xfb => Interrupts(true)
    case 0xfc => Unimplemented
    case 0xfd => Unimplemented
    case 0xfe => AluImm(Cmp)
    case 0xff => Restart(0x30)         // RST 38 jumps to 0x30, as written
  }

  /** The arm the gbz80's `emulate_instruction` runs for an opcode.
      Exactly the opcodes of `UnimplementedOnGb` are unimplemented, HLT
      still panics through `mov_for`, no arm reads or writes a port, and
      with the 8080 length table every arm finds its operand bytes except
      LD (nn),SP (0x08), which the table says is one byte long. */
  function DecodeGb(opcode: u8): (i: Instr)
    ensures i == Unimplemented <==> UnimplementedOnGb(opcode)
    ensures i == Halt <==> opcode == 0x76
    ensures FitsOperands(i, opcode) <==> opcode != 0x08
    ensures !i.In? && !i.Out?
  {
    LengthFromLayout(opcode);
    if opcode < 0x40 then
      assert LowSix(opcode) == opcode;
      Group0GbUnimplemented(opcode);
      Group0GbLayout(opcode);
      Group0Gb(LowSix(opcode))
    else if opcode < 0x80 then MoveFor(opcode)
    else if opcode < 0xc0 then Alu(AluOpFor(opcode), OperandFor(opcode))
    else
      Group3GbUnimplemented(opcode);
      Group3GbLayout(opcode);
      Group3Gb(opcode)
  }

  lemma Group0GbUnimplemented(opcode: u8)
    requires opcode < 0x40
    ensures Group0Gb(opcode) == Unimplemented <==> UnimplementedOnGb(opcode)
  {
  }

  lemma Group3GbUnimplemented(opcode: u8)
    requires opcode >= 0xc0
    ensures Group3Gb(opcode) == Unimplemented <==> UnimplementedOnGb(opcode)
  {
  }

  /** Against the 8080 layout, LD (nn),SP (0x08) is the one gbz80 arm that
      reads more operand bytes than its opcode's length provides. */
  lemma Group0GbLayout(opcode: u8)
    requires opcode < 0x40
    ensures 1 + OperandBytes(Group0Gb(opcode)) <= LayoutLength(opcode) <==> opcode != 0x08
  {
  }

  lemma Group3GbLayout(opcode: u8)
    requires opcode >= 0xc0
    ensures 1 + OperandBytes(Group3Gb(opcode)) <= LayoutLength(opcode)
  {
  }

  /** The gbz80's `emulate_instruction` takes no `Machine` and has no IN
      or OUT arm (0xd3 and 0xdb are unimplemented), so no port byte is
      ever read; `Run` is handed this fixed one. */
  const NO_PORT: u8 := 0

  /** One gbz80 `emulate_instruction`: the arm of the opcode at pc and the
      cycle count of the (shared) timing table.  As on the 8080, a fetch
      past the end of memory panics, a step that completes or defers
      reports the table's cycles, and a panic changes nothing but the
      recorded instruction length. */
  function StepGb(mach: Machine): (r: (Outcome, Machine))
    ensures var opcode := mach.mem[mach.pc];
            && (mach.pc + InstructionLength(opcode) > SIZE ==> r.0 == Faulted(FetchPastEnd))
            && (r.0.Executed? || r.0.Deferred? ==> r.0.cycles == Timing(opcode))
            && (r.0.Faulted? ==> r.1 == mach.(len := InstructionLength(opcode)))
  {
    var opcode := mach.mem[mach.pc];
    Run(mach, DecodeGb(opcode), TimingGb(opcode), NO_PORT)
  }

  /** The gbz80's `emulate_instruction` on a `State8080`: performs `StepGb`. */
  method EmulateGb(st: State8080) returns (outcome: Outcome)
    requires st.Valid()
    modifies st.m.cells, st.s, st.p, st.r
    ensures st.Valid()
    ensures (outcome, st.Snapshot()) == StepGb(old(st.Snapshot()))
  {
    var fetched := st.GetInstruction();
    match fetched
    case None =>
      outcome := Faulted(FetchPastEnd);
    case Some(instruction) =>
      var opcode := instruction[0];
      var status, io := Execute(st, DecodeGb(opcode), instruction, NO_PORT);
      outcome := FinishStep(st, status, io, TimingGb(opcode));
  }

  // ---------------------------------------------------------------------
  // The decoder

  /** The opcodes the gbz80 dispatcher reports as unimplemented, besides
      HLT: STOP, the relative jumps, the CB prefix, RETI, the LDH forms,
      ADD SP,d, JP (HL), LDHL SP,d and the opcodes with no instruction. */
  predicate UnimplementedOnGb(opcode: u8)
  {
    || opcode == 0x10 || opcode == 0x18 || opcode == 0x20 || opcode == 0x28 || opcode == 0x30 || opcode == 0x38
    || opcode == 0xcb || opcode == 0xd3 || opcode == 0xd9 || opcode == 0xdb || opcode == 0xdd
    || opcode == 0xe0 || opcode == 0xe2 || opcode == 0xe3 || opcode == 0xe4 || opcode == 0xe8
    || opcode == 0xe9 || opcode == 0xeb || opcode == 0xec || opcode == 0xed
    || opcode == 0xf0 || opcode == 0xf2 || opcode == 0xf4 || opcode == 0xf8 || opcode == 0xfc || opcode == 0xfd
  }

  /** The opcodes whose arm differs from the 8080's: the unimplemented
      ones, LD (nn),SP, the four LDI/LDD forms, CCF, LD (nn),A, LD A,(nn)
      and RST 38. */
  predicate ChangedFrom8080(opcode: u8)
  {
    || UnimplementedOnGb(opcode)
    || opcode == 0x08 || opcode == 0x22 || opcode == 0x2a || opcode == 0x32 || opcode == 0x3a
    || opcode == 0x3f || opcode == 0xea || opcode == 0xfa || opcode == 0xff
  }

  /** The gbz80 `emulate_instruction` splits on the top two bits, as the
      8080's does. */
  lemma DecodeGbByGroup(opcode: u8)
    ensures opcode < 0x40 ==> DecodeGb(opcode) == Group0Gb(opcode)
    ensures 0x40 <= opcode < 0x80 ==> DecodeGb(opcode) == MoveFor(opcode)
    ensures 0x80 <= opcode < 0xc0 ==> DecodeGb(opcode) == Alu(AluOpFor(opcode), OperandFor(opcode))
    ensures 0xc0 <= opcode ==> DecodeGb(opcode) == Group3Gb(opcode)
  {
    if opcode < 0x40 {
      assert LowSix(opcode) == opcode;
    }
  }

  /** The gbz80 decodes every opcode outside `ChangedFrom8080` exactly as
      the 8080 does, and every opcode inside it differently. */
  lemma AgreesWith8080(opcode: u8)
    ensures DecodeGb(opcode) == Decode(opcode) <==> !ChangedFrom8080(opcode)
  {
    DecodeGbByGroup(opcode);
    DecodeByGroup(opcode);
    if opcode < 0x40 {
      Group0Agrees(opcode);
    } else if opcode >= 0xc0 {
      Group3Agrees(opcode);
    }
  }

  lemma Group0Agrees(opcode: u8)
    requires opcode < 0x40
    ensures Group0Gb(opcode) == Group0(opcode) <==> !ChangedFrom8080(opcode)
  {
    if opcode < 0x20 {
      Group0AgreesLow(opcode);
    } else {
      Group0AgreesHigh(opcode);
    }
  }

  lemma Group0AgreesLow(opcode: u8)
    requires opcode < 0x20
    ensures Group0Gb(opcode) == Group0(opcode) <==> !ChangedFrom8080(opcode)
  {
  }

  lemma Group0AgreesHigh(opcode: u8)
    requires 0x20 <= opcode < 0x40
    ensures Group0Gb(opcode) == Group0(opcode) <==> !ChangedFrom8080(opcode)
  {
  }

  lemma Group3Agrees(opcode: u8)
    requires 0xc0 <= opcode
    ensures Group3Gb(opcode) == Group3(opcode) <==> !ChangedFrom8080(opcode)
  {
    if opcode < 0xd0 {
      if opcode < 0xc8 { Group3AgreesC0(opcode); } else { Group3AgreesC8(opcode); }
    } else if opcode < 0xe0 {
      if opcode < 0xd8 { Group3AgreesD0(opcode); } else { Group3AgreesD8(opcode); }
    } else if opcode < 0xf0 {
      if opcode < 0xe8 { Group3AgreesE0(opcode); } else { Group3AgreesE8(opcode); }
    } else {
      if opcode < 0xf8 { Group3AgreesF0(opcode); } else { Group3AgreesF8(opcode); }
    }
  }

  lemma Group3AgreesC0(opcode: u8)
    requires 0xc0 <= opcode < 0xc8
    ensures Group3Gb(opcode) == Group3(opcode) <==> !ChangedFrom8080(opcode)
  {
    FieldsInRow(opcode, 0xc0);
    assert MiddleField(0xc0) == 0;
  }

  lemma Group3AgreesC8(opcode: u8)
    requires 0xc8 <= opcode < 0xd0
    ensures Group3Gb(opcode) == Group3(opcode) <==> !ChangedFrom8080(opcode)
  {
    FieldsInRow(opcode, 0xc8);
    assert MiddleField(0xc8) == 1;
  }

  lemma Group3AgreesD0(opcode: u8)
    requires 0xd0 <= opcode < 0xd8
    ensures Group3Gb(opcode) == Group3(opcode) <==> !ChangedFrom8080(opcode)
  {
    FieldsInRow(opcode, 0xd0);
    assert MiddleField(0xd0) == 2;
  }

  lemma Group3AgreesD8(opcode: u8)
    requires 0xd8 <= opcode < 0xe0
    ensures Group3Gb(opcode) == Group3(opcode) <==> !ChangedFrom8080(opcode)
  {
    FieldsInRow(opcode, 0xd8);
    assert MiddleField(0xd8) == 3;
  }

  lemma Group3AgreesE0(opcode: u8)
    requires 0xe0 <= opcode < 0xe8
    ensures Group3Gb(opcode) == Group3(opcode) <==> !ChangedFrom8080(opcode)
  {
    FieldsInRow(opcode, 0xe0);
    assert MiddleField(0xe0) == 4;
  }

  lemma Group3AgreesE8(opcode: u8)
    requires 0xe8 <= opcode < 0xf0
    ensures Group3Gb(opcode) == Group3(opcode) <==> !ChangedFrom8080(opcode)
  {
    FieldsInRow(opcode, 0xe8);
    assert MiddleField(0xe8) == 5;
  }

  lemma Group3AgreesF0(opcode: u8)
    requires 0xf0 <= opcode < 0xf8
    ensures Group3Gb(opcode) == Group3(opcode) <==> !ChangedFrom8080(opcode)
  {
    FieldsInRow(opcode, 0xf0);
    assert MiddleField(0xf0) == 6;
  }

  lemma Group3AgreesF8(opcode: u8)
    requires 0xf8 <= opcode
    ensures Group3Gb(opcode) == Group3(opcode) <==> !ChangedFrom8080(opcode)
  {
    FieldsInRow(opcode, 0xf8);
    assert MiddleField(0xf8) == 7;
  }

  // ---------------------------------------------------------------------
  // Single steps

  /** A gbz80 step panics exactly when the fetch runs past the end of
      memory, at HLT and the unimplemented opcodes, and at LD (nn),SP,
      whose two operand bytes the 8080 length table does not fetch. */
  lemma StepGbFaults(mach: Machine)
    ensures var (out, after) := StepGb(mach);
            var opcode := mach.mem[mach.pc];
            var fits := mach.pc + InstructionLength(opcode) <= SIZE;
            && (out.Faulted? <==> !fits || opcode == 0x76 || opcode == 0x08 || UnimplementedOnGb(opcode))
            && (!fits ==> out == Faulted(FetchPastEnd))
            && (fits && opcode == 0x08 ==> out == Faulted(MissingOperand))
            && (fits && (opcode == 0x76 || UnimplementedOnGb(opcode)) ==>
                  out == Faulted(UnimplementedInstruction(opcode, mach.pc)))
            && (out.Executed? ==> out.cycles == TimingGb(opcode))
            && (out.Deferred? ==> out.cycles == TimingGb(opcode))
            && (out.Executed? && !IsBranch(DecodeGb(opcode)) ==>
                  after.pc == Add16(mach.pc, InstructionLength(opcode)) && after.len == 0)
  {
    var (fetched, m1) := mach.GetInstruction();
    if fetched.Some? {
      var instruction := fetched.value;
      var opcode := instruction[0];
      ApplyStatus(m1, DecodeGb(opcode), instruction, NO_PORT);
    }
  }

  /** Every opcode the gbz80 decodes as the 8080 does steps as on the
      8080, so the 8080's single-step lemmas carry over. */
  lemma StepGbAgrees(mach: Machine, input: u8)
    requires !ChangedFrom8080(mach.mem[mach.pc])
    ensures StepGb(mach) == Step(mach, input)
  {
    var opcode := mach.mem[mach.pc];
    AgreesWith8080(opcode);
    RunIgnoresInput(mach, Decode(opcode), Timing(opcode), NO_PORT, input);
  }

  /** LDI (HL),A (0x22) and LDD (HL),A (0x32) store A at HL and step HL up
      or down.  With the 8080 length table pc moves on by three and the
      cycle counts are those of SHLD and STA. */
  lemma StepGbStoreStep(mach: Machine)
    requires mach.mem[mach.pc] == 0x22 || mach.mem[mach.pc] == 0x32
    requires mach.pc + 3 <= SIZE
    ensures var (out, after) := StepGb(mach);
            var up, hl := mach.mem[mach.pc] == 0x22, mach.regs.Get16(HL);
            && out == Executed(if up then 16 else 13, NoIo)
            && after.mem == mach.mem[hl := mach.regs.Get8(A)]
            && after.regs.Get16(HL) == (if up then Inc16(hl) else Dec16(hl))
            && (forall n | n != H && n != L :: after.regs.Get8(n) == mach.regs.Get8(n))
            && after.regs.cc == mach.regs.cc
            && after.sp == mach.sp && after.pc == Add16(mach.pc, 3) && after.len == 0
  {
    var up := mach.mem[mach.pc] == 0x22;
    var cycles := if up then 16 else 13;
    LdiLddLayout();
    StoreStepDecode(mach.mem[mach.pc]);
    StepGbRuns(mach, StoreStep(up), cycles);
    var (fetched, m1) := mach.GetInstruction();
    ApplyStoreStep(m1, up, fetched.value, NO_PORT);
    RunContinues(mach, StoreStep(up), cycles, NO_PORT);
  }

  /** LDI A,(HL) (0x2a) and LDD A,(HL) (0x3a) load A from HL and step HL
      up or down; pc moves on by three, in the cycles of LHLD and LDA. */
  lemma StepGbLoadStep(mach: Machine)
    requires mach.mem[mach.pc] == 0x2a || mach.mem[mach.pc] == 0x3a
    requires mach.pc + 3 <= SIZE
    ensures var (out, after) := StepGb(mach);
            var up, hl := mach.mem[mach.pc] == 0x2a, mach.regs.Get16(HL);
            && out == Executed(if up then 16 else 13, NoIo)
            && after.mem == mach.mem
            && after.regs.Get8(A) == mach.mem[hl]
            && after.regs.Get16(HL) == (if up then Inc16(hl) else Dec16(hl))
            && (forall n | n != A && n != H && n != L :: after.regs.Get8(n) == mach.regs.Get8(n))
            && after.regs.cc == mach.regs.cc
            && after.sp == mach.sp && after.pc == Add16(mach.pc, 3) && after.len == 0
  {
    var up := mach.mem[mach.pc] == 0x2a;
    var cycles := if up then 16 else 13;
    LdiLddLayout();
    LoadStepDecode(mach.mem[mach.pc]);
    StepGbRuns(mach, LoadStep(up), cycles);
    var (fetched, m1) := mach.GetInstruction();
    ApplyLoadStep(m1, up, fetched.value, NO_PORT);
    RunContinues(mach, LoadStep(up), cycles, NO_PORT);
  }

  /** The 8080 tables give the four LDI/LDD opcodes three bytes, and the
      cycles of SHLD, LHLD, STA and LDA. */
  lemma LdiLddLayout()
    ensures InstructionLength(0x22) == 3 && InstructionLength(0x2a) == 3
    ensures InstructionLength(0x32) == 3 && InstructionLength(0x3a) == 3
    ensures TimingGb(0x22) == 16 && TimingGb(0x2a) == 16 && TimingGb(0x32) == 13 && TimingGb(0x3a) == 13
  {
  }

  lemma StoreStepDecode(opcode: u8)
    requires opcode == 0x22 || opcode == 0x32
    ensures DecodeGb(opcode) == StoreStep(opcode == 0x22)
  {
    DecodeGbByGroup(opcode);
  }

  lemma LoadStepDecode(opcode: u8)
    requires opcode == 0x2a || opcode == 0x3a
    ensures DecodeGb(opcode) == LoadStep(opcode == 0x2a)
  {
    DecodeGbByGroup(opcode);
  }

  /** A gbz80 step runs the arm and cycle count the opcode at pc decodes
      to. */
  lemma StepGbRuns(mach: Machine, instr: Instr, cycles: nat)
    requires DecodeGb(mach.mem[mach.pc]) == instr && TimingGb(mach.mem[mach.pc]) == cycles
    ensures StepGb(mach) == Run(mach, instr, cycles, NO_PORT)
  {
  }

  /** CCF (0x3f), as written, clears the carry instead of complementing
      it, in four cycles. */
  lemma StepGbCcf(mach: Machine)
    requires mach.mem[mach.pc] == 0x3f
    ensures StepGb(mach)
         == (Executed(4, NoIo),
             mach.(regs := mach.regs.(cc := mach.regs.cc.(cy := false)), pc := Add16(mach.pc, 1), len := 0))
  {
    DecodeGbByGroup(0x3f);
    assert Group0Gb(0x3f) == ClearCarry;
    var (fetched, m1) := mach.GetInstruction();
    ApplyClearCarry(m1, fetched.value, NO_PORT);
  }

  /** RST 38 (0xff), as written, pushes the address of the next
      instruction and jumps to 0x30, as RST 30 does. */
  lemma StepGbRst38(mach: Machine)
    requires mach.mem[mach.pc] == 0xff
    ensures var (out, after) := StepGb(mach);
            && out == Executed(11, NoIo)
            && after.pc == 0x30
            && after.sp == Add16(mach.sp, -2)
            && WordAt(after.mem, after.sp) == Add16(mach.pc, 1)
            && after.regs == mach.regs
  {
    DecodeGbByGroup(0xff);
    assert Group3Gb(0xff) == Restart(0x30);
    var (fetched, m1) := mach.GetInstruction();
    ApplyRestart(m1, 0x30, fetched.value, NO_PORT);
  }
}
