/** The Intel 8080 dispatcher (virtual-cpu-8080/src/cpu.rs): a pure
    decoder from opcode to match arm, the effect of one
    `emulate_instruction` on the machine value, and the method that
    performs it on a `State8080`. */
module Cpu8080 {
  import opened Wrappers
  import opened Bytes
  import opened Memory
  import opened Registers
  import opened Instructions
  import opened Program
  import opened State
  import opened Dispatch
  import opened Emulation

  /** `OPCODE_TIMING`, one row of sixteen opcodes per line. */
  const OPCODE_TIMING: seq<seq<nat>> := [
    [4, 10, 7, 5, 5, 5, 7, 4, 4, 10, 7, 5, 5, 5, 7, 4],
    [4, 10, 7, 5, 5, 5, 7, 4, 4, 10, 7, 5, 5, 5, 7, 4],
    [4, 10, 16, 5, 5, 5, 7, 4, 4, 10, 16, 5, 5, 5, 7, 4],
    [4, 10, 13, 5, 10, 10, 10, 4, 4, 10, 13, 5, 5, 5, 7, 4],
    [5, 5, 5, 5, 5, 5, 7, 5, 5, 5, 5, 5, 5, 5, 7, 5],
    [5, 5, 5, 5, 5, 5, 7, 5, 5, 5, 5, 5, 5, 5, 7, 5],
    [5, 5, 5, 5, 5, 5, 7, 5, 5, 5, 5, 5, 5, 5, 7, 5],
    [7, 7, 7, 7, 7, 7, 7, 7, 5, 5, 5, 5, 5, 5, 7, 5],
    [4, 4, 4, 4, 4, 4, 7, 4, 4, 4, 4, 4, 4, 4, 7, 4],
    [4, 4, 4, 4, 4, 4, 7, 4, 4, 4, 4, 4, 4, 4, 7, 4],
    [4, 4, 4, 4, 4, 4, 7, 4, 4, 4, 4, 4, 4, 4, 7, 4],
    [4, 4, 4, 4, 4, 4, 7, 4, 4, 4, 4, 4, 4, 4, 7, 4],
    [11, 10, 10, 10, 17, 11, 7, 11, 11, 10, 10, 10, 10, 17, 7, 11],
    [11, 10, 10, 10, 17, 11, 7, 11, 11, 10, 10, 10, 10, 17, 7, 11],
    [11, 10, 10, 18, 17, 11, 7, 11, 11, 5, 10, 5, 17, 17, 7, 11],
    [11, 10, 10, 4, 17, 11, 7, 11, 11, 5, 10, 4, 17, 17, 7, 11]
  ]

  /** The cycle count of an opcode: between 4 (the fastest register
      operations) and 18 (XTHL). */
  function Timing(opcode: u8): (n: nat)
    ensures 4 <= n <= 18
  {
    OPCODE_TIMING[opcode / 16][opcode % 16]
  }

  /** `emulate_group0`, by the low six bits of the opcode.  Every arm is
      implemented; `Group0Layout` states that each finds its operand
      bytes. */
  function Group0(low: u8): (i: Instr)
    requires low < 0x40
    ensures !i.Unimplemented? && !i.Halt?
  {
    match low
    case 0x00 => Nop
    case 0x01 => MovRI16(BC)
    case 0x02 => MovPR(BC, B)          // STAX B: stores B, as written
    case 0x03 => IncPair(BC)
    case 0x04 => UnaryMath(B, true)
    case 0x05 => UnaryMath(B, false)
    case 0x06 => MovRI(B)
    case 0x07 => Rlc
    case 0x08 => Nop
    case 0x09 => AddPair(BC)
    case 0x0a => MovRP(A, BC)
    case 0x0b => DecPair(BC)
    case 0x0c => UnaryMath(C, true)
    case 0x0d => UnaryMath(C, false)
    case 0x0e => MovRI(C)
    case 0x0f => Rrc
    case 0x10 => Nop
    case 0x11 => MovRI16(DE)
    case 0x12 => MovPR(DE, A)
    case 0x13 => IncPair(DE)
    case 0x14 => UnaryMath(D, true)
    case 0x15 => UnaryMath(D, false)
    case 0x16 => MovRI(D)
    case 0x17 => Ral
    case 0x18 => Nop
    case 0x19 => AddPair(DE)
    case 0x1a => MovRP(A, DE)
    case 0x1b => DecPair(DE)
    case 0x1c => UnaryMath(E, true)
    case 0x1d => UnaryMath(E, false)
    case 0x1e => MovRI(E)
    case 0x1f => Rar
    case 0x20 => Nop
    case 0x21 => MovRI16(HL)
    case 0x22 => MovAR16(HL)           // SHLD
    case 0x23 => IncPair(HL)
    case 0x24 => UnaryMath(H, true)
    case 0x25 => UnaryMath(H, false)
    case 0x26 => MovRI(H)
    case 0x27 => Daa
    case 0x28 => Nop
    case 0x29 => AddPair(HL)
    case 0x2a => MovRA16(HL)           // LHLD
    case 0x2b => DecPair(HL)
    case 0x2c => UnaryMath(L, true)
    case 0x2d => UnaryMath(L, false)
    case 0x2e => MovRI(L)
    case 0x2f => Cma
    case 0x30 => Nop
    case 0x31 => LoadSp
    case 0x32 => MovAR(A)              // STA
    case 0x33 => IncSp
    case 0x34 => IncM
    case 0x35 => DecM
    case 0x36 => MovPI
    case 0x37 => SetCarry
    case 0x38 => Nop
    case 0x39 => AddSp
    case 0x3a => MovRA(A)              // LDA
    case 0x3b => DecSp
    case 0x3c => UnaryMath(A, true)
    case 0x3d => UnaryMath(A, false)
    case 0x3e => MovRI(A)
    case 0x3f => ComplementCarry
  }

  /** `emulate_group3`, by the low three bits and then bits 3 to 5.  Every
      arm is implemented; `Group3Layout` states that each finds its operand
      bytes. */
  function Group3(opcode: u8): (i: Instr)
    ensures !i.Unimplemented? && !i.Halt?
  {
    match LowField(opcode)
    case 0 => RetIf(PredicateFor(opcode))
    case 1 =>
      (match MiddleField(opcode)
       case 0 => Pop(Pair(BC))
       case 1 => Return
       case 2 => Pop(Pair(DE))
       case 3 => Return
       case 4 => Pop(Pair(HL))
       case 5 => JumpHL
       case 6 => Pop(AF)
       case 7 => SpFromHL)
    case 2 => JumpIf(PredicateFor(opcode))
    case 3 =>
      (match MiddleField(opcode)
       case 0 => Jump
       case 1 => Jump
       case 2 => Out
       case 3 => In
       case 4 => Xthl
       case 5 => Xchg
       case 6 => Interrupts(false)
       case 7 => Interrupts(true))
    case 4 => CallIf(PredicateFor(opcode))
    case 5 =>
      (match MiddleField(opcode)
       case 0 => Push(Pair(BC))
       case 1 => Call
       case 2 => Push(Pair(DE))
       case 3 => Call
       case 4 => Push(Pair(HL))
       case 5 => Call
       case 6 => Push(AF)
       case 7 => Call)
    case 6 => AluImm(AluOpFor(opcode))
    case 7 => Restart(RestartBits(opcode))
  }

  /** The arm `emulate_instruction` runs for an opcode.  Every opcode has
      an arm, only HLT (0x76) panics as unimplemented, and every arm finds
      the operand bytes it reads in the instruction `get_instruction`
      fetched. */
  function Decode(opcode: u8): (i: Instr)
    ensures i != Unimplemented
    ensures i == Halt <==> opcode == 0x76
    ensures FitsOperands(i, opcode)
  {
    LengthFromLayout(opcode);
    if opcode < 0x40 then
      assert LowSix(opcode) == opcode;
      Group0Layout(opcode);
      Group0(LowSix(opcode))
    else if opcode < 0x80 then MoveFor(opcode)
    else if opcode < 0xc0 then Alu(AluOpFor(opcode), OperandFor(opcode))
    else
      Group3Layout(opcode);
      Group3(opcode)
  }

  /** No arm of group 0 reads more operand bytes than the opcode's layout
      provides ... */
  lemma Group0Layout(opcode: u8)
    requires opcode < 0x40
    ensures 1 + OperandBytes(Group0(opcode)) <= LayoutLength(opcode)
  {
  }

  /** ... nor does any arm of group 3. */
  lemma Group3Layout(opcode: u8)
    requires opcode >= 0xc0
    ensures 1 + OperandBytes(Group3(opcode)) <= LayoutLength(opcode)
  {
  }

  /** One `emulate_instruction`: the arm and the cycle count are those of
      the opcode at pc, the first byte `get_instruction` fetches.  A fetch
      past the end of memory panics, a step that completes or defers
      reports the table's cycles, and a panic changes nothing but the
      recorded instruction length. */
  function Step(mach: Machine, input: u8): (r: (Outcome, Machine))
    ensures var opcode := mach.mem[mach.pc];
            && (mach.pc + InstructionLength(opcode) > SIZE ==> r.0 == Faulted(FetchPastEnd))
            && (r.0.Executed? || r.0.Deferred? ==> r.0.cycles == Timing(opcode))
            && (r.0.Faulted? ==> r.1 == mach.(len := InstructionLength(opcode)))
  {
    var opcode := mach.mem[mach.pc];
    Run(mach, Decode(opcode), Timing(opcode), input)
  }

  /** `emulate_instruction` on a `State8080`: performs `Step`. */
  method Emulate(st: State8080, input: u8) returns (outcome: Outcome)
    requires st.Valid()
    modifies st.m.cells, st.s, st.p, st.r
    ensures st.Valid()
    ensures (outcome, st.Snapshot()) == Step(old(st.Snapshot()), input)
  {
    var fetched := st.GetInstruction();
    match fetched
    case None =>
      outcome := Faulted(FetchPastEnd);
    case Some(instruction) =>
      var opcode := instruction[0];
      var status, io := Execute(st, Decode(opcode), instruction, input);
      outcome := FinishStep(st, status, io, Timing(opcode));
  }

  /** `emulate_instruction` splits on the top two bits of the opcode. */
  lemma DecodeByGroup(opcode: u8)
    ensures opcode < 0x40 ==> Decode(opcode) == Group0(opcode)
    ensures 0x40 <= opcode < 0x80 ==> Decode(opcode) == MoveFor(opcode)
    ensures 0x80 <= opcode < 0xc0 ==> Decode(opcode) == Alu(AluOpFor(opcode), OperandFor(opcode))
    ensures 0xc0 <= opcode ==> Decode(opcode) == Group3(opcode)
  {
    if opcode < 0x40 {
      assert LowSix(opcode) == opcode;
    }
  }

  /** The arm i reads its operand bytes within the length the table gives
      opcode. */
  predicate FitsOperands(i: Instr, opcode: u8)
  {
    1 + OperandBytes(i) <= InstructionLength(opcode)
  }

  /** The regular columns of `emulate_group0` follow the opcode's fields:
      bits 3 to 5 name the register of INR and DCR (low bits 4 and 5) ... */
  lemma UnaryColumns(opcode: u8)
    requires opcode < 0x40 && (opcode % 8 == 4 || opcode % 8 == 5) && (opcode / 8) % 8 != 6
    ensures Group0(opcode).UnaryMath? && CodeFor(Group0(opcode).reg) == (opcode / 8) % 8
    ensures Group0(opcode).up <==> opcode % 8 == 4
  {
  }

  /** ... and of MVI (low bits 6), whose operand is the byte after the
      opcode; low bits 0 are NOPs. */
  lemma ImmediateColumn(opcode: u8)
    requires opcode < 0x40 && opcode % 8 == 6 && (opcode / 8) % 8 != 6
    ensures Group0(opcode).MovRI? && CodeFor(Group0(opcode).dest) == (opcode / 8) % 8
  {
  }

  lemma NopColumn(opcode: u8)
    requires opcode < 0x40 && opcode % 8 == 0
    ensures Group0(opcode) == Nop
  {
  }

  /** The pair that bits 4 and 5 of an opcode select in group 0. */
  function PairFor(opcode: u8): Name16
    requires opcode < 0x30
  {
    if opcode < 0x10 then BC else if opcode < 0x20 then DE else HL
  }

  /** Bits 4 and 5 name the pair of LXI, INX, DAD and DCX (low nibble 1, 3,
      9 and 0xb) for BC, DE and HL. */
  lemma PairColumns(opcode: u8)
    requires opcode < 0x30
    ensures opcode % 16 == 1 ==> Group0(opcode) == MovRI16(PairFor(opcode))
    ensures opcode % 16 == 3 ==> Group0(opcode) == IncPair(PairFor(opcode))
    ensures opcode % 16 == 9 ==> Group0(opcode) == AddPair(PairFor(opcode))
    ensures opcode % 16 == 0xb ==> Group0(opcode) == DecPair(PairFor(opcode))
  {
  }

  /** The conditional arms, the immediate operations and RST of
      `emulate_group3` decode by fields: bits 3 to 5 select the condition,
      the operation or the restart vector. */
  lemma Group3Fields(opcode: u8)
    requires opcode >= 0xc0
    ensures var lo, mid, i := opcode % 8, (opcode / 8) % 8, Group3(opcode);
      && (lo == 0 ==> i.RetIf? && i.cond.Code() == mid)
      && (lo == 2 ==> i.JumpIf? && i.cond.Code() == mid)
      && (lo == 4 ==> i.CallIf? && i.cond.Code() == mid)
      && (lo == 6 ==> i.AluImm? && i.op.Code() == mid)
      && (lo == 7 ==> i == Restart(8 * mid))
  {
  }

  /** Undocumented opcodes of group 3 alias documented ones: 0xcb is JMP,
      0xd9 is RET, and 0xdd, 0xed and 0xfd are CALL. */
  lemma Group3Aliases()
    ensures Group3(0xcb) == Group3(0xc3) == Jump
    ensures Group3(0xd9) == Group3(0xc9) == Return
    ensures Group3(0xdd) == Group3(0xed) == Group3(0xfd) == Group3(0xcd) == Call
  {
    JumpAlias();
    ReturnAlias();
    CallAliases();
  }

  lemma JumpAlias()
    ensures Group3(0xcb) == Group3(0xc3) == Jump
  {
    assert LowField(0xcb) == LowField(0xc3) == 3 && MiddleField(0xcb) == 1 && MiddleField(0xc3) == 0;
  }

  lemma ReturnAlias()
    ensures Group3(0xd9) == Group3(0xc9) == Return
  {
    assert LowField(0xd9) == LowField(0xc9) == 1 && MiddleField(0xd9) == 3 && MiddleField(0xc9) == 1;
  }

  lemma CallAliases()
    ensures Group3(0xdd) == Group3(0xed) == Group3(0xfd) == Group3(0xcd) == Call
  {
    assert LowField(0xdd) == LowField(0xed) == LowField(0xfd) == LowField(0xcd) == 5;
    assert MiddleField(0xdd) == 3 && MiddleField(0xed) == 5 && MiddleField(0xfd) == 7 && MiddleField(0xcd) == 1;
  }

  // ---------------------------------------------------------------------
  // One step

  /** A step faults only on HLT or when the instruction would run past the
      end of memory; otherwise it reports the table's cycle count, and an
      instruction that is not a branch leaves pc on the next instruction. */
  lemma StepFaults(mach: Machine, input: u8)
    ensures var (out, after) := Step(mach, input);
            var opcode := mach.mem[mach.pc];
            var fits := mach.pc + InstructionLength(opcode) <= SIZE;
            && (out.Faulted? <==> !fits || opcode == 0x76)
            && (!fits ==> out == Faulted(FetchPastEnd))
            && (fits && opcode == 0x76 ==> out == Faulted(UnimplementedInstruction(0x76, mach.pc)))
            && (out.Executed? ==> out.cycles == Timing(opcode))
            && (out.Deferred? ==> out.cycles == Timing(opcode))
            && (out.Executed? && !IsBranch(Decode(opcode)) ==>
                  after.pc == Add16(mach.pc, InstructionLength(opcode)) && after.len == 0)
  {
    var (fetched, m1) := mach.GetInstruction();
    if fetched.Some? {
      var instruction := fetched.value;
      var opcode := instruction[0];
      ApplyStatus(m1, Decode(opcode), instruction, input);
    }
  }

  /** NOP takes four cycles and only moves pc to the next byte. */
  lemma StepNop(mach: Machine, input: u8)
    requires mach.mem[mach.pc] == 0x00
    ensures Step(mach, input) == (Executed(4, NoIo), mach.(pc := Add16(mach.pc, 1), len := 0))
  {
    DecodeByGroup(0x00);
    NopColumn(0x00);
  }

  /** STAX B (0x02), as written, stores register B (not A) at the address
      in BC. */
  lemma StepStaxB(mach: Machine, input: u8)
    requires mach.mem[mach.pc] == 0x02
    ensures var bc, b := mach.regs.Get16(BC), mach.regs.Get8(B);
            Step(mach, input) == (Executed(7, NoIo),
                                  mach.(mem := mach.mem[bc := b], pc := Add16(mach.pc, 1), len := 0))
  {
    DecodeByGroup(0x02);
    assert Group0(0x02) == MovPR(BC, B);
    var (fetched, m1) := mach.GetInstruction();
    ApplyStore(m1, BC, B, fetched.value, input);
  }

  /** RST n pushes the address of the next instruction and jumps to 8 * n,
      in eleven cycles. */
  lemma StepRestart(mach: Machine, input: u8)
    requires mach.mem[mach.pc] >= 0xc0 && mach.mem[mach.pc] % 8 == 7
    ensures var (out, after) := Step(mach, input);
            && out == Executed(11, NoIo)
            && after.pc == 8 * ((mach.mem[mach.pc] / 8) % 8)
            && after.sp == Add16(mach.sp, -2)
            && WordAt(after.mem, after.sp) == Add16(mach.pc, 1)
            && after.regs == mach.regs
  {
    var opcode := mach.mem[mach.pc];
    RestartTiming(opcode);
    DecodeByGroup(opcode);
    Group3Fields(opcode);
    var (fetched, m1) := mach.GetInstruction();
    ApplyRestart(m1, 8 * ((opcode / 8) % 8), fetched.value, input);
  }

  lemma RestartTiming(opcode: u8)
    requires opcode >= 0xc0 && opcode % 8 == 7
    ensures Timing(opcode) == 11 && InstructionLength(opcode) == 1
  {
  }

  /** CALL (0xcd) pushes the address after its three bytes and jumps to
      its operand, in seventeen cycles. */
  lemma StepCall(mach: Machine, input: u8)
    requires mach.mem[mach.pc] == 0xcd && mach.pc + 3 <= SIZE
    ensures var (out, after) := Step(mach, input);
            && out == Executed(17, NoIo)
            && after.pc == AssembleWord(mach.mem[mach.pc + 2], mach.mem[mach.pc + 1])
            && after.len == 0 && after.regs == mach.regs
            && after.sp == Add16(mach.sp, -2)
            && after.mem == WithWord(mach.mem, after.sp, Add16(mach.pc, 3))
  {
    DecodeByGroup(0xcd);
    assert Group3(0xcd) == Call;
    var (fetched, m1) := mach.GetInstruction();
    ApplyCall(m1, fetched.value, input);
    assert WordArgFrom(fetched.value) == AssembleWord(mach.mem[mach.pc + 2], mach.mem[mach.pc + 1]);
  }

  /** RET (0xc9) pops the return address into pc, in ten cycles. */
  lemma StepReturn(mach: Machine, input: u8)
    requires mach.mem[mach.pc] == 0xc9
    ensures Step(mach, input)
         == (Executed(10, NoIo), mach.(pc := WordAt(mach.mem, mach.sp), sp := Add16(mach.sp, 2), len := 0))
  {
    DecodeByGroup(0xc9);
    assert Group3(0xc9) == Return;
    var (fetched, m1) := mach.GetInstruction();
    ApplyReturn(m1, fetched.value, input);
  }

  /** CALL followed by a RET at its target comes back to the instruction
      after the CALL with the stack pointer restored, provided the pushed
      return address does not overwrite the RET. */
  lemma CallThenReturn(mach: Machine, input: u8)
    requires mach.mem[mach.pc] == 0xcd && mach.pc + 3 <= SIZE
    requires var target := AssembleWord(mach.mem[mach.pc + 2], mach.mem[mach.pc + 1]);
             mach.mem[target] == 0xc9 && target != Add16(mach.sp, -2) && target != Add16(mach.sp, -1)
    ensures var (out1, mid) := Step(mach, input);
            var (out2, after) := Step(mid, input);
            && out1 == Executed(17, NoIo) && out2 == Executed(10, NoIo)
            && after.pc == Add16(mach.pc, 3) && after.sp == mach.sp && after.regs == mach.regs
  {
    StepCall(mach, input);
    var (out1, mid) := Step(mach, input);
    ReturnToCaller(mach, mid, input);
  }

  lemma ReturnToCaller(mach: Machine, mid: Machine, input: u8)
    requires mach.pc + 3 <= SIZE
    requires var target := AssembleWord(mach.mem[mach.pc + 2], mach.mem[mach.pc + 1]);
             mach.mem[target] == 0xc9 && target != Add16(mach.sp, -2) && target != Add16(mach.sp, -1) &&
             mid.pc == target && mid.regs == mach.regs && mid.sp == Add16(mach.sp, -2) &&
             mid.mem == WithWord(mach.mem, mid.sp, Add16(mach.pc, 3))
    ensures var (out2, after) := Step(mid, input);
            out2 == Executed(10, NoIo) &&
            after.pc == Add16(mach.pc, 3) && after.sp == mach.sp && after.regs == mach.regs
  {
    Add16Twice(mach.sp, -2, 1);
    assert mid.mem[mid.pc] == mach.mem[mid.pc];
    StepReturn(mid, input);
    WordRoundTrip(mach.mem, mid.sp, Add16(mach.pc, 3));
    Add16Undo(mach.sp, 2);
  }
}
