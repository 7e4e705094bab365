/** The field decoding both dispatchers share (`get_operand`, `mov_for`
    and `operate8` are written out identically in
    virtual-cpu-8080/src/cpu.rs and virtual-cpu-gbz80/src/cpu.rs), and how
    `emulate_instruction` finishes a step once an arm has run. */
module Emulation {
  import opened Bytes
  import opened Memory
  import opened Program
  import opened Registers
  import opened Instructions
  import opened State
  import opened Dispatch

  /** `get_operand`: the source field (bits 0 to 2) names a register, or
      the byte at HL when it is 6. */
  function OperandFor(opcode: u8): (o: Operand)
    ensures o.AtHL? <==> opcode % 8 == 6
    ensures o.Reg? ==> CodeFor(o.name) == opcode % 8
  {
    var code := LowField(opcode);
    if code == 6 then AtHL else Reg(RegisterForCode(code))
  }

  /** `mov_for`: MOV from the source field to the destination field
      (bits 3 to 5).  Code 6 on either side is the byte at HL; on both
      sides it is HLT, which is reported as unimplemented. */
  function MoveFor(opcode: u8): (i: Instr)
    ensures var src, dst := opcode % 8, (opcode / 8) % 8;
      && (i.Halt? <==> src == 6 && dst == 6)
      && (src == 6 && dst != 6 ==> i.MovRP? && CodeFor(i.dest) == dst && i.ptr == HL)
      && (src != 6 && dst == 6 ==> i.MovPR? && i.ptr == HL && CodeFor(i.src) == src)
      && (src != 6 && dst != 6 ==> i.MovRR? && CodeFor(i.dest) == dst && CodeFor(i.src) == src)
  {
    var input, output := LowField(opcode), MiddleField(opcode);
    if input == 6 && output == 6 then Halt
    else if input == 6 then MovRP(RegisterForCode(output), HL)
    else if output == 6 then MovPR(HL, RegisterForCode(input))
    else MovRR(RegisterForCode(output), RegisterForCode(input))
  }

  /** `operate8`: the operation named by bits 3 to 5. */
  function AluOpFor(opcode: u8): (op: AluOp)
    ensures op.Code() == (opcode / 8) % 8
  {
    match MiddleField(opcode)
    case 0 => Add
    case 1 => Adc
    case 2 => Sub
    case 3 => Sbb
    case 4 => Ana
    case 5 => Xra
    case 6 => Ora
    case 7 => Cmp
  }

  /** What one call of `emulate_instruction` reports.  `Executed` carries
      the cycle count it returns.  `Deferred` stops at a call into a
      `State8080` primitive that is not part of this model; in the source
      that call runs next, then `advance`, then the cycle count is
      returned.  `Faulted` is a panic. */
  datatype Outcome =
    | Executed(cycles: nat, io: Io)
    | Deferred(call: Primitive, cycles: nat)
    | Faulted(fault: Fault)

  /** The end of `emulate_instruction`: only after an arm that completed
      does the program counter step over the instruction, and the table's
      cycle count is returned with the arm's port traffic; an arm that
      defers or panics leaves the machine as it left it. */
  function Finish(e: Effect, cycles: nat): (r: (Outcome, Machine))
    ensures r.0.Executed? <==> e.status.Continue?
    ensures r.0.Faulted? <==> e.status.Panic?
    ensures r.0.Executed? ==> r.0.cycles == cycles && r.0.io == e.io
    ensures r.0.Executed? ==> r.1 == e.after.(pc := Add16(e.after.pc, e.after.len), len := 0)
    ensures r.0.Deferred? ==> r.0.cycles == cycles
    ensures !r.0.Executed? ==> r.1 == e.after
  {
    match e.status
    case Continue => (Executed(cycles, e.io), e.after.Advance())
    case Defer(call) => (Deferred(call, cycles), e.after)
    case Panic(fault) => (Faulted(fault), e.after)
  }

  /** One `emulate_instruction` once the arm for the opcode at pc and its
      cycle count are known: fetch, run the arm on the fetched bytes, then
      `Finish`.  A fetch that runs past the end of memory panics. */
  function Run(mach: Machine, instr: Instr, cycles: nat, input: u8): (r: (Outcome, Machine))
    ensures mach.pc + InstructionLength(mach.mem[mach.pc]) > SIZE ==> r.0 == Faulted(FetchPastEnd)
    ensures r.0.Executed? || r.0.Deferred? ==> r.0.cycles == cycles
    ensures r.0.Executed? ==> r.1.len == 0
    ensures r.0.Faulted? ==> r.1 == mach.(len := InstructionLength(mach.mem[mach.pc]))
  {
    var (fetched, m1) := mach.GetInstruction();
    match fetched
    case None => (Faulted(FetchPastEnd), m1)
    case Some(instruction) => Finish(Apply(m1, instr, instruction, input), cycles)
  }

  /** When the fetch fits and the arm continues, `Run` reports the given
      cycles and moves pc past the instruction. */
  lemma RunContinues(mach: Machine, instr: Instr, cycles: nat, input: u8)
    requires mach.pc + InstructionLength(mach.mem[mach.pc]) <= SIZE
    ensures var (fetched, m1) := mach.GetInstruction();
            var e := Apply(m1, instr, fetched.value, input);
            e.status == Continue ==> Run(mach, instr, cycles, input) == (Executed(cycles, e.io), e.after.Advance())
  {
  }

  /** Only an IN arm reads the port byte. */
  lemma RunIgnoresInput(mach: Machine, instr: Instr, cycles: nat, input: u8, other: u8)
    requires !instr.In?
    ensures Run(mach, instr, cycles, input) == Run(mach, instr, cycles, other)
  {
  }

  /** Performs `Finish` on st once the arm has run with the given status. */
  method FinishStep(st: State8080, status: Status, io: Io, cycles: nat) returns (outcome: Outcome)
    requires st.Valid()
    modifies st.p
    ensures (outcome, st.Snapshot()) == Finish(Effect(status, old(st.Snapshot()), io), cycles)
  {
    match status
    case Continue =>
      st.p.Advance();
      outcome := Executed(cycles, io);
    case Defer(call) =>
      outcome := Deferred(call, cycles);
    case Panic(fault) =>
      outcome := Faulted(fault);
  }
}
