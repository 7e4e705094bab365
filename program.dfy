/** The program counter of the 8080 (virtual-cpu-8080/src/program.rs): the
    instruction-length table, instruction fetch, and the jump, call and
    return primitives. */
module Program {
  import opened Wrappers
  import opened Bytes
  import opened Memory
  import opened Stack

  /** `INSTRUCTION_LENGTH`, one row of sixteen opcodes per line. */
  const INSTRUCTION_LENGTH: seq<seq<u16>> := [
    [1, 3, 1, 1, 1, 1, 2, 1, 1, 1, 1, 1, 1, 1, 2, 1],
    [1, 3, 1, 1, 1, 1, 2, 1, 1, 1, 1, 1, 1, 1, 2, 1],
    [1, 3, 3, 1, 1, 1, 2, 1, 1, 1, 3, 1, 1, 1, 2, 1],
    [1, 3, 3, 1, 1, 1, 2, 1, 1, 1, 3, 1, 1, 1, 2, 1],
    [1, 1, 1, 1, 1, 1, 1, 1, 1, 1, 1, 1, 1, 1, 1, 1],
    [1, 1, 1, 1, 1, 1, 1, 1, 1, 1, 1, 1, 1, 1, 1, 1],
    [1, 1, 1, 1, 1, 1, 1, 1, 1, 1, 1, 1, 1, 1, 1, 1],
    [1, 1, 1, 1, 1, 1, 1, 1, 1, 1, 1, 1, 1, 1, 1, 1],
    [1, 1, 1, 1, 1, 1, 1, 1, 1, 1, 1, 1, 1, 1, 1, 1],
    [1, 1, 1, 1, 1, 1, 1, 1, 1, 1, 1, 1, 1, 1, 1, 1],
    [1, 1, 1, 1, 1, 1, 1, 1, 1, 1, 1, 1, 1, 1, 1, 1],
    [1, 1, 1, 1, 1, 1, 1, 1, 1, 1, 1, 1, 1, 1, 1, 1],
    [1, 1, 3, 3, 3, 1, 2, 1, 1, 1, 3, 3, 3, 3, 2, 1],
    [1, 1, 3, 2, 3, 1, 2, 1, 1, 1, 3, 2, 3, 3, 2, 1],
    [1, 1, 3, 1, 3, 1, 2, 1, 1, 1, 3, 1, 3, 3, 2, 1],
    [1, 1, 3, 1, 3, 1, 2, 1, 1, 1, 3, 1, 3, 3, 2, 1]
  ]

  /** The length in bytes of the instruction an opcode starts. */
  function InstructionLength(opcode: u8): (n: u16)
    ensures 1 <= n <= 3
  {
    INSTRUCTION_LENGTH[opcode / 16][opcode % 16]
  }

  /** The length an opcode's operand layout calls for: LXI (low nibble 1),
      SHLD, LHLD, STA and LDA, the conditional jumps and calls, JMP, CALL and
      their aliases carry a 16-bit operand; MVI, the immediate arithmetic,
      OUT and IN carry one byte; everything else is the opcode alone. */
  function LayoutLength(opcode: u8): u16
  {
    if opcode < 0x40 then
      if opcode % 16 == 1 || opcode in {0x22, 0x2a, 0x32, 0x3a} then 3
      else if opcode % 8 == 6 then 2
      else 1
    else if opcode < 0xc0 then 1
    else if opcode % 8 == 2 || opcode % 8 == 4 || opcode in {0xc3, 0xcb, 0xcd, 0xdd, 0xed, 0xfd} then 3
    else if opcode % 8 == 6 || opcode in {0xd3, 0xdb} then 2
    else 1
  }

  /** The length table agrees with the operand layout of every opcode. */
  lemma LengthFromLayout(opcode: u8)
    ensures InstructionLength(opcode) == LayoutLength(opcode)
  {
    if opcode < 0x40 {
      LayoutRows0To3(opcode);
    } else if opcode < 0xc0 {
      LayoutRows4ToB(opcode);
    } else if opcode < 0xe0 {
      LayoutRowsCToD(opcode);
    } else {
      LayoutRowsEToF(opcode);
    }
  }

  lemma LayoutRows0To3(opcode: u8)
    requires opcode < 0x40
    ensures InstructionLength(opcode) == LayoutLength(opcode)
  {
  }

  lemma LayoutRows4ToB(opcode: u8)
    requires 0x40 <= opcode < 0xc0
    ensures InstructionLength(opcode) == LayoutLength(opcode)
  {
  }

  lemma LayoutRowsCToD(opcode: u8)
    requires 0xc0 <= opcode < 0xe0
    ensures InstructionLength(opcode) == LayoutLength(opcode)
  {
  }

  lemma LayoutRowsEToF(opcode: u8)
    requires 0xe0 <= opcode
    ensures InstructionLength(opcode) == LayoutLength(opcode)
  {
  }

  /** The value of a `Program8080`: the program counter and the length of
      the instruction last fetched (0 once it has been stepped over). */
  datatype Counter = Counter(pc: u16, len: u16)
  {
    /** `get_instruction`: records the length of the instruction at pc and
        returns its bytes.  The slice `view(pc, pc + len - 1)` panics
        (None here) when the instruction would run past 0xffff. */
    function GetInstruction(mem: Ram): (r: (Option<seq<u8>>, Counter))
      ensures r.1 == Counter(pc, InstructionLength(mem[pc]))
      ensures r.0.Some? <==> pc + InstructionLength(mem[pc]) <= SIZE
      ensures r.0.Some? ==> |r.0.value| == InstructionLength(mem[pc]) && r.0.value[0] == mem[pc]
      ensures r.0.Some? ==> r.0.value == mem[pc .. pc + InstructionLength(mem[pc])]
    {
      var len := InstructionLength(mem[pc]);
      var end := Add16(Add16(pc, len), -1);
      if pc <= end + 1 then (Some(mem[pc..end + 1]), Counter(pc, len))
      else (None, Counter(pc, len))
    }

    /** `advance`: step over the instruction last fetched. */
    function Advance(): (c: Counter)
      ensures c.pc == Add16(pc, len) && c.len == 0
    {
      Counter(Add16(pc, len), 0)
    }

    /** `jump`: go to addr; a later `advance` then stays there. */
    function Jump(addr: u16): (c: Counter)
      ensures c.pc == addr && c.Advance().pc == addr
    {
      Counter(addr, 0)
    }

    /** `call`: push the address of the next instruction, then jump.  The
        return address ends up little-endian just below the old stack
        pointer. */
    function Call(st: StackState, addr: u16): (r: (Counter, StackState))
      ensures r.0 == Counter(addr, 0)
      ensures r.1 == st.PushWord(Add16(pc, len))
      ensures r.1.sp == Add16(st.sp, -2)
      ensures WordAt(r.1.mem, r.1.sp) == Add16(pc, len)
    {
      WordRoundTrip(st.mem, Add16(st.sp, -2), Add16(pc, len));
      (Jump(addr), st.PushWord(Add16(pc, len)))
    }

    /** `ret`: pop an address and jump to it: control goes to the word at
        sp, which moves up by two over unchanged memory. */
    function Ret(st: StackState): (r: (Counter, StackState))
      ensures r.0 == Counter(WordAt(st.mem, st.sp), 0)
      ensures r.1 == StackState(Add16(st.sp, 2), st.mem)
    {
      var (addr, st') := st.PopWord();
      (Jump(addr), st')
    }
  }

  /** A return after a call resumes at the instruction after the call, with
      the stack pointer back where it was. */
  lemma CallThenRet(c: Counter, st: StackState, addr: u16)
    ensures var (c1, st1) := c.Call(st, addr);
            var (c2, st2) := c1.Ret(st1);
            c2 == Counter(Add16(c.pc, c.len), 0) && st2.sp == st.sp
  {
    PushPopWord(st, Add16(c.pc, c.len));
  }

  class Program8080 {
    var pc: u16
    var instructionLength: u16

    function Value(): Counter
      reads this
    {
      Counter(pc, instructionLength)
    }

    /** `Program8080::new`: pc 0, no instruction fetched. */
    constructor ()
      ensures Value() == Counter(0, 0)
    {
      pc, instructionLength := 0, 0;
    }

    /** `get_pc`: the program counter of the counter's value. */
    function GetPc(): (p: u16)
      reads this
      ensures p == Value().pc
    {
      pc
    }

    method GetInstruction(m: Memory8080) returns (instruction: Option<seq<u8>>)
      requires m.Valid()
      modifies this
      ensures (instruction, Value()) == old(Value()).GetInstruction(m.Contents())
    {
      var opcode := m.GetByte(pc);
      instructionLength := InstructionLength(opcode);
      var end := Add16(Add16(pc, instructionLength), -1);
      if pc as int <= end as int + 1 {
        instruction := Some(m.View(pc, end));
      } else {
        instruction := None;
      }
    }

    method Advance()
      modifies this
      ensures Value() == old(Value()).Advance()
    {
      pc := Add16(pc, instructionLength);
      instructionLength := 0;
    }

    method Jump(addr: u16)
      modifies this
      ensures Value() == old(Value()).Jump(addr)
    {
      pc := addr;
      instructionLength := 0;
    }

    method Call(m: Memory8080, s: Stack8080, addr: u16)
      requires m.Valid()
      modifies this, s, m.cells
      ensures (Value(), StackState(s.sp, m.Contents()))
           == old(Value().Call(StackState(s.sp, m.Contents()), addr))
    {
      ghost var st := StackState(s.sp, m.Contents());
      s.PushWord(m, Add16(pc, instructionLength));
      assert StackState(s.sp, m.Contents()) == st.PushWord(Add16(pc, instructionLength));
      Jump(addr);
    }

    method Ret(m: Memory8080, s: Stack8080)
      requires m.Valid()
      modifies this, s
      ensures (Value(), StackState(s.sp, m.Contents()))
           == old(Value().Ret(StackState(s.sp, m.Contents())))
    {
      ghost var st := StackState(s.sp, m.Contents());
      var addr := s.PopWord(m);
      assert (addr, StackState(s.sp, m.Contents())) == st.PopWord();
      Jump(addr);
    }
  }
}
