/** The complete machine state of virtual-cpu-8080/src/state.rs: memory,
    stack, program counter and registers, with the register/memory move
    primitives and the control-flow primitives the dispatchers call.

    `Machine` is the value of a state; each primitive is a function on it
    stating what changes, and `State8080` is the mutable struct whose
    methods are proved to perform those functions. */
module State {
  import opened Wrappers
  import opened Bytes
  import opened Flags
  import opened Memory
  import opened Stack
  import opened Registers
  import opened Program

  datatype Machine = Machine(mem: Ram, sp: u16, pc: u16, len: u16, regs: RegisterFile)
  {
    function Stack(): StackState
    {
      StackState(sp, mem)
    }

    function Counter(): Counter
    {
      Program.Counter(pc, len)
    }

    function WithStack(st: StackState): Machine
    {
      this.(sp := st.sp, mem := st.mem)
    }

    function WithCounter(c: Counter): Machine
    {
      this.(pc := c.pc, len := c.len)
    }

    /** Only the registers (flags included) may differ in m. */
    predicate RegistersOnly(m: Machine)
    {
      m.mem == mem && m.sp == sp && m.pc == pc && m.len == len
    }

    /** Only memory may differ in m. */
    predicate MemoryOnly(m: Machine)
    {
      m.regs == regs && m.sp == sp && m.pc == pc && m.len == len
    }

    /** Only register dest may differ in m. */
    predicate OnlyRegister(m: Machine, dest: Name8)
    {
      RegistersOnly(m) && m.regs.cc == regs.cc &&
      forall n | n != dest :: m.regs.Get8(n) == regs.Get8(n)
    }

    /** Only the two registers of pair dest may differ in m. */
    predicate OnlyPair(m: Machine, dest: Name16)
    {
      RegistersOnly(m) && m.regs.cc == regs.cc &&
      forall n | n != High(dest) && n != Low(dest) :: m.regs.Get8(n) == regs.Get8(n)
    }

    // -------------------------------------------------------------------
    // Moves

    /** `mov_rr8`: dest receives src. */
    function MovRr8(dest: Name8, src: Name8): (m: Machine)
      ensures m.regs.Get8(dest) == regs.Get8(src) && OnlyRegister(m, dest)
    {
      this.(regs := regs.With8(dest, regs.Get8(src)))
    }

    /** `mov_ri8`: dest receives val. */
    function MovRi8(dest: Name8, val: u8): (m: Machine)
      ensures m.regs.Get8(dest) == val && OnlyRegister(m, dest)
    {
      this.(regs := regs.With8(dest, val))
    }

    /** `mov_rp8`: dest receives the byte the pair src points at. */
    function MovRp8(dest: Name8, src: Name16): (m: Machine)
      ensures m.regs.Get8(dest) == mem[regs.Get16(src)] && OnlyRegister(m, dest)
    {
      this.(regs := regs.With8(dest, mem[regs.Get16(src)]))
    }

    /** `mov_ra8`: dest receives the byte at address src. */
    function MovRa8(dest: Name8, src: u16): (m: Machine)
      ensures m.regs.Get8(dest) == mem[src] && OnlyRegister(m, dest)
    {
      this.(regs := regs.With8(dest, mem[src]))
    }

    /** `mov_pr8`: the byte the pair dest points at receives src. */
    function MovPr8(dest: Name16, src: Name8): (m: Machine)
      ensures m.mem == mem[regs.Get16(dest) := regs.Get8(src)] && MemoryOnly(m)
    {
      this.(mem := mem[regs.Get16(dest) := regs.Get8(src)])
    }

    /** `mov_ar8`: the byte at address dest receives src. */
    function MovAr8(dest: u16, src: Name8): (m: Machine)
      ensures m.mem == mem[dest := regs.Get8(src)] && MemoryOnly(m)
    {
      this.(mem := mem[dest := regs.Get8(src)])
    }

    /** `mov_rr16`: pair dest receives pair src. */
    function MovRr16(dest: Name16, src: Name16): (m: Machine)
      ensures m.regs.Get16(dest) == regs.Get16(src) && OnlyPair(m, dest)
    {
      this.(regs := regs.With16(dest, regs.Get16(src)))
    }

    /** `mov_ri16`: pair dest receives val. */
    function MovRi16(dest: Name16, val: u16): (m: Machine)
      ensures m.regs.Get16(dest) == val && OnlyPair(m, dest)
    {
      this.(regs := regs.With16(dest, val))
    }

    /** `mov_rp16`: pair dest receives the word the pair src points at. */
    function MovRp16(dest: Name16, src: Name16): (m: Machine)
      ensures m.regs.Get16(dest) == WordAt(mem, regs.Get16(src)) && OnlyPair(m, dest)
    {
      this.(regs := regs.With16(dest, WordAt(mem, regs.Get16(src))))
    }

    /** `mov_ra16`: pair dest receives the word at address src. */
    function MovRa16(dest: Name16, src: u16): (m: Machine)
      ensures m.regs.Get16(dest) == WordAt(mem, src) && OnlyPair(m, dest)
    {
      this.(regs := regs.With16(dest, WordAt(mem, src)))
    }

    /** `mov_pr16`: the word the pair dest points at receives pair src. */
    function MovPr16(dest: Name16, src: Name16): (m: Machine)
      ensures WordAt(m.mem, regs.Get16(dest)) == regs.Get16(src) && MemoryOnly(m)
      ensures forall a: u16 | a != regs.Get16(dest) && a != Add16(regs.Get16(dest), 1) :: m.mem[a] == mem[a]
    {
      WordRoundTrip(mem, regs.Get16(dest), regs.Get16(src));
      this.(mem := WithWord(mem, regs.Get16(dest), regs.Get16(src)))
    }

    /** `mov_ar16`: the word at address dest receives pair src. */
    function MovAr16(dest: u16, src: Name16): (m: Machine)
      ensures WordAt(m.mem, dest) == regs.Get16(src) && MemoryOnly(m)
      ensures forall a: u16 | a != dest && a != Add16(dest, 1) :: m.mem[a] == mem[a]
    {
      WordRoundTrip(mem, dest, regs.Get16(src));
      this.(mem := WithWord(mem, dest, regs.Get16(src)))
    }

    /** `get_indirect8`: the byte the pair src points at, so storing it
        back there with `mov_pi8` changes nothing. */
    function GetIndirect8(src: Name16): (b: u8)
      ensures MovPi8(src, b) == this
    {
      mem[regs.Get16(src)]
    }

    /** `mov_pi8`: the byte the pair dest points at receives val. */
    function MovPi8(dest: Name16, val: u8): (m: Machine)
      ensures m.mem == mem[regs.Get16(dest) := val] && MemoryOnly(m)
    {
      this.(mem := mem[regs.Get16(dest) := val])
    }

    // -------------------------------------------------------------------
    // Control flow

    /** `jump_a`. */
    function JumpA(addr: u16): (m: Machine)
      ensures m == this.(pc := addr, len := 0)
    {
      WithCounter(Counter().Jump(addr))
    }

    /** `call_a`: the address after the current instruction is pushed and
        control goes to addr. */
    function CallA(addr: u16): (m: Machine)
      ensures m.pc == addr && m.len == 0 && m.regs == regs
      ensures m.sp == Add16(sp, -2) && m.mem == WithWord(mem, m.sp, Add16(pc, len))
      ensures WordAt(m.mem, m.sp) == Add16(pc, len)
    {
      var (c, st) := Counter().Call(Stack(), addr);
      WithCounter(c).WithStack(st)
    }

    /** `ret`: control goes to the popped address. */
    function Ret(): (m: Machine)
      ensures m == this.(pc := WordAt(mem, sp), len := 0, sp := Add16(sp, 2))
    {
      var (c, st) := Counter().Ret(Stack());
      WithCounter(c).WithStack(st)
    }

    /** `push_word`: val pushed onto the stack. */
    function PushWord(val: u16): (m: Machine)
      ensures m.sp == Add16(sp, -2) && m.mem == WithWord(mem, m.sp, val)
      ensures m == this.(sp := m.sp, mem := m.mem)
    {
      WithStack(Stack().PushWord(val))
    }

    /** `pop_word`: a word popped off the stack. */
    function PopWord(): (r: (u16, Machine))
      ensures r.0 == WordAt(mem, sp) && r.1 == this.(sp := Add16(sp, 2))
    {
      var (w, st) := Stack().PopWord();
      (w, WithStack(st))
    }

    /** `get_instruction`: the bytes of the instruction at pc, its length
        recorded; None where the program counter's fetch panics. */
    function GetInstruction(): (r: (Option<seq<u8>>, Machine))
      ensures r.1 == this.(len := InstructionLength(mem[pc]))
      ensures r.0.Some? <==> pc + InstructionLength(mem[pc]) <= SIZE
      ensures r.0.Some? ==> |r.0.value| == InstructionLength(mem[pc]) && r.0.value[0] == mem[pc]
      ensures r.0.Some? ==> r.0.value == mem[pc .. pc + InstructionLength(mem[pc])]
    {
      var (instruction, c) := Counter().GetInstruction(mem);
      (instruction, WithCounter(c))
    }

    /** `advance`, called on the program counter directly. */
    function Advance(): (m: Machine)
      ensures m == this.(pc := Add16(pc, len), len := 0)
    {
      WithCounter(Counter().Advance())
    }

    // -------------------------------------------------------------------
    // Binary operations

    /** `logical_operation_rr`: A receives operation(A, src), and z, s and p
        describe the result. */
    function LogicalOperationRr(src: Name8, operation: (u8, u8) -> u8): (m: Machine)
      ensures var result := operation(regs.Get8(A), regs.Get8(src));
              m.regs.Get8(A) == result && m.regs.cc == regs.cc.SetFlagsNoCarry(result)
      ensures RegistersOnly(m) && forall n | n != A :: m.regs.Get8(n) == regs.Get8(n)
    {
      var result := operation(regs.Get8(A), regs.Get8(src));
      this.(regs := regs.(cc := regs.cc.SetFlagsNoCarry(result)).With8(A, result))
    }
  }

  /** The state `State::new` builds: memory zero, all registers zero. */
  const INITIAL := Machine(seq(SIZE, i => 0), 0, 0, 0, NEW_REGISTERS)

  /** Moving a pair to memory and back restores it. */
  lemma StoreLoadPair(mach: Machine, addr: u16, pair: Name16)
    ensures mach.MovAr16(addr, pair).MovRa16(pair, addr).regs == mach.regs
  {
    var w := mach.regs.Get16(pair);
    var back := mach.MovAr16(addr, pair).MovRa16(pair, addr).regs;
    assert back == mach.regs.With16(pair, w);
    WordOfBytes(w);
  }

  /** Storing a byte through a pair and loading it back yields the byte. */
  lemma StoreLoadByte(mach: Machine, ptr: Name16, src: Name8, dest: Name8)
    ensures mach.MovPr8(ptr, src).MovRp8(dest, ptr).regs.Get8(dest) == mach.regs.Get8(src)
  {
  }

  class State8080 {
    const m: Memory8080
    const s: Stack8080
    const p: Program8080
    const r: Registers8080

    ghost predicate Valid()
      reads m
    {
      m.Valid()
    }

    /** The value of the whole state. */
    ghost function Snapshot(): Machine
      requires Valid()
      reads m, m.cells, s, p, r
    {
      Machine(m.Contents(), s.sp, p.pc, p.instructionLength, r.Value())
    }

    /** `State::new`. */
    constructor ()
      ensures Valid() && Snapshot() == INITIAL
      ensures fresh(m) && fresh(m.cells) && fresh(s) && fresh(p) && fresh(r)
    {
      m := new Memory8080();
      s := new Stack8080();
      p := new Program8080();
      r := new Registers8080();
    }

    method MovRr8(dest: Name8, src: Name8)
      requires Valid()
      modifies r
      ensures Snapshot() == old(Snapshot()).MovRr8(dest, src)
    {
      r.Set8(dest, r.Get8(src));
    }

    method MovRi8(dest: Name8, val: u8)
      requires Valid()
      modifies r
      ensures Snapshot() == old(Snapshot()).MovRi8(dest, val)
    {
      r.Set8(dest, val);
    }

    method MovRp8(dest: Name8, src: Name16)
      requires Valid()
      modifies r
      ensures Snapshot() == old(Snapshot()).MovRp8(dest, src)
    {
      r.Set8(dest, m.GetByte(r.Get16(src)));
    }

    method MovRa8(dest: Name8, src: u16)
      requires Valid()
      modifies r
      ensures Snapshot() == old(Snapshot()).MovRa8(dest, src)
    {
      r.Set8(dest, m.GetByte(src));
    }

    method MovPr8(dest: Name16, src: Name8)
      requires Valid()
      modifies m.cells
      ensures Snapshot() == old(Snapshot()).MovPr8(dest, src)
    {
      m.SetByte(r.Get16(dest), r.Get8(src));
    }

    method MovAr8(dest: u16, src: Name8)
      requires Valid()
      modifies m.cells
      ensures Snapshot() == old(Snapshot()).MovAr8(dest, src)
    {
      m.SetByte(dest, r.Get8(src));
    }

    method MovRr16(dest: Name16, src: Name16)
      requires Valid()
      modifies r
      ensures Snapshot() == old(Snapshot()).MovRr16(dest, src)
    {
      r.Set16(dest, r.Get16(src));
    }

    method MovRi16(dest: Name16, val: u16)
      requires Valid()
      modifies r
      ensures Snapshot() == old(Snapshot()).MovRi16(dest, val)
    {
      r.Set16(dest, val);
    }

    method MovRp16(dest: Name16, src: Name16)
      requires Valid()
      modifies r
      ensures Snapshot() == old(Snapshot()).MovRp16(dest, src)
    {
      r.Set16(dest, m.GetWord(r.Get16(src)));
    }

    method MovRa16(dest: Name16, src: u16)
      requires Valid()
      modifies r
      ensures Snapshot() == old(Snapshot()).MovRa16(dest, src)
    {
      r.Set16(dest, m.GetWord(src));
    }

    method MovPr16(dest: Name16, src: Name16)
      requires Valid()
      modifies m.cells
      ensures Snapshot() == old(Snapshot()).MovPr16(dest, src)
    {
      m.SetWord(r.Get16(dest), r.Get16(src));
    }

    method MovAr16(dest: u16, src: Name16)
      requires Valid()
      modifies m.cells
      ensures Snapshot() == old(Snapshot()).MovAr16(dest, src)
    {
      m.SetWord(dest, r.Get16(src));
    }

    function GetIndirect8(src: Name16): (b: u8)
      requires Valid()
      reads m, m.cells, r
      ensures b == Snapshot().GetIndirect8(src)
    {
      m.GetByte(r.Get16(src))
    }

    method MovPi8(dest: Name16, val: u8)
      requires Valid()
      modifies m.cells
      ensures Snapshot() == old(Snapshot()).MovPi8(dest, val)
    {
      m.SetByte(r.Get16(dest), val);
    }

    /** `test_flags`: the predicate applied to the current flags. */
    function TestFlags(test: Flags8080 -> bool): (b: bool)
      reads r
      ensures b == test(r.Value().cc)
    {
      test(r.cc)
    }

    method JumpA(addr: u16)
      requires Valid()
      modifies p
      ensures Snapshot() == old(Snapshot()).JumpA(addr)
    {
      p.Jump(addr);
    }

    method CallA(addr: u16)
      requires Valid()
      modifies p, s, m.cells
      ensures Snapshot() == old(Snapshot()).CallA(addr)
    {
      p.Call(m, s, addr);
    }

    method Ret()
      requires Valid()
      modifies p, s
      ensures Snapshot() == old(Snapshot()).Ret()
    {
      p.Ret(m, s);
    }

    method PushWord(val: u16)
      requires Valid()
      modifies s, m.cells
      ensures Snapshot() == old(Snapshot()).PushWord(val)
    {
      s.PushWord(m, val);
    }

    method PopWord() returns (val: u16)
      requires Valid()
      modifies s
      ensures (val, Snapshot()) == old(Snapshot()).PopWord()
    {
      val := s.PopWord(m);
    }

    method GetInstruction() returns (instruction: Option<seq<u8>>)
      requires Valid()
      modifies p
      ensures (instruction, Snapshot()) == old(Snapshot()).GetInstruction()
    {
      instruction := p.GetInstruction(m);
    }

    method LogicalOperationRr(src: Name8, operation: (u8, u8) -> u8)
      requires Valid()
      modifies r
      ensures Snapshot() == old(Snapshot()).LogicalOperationRr(src, operation)
    {
      var accumulator := r.Get8(A);
      var operand := r.Get8(src);
      var result := operation(accumulator, operand);
      r.cc := r.cc.SetFlagsNoCarry(result);
      r.Set8(A, result);
    }
  }
}
