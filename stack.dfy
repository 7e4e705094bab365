/** The 8080 stack (virtual-cpu-8080/src/stack.rs): a 16-bit stack pointer
    into `Memory8080`, growing downwards, with 16-bit address arithmetic
    wrapping round as a release build does. */
module Stack {
  import opened Bytes
  import opened Memory

  /** The stack pointer together with the memory it points into. */
  datatype StackState = StackState(sp: u16, mem: Ram)
  {
    /** `push_byte`: decrement sp, then store at the new sp. */
    function PushByte(val: u8): (st: StackState)
      ensures st.sp == Add16(sp, -1)
      ensures st.mem == mem[st.sp := val]
    {
      var sp' := Add16(sp, -1);
      StackState(sp', mem[sp' := val])
    }

    /** `pop_byte`: increment sp, then read just below it. */
    function PopByte(): (r: (u8, StackState))
      ensures r.0 == mem[sp]
      ensures r.1 == StackState(Add16(sp, 1), mem)
    {
      var sp' := Add16(sp, 1);
      (mem[Add16(sp', -1)], StackState(sp', mem))
    }

    /** `push_word`: the high byte is pushed first, so the low byte ends up
        at the lower address: sp moves down by two and the word is stored
        there little-endian, the way `Memory::set_word` would. */
    function PushWord(val: u16): (st: StackState)
      ensures st.sp == Add16(sp, -2)
      ensures st.mem == WithWord(mem, Add16(sp, -2), val)
    {
      PushByte(HighOrderByte(val)).PushByte(LowOrderByte(val))
    }

    /** `pop_word`: the low byte is popped first, so the result is the
        little-endian word at sp; sp moves up by two and memory is left
        alone. */
    function PopWord(): (r: (u16, StackState))
      ensures r.0 == WordAt(mem, sp)
      ensures r.1 == StackState(Add16(sp, 2), mem)
    {
      var (low, st1) := PopByte();
      var (high, st2) := st1.PopByte();
      (AssembleWord(high, low), st2)
    }
  }

  /** A popped word is the word last pushed, and sp is back where it was. */
  lemma PushPopWord(st: StackState, val: u16)
    ensures st.PushWord(val).PopWord().0 == val
    ensures st.PushWord(val).PopWord().1.sp == st.sp
  {
    PoppedWordIsPushed(st, val);
    PopRestoresSp(st, val);
  }

  lemma PoppedWordIsPushed(st: StackState, val: u16)
    ensures st.PushWord(val).PopWord().0 == val
  {
    var top := Add16(st.sp, -2);
    var pushed := st.PushWord(val);
    assert pushed == StackState(top, WithWord(st.mem, top, val));
    WordRoundTrip(st.mem, top, val);
  }

  lemma PopRestoresSp(st: StackState, val: u16)
    ensures st.PushWord(val).PopWord().1.sp == st.sp
  {
    var top := Add16(st.sp, -2);
    var pushed := st.PushWord(val);
    assert pushed.PopWord().1.sp == Add16(top, 2);
    Add16Undo(st.sp, 2);
  }

  /** Popping a word and pushing it back restores the stack exactly. */
  lemma PopPushWord(st: StackState)
    ensures var (w, st') := st.PopWord(); st'.PushWord(w) == st
  {
    var (w, st') := st.PopWord();
    Add16Undo(st.sp, -2);
    WordRewrite(st.mem, st.sp);
  }

  class Stack8080 {
    var sp: u16

    /** `Stack8080::new`: sp starts at 0. */
    constructor ()
      ensures sp == 0
    {
      sp := 0;
    }

    /** `get_sp`: the stack pointer as `set_sp` and the pushes and pops
        leave it. */
    function GetSp(): (p: u16)
      reads this
      ensures p == sp
    {
      sp
    }

    /** `set_sp`. */
    method SetSp(val: u16)
      modifies this
      ensures sp == val
    {
      sp := val;
    }

    method PopByte(m: Memory8080) returns (val: u8)
      requires m.Valid()
      modifies this
      ensures (val, StackState(sp, m.Contents())) == StackState(old(sp), m.Contents()).PopByte()
    {
      sp := Add16(sp, 1);
      val := m.GetByte(Add16(sp, -1));
    }

    method PushByte(m: Memory8080, val: u8)
      requires m.Valid()
      modifies this, m.cells
      ensures StackState(sp, m.Contents()) == old(StackState(sp, m.Contents())).PushByte(val)
    {
      sp := Add16(sp, -1);
      m.SetByte(sp, val);
    }

    method PopWord(m: Memory8080) returns (val: u16)
      requires m.Valid()
      modifies this
      ensures (val, StackState(sp, m.Contents())) == StackState(old(sp), m.Contents()).PopWord()
    {
      var low := PopByte(m);
      var high := PopByte(m);
      val := AssembleWord(high, low);
    }

    method PushWord(m: Memory8080, val: u16)
      requires m.Valid()
      modifies this, m.cells
      ensures StackState(sp, m.Contents()) == old(StackState(sp, m.Contents())).PushWord(val)
    {
      PushByte(m, HighOrderByte(val));
      PushByte(m, LowOrderByte(val));
    }
  }
}
