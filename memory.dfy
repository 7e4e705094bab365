/** The 64 KiB byte-addressed memory of the 8080: the `Memory8080` struct of
    virtual-cpu-8080/src/memory.rs together with the word accessors that the
    `Memory` trait of virtual-cpu-core provides on top of it. */
module Memory {
  import opened Bytes

  const SIZE: nat := 0x1_0000

  /** A full memory image: one byte per 16-bit address. */
  type Ram = s: seq<u8> | |s| == SIZE witness seq(SIZE, i => 0)

  /** `get_word`: the byte at addr is the low half, the byte after it (the
      address wrapping round at 0xffff) the high half. */
  function WordAt(mem: Ram, addr: u16): (w: u16)
    ensures LowOrderByte(w) == mem[addr]
    ensures HighOrderByte(w) == mem[Add16(addr, 1)]
  {
    AssembleWord(mem[Add16(addr, 1)], mem[addr])
  }

  /** `set_word`: the low half goes to addr, then the high half to addr + 1. */
  function WithWord(mem: Ram, addr: u16, v: u16): (mem': Ram)
    ensures mem'[addr] == LowOrderByte(v)
    ensures mem'[Add16(addr, 1)] == HighOrderByte(v)
    ensures forall a: u16 | a != addr && a != Add16(addr, 1) :: mem'[a] == mem[a]
  {
    mem[addr := LowOrderByte(v)][Add16(addr, 1) := HighOrderByte(v)]
  }

  /** A word written is the word read back. */
  lemma WordRoundTrip(mem: Ram, addr: u16, v: u16)
    ensures WordAt(WithWord(mem, addr, v), addr) == v
  {
    WordOfBytes(v);
  }

  /** A second word written at the same address replaces the first. */
  lemma WordOverwrite(mem: Ram, addr: u16, v: u16, w: u16)
    ensures WithWord(WithWord(mem, addr, v), addr, w) == WithWord(mem, addr, w)
  {
    var lhs, rhs := WithWord(WithWord(mem, addr, v), addr, w), WithWord(mem, addr, w);
    assert forall a: u16 :: lhs[a] == rhs[a];
  }

  /** Writing back the word just read changes nothing. */
  lemma WordRewrite(mem: Ram, addr: u16)
    ensures WithWord(mem, addr, WordAt(mem, addr)) == mem
  {
  }

  class Memory8080 {
    const cells: array<u8>

    ghost predicate Valid()
      reads this
    {
      cells.Length == SIZE
    }

    /** The whole memory as a value. */
    function Contents(): Ram
      requires Valid()
      reads this, cells
    {
      cells[..]
    }

    /** `Memory8080::new`: every byte is zero. */
    constructor ()
      ensures Valid() && fresh(cells)
      ensures Contents() == seq(SIZE, i => 0)
    {
      cells := new u8[SIZE](i => 0);
    }

    /** `get_byte`. */
    function GetByte(addr: u16): (b: u8)
      requires Valid()
      reads this, cells
      ensures b == Contents()[addr]
    {
      cells[addr]
    }

    /** `set_byte`. */
    method SetByte(addr: u16, val: u8)
      requires Valid()
      modifies cells
      ensures Contents() == old(Contents())[addr := val]
    {
      cells[addr] := val;
    }

    /** `get_word`, provided by the `Memory` trait. */
    function GetWord(addr: u16): (w: u16)
      requires Valid()
      reads this, cells
      ensures w == WordAt(Contents(), addr)
    {
      AssembleWord(GetByte(Add16(addr, 1)), GetByte(addr))
    }

    /** `set_word`, provided by the `Memory` trait. */
    method SetWord(addr: u16, v: u16)
      requires Valid()
      modifies cells
      ensures Contents() == WithWord(old(Contents()), addr, v)
    {
      SetByte(addr, LowOrderByte(v));
      SetByte(Add16(addr, 1), HighOrderByte(v));
    }

    /** `load`: copies data into memory starting at base; the slice copy
        panics unless the whole of data fits below 0x10000. */
    method Load(base: u16, data: seq<u8>)
      requires Valid()
      requires base + |data| <= SIZE
      modifies cells
      ensures Contents() == old(Contents())[..base] + data + old(Contents())[base + |data|..]
    {
      forall i | base <= i < base + |data| {
        cells[i] := data[i - base];
      }
      assert Contents() == old(Contents())[..base] + data + old(Contents())[base + |data|..];
    }

    /** `view`: the bytes from start to end inclusive; the slice panics when
        end + 1 < start. */
    function View(start: u16, end: u16): (v: seq<u8>)
      requires Valid()
      requires start <= end + 1
      reads this, cells
      ensures |v| == end + 1 - start
      ensures forall i | 0 <= i < |v| :: v[i] == Contents()[start + i]
    {
      cells[start..end + 1]
    }
  }
}
