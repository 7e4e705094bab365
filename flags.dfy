/** The 8080 condition flags (virtual-cpu-8080/src/flags.rs): zero, sign,
    parity, carry and auxiliary carry, and their packing into one byte. */
module Flags {
  import opened Bytes
  import opened Bits

  datatype Flags8080 = Flags8080(z: bool, s: bool, p: bool, cy: bool, ac: bool)
  {
    /** `set_z`: z records whether n is zero. */
    function SetZ(n: u8): (f: Flags8080)
      ensures f.z <==> n == 0
      ensures f == this.(z := f.z)
    {
      this.(z := n == 0)
    }

    /** `set_s`: s records bit 7 of n, i.e. whether n is negative as an i8. */
    function SetS(n: u8): (f: Flags8080)
      ensures f.s <==> n >= 0x80
      ensures f == this.(s := f.s)
    {
      AndPow2(n, 7);
      TopBit(n, 7);
      this.(s := And(n, 0x80) != 0)
    }

    /** `set_p`: p records whether n has an even number of one bits. */
    function SetP(n: u8): (f: Flags8080)
      ensures f.p <==> Popcount(n) % 2 == 0
      ensures f == this.(p := f.p)
    {
      LowMask(Popcount(n), 1);
      this.(p := And(Popcount(n), 0x01) == 0)
    }

    /** `set_flags_no_carry`: z, s and p from result; carries untouched. */
    function SetFlagsNoCarry(result: u8): (f: Flags8080)
      ensures f.z <==> result == 0
      ensures f.s <==> result >= 0x80
      ensures f.p <==> Popcount(result) % 2 == 0
      ensures f.cy == cy && f.ac == ac
    {
      SetZ(result).SetS(result).SetP(result)
    }

    /** `serialize`: z, s, p, cy, ac in bits 0 to 4. */
    function Serialize(): (b: u8)
      ensures b < 0x20
      ensures Bit(b, 0) == z && Bit(b, 1) == s && Bit(b, 2) == p
      ensures Bit(b, 3) == cy && Bit(b, 4) == ac
      ensures forall i: nat | i >= 5 :: !Bit(b, i)
    {
      var parts := [BoolByte(z), BoolByte(s) * 2, BoolByte(p) * 4, BoolByte(cy) * 8, BoolByte(ac) * 16];
      var b := Or(Or(Or(Or(parts[0], parts[1]), parts[2]), parts[3]), parts[4]);
      SerializeBits(parts, b);
      b
    }

    /** `deserialize`: each flag from its bit of the byte; bits 5 to 7 are
        ignored.  It overwrites every field, so the receiver does not matter. */
    function Deserialize(flags: u8): (f: Flags8080)
      ensures f.z == Bit(flags, 0) && f.s == Bit(flags, 1) && f.p == Bit(flags, 2)
      ensures f.cy == Bit(flags, 3) && f.ac == Bit(flags, 4)
    {
      AndPow2(flags, 0);
      AndPow2(flags, 1);
      AndPow2(flags, 2);
      AndPow2(flags, 3);
      AndPow2(flags, 4);
      this.(z := And(flags, 0x01) != 0, s := And(flags, 0x02) != 0, p := And(flags, 0x04) != 0,
            cy := And(flags, 0x08) != 0, ac := And(flags, 0x10) != 0)
    }
  }

  /** `Flags8080::new`: every flag clear. */
  const NEW_FLAGS := Flags8080(false, false, false, false, false)

  /** The bits of the or-ed parts of `serialize`. */
  lemma SerializeBits(parts: seq<nat>, b: nat)
    requires |parts| == 5
    requires forall k | 0 <= k < 5 :: parts[k] == 0 || parts[k] == Pow2(k)
    requires b == Or(Or(Or(Or(parts[0], parts[1]), parts[2]), parts[3]), parts[4])
    ensures b < 0x20
    ensures forall i: nat :: Bit(b, i) == (i < 5 && parts[i] != 0)
  {
    forall i: nat
      ensures Bit(b, i) == (i < 5 && parts[i] != 0)
    {
      OrBit(Or(Or(Or(parts[0], parts[1]), parts[2]), parts[3]), parts[4], i);
      OrBit(Or(Or(parts[0], parts[1]), parts[2]), parts[3], i);
      OrBit(Or(parts[0], parts[1]), parts[2], i);
      OrBit(parts[0], parts[1], i);
      forall k | 0 <= k < 5
        ensures Bit(parts[k], i) == (i == k && parts[k] != 0)
      {
        ScaledBit(if parts[k] == 0 then 0 else 1, k, i);
      }
    }
    assert Pow2(5) == 0x20;
    forall k | 0 <= k < 5
      ensures parts[k] < Pow2(5)
    {
      Pow2Grows(k, 5);
    }
    OrBound(parts[0], parts[1], 5);
    OrBound(Or(parts[0], parts[1]), parts[2], 5);
    OrBound(Or(Or(parts[0], parts[1]), parts[2]), parts[3], 5);
    OrBound(Or(Or(Or(parts[0], parts[1]), parts[2]), parts[3]), parts[4], 5);
  }

  lemma {:induction false} Pow2Grows(j: nat, k: nat)
    requires j < k
    ensures Pow2(j) < Pow2(k)
  {
    if j < k - 1 { Pow2Grows(j, k - 1); }
  }

  /** Deserializing a serialized flag set gives it back. */
  lemma DeserializeSerialize(f: Flags8080, g: Flags8080)
    ensures g.Deserialize(f.Serialize()) == f
  {
  }

  /** Serializing a deserialized byte keeps exactly its five low bits. */
  lemma SerializeDeserialize(g: Flags8080, flags: u8)
    ensures g.Deserialize(flags).Serialize() == And(flags, 0x1f)
  {
    var b := g.Deserialize(flags).Serialize();
    LowMask(flags, 5);
    forall i | 0 <= i < 8
      ensures Bit(b, i) == Bit(And(flags, 0x1f), i)
    {
      AndBit(flags, 0x1f, i);
      if i >= 5 {
        HighBitsClear(0x1f, 5, i);
      } else {
        assert Bit(0x1f, i);
      }
    }
    AndBound(flags, 0x1f);
    BitsDetermine(b, And(flags, 0x1f), 8);
  }

  /** The cases checked by the flags unit test: 0 gives z, not s, and p;
      0xf0 gives not z, s, and p. */
  lemma SetFlagsNoCarryExamples()
    ensures var f := NEW_FLAGS.SetFlagsNoCarry(0); f.z && !f.s && f.p
    ensures var f := NEW_FLAGS.SetFlagsNoCarry(0).SetFlagsNoCarry(0xf0); !f.z && f.s && f.p
  {
    var f0 := NEW_FLAGS.SetFlagsNoCarry(0);
    assert f0.z && !f0.s && f0.p by {
      assert Popcount(0) == 0;
    }
    assert Popcount(0xf0) == 4 by {
      assert Popcount(0x0f) == 4;
    }
  }
}
