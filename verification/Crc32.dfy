/** CRC-32: the table-driven routine against the bit-serial shift register it speeds up. */
module Crc32 {
  import opened Basics

  const POLYNOMIAL: bv32 := 0xedb88320

  // Named word operations, so that proofs about whole registers need not look at bits.

  function Xor(a: bv32, b: bv32): bv32 { a ^ b }

  function Half(a: bv32): bv32 { a >> 1 }

  function UpperBytes(a: bv32): bv32 { a >> 8 }

  function LowByte(a: bv32): bv32 { a & 0xff }

  predicate Odd(a: bv32) { a & 1 == 1 }

  function Word(c: byte): bv32 { c as int as bv32 }

  // -------------------------------------------------------------------------
  // The definition: one message bit at a time
  // -------------------------------------------------------------------------

  /** Shifts one message bit into the reflected register. */
  function ShiftIn(crc: bv32, bit: bool): bv32 {
    if Odd(crc) != bit then Xor(POLYNOMIAL, Half(crc)) else Half(crc)
  }

  /** Shifts the `n` low bits of `word` into the register, lowest first. */
  function ShiftInBits(crc: bv32, word: bv32, n: nat): bv32
    decreases n
  {
    if n == 0 then crc else ShiftInBits(ShiftIn(crc, Odd(word)), Half(word), n - 1)
  }

  function Register(crc: bv32, bytes: Text): bv32
    decreases |bytes|
  {
    if bytes == [] then crc
    else ShiftInBits(Register(crc, bytes[..|bytes| - 1]), Word(bytes[|bytes| - 1]), 8)
  }

  /** The IEEE CRC-32 of a byte string. */
  function Checksum(bytes: Text): bv32 { Xor(Register(0xffffffff, bytes), 0xffffffff) }

  /** The checksum as the unsigned integer that headers carry. */
  function Value(bytes: Text): u32 { Checksum(bytes) as int }

  // -------------------------------------------------------------------------
  // The table
  // -------------------------------------------------------------------------

  /** The table builder's inner step: a zero bit is shifted in. */
  function Step(v: bv32): bv32 {
    if v & 1 != 0 then 0xedb88320 ^ (v >> 1) else v >> 1
  }

  function Steps(v: bv32, n: nat): bv32
    decreases n
  {
    if n == 0 then v else Steps(Step(v), n - 1)
  }

  lemma XorBits(a: bv32, b: bv32)
    ensures Odd(Xor(a, b)) <==> Odd(a) != Odd(b)
    ensures Half(Xor(a, b)) == Xor(Half(a), Half(b))
  {
  }

  lemma XorAssociates(p: bv32, a: bv32, b: bv32)
    ensures Xor(p, Xor(a, b)) == Xor(Xor(p, a), b)
  {
  }

  lemma XorCommutes(a: bv32, b: bv32)
    ensures Xor(a, b) == Xor(b, a)
  {
  }

  lemma XorZero(a: bv32)
    ensures Xor(a, a) == 0 && Xor(0, a) == a && Xor(a, 0) == a
  {
  }

  lemma XorAlgebra(p: bv32, a: bv32, b: bv32)
    ensures Xor(p, Xor(a, b)) == Xor(Xor(p, a), b)
    ensures Xor(p, Xor(a, b)) == Xor(a, Xor(p, b))
    ensures Xor(Xor(p, a), Xor(p, b)) == Xor(a, b)
  {
    hide Xor;
    XorAssociates(p, a, b);
    XorCommutes(p, a);
    XorAssociates(a, p, b);
    XorAssociates(a, p, Xor(p, b));
    XorAssociates(p, p, b);
    XorZero(p);
    XorZero(b);
  }

  lemma StepIsShiftIn(v: bv32)
    ensures Step(v) == ShiftIn(v, false)
  {
  }

  lemma StepAbsorbsBit(crc: bv32, word: bv32)
    ensures Step(Xor(crc, word)) == Xor(ShiftIn(crc, Odd(word)), Half(word))
  {
    hide Step, Xor, Odd, Half;
    StepIsShiftIn(Xor(crc, word));
    XorBits(crc, word);
    XorAlgebra(POLYNOMIAL, Half(crc), Half(word));
  }

  lemma StepIsLinear(a: bv32, b: bv32)
    ensures Step(Xor(a, b)) == Xor(Step(a), Step(b))
  {
    hide Step, Xor, Odd, Half;
    StepIsShiftIn(Xor(a, b));
    StepIsShiftIn(a);
    StepIsShiftIn(b);
    XorBits(a, b);
    XorAlgebra(POLYNOMIAL, Half(a), Half(b));
  }

  function Pending(word: bv32, n: nat): bv32
    decreases n
  {
    if n == 0 then word else Pending(Half(word), n - 1)
  }

  /** Exclusive-or first and then step: the same register as shifting the bits in one by one,
      up to the bits that are still waiting. */
  lemma {:induction false} StepsAbsorbBits(crc: bv32, word: bv32, n: nat)
    ensures Steps(Xor(crc, word), n) == Xor(ShiftInBits(crc, word, n), Pending(word, n))
    decreases n
  {
    hide Step, ShiftIn, Xor, Odd, Half;
    if n != 0 {
      StepAbsorbsBit(crc, word);
      StepsAbsorbBits(ShiftIn(crc, Odd(word)), Half(word), n - 1);
    }
  }

  lemma {:induction false} StepsAreLinear(a: bv32, b: bv32, n: nat)
    ensures Steps(Xor(a, b), n) == Xor(Steps(a, n), Steps(b, n))
    decreases n
  {
    hide Step, Xor;
    if n != 0 {
      StepIsLinear(a, b);
      StepsAreLinear(Step(a), Step(b), n - 1);
    }
  }

  lemma HalvingABytes(v: bv32)
    ensures (v >> 1) >> 1 == v >> 2 && (v >> 2) >> 1 == v >> 3 && (v >> 3) >> 1 == v >> 4
    ensures (v >> 4) >> 1 == v >> 5 && (v >> 5) >> 1 == v >> 6 && (v >> 6) >> 1 == v >> 7
    ensures (v >> 7) >> 1 == v >> 8
  {
  }

  lemma NothingPending(word: bv32)
    requires word < 0x100
    ensures Pending(word, 8) == 0
  {
    HalvingABytes(word);
    assert word >> 8 == 0;
    assert Pending(word, 8) == Pending(word >> 1, 7) == Pending(word >> 2, 6) == Pending(word >> 3, 5);
    assert Pending(word >> 3, 5) == Pending(word >> 4, 4) == Pending(word >> 5, 3) == Pending(word >> 6, 2);
  }

  /** Eight steps move the upper bytes down untouched. */
  lemma StepsShiftUpperBytes(high: bv32)
    requires LowByte(high) == 0
    ensures Steps(high, 8) == UpperBytes(high)
  {
    assert Step(high) == high >> 1;
    assert Step(high >> 1) == high >> 2;
    assert Step(high >> 2) == high >> 3;
    assert Step(high >> 3) == high >> 4;
    assert Step(high >> 4) == high >> 5;
    assert Step(high >> 5) == high >> 6;
    assert Step(high >> 6) == high >> 7;
    assert Step(high >> 7) == high >> 8;
    assert Steps(high, 8) == Steps(high >> 1, 7) == Steps(high >> 2, 6) == Steps(high >> 3, 5);
    assert Steps(high >> 3, 5) == Steps(high >> 4, 4) == Steps(high >> 5, 3) == Steps(high >> 6, 2);
  }

  function ClearLowByte(v: bv32): bv32 { v & 0xffffff00 }

  lemma SplitBytes(v: bv32)
    ensures v == Xor(LowByte(v), ClearLowByte(v))
    ensures LowByte(ClearLowByte(v)) == 0
    ensures UpperBytes(ClearLowByte(v)) == UpperBytes(v)
  {
  }

  lemma UpperBytesIgnoreAByte(crc: bv32, word: bv32)
    requires word < 0x100
    ensures UpperBytes(Xor(crc, word)) == UpperBytes(crc)
  {
  }

  /** One table look-up does the work of eight register shifts. */
  lemma LookUpIsEightShifts(crc: bv32, word: bv32)
    requires word < 0x100
    ensures ShiftInBits(crc, word, 8) == Xor(Steps(LowByte(Xor(crc, word)), 8), UpperBytes(crc))
  {
    hide *;
    var mixed := Xor(crc, word);
    StepsAbsorbBits(crc, word, 8);
    NothingPending(word);
    XorZero(ShiftInBits(crc, word, 8));
    SplitBytes(mixed);
    UpperBytesIgnoreAByte(crc, word);
    StepsAreLinear(LowByte(mixed), ClearLowByte(mixed), 8);
    StepsShiftUpperBytes(ClearLowByte(mixed));
  }

  // -------------------------------------------------------------------------
  // The routine
  // -------------------------------------------------------------------------

  /** Slot `k` of a table holds what eight steps make of `k`. */
  predicate Slot(table: seq<bv32>, k: nat) {
    k < 256 && k < |table| && table[k] == Steps(k as bv32, 8)
  }

  method TableSlot(index: bv32) returns (value: bv32)
    ensures value == Steps(index, 8)
  {
    hide Step;
    value := index;
    for bit := 0 to 8
      invariant Steps(value, 8 - bit) == Steps(index, 8)
    {
      value := Step(value);
    }
  }

  method CrcTable() returns (table: array<bv32>)
    ensures fresh(table) && table.Length == 256
    ensures forall k :: 0 <= k < 256 ==> Slot(table[..], k)
  {
    hide Steps;
    table := new bv32[256];
    for slot := 0 to 256
      invariant forall k :: 0 <= k < slot ==> Slot(table[..], k)
    {
      ghost var filled := table[..];
      var value := TableSlot(slot as bv32);
      table[slot] := value;
      assert forall k :: 0 <= k < slot ==> Slot(filled, k) && table[..][k] == filled[k];
    }
  }

  lemma LowByteIsSlot(v: bv32)
    ensures 0 <= LowByte(v) as int < 256 && LowByte(v) as int as bv32 == LowByte(v)
  {
  }

  lemma WordIsAByte(c: byte)
    ensures Word(c) < 0x100
  {
  }

  method Crc(bytes: Text) returns (checksum: bv32)
    ensures checksum == Checksum(bytes)
  {
    hide Steps, ShiftInBits, Xor, LowByte, UpperBytes, Word;
    var table := CrcTable();
    var crc: bv32 := 0xffffffff;
    for i := 0 to |bytes|
      invariant forall k :: 0 <= k < 256 ==> Slot(table[..], k)
      invariant crc == Register(0xffffffff, bytes[..i])
    {
      assert bytes[..i + 1][..i] == bytes[..i];
      var word := Word(bytes[i]);
      WordIsAByte(bytes[i]);
      LookUpIsEightShifts(crc, word);
      LowByteIsSlot(Xor(crc, word));
      var slot := LowByte(Xor(crc, word)) as int;
      assert Slot(table[..], slot);
      crc := Xor(table[slot], UpperBytes(crc));
    }
    assert bytes[..|bytes|] == bytes;
    checksum := Xor(crc, 0xffffffff);
  }
}
