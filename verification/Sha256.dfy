/** Streaming SHA-256 against the one-shot definition of FIPS 180-4. */
module Sha256Spec {

  /** The eight words of a hash value, or of the working variables a to h. */
  datatype Words = Words(a: bv32, b: bv32, c: bv32, d: bv32, e: bv32, f: bv32, g: bv32, h: bv32)

  // Section 4.1.2 of FIPS 180-4: the logical functions.

  function Rotr(v: bv32, count: nat): bv32
    requires 0 < count < 32
  {
    (v >> count) | (v << (32 - count))
  }

  function BigSigma0(v: bv32): bv32 { Rotr(v, 2) ^ Rotr(v, 13) ^ Rotr(v, 22) }

  function BigSigma1(v: bv32): bv32 { Rotr(v, 6) ^ Rotr(v, 11) ^ Rotr(v, 25) }

  function SmallSigma0(v: bv32): bv32 { Rotr(v, 7) ^ Rotr(v, 18) ^ (v >> 3) }

  function SmallSigma1(v: bv32): bv32 { Rotr(v, 17) ^ Rotr(v, 19) ^ (v >> 10) }

  function Choose(x: bv32, y: bv32, z: bv32): bv32 { (x & y) ^ (!x & z) }

  function Majority(x: bv32, y: bv32, z: bv32): bv32 { (x & y) ^ (x & z) ^ (y & z) }

  /** Addition modulo two to the thirty-second. */
  function Add(x: bv32, y: bv32): bv32 { x + y }

  // Section 4.2.2: the constants. Section 5.3.3: the initial hash value.

  const ROUND_CONSTANTS: seq<bv32> := [
    0x428a2f98, 0x71374491, 0xb5c0fbcf, 0xe9b5dba5, 0x3956c25b, 0x59f111f1, 0x923f82a4, 0xab1c5ed5,
    0xd807aa98, 0x12835b01, 0x243185be, 0x550c7dc3, 0x72be5d74, 0x80deb1fe, 0x9bdc06a7, 0xc19bf174,
    0xe49b69c1, 0xefbe4786, 0x0fc19dc6, 0x240ca1cc, 0x2de92c6f, 0x4a7484aa, 0x5cb0a9dc, 0x76f988da,
    0x983e5152, 0xa831c66d, 0xb00327c8, 0xbf597fc7, 0xc6e00bf3, 0xd5a79147, 0x06ca6351, 0x14292967,
    0x27b70a85, 0x2e1b2138, 0x4d2c6dfc, 0x53380d13, 0x650a7354, 0x766a0abb, 0x81c2c92e, 0x92722c85,
    0xa2bfe8a1, 0xa81a664b, 0xc24b8b70, 0xc76c51a3, 0xd192e819, 0xd6990624, 0xf40e3585, 0x106aa070,
    0x19a4c116, 0x1e376c08, 0x2748774c, 0x34b0bcb5, 0x391c0cb3, 0x4ed8aa4a, 0x5b9cca4f, 0x682e6ff3,
    0x748f82ee, 0x78a5636f, 0x84c87814, 0x8cc70208, 0x90befffa, 0xa4506ceb, 0xbef9a3f7, 0xc67178f2]

  lemma SixtyFourConstants()
    ensures |ROUND_CONSTANTS| == 64
  {
  }

  function RoundConstant(t: nat): bv32
    requires t < 64
  {
    SixtyFourConstants();
    ROUND_CONSTANTS[t]
  }

  const INITIAL: Words := Words(0x6a09e667, 0xbb67ae85, 0x3c6ef372, 0xa54ff53a,
                                0x510e527f, 0x9b05688c, 0x1f83d9ab, 0x5be0cd19)

  type Block = b: seq<bv8> | |b| == 64 witness seq(64, _ => 0)

  function BigEndianWord(b0: bv8, b1: bv8, b2: bv8, b3: bv8): bv32 {
    ((b0 as bv32) << 24) | ((b1 as bv32) << 16) | ((b2 as bv32) << 8) | (b3 as bv32)
  }

  function BlockWord(block: Block, t: nat): bv32
    requires t < 16
  {
    BigEndianWord(block[4 * t], block[4 * t + 1], block[4 * t + 2], block[4 * t + 3])
  }

  /** Section 6.2.2 step 1: word `t` of the message schedule. */
  function Schedule(block: Block, t: nat): bv32
    requires t < 64
    decreases t
  {
    if t < 16 then BlockWord(block, t)
    else
      Expand(Schedule(block, t - 2), Schedule(block, t - 7), Schedule(block, t - 15), Schedule(block, t - 16))
  }

  function Expand(w2: bv32, w7: bv32, w15: bv32, w16: bv32): bv32 {
    Add(Add(Add(SmallSigma1(w2), w7), SmallSigma0(w15)), w16)
  }

  function Temp1(v: Words, constant: bv32, word: bv32): bv32 {
    Add(Add(Add(Add(v.h, BigSigma1(v.e)), Choose(v.e, v.f, v.g)), constant), word)
  }

  function Temp2(v: Words): bv32 { Add(BigSigma0(v.a), Majority(v.a, v.b, v.c)) }

  /** Section 6.2.2 step 3: one round. */
  function Round(v: Words, constant: bv32, word: bv32): Words {
    var t1 := Temp1(v, constant, word);
    Words(Add(t1, Temp2(v)), v.a, v.b, v.c, Add(v.d, t1), v.e, v.f, v.g)
  }

  /** The working variables after the first `t` rounds. */
  function Rounds(h: Words, block: Block, t: nat): Words
    requires t <= 64
    decreases t
  {
    if t == 0 then h else Round(Rounds(h, block, t - 1), RoundConstant(t - 1), Schedule(block, t - 1))
  }

  function AddWords(x: Words, y: Words): Words {
    Words(Add(x.a, y.a), Add(x.b, y.b), Add(x.c, y.c), Add(x.d, y.d),
          Add(x.e, y.e), Add(x.f, y.f), Add(x.g, y.g), Add(x.h, y.h))
  }

  function CompressBlock(h: Words, block: Block): Words {
    AddWords(h, Rounds(h, block, 64))
  }

  /** The hash value after all the blocks of `bytes`, a whole number of them. */
  function HashBlocks(bytes: seq<bv8>): Words
    decreases |bytes|
  {
    if |bytes| < 64 then INITIAL
    else CompressBlock(HashBlocks(bytes[..|bytes| - 64]), bytes[|bytes| - 64..])
  }

  // Section 5.1.1: padding.

  function Zeros(n: nat): (r: seq<bv8>)
    ensures |r| == n
  {
    seq(n, _ => 0)
  }

  /** The number of zero bytes between the 0x80 marker and the length. */
  function ZeroCount(length: nat): (k: nat)
    ensures k < 64 && (length + 1 + k) % 64 == 56
  {
    (119 - length % 64) % 64
  }

  /** Two to the power `8 * (7 - i)`. */
  function BytePlace(i: nat): (p: nat)
    requires i < 8
    ensures p > 0
  {
    if i == 7 then 1
    else if i == 6 then 0x100
    else if i == 5 then 0x1_0000
    else if i == 4 then 0x100_0000
    else if i == 3 then 0x1_0000_0000
    else if i == 2 then 0x100_0000_0000
    else if i == 1 then 0x1_0000_0000_0000
    else 0x100_0000_0000_0000
  }

  function LengthByte(bits: nat, i: nat): bv8
    requires i < 8
  {
    ((bits / BytePlace(i)) % 256) as bv8
  }

  /** What a 64 bit counter holds. */
  function Wrap64(n: nat): nat { n % 0x1_0000_0000_0000_0000 }

  /** The message length in bits as eight big-endian bytes, modulo two to the sixty-fourth
      as the implementation's counter is. */
  function LengthBytes(length: nat): (r: seq<bv8>)
    ensures |r| == 8
  {
    var bits := Wrap64(8 * length);
    seq(8, i requires 0 <= i < 8 => LengthByte(bits, i))
  }

  function Padded(message: seq<bv8>): (r: seq<bv8>)
    ensures |r| % 64 == 0
  {
    hide Zeros, LengthBytes, ZeroCount;
    WholeBlocks(|message| + 1 + ZeroCount(|message|));
    message + [0x80] + Zeros(ZeroCount(|message|)) + LengthBytes(|message|)
  }

  lemma WholeBlocks(n: nat)
    requires n % 64 == 56
    ensures (n + 8) % 64 == 0
  {
  }

  function WordByte(v: bv32, i: nat): bv8
    requires i < 4
  {
    ((v >> (24 - 8 * i)) & 0xff) as bv8
  }

  function WordBytes(v: bv32): (r: seq<bv8>)
    ensures |r| == 4
  {
    [WordByte(v, 0), WordByte(v, 1), WordByte(v, 2), WordByte(v, 3)]
  }

  function DigestBytes(h: Words): (r: seq<bv8>)
    ensures |r| == 32
  {
    WordBytes(h.a) + WordBytes(h.b) + WordBytes(h.c) + WordBytes(h.d)
    + WordBytes(h.e) + WordBytes(h.f) + WordBytes(h.g) + WordBytes(h.h)
  }

  /** SHA-256 of a message. */
  function Digest(message: seq<bv8>): seq<bv8> { DigestBytes(HashBlocks(Padded(message))) }

  /** The length field is the true bit length of every message FIPS 180-4 admits. */
  lemma LengthFieldIsExact(length: nat)
    requires 8 * length < 0x1_0000_0000_0000_0000
    ensures forall i :: 0 <= i < 8 ==> LengthBytes(length)[i] == LengthByte(8 * length, i)
  {
    hide LengthByte;
    assert Wrap64(8 * length) == 8 * length;
  }
}

module Sha256 {
  import opened Sha256Spec

  function WordsOf(s: seq<bv32>): Words
    requires |s| == 8
  {
    Words(s[0], s[1], s[2], s[3], s[4], s[5], s[6], s[7])
  }

  method ExpandSchedule(block: Block) returns (schedule: array<bv32>)
    ensures fresh(schedule) && schedule.Length == 64
    ensures forall t :: 0 <= t < 64 ==> schedule[t] == Schedule(block, t)
  {
    hide BlockWord, Expand;
    schedule := new bv32[64];
    for index := 0 to 16
      invariant forall t :: 0 <= t < index ==> schedule[t] == Schedule(block, t)
    {
      schedule[index] := BlockWord(block, index);
    }
    for index := 16 to 64
      invariant forall t :: 0 <= t < index ==> schedule[t] == Schedule(block, t)
    {
      schedule[index] :=
        Expand(schedule[index - 2], schedule[index - 7], schedule[index - 15], schedule[index - 16]);
    }
  }

  /** The compression function: schedule, sixty-four rounds over the working variables, and
      the final additions. */
  method Compress(h: Words, block: Block) returns (r: Words)
    ensures r == CompressBlock(h, block)
  {
    hide Temp1, Temp2, Add, Schedule, RoundConstant;
    var schedule := ExpandSchedule(block);
    var v := h;
    for index := 0 to 64
      invariant v == Rounds(h, block, index)
    {
      var temp1 := Temp1(v, RoundConstant(index), schedule[index]);
      var temp2 := Temp2(v);
      v := Words(Add(temp1, temp2), v.a, v.b, v.c, Add(v.d, temp1), v.e, v.f, v.g);
    }
    r := AddWords(h, v);
  }

  lemma Residue(n: nat, k: int, r: nat)
    requires n == 0x1_0000_0000_0000_0000 * k + r && r < 0x1_0000_0000_0000_0000
    ensures Wrap64(n) == r
  {
  }

  lemma Quotient(n: nat) returns (q: nat)
    ensures n == 0x1_0000_0000_0000_0000 * q + Wrap64(n) && Wrap64(n) < 0x1_0000_0000_0000_0000
  {
    q := n / 0x1_0000_0000_0000_0000;
  }

  lemma WrapThenScale(n: nat)
    ensures Wrap64(8 * Wrap64(n)) == Wrap64(8 * n)
  {
    hide Wrap64;
    var q := Quotient(n);
    var p := Quotient(8 * Wrap64(n));
    Residue(8 * n, 8 * q + p, Wrap64(8 * Wrap64(n)));
  }

  lemma WrapThenAdd(n: nat, k: nat)
    ensures Wrap64(Wrap64(n) + k) == Wrap64(n + k)
  {
    hide Wrap64;
    var q := Quotient(n);
    var p := Quotient(Wrap64(n) + k);
    Residue(n + k, q + p, Wrap64(Wrap64(n) + k));
  }

  /** The buffer holds 56 bytes exactly when all the zeros are in, although it wraps at 64. */
  lemma ZeroLoopStops(length: nat, fed: nat, blocks: nat, bufferSize: nat)
    requires fed <= ZeroCount(length) && bufferSize < 64 && length + 1 + fed == 64 * blocks + bufferSize
    ensures bufferSize == 56 <==> fed == ZeroCount(length)
  {
  }

  lemma LengthBytesAre(n: nat, bytes: seq<bv8>)
    requires |bytes| == 8 && forall i :: 0 <= i < 8 ==> bytes[i] == LengthByte(Wrap64(8 * n), i)
    ensures bytes == LengthBytes(n)
  {
    hide LengthByte, Wrap64;
  }

  lemma NoTail(length: nat, blocks: nat, bufferSize: nat)
    requires length % 64 == 0 && length == 64 * blocks + bufferSize && bufferSize < 64
    ensures bufferSize == 0
  {
  }

  lemma PaddedIsJoined(message: seq<bv8>, marked: seq<bv8>, filled: seq<bv8>, all: seq<bv8>)
    requires marked == message + [0x80] && filled == marked + Zeros(ZeroCount(|message|))
    requires all == filled + LengthBytes(|message|)
    ensures all == Padded(message) && |all| % 64 == 0
  {
  }

  /** The last whole block of a message is what the final compression adds. */
  lemma OneMoreBlock(message: seq<bv8>, block: Block)
    requires |message| >= 64 && block == message[|message| - 64..]
    ensures HashBlocks(message) == CompressBlock(HashBlocks(message[..|message| - 64]), block)
  {
    hide CompressBlock;
  }

  /** The streaming hasher. `message` is the ghost record of everything fed so far. */
  class Hasher {
    var state: Words
    var buffer: array<bv8>
    var totalBytes: nat
    var bufferSize: nat
    var finished: bool
    ghost var message: seq<bv8>
    ghost var blocks: nat

    /** Everything but the buffered tail has been compressed. */
    ghost predicate Buffered()
      reads this`buffer, this`bufferSize, this`message, this`blocks, this`state, buffer
    {
      && buffer.Length == 64
      && bufferSize < 64
      && |message| == 64 * blocks + bufferSize
      && buffer[..bufferSize] == message[|message| - bufferSize..]
      && state == HashBlocks(message[..|message| - bufferSize])
    }

    ghost predicate Valid()
      reads this, buffer
    {
      Buffered() && totalBytes == Wrap64(|message|)
    }

    constructor ()
      ensures Valid() && message == [] && !finished && fresh(buffer)
    {
      state := INITIAL;
      buffer := new bv8[64];
      totalBytes := 0;
      bufferSize := 0;
      finished := false;
      message := [];
      blocks := 0;
    }

    method Update(bytes: seq<bv8>)
      requires Valid()
      modifies this, buffer
      ensures Valid() && buffer == old(buffer) && finished == old(finished)
      ensures message == if finished then old(message) else old(message) + bytes
    {
      hide Buffered, HashBlocks, Wrap64;
      if finished {
        return;
      }
      WrapThenAdd(|message|, |bytes|);
      totalBytes := Wrap64(totalBytes + |bytes|);
      Feed(bytes);
    }

    /** The update loop: as much as fits at a time. */
    method Feed(bytes: seq<bv8>)
      requires Buffered()
      modifies this`state, this`bufferSize, this`message, this`blocks, buffer
      ensures Buffered() && message == old(message) + bytes
    {
      hide Buffered;
      var offset := 0;
      while offset < |bytes|
        invariant 0 <= offset <= |bytes|
        invariant Buffered() && message == old(message) + bytes[..offset]
      {
        RoomLeft();
        var space := 64 - bufferSize;
        var take := if |bytes| - offset < space then |bytes| - offset else space;
        assert bytes[..offset] + bytes[offset..offset + take] == bytes[..offset + take];
        Absorb(bytes[offset..offset + take]);
        offset := offset + take;
      }
      assert bytes[..offset] == bytes;
    }

    lemma RoomLeft()
      requires Buffered()
      ensures bufferSize < 64
    {
    }

    /** Copies a piece behind the buffered bytes. */
    method CopyIn(piece: seq<bv8>)
      requires buffer.Length == 64 && bufferSize + |piece| <= 64
      modifies buffer
      ensures buffer[..bufferSize + |piece|] == old(buffer[..bufferSize]) + piece
    {
      for i := 0 to |piece|
        invariant buffer[..bufferSize + i] == old(buffer[..bufferSize]) + piece[..i]
      {
        buffer[bufferSize + i] := piece[i];
      }
    }

    /** One turn of the update loop: copy what fits, and compress a full buffer. */
    method Absorb(piece: seq<bv8>)
      requires Buffered() && 0 < |piece| <= 64 - bufferSize
      modifies this`state, this`bufferSize, this`message, this`blocks, buffer
      ensures Buffered() && message == old(message) + piece
    {
      hide CompressBlock, HashBlocks;
      ghost var compressed := |message| - bufferSize;
      ghost var prefix := message[..compressed];
      CopyIn(piece);
      message := message + piece;
      bufferSize := bufferSize + |piece|;
      assert buffer[..bufferSize] == message[compressed..];
      assert message[..compressed] == prefix;
      if bufferSize == 64 {
        assert buffer[..] == buffer[..bufferSize];
        OneMoreBlock(message, buffer[..]);
        state := Compress(state, buffer[..]);
        bufferSize := 0;
        blocks := blocks + 1;
        assert message[..|message| - bufferSize] == message;
      }
    }

    /** Feeds zero bytes until the buffer holds 56. */
    method FeedZeros(ghost length: nat)
      requires Valid() && !finished && |message| == length + 1
      modifies this, buffer
      ensures Valid() && !finished && buffer == old(buffer) && bufferSize == 56
      ensures message == old(message) + Zeros(ZeroCount(length))
    {
      ghost var fed := 0;
      ZeroLoopStops(length, fed, blocks, bufferSize);
      while bufferSize != 56
        invariant Valid() && !finished && buffer == old(buffer)
        invariant fed <= ZeroCount(length) && (bufferSize == 56 <==> fed == ZeroCount(length))
        invariant message == old(message) + Zeros(fed)
        decreases ZeroCount(length) - fed
      {
        hide HashBlocks, ZeroCount, Wrap64;
        Update([0]);
        assert Zeros(fed) + [0] == Zeros(fed + 1);
        fed := fed + 1;
        ZeroLoopStops(length, fed, blocks, bufferSize);
      }
    }

    /** Feeds the marker, the zeros and the bit length. */
    method Pad()
      requires Valid() && !finished
      modifies this, buffer
      ensures Valid() && !finished && buffer == old(buffer) && bufferSize == 0
      ensures message == Padded(old(message))
    {
      hide HashBlocks, LengthByte, LengthBytes, ZeroCount, Zeros, Padded, Wrap64;
      ghost var original := message;
      WrapThenScale(|original|);
      var length := LengthBytesOf(Wrap64(8 * totalBytes));
      LengthBytesAre(|original|, length);
      Update([0x80]);
      ghost var marked := message;
      FeedZeros(|original|);
      ghost var filled := message;
      Update(length);
      PaddedIsJoined(original, marked, filled, message);
      NoTail(|message|, blocks, bufferSize);
    }

    /** Pads once, and reads off the digest. */
    method Finish() returns (digest: seq<bv8>)
      requires Valid()
      requires finished ==> bufferSize == 0
      modifies this, buffer
      ensures Valid() && finished && buffer == old(buffer) && bufferSize == 0
      ensures message == if old(finished) then old(message) else Padded(old(message))
      ensures digest == DigestBytes(HashBlocks(message))
    {
      hide HashBlocks, DigestBytes, Padded, Wrap64;
      if !finished {
        Pad();
        finished := true;
      }
      assert message[..|message| - bufferSize] == message;
      digest := DigestBytes(state);
    }
  }

  method LengthBytesOf(bits: nat) returns (r: seq<bv8>)
    ensures |r| == 8 && forall i :: 0 <= i < 8 ==> r[i] == LengthByte(bits, i)
  {
    r := [];
    for i := 0 to 8
      invariant |r| == i && forall k :: 0 <= k < i ==> r[k] == LengthByte(bits, k)
    {
      r := r + [LengthByte(bits, i)];
    }
  }

  /** All the parts of a message, joined. */
  function Joined(parts: seq<seq<bv8>>): seq<bv8>
    decreases |parts|
  {
    if parts == [] then [] else Joined(parts[..|parts| - 1]) + parts[|parts| - 1]
  }

  /** However a message is cut into update calls, the digest is that of the whole message. */
  method DigestOfParts(parts: seq<seq<bv8>>) returns (digest: seq<bv8>)
    ensures digest == Digest(Joined(parts))
  {
    hide HashBlocks, DigestBytes, Padded;
    var hasher := new Hasher();
    for i := 0 to |parts|
      invariant fresh(hasher) && fresh(hasher.buffer) && hasher.Valid() && !hasher.finished
      invariant hasher.message == Joined(parts[..i])
    {
      assert parts[..i + 1][..i] == parts[..i];
      hasher.Update(parts[i]);
    }
    assert parts[..|parts|] == parts;
    digest := hasher.Finish();
  }
}
