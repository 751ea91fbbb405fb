/** UTF-8 well-formedness and the bounded text rule built on it. */
module Utf8 {
  import opened Basics

  // -------------------------------------------------------------------------
  // The grammar of section 4 of RFC 3629
  // -------------------------------------------------------------------------

  predicate InRange(c: byte, low: int, high: int) { low <= c as int <= high }

  predicate IsTail(c: byte) { InRange(c, 0x80, 0xbf) }

  predicate IsChar1(s: Text) { |s| == 1 && InRange(s[0], 0x00, 0x7f) }

  predicate IsChar2(s: Text) { |s| == 2 && InRange(s[0], 0xc2, 0xdf) && IsTail(s[1]) }

  predicate IsChar3(s: Text) {
    && |s| == 3
    && (|| (InRange(s[0], 0xe0, 0xe0) && InRange(s[1], 0xa0, 0xbf))
        || (InRange(s[0], 0xe1, 0xec) && IsTail(s[1]))
        || (InRange(s[0], 0xed, 0xed) && InRange(s[1], 0x80, 0x9f))
        || (InRange(s[0], 0xee, 0xef) && IsTail(s[1])))
    && IsTail(s[2])
  }

  predicate IsChar4(s: Text) {
    && |s| == 4
    && (|| (InRange(s[0], 0xf0, 0xf0) && InRange(s[1], 0x90, 0xbf))
        || (InRange(s[0], 0xf1, 0xf3) && IsTail(s[1]))
        || (InRange(s[0], 0xf4, 0xf4) && InRange(s[1], 0x80, 0x8f)))
    && IsTail(s[2]) && IsTail(s[3])
  }

  predicate IsChar(s: Text) { IsChar1(s) || IsChar2(s) || IsChar3(s) || IsChar4(s) }

  /** UTF8-octets: any number of UTF8-char, read as "some first character, then more". */
  predicate WellFormed(s: Text)
    decreases |s|
  {
    s == [] || exists n :: 1 <= n <= 4 && n <= |s| && IsChar(s[..n]) && WellFormed(s[n..])
  }

  /** The grammar is prefix-free: two characters that start the same text are one character. */
  lemma FirstCharIsUnique(s: Text, n: nat, m: nat)
    requires n <= |s| && m <= |s| && IsChar(s[..n]) && IsChar(s[..m])
    ensures n == m
  {
    assert s[..n][0] == s[0] && s[..m][0] == s[0];
  }

  /** Taking off a first character decides nothing about the rest. */
  lemma SkipChar(s: Text, n: nat)
    requires n <= |s| && IsChar(s[..n])
    ensures 1 <= n <= 4 && (WellFormed(s) <==> WellFormed(s[n..]))
  {
    if WellFormed(s) {
      var m :| 1 <= m <= 4 && m <= |s| && IsChar(s[..m]) && WellFormed(s[m..]);
      FirstCharIsUnique(s, n, m);
    }
  }

  /** A text none of whose prefixes is a character is not well formed. */
  lemma NoFirstChar(s: Text)
    requires s != []
    requires forall n :: 1 <= n <= 4 && n <= |s| ==> !IsChar(s[..n])
    ensures !WellFormed(s)
  {
  }

  // -------------------------------------------------------------------------
  // The validator
  // -------------------------------------------------------------------------

  function Bits(c: byte): bv8 { c as int as bv8 }

  /** The lead byte as the validator reads it: how many bytes follow, the payload bits it
      contributes and the least code point its length may encode. `None` for a byte that
      cannot lead a multi-byte sequence. */
  function Lead(c: byte): Option<(nat, bv32, bv32)> {
    var b := Bits(c);
    if b & 0xe0 == 0xc0 then Some((1, (b & 0x1f) as bv32, 0x80))
    else if b & 0xf0 == 0xe0 then Some((2, (b & 0x0f) as bv32, 0x800))
    else if b & 0xf8 == 0xf0 then Some((3, (b & 0x07) as bv32, 0x10000))
    else None
  }

  function AllBits(s: Text): (r: seq<bv8>)
    ensures |r| == |s| && forall i :: 0 <= i < |s| ==> r[i] == Bits(s[i])
  {
    seq(|s|, i requires 0 <= i < |s| => Bits(s[i]))
  }

  function Shift(codePoint: bv32, b: bv8): bv32 { (codePoint << 6) | ((b & 0x3f) as bv32) }

  /** Folding the first `k` continuation bytes into the code point. */
  function CodePoint(bits: seq<bv8>, initial: bv32, k: nat): bv32
    requires k < |bits|
  {
    if k == 0 then initial else Shift(CodePoint(bits, initial, k - 1), bits[k])
  }

  predicate IsContinuation(c: byte) { Bits(c) & 0xc0 == 0x80 }

  predicate AcceptableCodePoint(codePoint: bv32, minimum: bv32) {
    minimum <= codePoint <= 0x10ffff && !(0xd800 <= codePoint <= 0xdfff)
  }

  lemma ContinuationIsTail(c: byte)
    ensures IsContinuation(c) <==> IsTail(c)
  {
    var b := Bits(c);
    assert (b & 0xc0 == 0x80) <==> 0x80 <= b <= 0xbf;
  }

  lemma LeadRanges(c: byte)
    ensures Lead(c).Some? ==> 1 <= Lead(c).value.0 <= 3
    ensures Lead(c).Some? && Lead(c).value.0 == 1 <==> InRange(c, 0xc0, 0xdf)
    ensures Lead(c).Some? && Lead(c).value.0 == 2 <==> InRange(c, 0xe0, 0xef)
    ensures Lead(c).Some? && Lead(c).value.0 == 3 <==> InRange(c, 0xf0, 0xf7)
  {
    var b := Bits(c);
    assert (b & 0xe0 == 0xc0) <==> 0xc0 <= b <= 0xdf;
    assert (b & 0xf0 == 0xe0) <==> 0xe0 <= b <= 0xef;
    assert (b & 0xf8 == 0xf0) <==> 0xf0 <= b <= 0xf7;
  }

  /** The bounds of the grammar say the same before and after the byte is read as bits. */
  lemma LeadBounds(c: byte)
    ensures InRange(c, 0xc0, 0xdf) <==> 0xc0 <= Bits(c) <= 0xdf
    ensures InRange(c, 0xc2, 0xdf) <==> 0xc2 <= Bits(c) <= 0xdf
    ensures InRange(c, 0xe0, 0xef) <==> 0xe0 <= Bits(c) <= 0xef
    ensures c as int == 0xe0 <==> Bits(c) == 0xe0
    ensures c as int == 0xed <==> Bits(c) == 0xed
  {
  }

  lemma LongLeadBounds(c: byte)
    ensures InRange(c, 0xf0, 0xf7) <==> 0xf0 <= Bits(c) <= 0xf7
    ensures InRange(c, 0xf0, 0xf4) <==> 0xf0 <= Bits(c) <= 0xf4
    ensures c as int == 0xf0 <==> Bits(c) == 0xf0
    ensures c as int == 0xf4 <==> Bits(c) == 0xf4
  {
  }

  lemma TailBounds(c: byte)
    ensures IsTail(c) <==> 0x80 <= Bits(c) <= 0xbf
    ensures InRange(c, 0xa0, 0xbf) <==> 0xa0 <= Bits(c) <= 0xbf
    ensures InRange(c, 0x80, 0x9f) <==> 0x80 <= Bits(c) <= 0x9f
    ensures InRange(c, 0x90, 0xbf) <==> 0x90 <= Bits(c) <= 0xbf
    ensures InRange(c, 0x80, 0x8f) <==> 0x80 <= Bits(c) <= 0x8f
  {
  }

  lemma TwoByteChar(s: Text)
    requires |s| == 2 && InRange(s[0], 0xc0, 0xdf) && IsTail(s[1])
    ensures AcceptableCodePoint(CodePoint(AllBits(s), (Bits(s[0]) & 0x1f) as bv32, 1), 0x80) <==> IsChar2(s)
  {
    LeadBounds(s[0]);
    TailBounds(s[1]);
    TwoBytes(AllBits(s));
  }

  lemma ThreeByteChar(s: Text)
    requires |s| == 3 && InRange(s[0], 0xe0, 0xef) && IsTail(s[1]) && IsTail(s[2])
    ensures AcceptableCodePoint(CodePoint(AllBits(s), (Bits(s[0]) & 0x0f) as bv32, 2), 0x800) <==> IsChar3(s)
  {
    LeadBounds(s[0]);
    TailBounds(s[1]);
    TailBounds(s[2]);
    ThreeBytes(AllBits(s));
  }

  lemma FourByteChar(s: Text)
    requires |s| == 4 && InRange(s[0], 0xf0, 0xf7) && IsTail(s[1]) && IsTail(s[2]) && IsTail(s[3])
    ensures AcceptableCodePoint(CodePoint(AllBits(s), (Bits(s[0]) & 0x07) as bv32, 3), 0x10000) <==> IsChar4(s)
  {
    LongLeadBounds(s[0]);
    TailBounds(s[1]);
    TailBounds(s[2]);
    TailBounds(s[3]);
    FourBytes(AllBits(s));
  }

  /** With all continuation bytes present, the arithmetic test on the decoded code point
      says exactly what the grammar says byte by byte. */
  lemma CodePointMeetsGrammar(s: Text)
    requires s != [] && Lead(s[0]).Some? && |s| == Lead(s[0]).value.0 + 1
    requires forall k :: 1 <= k < |s| ==> IsContinuation(s[k])
    ensures AcceptableCodePoint(CodePoint(AllBits(s), Lead(s[0]).value.1, |s| - 1), Lead(s[0]).value.2) <==> IsChar(s)
  {
    LeadRanges(s[0]);
    forall k | 1 <= k < |s|
      ensures IsTail(s[k])
    {
      ContinuationIsTail(s[k]);
    }
    if |s| == 2 {
      TwoByteChar(s);
    } else if |s| == 3 {
      ThreeByteChar(s);
    } else {
      FourByteChar(s);
    }
  }

  lemma TwoBytes(b: seq<bv8>)
    requires |b| == 2 && 0xc0 <= b[0] <= 0xdf && 0x80 <= b[1] <= 0xbf
    ensures AcceptableCodePoint(CodePoint(b, (b[0] & 0x1f) as bv32, 1), 0x80) <==> 0xc2 <= b[0]
  {
    var initial := (b[0] & 0x1f) as bv32;
    assert CodePoint(b, initial, 0) == initial;
    assert CodePoint(b, initial, 1) == Shift(initial, b[1]);
  }

  lemma ThreeBytes(b: seq<bv8>)
    requires |b| == 3 && 0xe0 <= b[0] <= 0xef && 0x80 <= b[1] <= 0xbf && 0x80 <= b[2] <= 0xbf
    ensures AcceptableCodePoint(CodePoint(b, (b[0] & 0x0f) as bv32, 2), 0x800)
            <==> (b[0] == 0xe0 ==> 0xa0 <= b[1]) && (b[0] == 0xed ==> b[1] <= 0x9f)
  {
    var initial := (b[0] & 0x0f) as bv32;
    assert CodePoint(b, initial, 0) == initial;
    assert CodePoint(b, initial, 1) == Shift(initial, b[1]);
    assert CodePoint(b, initial, 2) == Shift(Shift(initial, b[1]), b[2]);
    ThreeByteValue(b[0], b[1], b[2]);
  }

  lemma ThreeByteValue(b0: bv8, b1: bv8, b2: bv8)
    requires 0xe0 <= b0 <= 0xef && 0x80 <= b1 <= 0xbf && 0x80 <= b2 <= 0xbf
    ensures AcceptableCodePoint(Shift(Shift((b0 & 0x0f) as bv32, b1), b2), 0x800)
            <==> (b0 == 0xe0 ==> 0xa0 <= b1) && (b0 == 0xed ==> b1 <= 0x9f)
  {
  }

  lemma FourBytes(b: seq<bv8>)
    requires |b| == 4 && 0xf0 <= b[0] <= 0xf7
    requires 0x80 <= b[1] <= 0xbf && 0x80 <= b[2] <= 0xbf && 0x80 <= b[3] <= 0xbf
    ensures AcceptableCodePoint(CodePoint(b, (b[0] & 0x07) as bv32, 3), 0x10000)
            <==> (b[0] == 0xf0 ==> 0x90 <= b[1]) && b[0] <= 0xf4 && (b[0] == 0xf4 ==> b[1] <= 0x8f)
  {
    var initial := (b[0] & 0x07) as bv32;
    assert CodePoint(b, initial, 0) == initial;
    assert CodePoint(b, initial, 1) == Shift(initial, b[1]);
    assert CodePoint(b, initial, 2) == Shift(Shift(initial, b[1]), b[2]);
    assert CodePoint(b, initial, 3) == Shift(Shift(Shift(initial, b[1]), b[2]), b[3]);
    FourByteValue(b[0], b[1], b[2], b[3]);
  }

  lemma FourByteValue(b0: bv8, b1: bv8, b2: bv8, b3: bv8)
    requires 0xf0 <= b0 <= 0xf7 && 0x80 <= b1 <= 0xbf && 0x80 <= b2 <= 0xbf && 0x80 <= b3 <= 0xbf
    ensures AcceptableCodePoint(Shift(Shift(Shift((b0 & 0x07) as bv32, b1), b2), b3), 0x10000)
            <==> (b0 == 0xf0 ==> 0x90 <= b1) && b0 <= 0xf4 && (b0 == 0xf4 ==> b1 <= 0x8f)
  {
  }

  /** A multi-byte lead whose sequence is cut short, or broken by a byte that is no
      continuation, starts no character at all. */
  lemma BrokenSequence(s: Text, k: nat)
    requires s != [] && Lead(s[0]).Some?
    requires |s| <= Lead(s[0]).value.0 || (1 <= k <= Lead(s[0]).value.0 && k < |s| && !IsContinuation(s[k]))
    ensures !WellFormed(s)
  {
    hide Lead, Bits, IsContinuation;
    LeadRanges(s[0]);
    if k < |s| {
      ContinuationIsTail(s[k]);
    }
    forall n | 1 <= n <= 4 && n <= |s|
      ensures !IsChar(s[..n])
    {
      assert s[..n][0] == s[0];
      if k < n {
        assert s[..n][k] == s[k];
      }
    }
  }

  /** A byte below 0x80 is a character by itself; one above that leads nothing is none. */
  lemma SingleByte(s: Text)
    requires s != []
    ensures Bits(s[0]) < 0x80 ==> IsChar(s[..1])
    ensures Bits(s[0]) >= 0x80 && Lead(s[0]).None? ==> !WellFormed(s)
  {
    LeadRanges(s[0]);
    assert Bits(s[0]) < 0x80 <==> s[0] as int < 0x80;
    assert s[..1][0] == s[0];
    if Bits(s[0]) >= 0x80 && Lead(s[0]).None? {
      forall n | 1 <= n <= 4 && n <= |s|
        ensures !IsChar(s[..n])
      {
        assert s[..n][0] == s[0];
      }
      NoFirstChar(s);
    }
  }

  /** A complete sequence that fails the code point test starts no character. */
  lemma BadCodePoint(s: Text, n: nat)
    requires s != [] && Lead(s[0]).Some? && n == Lead(s[0]).value.0 + 1 <= |s|
    requires !IsChar(s[..n])
    ensures !WellFormed(s)
  {
    hide Lead, Bits;
    LeadRanges(s[0]);
    forall m | 1 <= m <= 4 && m <= |s|
      ensures !IsChar(s[..m])
    {
      assert s[..m][0] == s[0];
    }
  }

  /** Folds the continuation bytes of a sequence, stopping at the first byte that is none. */
  method FoldContinuations(s: Text, extra: nat, initial: bv32) returns (codePoint: bv32, broken: nat)
    requires extra < |s|
    ensures broken == 0 ==> forall k :: 1 <= k <= extra ==> IsContinuation(s[k])
    ensures broken == 0 ==> codePoint == CodePoint(AllBits(s[..extra + 1]), initial, extra)
    ensures broken != 0 ==> broken <= extra && !IsContinuation(s[broken])
  {
    ghost var bits := AllBits(s[..extra + 1]);
    codePoint := initial;
    var offset := 1;
    while offset <= extra
      invariant 1 <= offset <= extra + 1
      invariant codePoint == CodePoint(bits, initial, offset - 1)
      invariant forall k :: 1 <= k < offset ==> IsContinuation(s[k])
    {
      if !IsContinuation(s[offset]) {
        return codePoint, offset;
      }
      assert bits[offset] == Bits(s[offset]);
      codePoint := Shift(codePoint, Bits(s[offset]));
      offset := offset + 1;
    }
    return codePoint, 0;
  }

  /** One multi-byte character of the validator's loop: its length when the sequence at the
      front of `s` is acceptable, and zero when `s` cannot be well formed. */
  method MultiByteChar(s: Text, extra: nat, initial: bv32, minimum: bv32) returns (length: nat)
    requires s != [] && Lead(s[0]) == Some((extra, initial, minimum))
    ensures length <= |s|
    ensures length != 0 ==> IsChar(s[..length])
    ensures length == 0 ==> !WellFormed(s)
  {
    if extra >= |s| {
      BrokenSequence(s, 0);
      return 0;
    }
    var codePoint, broken := FoldContinuations(s, extra, initial);
    if broken != 0 {
      BrokenSequence(s, broken);
      return 0;
    }
    CodePointMeetsGrammar(s[..extra + 1]);
    if !AcceptableCodePoint(codePoint, minimum) {
      BadCodePoint(s, extra + 1);
      return 0;
    }
    return extra + 1;
  }

  method IsValidUtf8(text: Text) returns (valid: bool)
    ensures valid <==> WellFormed(text)
  {
    var index := 0;
    while index < |text|
      invariant 0 <= index <= |text|
      invariant WellFormed(text) <==> WellFormed(text[index..])
    {
      var rest := text[index..];
      SingleByte(rest);
      var length := 1;
      if Bits(text[index]) >= 0x80 {
        var lead := Lead(text[index]);
        if lead.None? {
          return false;
        }
        length := MultiByteChar(rest, lead.value.0, lead.value.1, lead.value.2);
        if length == 0 {
          return false;
        }
      }
      SkipChar(rest, length);
      assert rest[length..] == text[index + length..];
      index := index + length;
    }
    return true;
  }

  // -------------------------------------------------------------------------
  // Bounded single-line text
  // -------------------------------------------------------------------------

  predicate IsControl(c: byte) { c as int < 0x20 || c as int == 0x7f }

  predicate ValidText(s: Text, maxLength: nat) {
    |s| <= maxLength && WellFormed(s) && forall i :: 0 <= i < |s| ==> !IsControl(s[i])
  }

  method ValidateText(text: Text, maxLength: nat) returns (valid: bool)
    ensures valid <==> ValidText(text, maxLength)
  {
    if |text| > maxLength {
      return false;
    }
    var utf8 := IsValidUtf8(text);
    if !utf8 {
      return false;
    }
    for i := 0 to |text|
      invariant forall k :: 0 <= k < i ==> !IsControl(text[k])
    {
      if IsControl(text[i]) {
        return false;
      }
    }
    return true;
  }

  predicate Printable(s: Text) { forall i :: 0 <= i < |s| ==> ' ' <= s[i] <= '~' }

  /** Printable ASCII is always acceptable text: every constant the engine stores qualifies. */
  lemma {:induction false} AsciiIsText(s: Text, maxLength: nat)
    requires |s| <= maxLength && Printable(s)
    ensures ValidText(s, maxLength)
    decreases |s|
  {
    if s != [] {
      AsciiIsText(s[1..], maxLength);
      assert IsChar(s[..1]) by { assert s[..1][0] == s[0]; }
      SkipChar(s, 1);
    }
  }
}
