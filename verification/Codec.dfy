/** Little-endian fields, their bounded writer and their bounded reader. */
module Codec {
  import opened Basics

  // -------------------------------------------------------------------------
  // Fields as functions: `Put` prepends an encoding, `Get` takes one off
  // -------------------------------------------------------------------------

  /** What a reader returns: a value and the bytes after it, or nothing. */
  type Parsed<T> = Option<(T, Text)>

  function PutU8(v: u8, rest: Text): (s: Text)
    ensures |s| == |rest| + 1
  {
    [v as char] + rest
  }

  function GetU8(s: Text): (r: Parsed<u8>)
    ensures r.Some? ==> s == PutU8(r.value.0, r.value.1)
    ensures r.None? <==> |s| < 1
  {
    if |s| < 1 then None else Some((s[0] as int, s[1..]))
  }

  function PutU16(v: u16, rest: Text): (s: Text)
    ensures |s| == |rest| + 2
  {
    PutU8(v % 0x100, PutU8(v / 0x100, rest))
  }

  function GetU16(s: Text): (r: Parsed<u16>)
    ensures r.Some? ==> s == PutU16(r.value.0, r.value.1)
    ensures r.None? <==> |s| < 2
  {
    hide PutU8;
    var (low, s1) :- GetU8(s);
    var (high, s2) :- GetU8(s1);
    Some((low + 0x100 * high, s2))
  }

  function PutU32(v: u32, rest: Text): (s: Text)
    ensures |s| == |rest| + 4
  {
    PutU16(v % 0x1_0000, PutU16(v / 0x1_0000, rest))
  }

  function GetU32(s: Text): (r: Parsed<u32>)
    ensures r.Some? ==> s == PutU32(r.value.0, r.value.1)
    ensures r.None? <==> |s| < 4
  {
    hide PutU16;
    var (low, s1) :- GetU16(s);
    var (high, s2) :- GetU16(s1);
    HalvesLaw(low, high);
    Some((low + 0x1_0000 * high, s2))
  }

  lemma HalvesLaw(low: u16, high: u16)
    ensures (low + 0x1_0000 * high) % 0x1_0000 == low && (low + 0x1_0000 * high) / 0x1_0000 == high
  {
  }

  function LowWord(v: u64): u32 { v % 0x1_0000_0000 }

  function HighWord(v: u64): u32 { v / 0x1_0000_0000 }

  function Words(low: u32, high: u32): u64 { low + 0x1_0000_0000 * high }

  lemma WordsLaw(low: u32, high: u32)
    ensures LowWord(Words(low, high)) == low && HighWord(Words(low, high)) == high
  {
  }

  lemma WordsOf(v: u64)
    ensures Words(LowWord(v), HighWord(v)) == v
  {
  }

  function PutU64(v: u64, rest: Text): (s: Text)
    ensures |s| == |rest| + 8
  {
    PutU32(LowWord(v), PutU32(HighWord(v), rest))
  }

  function GetU64(s: Text): (r: Parsed<u64>)
    ensures r.Some? ==> s == PutU64(r.value.0, r.value.1)
    ensures r.None? <==> |s| < 8
  {
    hide PutU32, LowWord, HighWord, Words;
    var (low, s1) :- GetU32(s);
    var (high, s2) :- GetU32(s1);
    WordsLaw(low, high);
    Some((Words(low, high), s2))
  }

  function PutBool(b: bool, rest: Text): (s: Text)
    ensures |s| == |rest| + 1
  {
    PutU8(if b then 1 else 0, rest)
  }

  function GetBool(s: Text): (r: Parsed<bool>)
    ensures r.Some? ==> s == PutBool(r.value.0, r.value.1)
  {
    hide PutU8;
    var (raw, rest) :- GetU8(s);
    if raw > 1 then None else Some((raw == 1, rest))
  }

  /** A length, as the writer narrows it. */
  function Narrow32(n: nat): u32 { n % 0x1_0000_0000 }

  lemma NarrowKeeps(n: nat)
    requires n < 0x1_0000_0000
    ensures Narrow32(n) == n
  {
  }

  function PutText(t: Text, rest: Text): (s: Text)
    ensures |s| == |rest| + |t| + 4
  {
    PutU32(Narrow32(|t|), t + rest)
  }

  function GetText(max: u32, s: Text): (r: Parsed<Text>)
    ensures r.Some? ==> s == PutText(r.value.0, r.value.1) && |r.value.0| <= max
  {
    hide PutText, PutU32;
    var (length, rest) :- GetU32(s);
    if length > max || |rest| < length then None
    else
      TextSplits(length, rest);
      Some((rest[..length], rest[length..]))
  }

  lemma TextSplits(length: u32, rest: Text)
    requires length <= |rest|
    ensures PutText(rest[..length], rest[length..]) == PutU32(length, rest)
  {
    hide PutU32, Narrow32;
    NarrowKeeps(length);
    assert rest == rest[..length] + rest[length..];
  }

  function PutId(id: Id, rest: Text): (s: Text)
    ensures |s| == |rest| + |id| + 4
  {
    PutText(id, rest)
  }

  /** An identifier field: empty, or an encoding that satisfies the grammar. */
  function GetId(s: Text): (r: Parsed<Id>)
    ensures r.Some? ==> s == PutId(r.value.0, r.value.1)
  {
    hide PutText, ValidIdentifier;
    var (text, rest) :- GetText(MAX_IDENTIFIER_LENGTH, s);
    if text == [] || ValidIdentifier(text) then Some((text, rest)) else None
  }

  // -------------------------------------------------------------------------
  // Reading undoes writing
  // -------------------------------------------------------------------------

  lemma U8Law()
    ensures forall v: u8, rest: Text :: GetU8(PutU8(v, rest)) == Some((v, rest))
  {
    forall v: u8, rest: Text ensures GetU8(PutU8(v, rest)) == Some((v, rest)) {
      assert PutU8(v, rest)[1..] == rest;
    }
  }

  lemma U16Law()
    ensures forall v: u16, rest: Text :: GetU16(PutU16(v, rest)) == Some((v, rest))
  {
    hide GetU8, PutU8;
    U8Law();
  }

  lemma U32Law()
    ensures forall v: u32, rest: Text :: GetU32(PutU32(v, rest)) == Some((v, rest))
  {
    hide GetU16, PutU16;
    U16Law();
  }

  lemma U64Law()
    ensures forall v: u64, rest: Text :: GetU64(PutU64(v, rest)) == Some((v, rest))
  {
    hide GetU64, PutU64;
    forall v: u64, rest: Text ensures GetU64(PutU64(v, rest)) == Some((v, rest)) {
      U64Returns(v, rest);
    }
  }

  lemma U64Returns(v: u64, rest: Text)
    ensures GetU64(PutU64(v, rest)) == Some((v, rest))
  {
    hide GetU32, PutU32, LowWord, HighWord, Words;
    var high := PutU32(HighWord(v), rest);
    U32Returns(LowWord(v), high);
    U32Returns(HighWord(v), rest);
    WordsOf(v);
  }

  lemma U32Returns(v: u32, rest: Text)
    ensures GetU32(PutU32(v, rest)) == Some((v, rest))
  {
    hide GetU32, PutU32;
    U32Law();
  }

  lemma BoolLaw()
    ensures forall b: bool, rest: Text :: GetBool(PutBool(b, rest)) == Some((b, rest))
  {
    hide GetU8, PutU8;
    U8Law();
  }

  lemma TextLaw(max: u32)
    ensures forall t: Text, rest: Text :: |t| <= max ==> GetText(max, PutText(t, rest)) == Some((t, rest))
  {
    hide GetU32, PutU32;
    U32Law();
    forall t: Text, rest: Text | |t| <= max ensures GetText(max, PutText(t, rest)) == Some((t, rest)) {
      assert (t + rest)[..|t|] == t && (t + rest)[|t|..] == rest;
    }
  }

  lemma IdLaw()
    ensures forall id: Id, rest: Text :: GetId(PutId(id, rest)) == Some((id, rest))
  {
    hide GetText, PutText;
    TextLaw(MAX_IDENTIFIER_LENGTH);
    forall id: Id, rest: Text ensures GetId(PutId(id, rest)) == Some((id, rest)) {
      assert id == [] || ValidIdentifier(id);
    }
  }

  // -------------------------------------------------------------------------
  // What follows a field is left alone
  // -------------------------------------------------------------------------

  lemma U32Prepends(v: u32, a: Text, b: Text)
    ensures PutU32(v, a) + b == PutU32(v, a + b)
  {
    hide PutU16;
    U16Prepends(v / 0x1_0000, a, b);
    U16Prepends(v % 0x1_0000, PutU16(v / 0x1_0000, a), b);
  }

  lemma U16Prepends(v: u16, a: Text, b: Text)
    ensures PutU16(v, a) + b == PutU16(v, a + b)
  {
  }

  lemma U32Appends(v: u32, b: Text)
    ensures PutU32(v, []) + b == PutU32(v, b)
  {
    hide PutU32;
    U32Prepends(v, [], b);
    assert [] + b == b;
  }

  lemma U64Appends(v: u64, a: Text, b: Text)
    ensures PutU64(v, a) + b == PutU64(v, a + b)
  {
    hide PutU32, LowWord, HighWord;
    U32Prepends(HighWord(v), a, b);
    U32Prepends(LowWord(v), PutU32(HighWord(v), a), b);
  }

  lemma U32Skips(v: u32, rest: Text)
    ensures PutU32(v, rest)[4..] == rest
  {
  }

  lemma U64Skips(v: u64, rest: Text)
    ensures PutU64(v, rest)[8..] == rest
  {
    hide PutU32, LowWord, HighWord;
    U32Skips(LowWord(v), PutU32(HighWord(v), rest));
    U32Skips(HighWord(v), rest);
  }

  // -------------------------------------------------------------------------
  // Lists
  // -------------------------------------------------------------------------

  function PutEach<T>(items: seq<T>, put: (T, Text) -> Text, rest: Text): Text
    decreases |items|
  {
    if items == [] then rest else put(items[0], PutEach(items[1..], put, rest))
  }

  function GetEach<T>(n: nat, get: Text -> Parsed<T>, s: Text): (r: Parsed<seq<T>>)
    ensures r.Some? ==> |r.value.0| == n
  {
    if n == 0 then Some(([], s))
    else
      var (item, s1) :- get(s);
      var (items, s2) :- GetEach(n - 1, get, s1);
      Some(([item] + items, s2))
  }

  /** Writing a list never loses what follows it. */
  lemma {:induction false} EachGrows<T(!new)>(items: seq<T>, put: (T, Text) -> Text, rest: Text)
    requires forall v, after :: |put(v, after)| >= |after|
    ensures |PutEach(items, put, rest)| >= |rest|
    decreases |items|
  {
    if items != [] {
      EachGrows(items[1..], put, rest);
    }
  }

  /** `get` takes off exactly what `put` prepends, for the values `legal` admits. */
  ghost predicate Inverse<T(!new)>(put: (T, Text) -> Text, get: Text -> Parsed<T>, legal: T -> bool) {
    && (forall v, rest :: legal(v) ==> get(put(v, rest)) == Some((v, rest)))
    && (forall s :: get(s).Some? ==> legal(get(s).value.0) && s == put(get(s).value.0, get(s).value.1))
    && (forall v, rest :: |put(v, rest)| > |rest|)
  }

  ghost predicate AllLegal<T(!new)>(items: seq<T>, legal: T -> bool) { forall i :: 0 <= i < |items| ==> legal(items[i]) }

  lemma {:induction false} EachLaw<T(!new)>(items: seq<T>, put: (T, Text) -> Text, get: Text -> Parsed<T>, legal: T -> bool,
                                            rest: Text)
    requires Inverse(put, get, legal) && AllLegal(items, legal)
    ensures GetEach(|items|, get, PutEach(items, put, rest)) == Some((items, rest))
    ensures |PutEach(items, put, rest)| >= |items| + |rest|
    decreases |items|
  {
    if items != [] {
      EachLaw(items[1..], put, get, legal, rest);
      assert items == [items[0]] + items[1..];
    }
  }

  lemma {:induction false} EachInverse<T(!new)>(n: nat, put: (T, Text) -> Text, get: Text -> Parsed<T>, legal: T -> bool, s: Text)
    requires Inverse(put, get, legal) && GetEach(n, get, s).Some?
    ensures AllLegal(GetEach(n, get, s).value.0, legal)
    ensures s == PutEach(GetEach(n, get, s).value.0, put, GetEach(n, get, s).value.1)
  {
    if n > 0 {
      EachInverse(n - 1, put, get, legal, get(s).value.1);
    }
  }

  /** A count is refused when it exceeds its bound or the bytes that are left. */
  function GetCount(limit: nat, s: Text): (r: Parsed<u32>)
    ensures r.Some? ==> s == PutU32(r.value.0, r.value.1) && r.value.0 <= limit && r.value.0 <= |r.value.1|
  {
    hide PutU32;
    var (count, rest) :- GetU32(s);
    if count > limit || count > |rest| then None else Some((count, rest))
  }

  function PutList<T>(items: seq<T>, put: (T, Text) -> Text, rest: Text): Text {
    PutU32(Narrow32(|items|), PutEach(items, put, rest))
  }

  function GetList<T>(limit: nat, get: Text -> Parsed<T>, s: Text): (r: Parsed<seq<T>>)
    ensures r.Some? ==> |r.value.0| <= limit
  {
    var (count, rest) :- GetCount(limit, s);
    GetEach(count, get, rest)
  }

  lemma ListLaw<T(!new)>(limit: u32, put: (T, Text) -> Text, get: Text -> Parsed<T>, legal: T -> bool)
    requires Inverse(put, get, legal)
    ensures forall items, rest :: AllLegal(items, legal) && |items| <= limit ==>
              GetList(limit, get, PutList(items, put, rest)) == Some((items, rest))
    ensures forall s :: GetList(limit, get, s).Some? ==>
              && AllLegal(GetList(limit, get, s).value.0, legal)
              && s == PutList(GetList(limit, get, s).value.0, put, GetList(limit, get, s).value.1)
  {
    hide Inverse, AllLegal, GetU32, PutU32, PutEach, GetEach;
    U32Law();
    forall items, rest | AllLegal(items, legal) && |items| <= limit
      ensures GetList(limit, get, PutList(items, put, rest)) == Some((items, rest))
    {
      EachLaw(items, put, get, legal, rest);
    }
    forall s | GetList(limit, get, s).Some?
      ensures AllLegal(GetList(limit, get, s).value.0, legal)
      ensures s == PutList(GetList(limit, get, s).value.0, put, GetList(limit, get, s).value.1)
    {
      var (count, rest) := GetCount(limit, s).value;
      EachInverse(count, put, get, legal, rest);
    }
  }

  // -------------------------------------------------------------------------
  // The bounded writer
  // -------------------------------------------------------------------------

  /** Once a write fails, by running past the limit or past the bound of one field, the writer
      is poisoned for good. `full` is what would have been written without the limit. */
  class ByteWriter {
    var out: Text
    var ok: bool
    const limit: nat
    ghost var full: Text
    ghost var fits: bool

    ghost predicate Valid()
      reads this
    {
      && (ok <==> fits && |full| <= limit)
      && (ok ==> out == full)
    }

    constructor (limit: nat)
      ensures Valid() && ok && fits && full == [] && this.limit == limit
    {
      out, ok, full, fits := [], true, [], true;
      this.limit := limit;
    }

    /** Accounts for `additional` bytes about to be written. */
    method Require(additional: nat)
      modifies this`ok
      ensures ok == (old(ok) && |out| + additional <= limit)
    {
      if ok && (additional > limit || |out| > limit - additional) {
        ok := false;
      }
    }

    method Raw(bytes: Text)
      requires Valid()
      modifies this
      ensures Valid() && fits == old(fits) && full == old(full) + bytes
    {
      Require(|bytes|);
      full := full + bytes;
      if ok {
        out := out + bytes;
      }
    }

    method U8(v: u8)
      requires Valid()
      modifies this
      ensures Valid() && fits == old(fits)
      ensures forall rest :: full + rest == old(full) + PutU8(v, rest)
    {
      Require(1);
      full := full + [v as char];
      if ok {
        out := out + [v as char];
      }
    }

    method U16(v: u16)
      requires Valid()
      modifies this
      ensures Valid() && fits == old(fits)
      ensures forall rest :: full + rest == old(full) + PutU16(v, rest)
    {
      Raw([(v % 0x100) as char, (v / 0x100) as char]);
    }

    method U32(v: u32)
      requires Valid()
      modifies this
      ensures Valid() && fits == old(fits)
      ensures forall rest :: full + rest == old(full) + PutU32(v, rest)
    {
      hide Valid;
      var bytes := BytesOf32(v);
      Raw(bytes);
    }

    method U64(v: u64)
      requires Valid()
      modifies this
      ensures Valid() && fits == old(fits)
      ensures forall rest :: full + rest == old(full) + PutU64(v, rest)
    {
      hide Valid, PutU32, LowWord, HighWord;
      var low := BytesOf32(LowWord(v));
      var high := BytesOf32(HighWord(v));
      Raw(low + high);
      forall rest ensures full + rest == old(full) + PutU64(v, rest) {
        assert full + rest == old(full) + (low + (high + rest));
      }
    }

    method Boolean(b: bool)
      requires Valid()
      modifies this
      ensures Valid() && fits == old(fits)
      ensures forall rest :: full + rest == old(full) + PutBool(b, rest)
    {
      hide Valid, PutU8;
      U8(if b then 1 else 0);
    }

    /** Length-prefixed text with a bound of its own. */
    method TextField(t: Text, max: nat)
      requires Valid()
      modifies this
      ensures Valid() && fits == (old(fits) && |t| <= max)
      ensures |t| <= max ==> forall rest :: full + rest == old(full) + PutText(t, rest)
    {
      if |t| > max {
        ok := false;
        fits := false;
        return;
      }
      hide Valid, PutU32, Narrow32;
      U32(Narrow32(|t|));
      label Prefixed:
      Raw(t);
      forall rest ensures full + rest == old(full) + PutText(t, rest) {
        assert full + rest == old@Prefixed(full) + (t + rest);
      }
    }

    method Identifier(id: Id)
      requires Valid()
      modifies this
      ensures Valid() && fits == old(fits)
      ensures forall rest :: full + rest == old(full) + PutId(id, rest)
    {
      assert |id| <= MAX_IDENTIFIER_LENGTH by {
        assert id == [] || ValidIdentifier(id);
      }
      hide Valid, PutText, ValidIdentifier;
      TextField(id, MAX_IDENTIFIER_LENGTH);
    }
  }

  /** The four bytes of a value, least significant first. */
  method BytesOf32(v: u32) returns (bytes: Text)
    ensures |bytes| == 4 && forall rest :: PutU32(v, rest) == bytes + rest
  {
    var low, high := v % 0x1_0000, v / 0x1_0000;
    bytes := [(low % 0x100) as char, (low / 0x100) as char, (high % 0x100) as char, (high / 0x100) as char];
  }

  // -------------------------------------------------------------------------
  // The bounded reader
  // -------------------------------------------------------------------------

  /** The value taken and the bytes left are what `spec` says. */
  predicate Took<T(==)>(v: Option<T>, rest: Text, spec: Parsed<T>) {
    match spec
    case None => v.None?
    case Some((x, after)) => v == Some(x) && rest == after
  }

  class ByteReader {
    const input: Text
    var offset: nat
    var ok: bool

    predicate Valid()
      reads this
    {
      offset <= |input|
    }

    function Rest(): Text
      reads this
      requires Valid()
    {
      input[offset..]
    }

    constructor (input: Text)
      ensures Valid() && ok && Rest() == input && this.input == input
    {
      this.input, offset, ok := input, 0, true;
    }

    method U8() returns (v: Option<u8>)
      requires Valid()
      modifies this
      ensures Valid() && ok == (old(ok) && v.Some?)
      ensures old(ok) ==> Took(v, Rest(), GetU8(old(Rest())))
      ensures !old(ok) ==> v.None?
    {
      if !ok || |input| - offset < 1 {
        ok := false;
        return None;
      }
      v := Some(input[offset] as int);
      offset := offset + 1;
    }

    method U16() returns (v: Option<u16>)
      requires Valid()
      modifies this
      ensures Valid() && ok == (old(ok) && v.Some?)
      ensures old(ok) ==> Took(v, Rest(), GetU16(old(Rest())))
      ensures !old(ok) ==> v.None?
    {
      if !ok || |input| - offset < 2 {
        ok := false;
        return None;
      }
      v := Some(input[offset] as int + 0x100 * (input[offset + 1] as int));
      offset := offset + 2;
    }

    method U32() returns (v: Option<u32>)
      requires Valid()
      modifies this
      ensures Valid() && ok == (old(ok) && v.Some?)
      ensures old(ok) ==> Took(v, Rest(), GetU32(old(Rest())))
      ensures !old(ok) ==> v.None?
    {
      if !ok || |input| - offset < 4 {
        ok := false;
        return None;
      }
      var value := FourBytes(Rest());
      v := Some(value);
      offset := offset + 4;
    }

    method U64() returns (v: Option<u64>)
      requires Valid()
      modifies this
      ensures Valid() && ok == (old(ok) && v.Some?)
      ensures old(ok) ==> Took(v, Rest(), GetU64(old(Rest())))
      ensures !old(ok) ==> v.None?
    {
      hide PutU32, PutU64, Words;
      if !ok || |input| - offset < 8 {
        ok := false;
        return None;
      }
      var low := FourBytes(Rest());
      var high := FourBytes(input[offset + 4..]);
      hide GetU32;
      assert Rest()[4..] == input[offset + 4..];
      v := Some(Words(low, high));
      offset := offset + 8;
    }

    method Boolean() returns (v: Option<bool>)
      requires Valid()
      modifies this
      ensures Valid() && ok == (old(ok) && v.Some?)
      ensures old(ok) ==> Took(v, Rest(), GetBool(old(Rest())))
      ensures !old(ok) ==> v.None?
    {
      hide GetU8, PutU8;
      var raw := U8();
      if raw.None? {
        return None;
      }
      if raw.value > 1 {
        ok := false;
        return None;
      }
      return Some(raw.value == 1);
    }

    method Raw(length: nat) returns (v: Option<Text>)
      requires Valid()
      modifies this
      ensures Valid() && ok == (old(ok) && v.Some?)
      ensures old(ok) && |old(Rest())| >= length ==> v == Some(old(Rest())[..length]) && Rest() == old(Rest())[length..]
      ensures !old(ok) || |old(Rest())| < length ==> v.None?
    {
      if !ok || |input| - offset < length {
        ok := false;
        return None;
      }
      assert input[offset..][..length] == input[offset..offset + length];
      assert input[offset..][length..] == input[offset + length..];
      v := Some(input[offset..offset + length]);
      offset := offset + length;
    }

    method TextField(max: u32) returns (v: Option<Text>)
      requires Valid()
      modifies this
      ensures Valid() && ok == (old(ok) && v.Some?)
      ensures old(ok) ==> Took(v, Rest(), GetText(max, old(Rest())))
      ensures !old(ok) ==> v.None?
    {
      hide GetU32, PutU32, PutText;
      var length := U32();
      if length.None? {
        return None;
      }
      if length.value > max {
        ok := false;
        return None;
      }
      v := Raw(length.value);
    }

    /** An identifier field; a malformed encoding is refused without poisoning the reader. */
    method Identifier() returns (v: Option<Id>)
      requires Valid() && ok
      modifies this
      ensures Valid() && (v.Some? ==> ok)
      ensures Took(v, Rest(), GetId(old(Rest())))
    {
      hide GetText, PutText, ValidIdentifier;
      var text := TextField(MAX_IDENTIFIER_LENGTH);
      if text.None? {
        return None;
      }
      if text.value == [] || ValidIdentifier(text.value) {
        return Some(text.value);
      }
      return None;
    }

    /** A count bounded by its limit and by what is left to read. */
    method Count(limit: nat) returns (v: Option<u32>)
      requires Valid() && ok
      modifies this
      ensures Valid() && (v.Some? ==> ok)
      ensures Took(v, Rest(), GetCount(limit, old(Rest())))
    {
      hide GetU32, PutU32;
      var count := U32();
      if count.None? || count.value > limit || count.value > |input| - offset {
        return None;
      }
      return count;
    }
  }

  method FourBytes(s: Text) returns (v: u32)
    requires |s| >= 4
    ensures GetU32(s) == Some((v, s[4..]))
  {
    v := s[0] as int + 0x100 * (s[1] as int) + 0x1_0000 * (s[2] as int) + 0x100_0000 * (s[3] as int);
    assert s[1..][1..] == s[2..] && s[2..][1..] == s[3..] && s[3..][1..] == s[4..];
  }
}
