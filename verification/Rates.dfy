/** Signalling rates: checked 64-bit arithmetic, the rate parser and the rate printer. */
module Rates {
  import opened Basics

  const MIN_SPEED := 1_000_000
  const MAX_SPEED := 1_600_000_000_000

  predicate RepresentableRate(bits: int) { MIN_SPEED <= bits <= MAX_SPEED }

  /** A rate in bits per second. The class keeps its field private and only stores values
      from `FromBits`, so it is either the invalid zero or a representable rate. */
  type PortSpeed = n: nat | n == 0 || MIN_SPEED <= n <= MAX_SPEED

  function FromBits(bits: u64): Option<PortSpeed> {
    if bits < MIN_SPEED || bits > MAX_SPEED then None else Some(bits)
  }

  // -------------------------------------------------------------------------
  // Checked arithmetic
  // -------------------------------------------------------------------------

  lemma QuotientBound(a: nat, b: nat)
    requires a != 0
    ensures b > MAX_U64 / a <==> a * b > MAX_U64
  {
    var q := MAX_U64 / a;
    assert a * q <= MAX_U64 < a * q + a;
    if b > q {
      assert a * b >= a * (q + 1) == a * q + a;
    } else {
      assert a * b <= a * q;
    }
  }

  method CheckedMultiply(lhs: u64, rhs: u64) returns (r: Option<u64>)
    ensures r == if lhs * rhs <= MAX_U64 then Some(lhs * rhs) else None
  {
    if lhs != 0 {
      QuotientBound(lhs, rhs);
      if rhs > MAX_U64 / lhs {
        return None;
      }
    }
    return Some(lhs * rhs);
  }

  method CheckedAdd(lhs: u64, rhs: u64) returns (r: Option<u64>)
    ensures r == if lhs + rhs <= MAX_U64 then Some(lhs + rhs) else None
  {
    if rhs > MAX_U64 - lhs {
      return None;
    }
    return Some(lhs + rhs);
  }

  // -------------------------------------------------------------------------
  // The grammar of rate texts and the value a text denotes
  // -------------------------------------------------------------------------

  predicate IsDigit(c: byte) { '0' <= c <= '9' }

  function DigitValue(c: byte): nat
    requires IsDigit(c)
  {
    c as int - '0' as int
  }

  predicate AllDigits(s: Text) { forall i :: 0 <= i < |s| ==> IsDigit(s[i]) }

  function Decimal(s: Text): nat
    requires AllDigits(s)
    decreases |s|
  {
    if s == [] then 0 else 10 * Decimal(s[..|s| - 1]) + DigitValue(s[|s| - 1])
  }

  lemma EmptyDecimal()
    ensures Decimal([]) == 0
  {
  }

  /** The multiplier of a unit suffix; `None` when the character is no suffix. */
  function Multiplier(c: byte): Option<nat> {
    if c == 'G' || c == 'g' then Some(1_000_000_000)
    else if c == 'M' || c == 'm' then Some(1_000_000)
    else if c == 'K' || c == 'k' then Some(1_000)
    else None
  }

  function SuffixMultiplier(suffix: Text): nat
    requires suffix == [] || (|suffix| == 1 && Multiplier(suffix[0]).Some?)
  {
    if suffix == [] then 1 else Multiplier(suffix[0]).value
  }

  function Scale(fractionDigits: nat): nat
    requires fractionDigits <= 3
  {
    if fractionDigits == 0 then 1
    else if fractionDigits == 1 then 10
    else if fractionDigits == 2 then 100
    else 1000
  }

  /** The number part: digits, or digits (possibly none), a point and one to three digits. */
  predicate IsNumber(number: Text, whole: Text, fraction: Text) {
    && AllDigits(whole) && AllDigits(fraction) && |fraction| <= 3
    && 0 < |number| <= 20
    && number == (if fraction == [] then whole else whole + ['.'] + fraction)
  }

  /** One reading of a rate text: how it splits, and the exact decimal value it has. */
  predicate Reading(text: Text, whole: Text, fraction: Text, suffix: Text, bits: nat) {
    && (suffix == [] || (|suffix| == 1 && Multiplier(suffix[0]).Some?))
    && (suffix == [] ==> fraction == [])
    && |suffix| <= |text| && text[|text| - |suffix|..] == suffix
    && IsNumber(text[..|text| - |suffix|], whole, fraction)
    && bits * Scale(|fraction|) ==
       (Decimal(whole) * Scale(|fraction|) + Decimal(fraction)) * SuffixMultiplier(suffix)
  }

  ghost predicate Denotes(text: Text, bits: nat) {
    exists whole, fraction, suffix :: Reading(text, whole, fraction, suffix, bits)
  }

  // -------------------------------------------------------------------------
  // A text has at most one reading
  // -------------------------------------------------------------------------

  lemma SuffixIsForced(text: Text, suffix: Text, number: Text)
    requires suffix == [] || (|suffix| == 1 && Multiplier(suffix[0]).Some?)
    requires |suffix| <= |text| && text[|text| - |suffix|..] == suffix && number == text[..|text| - |suffix|]
    requires number != [] && (IsDigit(number[|number| - 1]))
    ensures text != []
    ensures suffix == if Multiplier(text[|text| - 1]).Some? then [text[|text| - 1]] else []
  {
    if suffix != [] {
      assert text[|text| - 1] == suffix[0];
    }
  }

  lemma NumberEndsInDigit(number: Text, whole: Text, fraction: Text)
    requires IsNumber(number, whole, fraction)
    ensures IsDigit(number[|number| - 1])
  {
    if fraction != [] {
      assert number[|number| - 1] == fraction[|fraction| - 1];
    }
  }

  /** The whole part is the longest run of digits in front. */
  lemma SplitIsForced(number: Text, whole: Text, fraction: Text, run: nat)
    requires IsNumber(number, whole, fraction)
    requires run <= |number| && AllDigits(number[..run]) && (run == |number| || !IsDigit(number[run]))
    ensures run == |whole| && whole == number[..run]
    ensures fraction == if run == |number| then [] else number[run + 1..]
    ensures run < |number| ==> number[run] == '.'
  {
    assert forall i :: 0 <= i < run ==> IsDigit(number[..run][i]) && number[..run][i] == number[i];
    assert forall i :: 0 <= i < |whole| ==> IsDigit(whole[i]) && whole[i] == number[i];
    if fraction != [] {
      assert number[|whole|] == '.';
      assert number[|whole| + 1..] == fraction;
    }
  }

  lemma {:induction false} LongerIsLarger(s: Text, k: nat)
    requires AllDigits(s) && k <= |s|
    ensures AllDigits(s[..k]) && Decimal(s[..k]) <= Decimal(s)
    decreases |s|
  {
    if k == |s| {
      assert s[..k] == s;
    } else {
      LongerIsLarger(s[..|s| - 1], k);
      assert s[..|s| - 1][..k] == s[..k];
    }
  }

  lemma ScaledOrder(a: nat, b: nat, scale: nat)
    requires scale > 0 && a * scale <= b * scale
    ensures a <= b
  {
  }

  lemma ScaledBound(bits: nat, scale: nat, whole: nat, fraction: nat, multiplier: nat)
    requires scale > 0 && bits * scale == (whole * scale + fraction) * multiplier
    ensures whole * multiplier <= bits
  {
    assert bits * scale == (whole * multiplier) * scale + fraction * multiplier;
    assert fraction * multiplier >= 0;
    ScaledOrder(whole * multiplier, bits, scale);
  }

  lemma ScaledIsUnique(a: nat, b: nat, scale: nat)
    requires scale > 0 && a * scale == b * scale
    ensures a == b
  {
  }

  /** No reading of a text is smaller than its whole part. */
  lemma ReadingIsAtLeastWhole(text: Text, whole: Text, fraction: Text, suffix: Text, bits: nat)
    requires Reading(text, whole, fraction, suffix, bits)
    ensures Decimal(whole) * SuffixMultiplier(suffix) <= bits
  {
    hide Decimal, Multiplier, SuffixMultiplier;
    ScaledBound(bits, Scale(|fraction|), Decimal(whole), Decimal(fraction), SuffixMultiplier(suffix));
  }

  // -------------------------------------------------------------------------
  // The parser
  // -------------------------------------------------------------------------

  /** Reads the leading run of digits, giving up when the value leaves 64 bits. */
  method ScanWhole(digits: Text) returns (whole: u64, index: nat, overflow: bool)
    ensures index <= |digits| && AllDigits(digits[..index])
    ensures overflow ==> Decimal(digits[..index]) > MAX_U64
    ensures !overflow ==> whole == Decimal(digits[..index])
    ensures !overflow ==> index == |digits| || !IsDigit(digits[index])
  {
    whole, index, overflow := 0, 0, false;
    while index < |digits| && IsDigit(digits[index])
      invariant index <= |digits| && AllDigits(digits[..index])
      invariant whole == Decimal(digits[..index])
    {
      var digit := DigitValue(digits[index]);
      assert digits[..index + 1][..index] == digits[..index];
      if whole > (MAX_U64 - digit) / 10 {
        index, overflow := index + 1, true;
        return;
      }
      whole := whole * 10 + digit;
      index := index + 1;
    }
  }

  /** Reads one to three fraction digits up to the end of the number. */
  method ScanFraction(digits: Text, start: nat) returns (fraction: Option<nat>)
    requires start <= |digits|
    ensures fraction.Some? <==> 1 <= |digits| - start <= 3 && AllDigits(digits[start..])
    ensures fraction.Some? ==> fraction.value == Decimal(digits[start..])
  {
    var index, value, count := start, 0, 0;
    while index < |digits| && IsDigit(digits[index])
      invariant start <= index <= |digits| && count == index - start <= 3
      invariant AllDigits(digits[start..index]) && value == Decimal(digits[start..index])
    {
      if count >= 3 {
        return None;
      }
      assert digits[start..index + 1][..count] == digits[start..index];
      value := value * 10 + DigitValue(digits[index]);
      count := count + 1;
      index := index + 1;
    }
    if count == 0 || index != |digits| {
      assert index != |digits| ==> !IsDigit(digits[start..][index - start]);
      return None;
    }
    assert digits[start..index] == digits[start..];
    return Some(value);
  }

  /** The exact value, computed in whole units without losing a bit. */
  method Combine(whole: u64, fraction: nat, fractionDigits: nat, multiplier: nat) returns (bits: Option<u64>)
    requires fractionDigits <= 3 && fraction < 1000
    requires multiplier == 1_000 || multiplier == 1_000_000 || multiplier == 1_000_000_000
             || (multiplier == 1 && fractionDigits == 0 && fraction == 0)
    ensures bits.Some? ==> bits.value * Scale(fractionDigits) == (whole * Scale(fractionDigits) + fraction) * multiplier
    ensures bits.None? ==> whole * multiplier > MAX_SPEED
  {
    var total := CheckedMultiply(whole, multiplier);
    if total.None? {
      return None;
    }
    var fractional: u64 := 0;
    if multiplier != 1 {
      var unit := multiplier / Scale(fractionDigits);
      UnitIsExact(multiplier, fractionDigits);
      var product := CheckedMultiply(fraction, unit);
      assert fraction * unit <= 999 * 1_000_000_000;
      fractional := product.value;
    }
    bits := CheckedAdd(total.value, fractional);
    ExactValue(whole, fraction, fractionDigits, multiplier, fractional);
  }

  lemma UnitIsExact(multiplier: nat, fractionDigits: nat)
    requires fractionDigits <= 3
    requires multiplier == 1_000 || multiplier == 1_000_000 || multiplier == 1_000_000_000
    ensures 0 < multiplier / Scale(fractionDigits) <= 1_000_000_000
    ensures multiplier / Scale(fractionDigits) * Scale(fractionDigits) == multiplier
  {
  }

  lemma ExactValue(whole: nat, fraction: nat, fractionDigits: nat, multiplier: nat, fractional: nat)
    requires fractionDigits <= 3
    requires multiplier == 1_000 || multiplier == 1_000_000 || multiplier == 1_000_000_000
             || (multiplier == 1 && fractionDigits == 0 && fraction == 0)
    requires fractional == if multiplier == 1 then 0 else fraction * (multiplier / Scale(fractionDigits))
    ensures (whole * multiplier + fractional) * Scale(fractionDigits)
            == (whole * Scale(fractionDigits) + fraction) * multiplier
  {
    hide Scale;
    if multiplier != 1 {
      UnitIsExact(multiplier, fractionDigits);
      UnitAlgebra(whole, fraction, multiplier / Scale(fractionDigits), Scale(fractionDigits));
    }
  }

  lemma UnitAlgebra(whole: nat, fraction: nat, unit: nat, scale: nat)
    ensures (whole * (unit * scale) + fraction * unit) * scale == (whole * scale + fraction) * (unit * scale)
  {
    assert whole * (unit * scale) + fraction * unit == unit * (whole * scale + fraction);
  }

  /** The parser accepts exactly the texts that denote a representable rate, and returns
      exactly that rate. */
  method Parse(text: Text) returns (r: Option<PortSpeed>)
    ensures forall bits: nat :: r == Some(bits) <==> Denotes(text, bits) && RepresentableRate(bits)
  {
    if text == [] || |text| > 32 {
      NoReadingOfLength(text);
      return None;
    }
    var multiplier, digits, suffix := 1, text, [];
    var last := Multiplier(text[|text| - 1]);
    if last.Some? {
      multiplier, digits, suffix := last.value, text[..|text| - 1], text[|text| - 1..];
    }
    r := ParseNumber(text, digits, suffix, multiplier);
  }

  lemma NoReadingOfLength(text: Text)
    requires text == [] || |text| > 32
    ensures forall bits: nat :: !Denotes(text, bits)
  {
  }

  lemma ReadingIsForced(text: Text, digits: Text, suffix: Text, run: nat)
    requires text != []
    requires suffix == if Multiplier(text[|text| - 1]).Some? then text[|text| - 1..] else []
    requires digits == text[..|text| - |suffix|]
    requires run <= |digits| && AllDigits(digits[..run]) && (run == |digits| || !IsDigit(digits[run]))
    ensures forall whole, fraction, s, bits: nat | Reading(text, whole, fraction, s, bits) ::
              && s == suffix && 0 < |digits| <= 20
              && whole == digits[..run]
              && (run < |digits| ==> digits[run] == '.')
              && fraction == if run == |digits| then [] else digits[run + 1..]
  {
    forall whole, fraction, s, bits: nat | Reading(text, whole, fraction, s, bits)
      ensures s == suffix && 0 < |digits| <= 20 && whole == digits[..run]
      ensures run < |digits| ==> digits[run] == '.'
      ensures fraction == if run == |digits| then [] else digits[run + 1..]
    {
      var number := text[..|text| - |s|];
      NumberEndsInDigit(number, whole, fraction);
      SuffixIsForced(text, s, number);
      assert s == suffix;
      SplitIsForced(digits, whole, fraction, run);
    }
  }

  /** A run of digits that leaves 64 bits rules out every representable reading. */
  lemma OverflowIsOutOfRange(text: Text, digits: Text, suffix: Text, index: nat)
    requires text != []
    requires suffix == if Multiplier(text[|text| - 1]).Some? then text[|text| - 1..] else []
    requires digits == text[..|text| - |suffix|]
    requires index <= |digits| && AllDigits(digits[..index]) && Decimal(digits[..index]) > MAX_U64
    ensures forall bits: nat :: Denotes(text, bits) ==> !RepresentableRate(bits)
  {
    hide Decimal, Multiplier, SuffixMultiplier, Scale;
    forall bits: nat | Denotes(text, bits)
      ensures !RepresentableRate(bits)
    {
      var whole, fraction, s :| Reading(text, whole, fraction, s, bits);
      NumberEndsInDigit(text[..|text| - |s|], whole, fraction);
      SuffixIsForced(text, s, text[..|text| - |s|]);
      RunStaysInWhole(digits, whole, fraction, index);
      LongerIsLarger(whole, index);
      ReadingIsAtLeastWhole(text, whole, fraction, s, bits);
      MultiplierIsPositive(s);
      assert Decimal(whole) * SuffixMultiplier(s) >= Decimal(whole);
    }
  }

  lemma MultiplierIsPositive(suffix: Text)
    requires suffix == [] || (|suffix| == 1 && Multiplier(suffix[0]).Some?)
    ensures SuffixMultiplier(suffix) >= 1
  {
  }

  lemma RunStaysInWhole(number: Text, whole: Text, fraction: Text, run: nat)
    requires IsNumber(number, whole, fraction)
    requires run <= |number| && AllDigits(number[..run])
    ensures run <= |whole| && number[..run] == whole[..run]
  {
    assert forall i :: 0 <= i < run ==> IsDigit(number[..run][i]) && number[..run][i] == number[i];
    if fraction != [] {
      assert number[|whole|] == '.';
    }
  }

  /** Where the text after the leading digits is no fraction of a unit, there is no reading. */
  lemma NoReading(text: Text, digits: Text, suffix: Text, run: nat)
    requires text != []
    requires suffix == if Multiplier(text[|text| - 1]).Some? then text[|text| - 1..] else []
    requires digits == text[..|text| - |suffix|]
    requires run <= |digits| && AllDigits(digits[..run]) && (run == |digits| || !IsDigit(digits[run]))
    requires || !(0 < |digits| <= 20)
             || (run < |digits| &&
                 (|| digits[run] != '.' || suffix == []
                  || !(1 <= |digits| - (run + 1) <= 3 && AllDigits(digits[run + 1..]))))
    ensures forall bits: nat :: !Denotes(text, bits)
  {
    ReadingIsForced(text, digits, suffix, run);
  }

  method ParseNumber(text: Text, digits: Text, suffix: Text, multiplier: nat) returns (r: Option<PortSpeed>)
    requires text != [] && |text| <= 32
    requires suffix == if Multiplier(text[|text| - 1]).Some? then text[|text| - 1..] else []
    requires multiplier == SuffixMultiplier(suffix)
    requires digits == text[..|text| - |suffix|]
    ensures forall bits: nat :: r == Some(bits) <==> Denotes(text, bits) && RepresentableRate(bits)
  {
    hide Decimal, Scale, Denotes, Reading;
    EmptyDecimal();
    var whole, index, overflow := ScanWhole(digits);
    if overflow {
      OverflowIsOutOfRange(text, digits, suffix, index);
      return None;
    }
    if digits == [] || |digits| > 20 {
      NoReading(text, digits, suffix, index);
      return None;
    }
    var fraction, fractionDigits := 0, 0;
    ghost var fractionText: Text := [];
    if index < |digits| {
      if digits[index] != '.' {
        NoReading(text, digits, suffix, index);
        return None;
      }
      var scanned := ScanFraction(digits, index + 1);
      if scanned.None? || multiplier == 1 {
        NoReading(text, digits, suffix, index);
        return None;
      }
      fraction, fractionDigits := scanned.value, |digits| - index - 1;
      fractionText := digits[index + 1..];
      assert digits == digits[..index] + ['.'] + fractionText;
    } else {
      assert digits == digits[..index];
    }
    FractionBound(fractionText);
    var bits := Combine(whole, fraction, fractionDigits, multiplier);
    Conclude(text, digits, digits[..index], fractionText, suffix, bits);
    r := if bits.None? then None else FromBits(bits.value);
  }

  lemma FractionBound(s: Text)
    requires AllDigits(s) && |s| <= 3
    ensures Decimal(s) < 1000
  {
    if |s| >= 1 {
      var s1 := s[..|s| - 1];
      if |s1| >= 1 {
        var s2 := s1[..|s1| - 1];
        if |s2| >= 1 {
          assert s2[..|s2| - 1] == [];
        }
      }
    }
  }

  /** Once the text is split in its only way, the combined value is its only value. */
  lemma Conclude(text: Text, digits: Text, whole: Text, fraction: Text, suffix: Text, bits: Option<u64>)
    requires text != []
    requires suffix == if Multiplier(text[|text| - 1]).Some? then text[|text| - 1..] else []
    requires suffix == [] ==> fraction == []
    requires digits == text[..|text| - |suffix|]
    requires IsNumber(digits, whole, fraction)
    requires bits.Some? ==> bits.value * Scale(|fraction|) ==
                            (Decimal(whole) * Scale(|fraction|) + Decimal(fraction)) * SuffixMultiplier(suffix)
    requires bits.None? ==> Decimal(whole) * SuffixMultiplier(suffix) > MAX_SPEED
    ensures bits.Some? ==> forall b: nat :: Denotes(text, b) <==> b == bits.value
    ensures bits.None? ==> forall b: nat :: Denotes(text, b) ==> !RepresentableRate(b)
  {
    hide Decimal, Scale, Multiplier, SuffixMultiplier, Reading;
    assert digits[..|whole|] == whole && (fraction != [] ==> digits[|whole| + 1..] == fraction);
    ReadingIsForced(text, digits, suffix, |whole|);
    forall b: nat | Denotes(text, b)
      ensures bits.Some? ==> b == bits.value
      ensures bits.None? ==> !RepresentableRate(b)
    {
      ConcludeOne(text, whole, fraction, suffix, bits, b);
    }
    if bits.Some? {
      CombinedIsAReading(text, digits, whole, fraction, suffix, bits.value);
    }
  }

  lemma CombinedIsAReading(text: Text, digits: Text, whole: Text, fraction: Text, suffix: Text, bits: nat)
    requires text != []
    requires suffix == if Multiplier(text[|text| - 1]).Some? then text[|text| - 1..] else []
    requires suffix == [] ==> fraction == []
    requires digits == text[..|text| - |suffix|]
    requires IsNumber(digits, whole, fraction)
    requires bits * Scale(|fraction|) ==
             (Decimal(whole) * Scale(|fraction|) + Decimal(fraction)) * SuffixMultiplier(suffix)
    ensures Denotes(text, bits)
  {
    hide Decimal, Scale, SuffixMultiplier;
    assert Reading(text, whole, fraction, suffix, bits);
  }

  lemma ConcludeOne(text: Text, whole: Text, fraction: Text, suffix: Text, bits: Option<u64>, b: nat)
    requires suffix == [] || (|suffix| == 1 && Multiplier(suffix[0]).Some?)
    requires AllDigits(whole) && AllDigits(fraction) && |fraction| <= 3
    requires forall w, f, s, c: nat | Reading(text, w, f, s, c) :: w == whole && f == fraction && s == suffix
    requires bits.Some? ==> bits.value * Scale(|fraction|) ==
                            (Decimal(whole) * Scale(|fraction|) + Decimal(fraction)) * SuffixMultiplier(suffix)
    requires bits.None? ==> Decimal(whole) * SuffixMultiplier(suffix) > MAX_SPEED
    requires Denotes(text, b)
    ensures bits.Some? ==> b == bits.value
    ensures bits.None? ==> !RepresentableRate(b)
  {
    hide Decimal, Multiplier, SuffixMultiplier, IsNumber;
    var w, f, s :| Reading(text, w, f, s, b);
    if bits.Some? {
      ScaledIsUnique(b, bits.value, Scale(|fraction|));
    } else {
      ReadingIsAtLeastWhole(text, w, f, s, b);
    }
  }

  // -------------------------------------------------------------------------
  // The printer
  // -------------------------------------------------------------------------

  function Digit(d: nat): byte
    requires d < 10
  {
    ('0' as int + d) as char
  }

  /** The decimal rendering of an unsigned value. */
  function DecimalText(n: nat): (s: Text)
    ensures s != [] && AllDigits(s) && Decimal(s) == n
    decreases n
  {
    if n < 10 then
      [Digit(n)]
    else
      var front := DecimalText(n / 10);
      var s := front + [Digit(n % 10)];
      assert s[..|s| - 1] == front;
      s
  }

  function Power10(k: nat): nat { if k == 0 then 1 else 10 * Power10(k - 1) }

  lemma {:induction false} DecimalTextLength(n: nat, k: nat)
    requires k >= 1 && n < Power10(k)
    ensures |DecimalText(n)| <= k
  {
    if n >= 10 {
      DecimalTextLength(n / 10, k - 1);
    }
  }

  lemma ShortDecimals(n: nat)
    requires n <= MAX_SPEED
    ensures |DecimalText(n)| <= 13
    ensures n < 10_000 ==> |DecimalText(n)| <= 4
  {
    assert Power10(4) == 10_000;
    assert Power10(8) == 100_000_000 by { assert Power10(6) == 1_000_000; }
    assert Power10(13) == 10_000_000_000_000 by { assert Power10(10) == 10_000_000_000; }
    DecimalTextLength(n, 13);
    if n < 10_000 {
      DecimalTextLength(n, 4);
    }
  }

  /** A fraction of thousandths, written with leading zeros and without trailing ones. */
  method FractionText(thousandths: nat) returns (f: Text)
    requires 0 < thousandths < 1000
    ensures 1 <= |f| <= 3 && AllDigits(f)
    ensures Decimal(f) * Scale(3 - |f|) == thousandths
    ensures f[|f| - 1] != '0'
  {
    var remainder, scale := thousandths, 100;
    ghost var dropped := 0;
    while scale > 1 && remainder % 10 == 0
      invariant dropped <= 2 && scale == Scale(2 - dropped)
      invariant 0 < remainder && remainder * Scale(dropped) == thousandths
      decreases scale
    {
      remainder := remainder / 10;
      scale := scale / 10;
      dropped := dropped + 1;
    }
    assert remainder % 10 != 0;
    assert remainder < 10 * scale;
    f := [];
    ghost var width := 3 - dropped;
    while scale > 1 && remainder < scale
      invariant |f| <= 2 - dropped && scale == Scale(2 - dropped - |f|)
      invariant AllDigits(f) && Decimal(f) == 0
      invariant remainder < 10 * scale
      decreases scale
    {
      f := f + ['0'];
      assert f[..|f| - 1] + ['0'] == f;
      scale := scale / 10;
    }
    ghost var zeros := f;
    SmallDecimal(remainder);
    f := f + DecimalText(remainder);
    ZerosInFront(zeros, DecimalText(remainder));
  }

  lemma SmallDecimal(n: nat)
    requires 0 < n < 1000
    ensures |DecimalText(n)| == if n < 10 then 1 else if n < 100 then 2 else 3
    ensures n % 10 != 0 ==> DecimalText(n)[|DecimalText(n)| - 1] != '0'
  {
  }

  lemma {:induction false} ZerosInFront(zeros: Text, s: Text)
    requires AllDigits(zeros) && Decimal(zeros) == 0 && AllDigits(s)
    ensures AllDigits(zeros + s) && Decimal(zeros + s) == Decimal(s)
    decreases |s|
  {
    if s == [] {
      assert zeros + s == zeros;
    } else {
      var front := s[..|s| - 1];
      ZerosInFront(zeros, front);
      assert (zeros + s)[..|zeros + s| - 1] == zeros + front;
    }
  }

  lemma WholeDenotes(n: nat, suffix: Text)
    requires suffix == [] || (|suffix| == 1 && Multiplier(suffix[0]).Some?)
    requires n <= MAX_SPEED
    ensures Denotes(DecimalText(n) + suffix, n * SuffixMultiplier(suffix))
  {
    hide Multiplier, SuffixMultiplier, DecimalText, Decimal;
    ShortDecimals(n);
    assert Decimal([]) == 0 by { EmptyDecimal(); }
    var text := DecimalText(n) + suffix;
    assert text[..|text| - |suffix|] == DecimalText(n);
    assert text[|text| - |suffix|..] == suffix;
    assert Reading(text, DecimalText(n), [], suffix, n * SuffixMultiplier(suffix));
  }

  /** What a fraction of thousandths of a billion is worth, whatever its width. */
  lemma FractionWorth(whole: nat, fraction: nat, width: nat, rate: nat)
    requires 1 <= width <= 3
    requires rate == 1_000_000_000 * whole + 1_000_000 * (fraction * Scale(3 - width))
    ensures rate * Scale(width) == (whole * Scale(width) + fraction) * 1_000_000_000
  {
  }

  lemma FractionDenotes(whole: nat, fraction: Text, rate: nat)
    requires whole < 10_000 && 1 <= |fraction| <= 3 && AllDigits(fraction)
    requires rate == 1_000_000_000 * whole + 1_000_000 * (Decimal(fraction) * Scale(3 - |fraction|))
    ensures Denotes(DecimalText(whole) + ['.'] + fraction + ['G'], rate)
  {
    FractionWorth(whole, Decimal(fraction), |fraction|, rate);
    ShortDecimals(whole);
    GigaSuffix();
    hide Decimal, DecimalText, Multiplier, SuffixMultiplier, Scale;
    var number := DecimalText(whole) + ['.'] + fraction;
    var text := number + ['G'];
    assert text[..|text| - 1] == number && text[|text| - 1..] == ['G'];
    assert Reading(text, DecimalText(whole), fraction, ['G'], rate);
  }

  lemma GigaSuffix()
    ensures Multiplier('G').Some? && SuffixMultiplier(['G']) == 1_000_000_000
  {
  }

  lemma RateQuotients(rate: PortSpeed)
    ensures rate / 1_000_000_000 <= 1_600 && rate / 1_000_000 <= 1_600_000 && rate / 1_000 <= 1_600_000_000
  {
  }

  lemma Decompose(rate: nat)
    requires rate % 1_000_000 == 0
    ensures rate == 1_000_000_000 * (rate / 1_000_000_000) + 1_000_000 * ((rate % 1_000_000_000) / 1_000_000)
  {
    var q, r := rate / 1_000_000_000, rate % 1_000_000_000;
    assert rate == 1_000_000_000 * q + r;
    assert r % 1_000_000 == 0;
  }

  /** The canonical rendering denotes exactly the rate it was made from. */
  method ToString(rate: PortSpeed) returns (text: Text)
    requires rate != 0
    ensures Denotes(text, rate)
  {
    hide DecimalText, Denotes, Scale;
    RateQuotients(rate);
    if rate % 1_000_000_000 == 0 {
      WholeDenotes(rate / 1_000_000_000, ['G']);
      return DecimalText(rate / 1_000_000_000) + ['G'];
    }
    if rate % 1_000_000 == 0 && rate > 1_000_000_000 {
      var whole := rate / 1_000_000_000;
      var thousandths := (rate % 1_000_000_000) / 1_000_000;
      Decompose(rate);
      var fraction := FractionText(thousandths);
      FractionDenotes(whole, fraction, rate);
      return DecimalText(whole) + ['.'] + fraction + ['G'];
    }
    if rate % 1_000_000 == 0 {
      WholeDenotes(rate / 1_000_000, ['M']);
      return DecimalText(rate / 1_000_000) + ['M'];
    }
    if rate % 1_000 == 0 {
      WholeDenotes(rate / 1_000, ['K']);
      return DecimalText(rate / 1_000) + ['K'];
    }
    WholeDenotes(rate, []);
    assert DecimalText(rate) + [] == DecimalText(rate);
    return DecimalText(rate);
  }

  /** Printing and parsing back is the identity on every representable rate. */
  method PrintThenParse(rate: PortSpeed) returns (back: Option<PortSpeed>)
    requires rate != 0
    ensures back == Some(rate)
  {
    var text := ToString(rate);
    back := Parse(text);
    assert back == Some(rate) <==> Denotes(text, rate) && RepresentableRate(rate);
  }
}
