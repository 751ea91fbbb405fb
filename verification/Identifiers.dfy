/** Identifiers the engine composes for itself. */
module Identifiers {
  import opened Basics
  import opened Rates

  /** FNV-1a over the bytes of a text. */
  function Fnv1a(s: Text): bv64
    decreases |s|
  {
    if s == [] then 1469598103934665603
    else (Fnv1a(s[..|s| - 1]) ^ (s[|s| - 1] as int as bv64)) * 1099511628211
  }

  function HashText(s: Text): Text { DecimalText(Fnv1a(s) as int) }

  function Join(a: Text, b: Text): (r: Text)
    ensures |r| == |a| + 1 + |b|
  {
    a + ['-'] + b
  }

  /** How much of a long identity is kept so that the whole stays within the grammar's bound. */
  function Budget(prefix: Text, identity: Id, generation: Generation): int {
    MAX_IDENTIFIER_LENGTH - |prefix| - 1 - (|HashText(identity)| + |DecimalText(generation)| + 2)
  }

  /** A prefix, an identity and a generation joined with hyphens; an identity too long for
      the grammar is cut and its hash appended. */
  function Compose(prefix: Text, identity: Id, generation: Generation): Text
    requires |prefix| <= 3
  {
    var plain := Join(Join(prefix, identity), DecimalText(generation));
    if |plain| <= MAX_IDENTIFIER_LENGTH then plain
    else
      CompositionFits(prefix, identity, generation);
      var kept := identity[..Budget(prefix, identity, generation)];
      Join(Join(prefix, Join(kept, HashText(identity))), DecimalText(generation))
  }

  lemma TwentyDigits(n: u64)
    ensures |DecimalText(n)| <= 20
  {
    assert Power10(20) == 1_0000_0000_0000_0000_0000 by {
      assert Power10(5) == 1_0000_0;
      assert Power10(10) == 1_0000_0_0000_0;
      assert Power10(15) == 1_0000_0_0000_0_0000_0;
    }
    DecimalTextLength(n, 20);
  }

  /** The cut never asks for more of the identity than there is, nor for less than nothing. */
  lemma CompositionFits(prefix: Text, identity: Id, generation: Generation)
    requires |prefix| <= 3
    requires |prefix| + |identity| + |DecimalText(generation)| + 2 > MAX_IDENTIFIER_LENGTH
    ensures 0 <= Budget(prefix, identity, generation) <= |identity|
  {
    hide DecimalText, ValidIdentifier, HashText;
    TwentyDigits(generation);
    HashLength(identity);
  }

  lemma HashLength(s: Text)
    ensures |HashText(s)| <= 20
  {
    hide Fnv1a, DecimalText;
    TwentyDigits(Fnv1a(s) as int);
  }

  /** Text the grammar allows strictly inside an identifier. */
  predicate Inner(s: Text) {
    && (forall i :: 0 <= i < |s| ==> IsInterior(s[i]))
    && (forall i :: 0 <= i < |s| - 1 ==> !(s[i] == '.' && s[i + 1] == '.'))
  }

  lemma InnerJoins(a: Text, b: Text)
    requires Inner(a) && Inner(b)
    ensures Inner(Join(a, b))
  {
    var s := Join(a, b);
    forall i | 0 <= i < |s| ensures IsInterior(s[i]) {
      assert s[i] == if i < |a| then a[i] else if i == |a| then '-' else b[i - |a| - 1];
    }
    forall i | 0 <= i < |s| - 1 ensures !(s[i] == '.' && s[i + 1] == '.') {
      if i + 1 < |a| {
        assert s[i] == a[i] && s[i + 1] == a[i + 1];
      } else if i > |a| {
        assert s[i] == b[i - |a| - 1] && s[i + 1] == b[i - |a|];
      }
    }
  }

  lemma DigitsAreInner(n: nat)
    ensures Inner(DecimalText(n))
    ensures IsAlphanumeric(DecimalText(n)[|DecimalText(n)| - 1])
  {
    hide DecimalText;
    var s := DecimalText(n);
    assert AllDigits(s);
    assert forall i :: 0 <= i < |s| ==> IsDigit(s[i]);
  }

  lemma Framed(prefix: Text, middle: Text, n: nat)
    requires prefix == "cfg" || prefix == "own"
    requires Inner(middle)
    requires |prefix| + |middle| + |DecimalText(n)| + 2 <= MAX_IDENTIFIER_LENGTH
    ensures ValidIdentifier(Join(Join(prefix, middle), DecimalText(n)))
  {
    hide DecimalText;
    DigitsAreInner(n);
    InnerJoins(prefix, middle);
    InnerJoins(Join(prefix, middle), DecimalText(n));
    var s := Join(Join(prefix, middle), DecimalText(n));
    assert s[0] == prefix[0];
    assert s[|s| - 1] == DecimalText(n)[|DecimalText(n)| - 1];
  }

  lemma IdentityIsInner(identity: Id, n: nat)
    requires n <= |identity|
    ensures Inner(identity) && Inner(identity[..n])
  {
    assert identity == [] || ValidIdentifier(identity);
  }

  /** Whatever the identity and the generation, the composition satisfies the grammar. */
  lemma ComposedIsValid(prefix: Text, identity: Id, generation: Generation)
    requires prefix == "cfg" || prefix == "own"
    ensures ValidIdentifier(Compose(prefix, identity, generation))
  {
    hide Fnv1a, DecimalText, ValidIdentifier, Inner, Join;
    if |prefix| + |identity| + |DecimalText(generation)| + 2 <= MAX_IDENTIFIER_LENGTH {
      IdentityIsInner(identity, 0);
      Framed(prefix, identity, generation);
    } else {
      CompositionFits(prefix, identity, generation);
      var kept: Text := identity[..Budget(prefix, identity, generation)];
      IdentityIsInner(identity, |kept|);
      DigitsAreInner(Fnv1a(identity) as int);
      InnerJoins(kept, HashText(identity));
      Framed(prefix, Join(kept, HashText(identity)), generation);
    }
  }

  function ConfigurationId(port: Id): (id: Id)
    ensures Named(id)
  {
    ComposedIsValid("cfg", port, 1);
    Compose("cfg", port, 1)
  }

  function OwnershipId(port: Id, generation: Generation): (id: Id)
    ensures Named(id)
  {
    ComposedIsValid("own", port, generation);
    Compose("own", port, generation)
  }
}
