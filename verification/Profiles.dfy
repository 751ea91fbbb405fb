/** The order of identifiers, as `std::string` compares them. */
module Ordering {
  import opened Basics

  /** Lexicographic comparison of code units. */
  predicate Before(a: Text, b: Text)
    decreases |a|
  {
    b != [] && (a == [] || a[0] < b[0] || (a[0] == b[0] && Before(a[1..], b[1..])))
  }

  lemma {:induction false} BeforeIsTotal(a: Text, b: Text)
    ensures Before(a, b) || a == b || Before(b, a)
    decreases |a|
  {
    if a != [] && b != [] && a[0] == b[0] {
      BeforeIsTotal(a[1..], b[1..]);
      assert a == [a[0]] + a[1..] && b == [b[0]] + b[1..];
    }
  }

  lemma {:induction false} BeforeIsIrreflexive(a: Text)
    ensures !Before(a, a)
    decreases |a|
  {
    if a != [] {
      BeforeIsIrreflexive(a[1..]);
    }
  }

  lemma {:induction false} BeforeIsTransitive(a: Text, b: Text, c: Text)
    requires Before(a, b) && Before(b, c)
    ensures Before(a, c)
    decreases |a|
  {
    if a != [] && a[0] == b[0] && b[0] == c[0] {
      BeforeIsTransitive(a[1..], b[1..], c[1..]);
    }
  }

  predicate Least(id: Id, ids: set<Id>) {
    id in ids && forall other :: other in ids && other != id ==> Before(id, other)
  }

  /** Every non-empty set of identifiers has a first one: ordered containers can be walked. */
  lemma {:induction false} LeastExists(ids: set<Id>)
    requires ids != {}
    ensures exists id :: Least(id, ids)
    decreases |ids|
  {
    var x :| x in ids;
    var rest := ids - {x};
    if rest == {} {
      assert ids == {x};
      assert Least(x, ids);
    } else {
      LeastExists(rest);
      var y: Id :| Least(y, rest);
      BeforeIsTotal(x, y);
      if Before(x, y) {
        forall other | other in ids && other != x ensures Before(x, other) {
          if other != y {
            assert other in rest;
            BeforeIsTransitive(x, y, other);
          }
        }
        assert Least(x, ids);
      } else {
        forall other | other in ids && other != y ensures Before(y, other) {
          if other != x {
            assert other in rest;
          }
        }
        assert Least(y, ids);
      }
    }
  }
}

/** The profile registry: immutable generations per identifier, kept in order. */
module Profiles {
  import opened Basics
  import opened Records
  import opened Characteristics
  import opened Ordering

  // -------------------------------------------------------------------------
  // The registry as a value
  // -------------------------------------------------------------------------

  predicate Increasing(generations: seq<PortProfile>) {
    forall i, j :: 0 <= i < j < |generations| ==> generations[i].generation < generations[j].generation
  }

  /** One identifier's history: generation 1 first, then strictly increasing. */
  predicate History(id: Id, generations: seq<PortProfile>) {
    && 1 <= |generations| <= MAX_PROFILE_GENERATIONS
    && generations[0].generation == 1
    && (forall i :: 0 <= i < |generations| ==> generations[i].Valid() && generations[i].id == id)
    && Increasing(generations)
  }

  predicate Consistent(m: map<Id, seq<PortProfile>>) {
    |m| <= MAX_PROFILES && forall id :: id in m ==> History(id, m[id])
  }

  type Registry = m: map<Id, seq<PortProfile>> | Consistent(m) witness map[]

  lemma HistoryOf(r: Registry, id: Id)
    ensures id in r ==> History(id, r[id])
  {
    assert Consistent(r);
  }

  function Get(r: Registry, id: Id, generation: Generation): (p: Option<PortProfile>)
    ensures p.Some? ==> id in r && p.value in r[id] && p.value.generation == generation
    ensures p.None? && id in r ==> forall q :: q in r[id] ==> q.generation != generation
  {
    if id in r then Find(r[id], generation) else None
  }

  function Find(generations: seq<PortProfile>, generation: Generation): (p: Option<PortProfile>)
    ensures p.Some? ==> p.value in generations && p.value.generation == generation
    ensures p.None? ==> forall q :: q in generations ==> q.generation != generation
  {
    if generations == [] then None
    else if generations[0].generation == generation then Some(generations[0])
    else Find(generations[1..], generation)
  }

  /** The content a profile digest covers: everything but where the profile came from. */
  predicate SameContent(a: PortProfile, b: PortProfile) { a.(provenance := b.provenance) == b }

  /** What one definition does to the registry, and its outcome. */
  function DefineIn(r: Registry, profile: PortProfile): (result: (Registry, OutcomeCode))
    ensures result.1 != Ok ==> result.0 == r
  {
    hide PortProfile.Valid, SameContent;
    if !profile.Valid() then (r, InvalidProfile)
    else if profile.id !in r then
      if |r| >= MAX_PROFILES then (r, ResourceBoundExceeded)
      else if profile.generation != 1 then (r, InvalidProfile)
      else
        (Put(r, profile.id, [profile]), Ok)
    else
      assert History(profile.id, r[profile.id]);
      var generations := r[profile.id];
      var latest := generations[|generations| - 1];
      if profile.generation == latest.generation then
        if SameContent(profile, latest) then (r, AlreadyCurrent) else (r, DuplicateRecord)
      else if profile.generation < latest.generation then (r, InvalidProfile)
      else if |generations| >= MAX_PROFILE_GENERATIONS then (r, ResourceBoundExceeded)
      else
        assert History(profile.id, generations + [profile]) by { AppendKeepsHistory(profile.id, generations, profile); }
        (Put(r, profile.id, generations + [profile]), Ok)
  }

  /** The registry with one identifier's history replaced. */
  function Put(r: Registry, id: Id, generations: seq<PortProfile>): (next: Registry)
    requires History(id, generations)
    requires id in r || |r| < MAX_PROFILES
    ensures next == r[id := generations]
  {
    hide History;
    assert Consistent(r);
    r[id := generations]
  }

  lemma AppendKeepsHistory(id: Id, generations: seq<PortProfile>, profile: PortProfile)
    requires History(id, generations) && profile.Valid() && profile.id == id
    requires profile.generation > generations[|generations| - 1].generation
    requires |generations| < MAX_PROFILE_GENERATIONS
    ensures History(id, generations + [profile])
  {
    hide PortProfile.Valid;
  }

  lemma DefineOutcome(r: Registry, profile: PortProfile)
    ensures DefineIn(r, profile).1 == Ok && profile.id in r ==> r[profile.id] != []
    ensures DefineIn(r, profile).1 == Ok ==>
              if profile.id in r then
                && profile.generation > r[profile.id][|r[profile.id]| - 1].generation
                && DefineIn(r, profile).0 == r[profile.id := r[profile.id] + [profile]]
              else
                DefineIn(r, profile).0 == r[profile.id := [profile]]
  {
    hide PortProfile.Valid, SameContent;
  }

  // -------------------------------------------------------------------------
  // History over any number of definitions
  // -------------------------------------------------------------------------

  /** Defining a list in order, whatever each outcome is. */
  function DefineEach(r: Registry, profiles: seq<PortProfile>): Registry
    decreases |profiles|
  {
    if profiles == [] then r else DefineEach(DefineIn(r, profiles[0]).0, profiles[1..])
  }

  /** Defining a list in order, stopping at the first one that is refused. */
  function DefineAll(r: Registry, profiles: seq<PortProfile>): (Registry, bool)
    decreases |profiles|
  {
    if profiles == [] then (r, true)
    else
      var (next, code) := DefineIn(r, profiles[0]);
      if code.Accepted() then DefineAll(next, profiles[1..]) else (next, false)
  }

  predicate IsPrefix(a: seq<PortProfile>, b: seq<PortProfile>) { a <= b }

  /** A definition only ever appends: no later call alters or drops a defined generation. */
  lemma {:induction false} DefinitionsAreImmutable(r: Registry, profiles: seq<PortProfile>, id: Id)
    requires id in r
    ensures id in DefineEach(r, profiles) && IsPrefix(r[id], DefineEach(r, profiles)[id])
    decreases |profiles|
  {
    hide DefineIn, History, Consistent;
    if profiles != [] {
      var next := DefineIn(r, profiles[0]).0;
      DefineOutcome(r, profiles[0]);
      assert IsPrefix(r[id], next[id]);
      DefinitionsAreImmutable(next, profiles[1..], id);
    }
  }

  /** A generation once readable stays readable with the same content. */
  lemma DefinedGenerationsStay(r: Registry, profiles: seq<PortProfile>, id: Id, generation: Generation)
    requires Get(r, id, generation).Some?
    ensures Get(DefineEach(r, profiles), id, generation) == Get(r, id, generation)
  {
    DefinitionsAreImmutable(r, profiles, id);
    var later := DefineEach(r, profiles)[id];
    assert History(id, later);
    var i :| 0 <= i < |r[id]| && r[id][i] == Get(r, id, generation).value;
    assert later[i] == r[id][i];
    assert Find(later, generation).Some?;
    var j :| 0 <= j < |later| && later[j] == Find(later, generation).value;
    assert i == j;
  }

  // -------------------------------------------------------------------------
  // Listing and rebuilding
  // -------------------------------------------------------------------------

  /** The order recovery sorts by: identifier, then generation. */
  predicate Sorted(list: seq<PortProfile>) {
    forall i, j :: 0 <= i < j < |list| ==> Earlier(list[i], list[j])
  }

  predicate Earlier(p: PortProfile, q: PortProfile) {
    Before(p.id, q.id) || (p.id == q.id && p.generation < q.generation)
  }

  predicate Holds(r: Registry, p: PortProfile) { p.id in r && p in r[p.id] }

  /** `list` enumerates the registry: in order, and nothing but its generations. */
  ghost predicate Lists(r: Registry, list: seq<PortProfile>) {
    Sorted(list) && forall p :: p in list <==> Holds(r, p)
  }

  /** `partial` holds, for some identifiers, the first generations `r` has. */
  predicate Begins(partial: Registry, r: Registry) {
    forall id :: id in partial ==> id in r && IsPrefix(partial[id], r[id])
  }

  /** Re-defining a listing into an empty registry always succeeds and rebuilds the registry. */
  lemma ListingRebuilds(r: Registry, list: seq<PortProfile>)
    requires Lists(r, list)
    ensures DefineAll(map[], list) == (r, true)
  {
    assert list == list[0..];
    RebuildFrom(r, list, map[], 0);
  }

  lemma {:induction false} RebuildFrom(r: Registry, list: seq<PortProfile>, partial: Registry, k: nat)
    requires Lists(r, list) && k <= |list|
    requires Begins(partial, r)
    requires forall p :: p in list[..k] <==> Holds(partial, p)
    ensures DefineAll(partial, list[k..]) == (r, true)
    decreases |list| - k
  {
    if k == |list| {
      assert list[..k] == list;
      CompleteIsEqual(partial, r);
    } else {
      var next := DefineNext(r, list, partial, k);
      assert list[k..][1..] == list[k + 1..];
      RebuildFrom(r, list, next, k + 1);
    }
  }

  lemma CompleteIsEqual(partial: Registry, r: Registry)
    requires Begins(partial, r)
    requires forall p :: Holds(r, p) ==> Holds(partial, p)
    ensures partial == r
  {
    hide PortProfile.Valid, ValidIdentifier, Consistent;
    forall id | id in r ensures id in partial && partial[id] == r[id] {
      HistoryOf(r, id);
      var last := r[id][|r[id]| - 1];
      assert Holds(r, last);
      HistoryOf(partial, id);
      assert IsPrefix(partial[id], r[id]);
      var i :| 0 <= i < |partial[id]| && partial[id][i] == last;
      assert r[id][i] == last;
    }
  }

  /** The next profile of the listing is the next generation of its identifier's history. */
  lemma NextIsNext(r: Registry, list: seq<PortProfile>, partial: Registry, k: nat) returns (n: nat)
    requires Lists(r, list) && k < |list|
    requires Begins(partial, r)
    requires forall p :: p in list[..k] <==> Holds(partial, p)
    ensures list[k].id in r && n < |r[list[k].id]| && r[list[k].id][n] == list[k]
    ensures list[k].id in partial ==> |partial[list[k].id]| == n
    ensures list[k].id !in partial ==> n == 0
    ensures !Holds(partial, list[k])
  {
    hide PortProfile.Valid, ValidIdentifier, Consistent;
    HistoryOf(r, list[k].id);
    var p := list[k];
    assert p in list;
    assert Holds(r, p);
    n :| 0 <= n < |r[p.id]| && r[p.id][n] == p;
    if Holds(partial, p) {
      var i :| 0 <= i < k && list[i] == p;
      assert Earlier(list[i], list[k]);
      BeforeIsIrreflexive(p.id);
    }
    forall m | 0 <= m < n ensures Holds(partial, r[p.id][m]) {
      var q := r[p.id][m];
      assert Holds(r, q);
      var i :| 0 <= i < |list| && list[i] == q;
      assert q.generation < p.generation;
      if i > k {
        assert Earlier(list[k], list[i]);
        BeforeIsIrreflexive(p.id);
      }
      assert list[..k][i] == q;
    }
    if n > 0 {
      var q := r[p.id][n - 1];
      assert Holds(partial, q) && IsPrefix(partial[p.id], r[p.id]);
      var i :| 0 <= i < |partial[p.id]| && partial[p.id][i] == q;
      assert r[p.id][i] == q;
      assert i == n - 1;
    }
    if p.id in partial {
      assert IsPrefix(partial[p.id], r[p.id]);
    }
  }

  lemma DefineNext(r: Registry, list: seq<PortProfile>, partial: Registry, k: nat) returns (next: Registry)
    requires Lists(r, list) && k < |list|
    requires Begins(partial, r)
    requires forall p :: p in list[..k] <==> Holds(partial, p)
    ensures DefineIn(partial, list[k]) == (next, Ok)
    ensures Begins(next, r)
    ensures forall p :: p in list[..k + 1] <==> Holds(next, p)
  {
    hide PortProfile.Valid, Sorted, Lists, Consistent, History, ValidIdentifier, DefineIn, Holds;
    var p := list[k];
    var n := NextIsNext(r, list, partial, k);
    DefineIsOk(r, partial, p, n);
    next := DefineIn(partial, p).0;
    DefineOutcome(partial, p);
    assert next[p.id] == r[p.id][..n + 1] && forall id :: id in partial && id != p.id ==> next[id] == partial[id];
    assert list[..k + 1] == list[..k] + [p];
    forall q ensures q in list[..k + 1] <==> Holds(next, q) {
      assert q in list[..k + 1] <==> q in list[..k] || q == p;
      AddedOne(partial, next, p, q, n);
    }
  }

  lemma AddedOne(partial: Registry, next: Registry, p: PortProfile, q: PortProfile, n: nat)
    requires forall id :: id in next <==> id in partial || id == p.id
    requires forall id :: id in partial && id != p.id ==> next[id] == partial[id]
    requires next[p.id] == if p.id in partial then partial[p.id] + [p] else [p]
    ensures Holds(next, q) <==> Holds(partial, q) || q == p
  {
    hide PortProfile.Valid, Consistent, History, ValidIdentifier;
    if q == p {
      var i := if p.id in partial then |partial[p.id]| else 0;
      assert next[p.id][i] == p;
    }
  }

  lemma DefineIsOk(r: Registry, partial: Registry, p: PortProfile, n: nat)
    requires Begins(partial, r)
    requires p.id in r && n < |r[p.id]| && r[p.id][n] == p
    requires if p.id in partial then |partial[p.id]| == n else n == 0
    ensures DefineIn(partial, p).1 == Ok
    ensures p.id in partial ==> n != 0 && partial[p.id] == r[p.id][..n]
  {
    hide PortProfile.Valid, SameContent, Before, ValidIdentifier;
    assert History(p.id, r[p.id]);
    if p.id !in partial {
      hide Increasing;
      FewerIdentifiers(partial, r, p.id);
    } else {
      assert History(p.id, partial[p.id]);
      assert IsPrefix(partial[p.id], r[p.id]);
      assert partial[p.id][n - 1] == r[p.id][n - 1];
    }
  }

  lemma FewerIdentifiers(partial: Registry, r: Registry, id: Id)
    requires Begins(partial, r) && id in r && id !in partial
    ensures |partial| < |r|
    ensures |partial| < MAX_PROFILES
  {
    hide History, PortProfile.Valid, ValidIdentifier, IsPrefix;
    OneMore(partial.Keys, id, r.Keys);
  }

  lemma OneMore<T>(a: set<T>, x: T, b: set<T>)
    requires a <= b && x in b && x !in a
    ensures |a| < |b|
  {
    SubsetSize(a + {x}, b);
    assert |a + {x}| == |a| + 1;
  }

  lemma {:induction false} SubsetSize<T>(a: set<T>, b: set<T>)
    requires a <= b
    ensures |a| <= |b|
    decreases |a|
  {
    if a != {} {
      var x :| x in a;
      SubsetSize(a - {x}, b - {x});
    }
  }

  // -------------------------------------------------------------------------
  // The registry as an object
  // -------------------------------------------------------------------------

  class ProfileRegistry {
    var profiles: map<Id, seq<PortProfile>>
    var generationCount: nat

    ghost predicate Valid()
      reads this
    {
      Consistent(profiles)
    }

    ghost function View(): Registry
      reads this
      requires Valid()
    {
      profiles
    }

    constructor ()
      ensures Valid() && View() == map[]
    {
      profiles, generationCount := map[], 0;
    }

    /** Defines one generation. */
    method Define(profile: PortProfile) returns (code: OutcomeCode)
      requires Valid()
      modifies this
      ensures Valid()
      ensures (View(), code) == DefineIn(old(View()), profile)
    {
      hide SameContent, ValidIdentifier, PortProfile.Valid, Consistent, Increasing;
      DefineOutcome(profiles, profile);
      HistoryOf(profiles, profile.id);
      ghost var result := DefineIn(profiles, profile);
      if !profile.Valid() {
        return InvalidProfile;
      }
      if profile.id !in profiles {
        if |profiles| >= MAX_PROFILES {
          return ResourceBoundExceeded;
        }
        if profile.generation != 1 {
          return InvalidProfile;
        }
        assert Consistent(result.0);
        profiles := profiles[profile.id := [profile]];
        generationCount := generationCount + 1;
        return Ok;
      }
      var generations := profiles[profile.id];
      assert History(profile.id, generations);
      var latest := generations[|generations| - 1];
      if profile.generation == latest.generation {
        return if SameContent(profile, latest) then AlreadyCurrent else DuplicateRecord;
      }
      if profile.generation < latest.generation {
        return InvalidProfile;
      }
      if |generations| >= MAX_PROFILE_GENERATIONS {
        return ResourceBoundExceeded;
      }
      assert Consistent(result.0);
      profiles := profiles[profile.id := generations + [profile]];
      generationCount := generationCount + 1;
      return Ok;
    }

    /** Every generation, identifiers in order and generations in order within each. */
    method List() returns (out: seq<PortProfile>)
      requires Valid()
      ensures Lists(View(), out)
    {
      hide PortProfile.Valid;
      out := [];
      var remaining := profiles.Keys;
      while remaining != {}
        invariant remaining <= profiles.Keys
        invariant Sorted(out)
        invariant forall p, id :: p in out && id in remaining ==> Before(p.id, id)
        invariant forall p :: p in out <==> p.id !in remaining && Holds(View(), p)
        decreases |remaining|
      {
        LeastExists(remaining);
        var id :| Least(id, remaining);
        assert History(id, profiles[id]);
        ghost var before := out;
        out := out + profiles[id];
        remaining := remaining - {id};
        assert Sorted(out) by {
          forall i, j | 0 <= i < j < |out| ensures Earlier(out[i], out[j]) {
            if j < |before| {
              assert Earlier(before[i], before[j]);
            } else if i < |before| {
              assert before[i] in before;
            }
          }
        }
        BeforeIsIrreflexive(id);
      }
    }

    method Clear()
      modifies this
      ensures Valid() && View() == map[]
    {
      profiles, generationCount := map[], 0;
    }

    /** Recovery: define every profile in order, stopping at the first that is refused. */
    method Restore(ordered: seq<PortProfile>) returns (ok: bool)
      modifies this
      ensures Valid()
      ensures (View(), ok) == DefineAll(map[], ordered)
    {
      hide PortProfile.Valid, ValidIdentifier, Consistent, History, DefineIn;
      Clear();
      var i := 0;
      assert ordered[0..] == ordered;
      while i < |ordered|
        invariant 0 <= i <= |ordered|
        invariant Valid()
        invariant DefineAll(View(), ordered[i..]) == DefineAll(map[], ordered)
      {
        assert ordered[i..][0] == ordered[i] && ordered[i..][1..] == ordered[i + 1..];
        var code := Define(ordered[i]);
        if !code.Accepted() {
          return false;
        }
        i := i + 1;
      }
      return true;
    }
  }

  /** What load does with the profiles save wrote: whatever the registry held, listing it and
      restoring the list yields it again. */
  method ListThenRestore(source: ProfileRegistry, target: ProfileRegistry) returns (ok: bool)
    requires source.Valid() && source != target
    modifies target
    ensures ok && target.Valid() && target.View() == source.View()
  {
    var list := source.List();
    ListingRebuilds(source.View(), list);
    ok := target.Restore(list);
  }

  // -------------------------------------------------------------------------
  // Sorting, as recovery does before it defines
  // -------------------------------------------------------------------------

  function Insert(p: PortProfile, list: seq<PortProfile>): (r: seq<PortProfile>)
    ensures multiset(r) == multiset(list) + multiset{p}
  {
    if list == [] then [p]
    else if Earlier(list[0], p) then
      assert list == [list[0]] + list[1..];
      [list[0]] + Insert(p, list[1..])
    else [p] + list
  }

  function Sort(list: seq<PortProfile>): (r: seq<PortProfile>)
    ensures multiset(r) == multiset(list)
  {
    if list == [] then []
    else
      assert list == [list[0]] + list[1..];
      Insert(list[0], Sort(list[1..]))
  }

  /** A list already in order is left alone. */
  lemma {:induction false} SortKeepsSorted(list: seq<PortProfile>)
    requires Sorted(list)
    ensures Sort(list) == list
    decreases |list|
  {
    hide Before, ValidIdentifier, PortProfile.Valid, Earlier, Insert;
    if list != [] {
      SortKeepsSorted(list[1..]);
      if |list| > 1 {
        assert Earlier(list[0], list[1]);
        EarlierIsOneWay(list[0], list[1]);
      }
      InsertsInFront(list[0], list[1..]);
      assert list == [list[0]] + list[1..];
    }
  }

  lemma EarlierIsOneWay(p: PortProfile, q: PortProfile)
    requires Earlier(p, q)
    ensures !Earlier(q, p)
  {
    hide Before, ValidIdentifier, PortProfile.Valid;
    BeforeIsIrreflexive(p.id);
    if Before(p.id, q.id) && Before(q.id, p.id) {
      BeforeIsTransitive(p.id, q.id, p.id);
    }
  }

  lemma InsertsInFront(p: PortProfile, list: seq<PortProfile>)
    requires list != [] ==> !Earlier(list[0], p)
    ensures Insert(p, list) == [p] + list
  {
    hide Earlier, ValidIdentifier, PortProfile.Valid;
  }

  // -------------------------------------------------------------------------
  // Applying a profile
  // -------------------------------------------------------------------------

  /** Every dimension the profile specifies replaces the configuration's; the rest stay. */
  function ApplyProfile(p: ProfileConfiguration, c: PortConfiguration): PortConfiguration {
    c.(
      speed := if p.specifiesSpeed then p.speed else c.speed,
      mtu := if p.specifiesMtu then p.mtu else c.mtu,
      duplex := if p.specifiesDuplex then p.duplex else c.duplex,
      autoneg := if p.specifiesAutoneg then p.autoneg else c.autoneg,
      fec := if p.specifiesFec then p.fec else c.fec,
      pause := if p.specifiesPause then p.pause else c.pause,
      breakout := if p.specifiesBreakout then p.breakout else c.breakout,
      mode := if p.specifiesMode then p.mode else c.mode,
      protocol := if p.specifiesProtocol then p.protocol else c.protocol,
      aggregation :=
        if p.specifiesAggregation then c.aggregation.(participates := p.aggregateParticipation) else c.aggregation,
      role := if p.specifiesRole then p.role else c.role)
  }
}
