/** Gathering durable state and recovering from it conservatively. */
module Recovery {
  import opened Basics
  import opened Records
  import opened Profiles
  import opened Planning
  import opened PlanningLaws
  import opened Engine
  import opened Utf8
  import opened Wording

  // -------------------------------------------------------------------------
  // Rewriting one record
  // -------------------------------------------------------------------------

  function WithoutOwner(r: PortRecord): PortRecord {
    if r.ownership.Some? then Released(r, RecoveryReason(), RecoveryDetail()) else r
  }

  function WithoutFreshness(r: PortRecord): PortRecord {
    if r.applied.outcome.Applied? || r.applied.outcome.Verified? then
      var advanced := AdvanceEvidence(r.generations);
      r.(generations := advanced,
         applied := r.applied.(outcome := AppliedOutcome.OutcomeUnknown, verified := false, source := "recovered",
                               evidenceGeneration := advanced.evidence))
    else r
  }

  function WithoutTrust(r: PortRecord): PortRecord {
    if r.configuration.Some? && !r.lifecycle.Retired? then
      r.(lifecycle := PortLifecycle.RevalidationRequired,
         generations := AdvanceLifecycle(r.generations),
         drift := DriftState.RevalidationRequired,
         statusReason := RecoveredReason(),
         statusDetail := RecoveredDetail())
    else r
  }

  /** What survives a restart: desired configuration does, live authority and hardware truth do not. */
  function Rewritten(r: PortRecord): PortRecord {
    WithoutTrust(WithoutFreshness(WithoutOwner(r))).(
      lastMutation := NO_MUTATION,
      provenance := r.provenance.(kind := ProvenanceKind.Recovery))
  }

  /** A record that validates still validates after the rewrite: recovery cannot fail halfway. */
  lemma RewriteKeepsValid(r: PortRecord)
    requires r.Valid()
    ensures Rewritten(r).Valid()
  {
    hide PortConfiguration.Valid, ValidText, RecoveryReason, RecoveredReason, RecoveryDetail, RecoveredDetail, ValidIdentifier;
    WordingIsText();
  }

  /** What recovery leaves of a record's claims, whatever they were. */
  lemma RewriteStripsAuthority(r: PortRecord)
    ensures var after := Rewritten(r);
            && after.ownership.None?
            && !after.applied.outcome.Applied? && !after.applied.outcome.Verified?
            && after.configuration == r.configuration
            && after.lastMutation == NO_MUTATION
            && (r.configuration.Some? && !r.lifecycle.Retired? ==> after.lifecycle.RevalidationRequired?)
            && (r.lifecycle.Retired? ==> after.lifecycle.Retired?)
            && (r.ownership.Some? && !Exhaustible(r.generations.ownership) ==>
                  after.generations.ownership > r.generations.ownership)
  {
    hide RecoveryReason, RecoveredReason, RecoveryDetail, RecoveredDetail;
  }

  lemma RewriteKeepsSound(r: PortRecord)
    requires Sound(r) && r.Valid()
    ensures Sound(Rewritten(r)) && Rewritten(r).Valid()
  {
    hide PortConfiguration.Valid, ValidText, RecoveryReason, RecoveredReason, RecoveryDetail, RecoveredDetail, ValidIdentifier, Supports, PortCapabilities.Valid;
    RewriteKeepsValid(r);
  }

  // -------------------------------------------------------------------------
  // Refilling the tables
  // -------------------------------------------------------------------------

  /** Records in order; a repeated identity keeps the first, an inconsistent one stops. */
  function Refill(records: seq<PortRecord>): (map<Id, PortRecord>, bool)
    decreases |records|
  {
    if records == [] then (map[], true)
    else
      var (earlier, ok) := Refill(records[..|records| - 1]);
      var r := Rewritten(records[|records| - 1]);
      if !ok || !r.Valid() then (earlier, false)
      else if r.port in earlier then (earlier, true)
      else (earlier[r.port := r], true)
  }

  function RefillDevices(devices: seq<DeviceBinding>): map<Id, DeviceBinding>
    decreases |devices|
  {
    if devices == [] then map[]
    else RefillDevices(devices[..|devices| - 1])[devices[|devices| - 1].device := devices[|devices| - 1]]
  }

  /** Every incarnation of an earlier process life is fenced. */
  function RefillPublishers(publishers: seq<PublisherRecord>): map<Id, PublisherRecord>
    decreases |publishers|
  {
    if publishers == [] then map[]
    else
      var last := publishers[|publishers| - 1];
      RefillPublishers(publishers[..|publishers| - 1])[last.publisher := last.(fenced := true)]
  }

  function RecoverAuthority(s: State, image: PersistedState): State {
    s.(
      epoch := if image.epoch >= s.epoch then Next(image.epoch) else s.epoch,
      topology := if image.topology > s.topology then image.topology else s.topology,
      devices := RefillDevices(image.devices),
      publishers := RefillPublishers(image.publishers))
  }

  function RecoverRecords(s: State, image: PersistedState): (State, OutcomeCode) {
    var (records, ok) := Refill(image.records);
    var refilled := s.(records := records);
    if !ok then (refilled, PersistenceCorruption)
    else if Exhaustible(image.engineGeneration) then (refilled, ResourceBoundExceeded)
    else (refilled.(generation := Next(image.engineGeneration)), Ok)
  }

  /** Whether the engine admits the container at all. */
  function RecoveryRefusal(config: EngineConfig, image: PersistedState): OutcomeCode {
    if |image.records| > config.portBound then PersistenceBoundsExceeded
    else if Named(config.fabric) && Named(image.fabric) && config.fabric != image.fabric then ConflictDetected
    else if Named(config.site) && Named(image.site) && config.site != image.site then ConflictDetected
    else Ok
  }

  /** The profiles region. */
  function RecoverProfiles(s: State, image: PersistedState): (State, OutcomeCode) {
    var (profiles, ok) := DefineAll(map[], Sort(image.profiles));
    (s.(profiles := profiles), if ok then Ok else PersistenceCorruption)
  }

  /** The authority region. */
  function RecoverTables(s: State, image: PersistedState): (State, OutcomeCode) {
    if image.epoch >= s.epoch && Exhaustible(image.epoch) then (s, ResourceBoundExceeded)
    else (RecoverAuthority(s, image), Ok)
  }

  /** Recovery of a decoded container into an engine, its regions back to back. */
  function Recover(s: State, image: PersistedState): (State, OutcomeCode) {
    if RecoveryRefusal(s.config, image) != Ok then (s, RecoveryRefusal(s.config, image))
    else
      var (profiled, first) := RecoverProfiles(s, image);
      if first != Ok then (profiled, first)
      else
        var (restored, second) := RecoverTables(profiled, image);
        if second != Ok then (restored, second)
        else RecoverRecords(restored, image)
  }

  // -------------------------------------------------------------------------
  // Facts about the tables
  // -------------------------------------------------------------------------

  predicate DistinctPorts(records: seq<PortRecord>) {
    forall i, j :: 0 <= i < j < |records| ==> records[i].port != records[j].port
  }

  predicate AllValid(records: seq<PortRecord>) { forall i :: 0 <= i < |records| ==> records[i].Valid() }

  predicate Restores(m: map<Id, PortRecord>, r: PortRecord) { r.port in m && m[r.port] == Rewritten(r) }

  /** With consistent records nothing stops the refill, and every record comes from the container. */
  lemma {:induction false} RefillIsTotal(records: seq<PortRecord>)
    requires AllValid(records)
    ensures Refill(records).1
    ensures forall port :: port in Refill(records).0 ==>
              exists r :: r in records && r.port == port && Restores(Refill(records).0, r)
    decreases |records|
  {
    hide PortRecord.Valid, Rewritten, ValidIdentifier;
    if records != [] {
      var front, last := records[..|records| - 1], records[|records| - 1];
      assert records == front + [last];
      RefillIsTotal(front);
      RewriteKeepsValid(last);
      RewriteKeepsPort(last);
      forall port | port in Refill(records).0
        ensures exists r :: r in records && r.port == port && Restores(Refill(records).0, r)
      {
        if port in Refill(front).0 {
          var r :| r in front && r.port == port && Restores(Refill(front).0, r);
          assert r in records;
        } else {
          assert last in records && port == last.port;
        }
      }
    }
  }

  /** With distinct identities every record of the container is restored. */
  lemma {:induction false} RefillIsComplete(records: seq<PortRecord>)
    requires AllValid(records) && DistinctPorts(records)
    ensures forall r :: r in records ==> Restores(Refill(records).0, r)
    ensures |Refill(records).0| == |records|
    decreases |records|
  {
    hide PortRecord.Valid, Rewritten, ValidIdentifier;
    if records != [] {
      var front, last := records[..|records| - 1], records[|records| - 1];
      assert records == front + [last];
      RefillIsComplete(front);
      RefillIsTotal(front);
      RewriteKeepsValid(last);
      RewriteKeepsPort(last);
      assert last.port !in Refill(front).0;
    }
  }

  lemma RewriteKeepsPort(r: PortRecord)
    ensures Rewritten(r).port == r.port && Rewritten(r).parentDevice == r.parentDevice
  {
    hide RecoveryReason, RecoveredReason, RecoveryDetail, RecoveredDetail;
  }

  lemma {:induction false} DevicesAreFromImage(devices: seq<DeviceBinding>)
    ensures forall id :: id in RefillDevices(devices) ==>
              RefillDevices(devices)[id] in devices && RefillDevices(devices)[id].device == id
    ensures forall d :: d in devices ==> d.device in RefillDevices(devices)
    decreases |devices|
  {
    if devices != [] {
      var front := devices[..|devices| - 1];
      assert devices == front + [devices[|devices| - 1]];
      DevicesAreFromImage(front);
    }
  }

  predicate FencedFrom(publishers: seq<PublisherRecord>, entry: PublisherRecord) {
    exists i :: 0 <= i < |publishers| && entry == publishers[i].(fenced := true)
  }

  lemma {:induction false} PublishersAreFenced(publishers: seq<PublisherRecord>)
    ensures forall id :: id in RefillPublishers(publishers) ==>
              && RefillPublishers(publishers)[id].fenced && RefillPublishers(publishers)[id].publisher == id
              && FencedFrom(publishers, RefillPublishers(publishers)[id])
    ensures forall p :: p in publishers ==> p.publisher in RefillPublishers(publishers)
    decreases |publishers|
  {
    hide ValidIdentifier;
    if publishers != [] {
      var front, last := publishers[..|publishers| - 1], publishers[|publishers| - 1];
      assert publishers == front + [last];
      PublishersAreFenced(front);
      forall id | id in RefillPublishers(publishers) ensures FencedFrom(publishers, RefillPublishers(publishers)[id]) {
        if id == last.publisher {
          assert publishers[|front|] == last;
        } else {
          var i :| 0 <= i < |front| && RefillPublishers(front)[id] == front[i].(fenced := true);
          assert publishers[i] == front[i];
        }
      }
    }
  }

  // -------------------------------------------------------------------------
  // Recovery as a whole
  // -------------------------------------------------------------------------

  /** After a successful recovery of any container whose records are consistent, nothing of
      the previous life still carries authority, and every record is there as rewritten. */
  lemma RecoveryIsConservative(s: State, image: PersistedState)
    requires AllValid(image.records) && DistinctPorts(image.records)
    requires Recover(s, image).1 == Ok
    ensures var after := Recover(s, image).0;
            && after.epoch > image.epoch && after.epoch >= s.epoch
            && after.generation > image.engineGeneration
            && (forall id :: id in after.publishers ==> after.publishers[id].fenced)
            && |after.records| == |image.records|
            && forall r :: r in image.records ==> Restores(after.records, r)
  {
    hide Rewritten, PortRecord.Valid, Profiles.DefineAll, Profiles.Sort, ValidIdentifier;
    RefillIsTotal(image.records);
    RefillIsComplete(image.records);
    PublishersAreFenced(image.publishers);
  }

  /** The only reasons a container with consistent records is refused are bounds, a foreign
      fabric or site, its profiles, and counters that have run out. No record can be one. */
  lemma NoRecordStopsRecovery(s: State, image: PersistedState)
    requires AllValid(image.records)
    requires |image.records| <= s.config.portBound
    requires DefineAll(map[], Sort(image.profiles)).1
    requires !Exhaustible(image.epoch) && !Exhaustible(image.engineGeneration)
    requires s.config.fabric == image.fabric || !Named(s.config.fabric) || !Named(image.fabric)
    requires s.config.site == image.site || !Named(s.config.site) || !Named(image.site)
    ensures Recover(s, image).1 == Ok
  {
    hide Rewritten, PortRecord.Valid, Profiles.DefineAll, Profiles.Sort;
    RefillIsTotal(image.records);
  }

  // -------------------------------------------------------------------------
  // Gathering
  // -------------------------------------------------------------------------

  /** The walk of the records, in whatever order the unordered table is walked. */
  ghost predicate WalksRecords(m: map<Id, PortRecord>, records: seq<PortRecord>) {
    && DistinctPorts(records)
    && forall r :: r in records <==> r.port in m && m[r.port] == r
  }

  ghost predicate WalksDevices(m: map<Id, DeviceBinding>, devices: seq<DeviceBinding>) {
    && (forall i, j :: 0 <= i < j < |devices| ==> devices[i].device != devices[j].device)
    && forall d :: d in devices <==> d.device in m && m[d.device] == d
  }

  ghost predicate WalksPublishers(m: map<Id, PublisherRecord>, publishers: seq<PublisherRecord>) {
    && (forall i, j :: 0 <= i < j < |publishers| ==> publishers[i].publisher != publishers[j].publisher)
    && forall p :: p in publishers <==> p.publisher in m && m[p.publisher] == p
  }

  /** What the first of the three locked reads takes down. */
  ghost predicate GathersAuthority(s: State, image: PersistedState) {
    && image.fabric == s.config.fabric && image.site == s.config.site
    && image.epoch == s.epoch && image.topology == s.topology
    && WalksDevices(s.devices, image.devices) && WalksPublishers(s.publishers, image.publishers)
  }

  /** What the last of them takes down. */
  ghost predicate GathersRecords(s: State, image: PersistedState) {
    image.engineGeneration == s.generation && WalksRecords(s.records, image.records)
  }

  /** `image` is what a save gathers when its three reads find the engine in these states: the
      authority tables first, then the profiles, then the records. */
  ghost predicate Gathers(authority: State, profiles: State, records: State, image: PersistedState) {
    && GathersAuthority(authority, image)
    && Lists(profiles.profiles, image.profiles)
    && GathersRecords(records, image)
  }
}
