/** The runtime's state, and what each region under its locks does to it. */
module Engine {
  import opened Basics
  import opened Records
  import opened Profiles
  import opened Planning
  import opened Utf8
  import opened Wording

  datatype Registration = Automatic | Explicit

  datatype EngineConfig = EngineConfig(
    fabric: Id, site: Id, epoch: Generation, policy: AdapterPolicy, registration: Registration,
    portBound: nat, deviceBound: nat)

  datatype State = State(
    config: EngineConfig,
    records: map<Id, PortRecord>,
    generation: Generation,
    profiles: Registry,
    epoch: Generation,
    topology: Generation,
    publishers: map<Id, PublisherRecord>,
    devices: map<Id, DeviceBinding>)

  function FreshEngine(config: EngineConfig): State {
    State(config, map[], 0, map[], config.epoch, 1, map[], map[])
  }

  // -------------------------------------------------------------------------
  // Authority
  // -------------------------------------------------------------------------

  function CheckAuthority(s: State, a: AuthorityContext): (State, OutcomeCode) {
    if !a.Valid() then (s, MalformedRequest)
    else if a.epoch != s.epoch then (s, StaleCoordinatorEpoch)
    else if a.publisher !in s.publishers then
      if s.config.registration.Explicit? then (s, UnknownPublisher)
      else if |s.publishers| >= MAX_PUBLISHERS then (s, ResourceBoundExceeded)
      else (s.(publishers := s.publishers[a.publisher := PublisherRecord(a.publisher, a.boot, a.epoch, false)]), Ok)
    else
      var entry := s.publishers[a.publisher];
      if entry.boot != a.boot then (s, StaleWorkerBoot)
      else if entry.fenced then (s, PublisherFenced)
      else (s, Ok)
  }

  // -------------------------------------------------------------------------
  // Ownership release
  // -------------------------------------------------------------------------

  predicate HeldByIncarnation(r: PortRecord, publisher: Id, boot: Id) {
    r.ownership.Some? && r.ownership.value.publisher == publisher && r.ownership.value.boot == boot
  }

  predicate HeldBefore(r: PortRecord, epoch: Generation) {
    r.ownership.Some? && r.ownership.value.epoch < epoch
  }


  function Released(r: PortRecord, reason: Text, detail: Text): PortRecord {
    r.(ownership := None, generations := AdvanceOwnership(r.generations), statusReason := reason, statusDetail := detail)
  }

  function ReleasedByFence(r: PortRecord, publisher: Id, boot: Id): PortRecord {
    if HeldByIncarnation(r, publisher, boot) then Released(r, FencedReason(), FencedDetail()) else r
  }

  function ReleasedByEpoch(r: PortRecord, epoch: Generation): PortRecord {
    if HeldBefore(r, epoch) then Released(r, RestartReason(), RestartDetail()) else r
  }

  /** Every record held by one incarnation is released; the engine moves on if any was. */
  function ReleaseOwnershipOf(s: State, publisher: Id, boot: Id): State {
    var records := map port | port in s.records :: ReleasedByFence(s.records[port], publisher, boot);
    s.(records := records, generation := if records != s.records then Advance(s.generation) else s.generation)
  }

  function ReleaseOwnershipBefore(s: State, epoch: Generation): State {
    var records := map port | port in s.records :: ReleasedByEpoch(s.records[port], epoch);
    s.(records := records, generation := if records != s.records then Advance(s.generation) else s.generation)
  }

  // -------------------------------------------------------------------------
  // Epochs and publishers
  // -------------------------------------------------------------------------

  function FencedBefore(p: PublisherRecord, epoch: Generation): PublisherRecord {
    if p.epoch < epoch then p.(fenced := true) else p
  }

  function FencedAll(publishers: map<Id, PublisherRecord>, epoch: Generation): map<Id, PublisherRecord> {
    map id | id in publishers :: FencedBefore(publishers[id], epoch)
  }

  function BeginEpoch(s: State): (State, OutcomeCode) {
    if s.epoch == 0 then (s, InternalError)
    else if Exhaustible(s.epoch) then (s, ResourceBoundExceeded)
    else
      var epoch := Next(s.epoch);
      var publishers := FencedAll(s.publishers, epoch);
      (ReleaseOwnershipBefore(s.(epoch := epoch, publishers := publishers), epoch), Ok)
  }

  function RegisterPublisher(s: State, publisher: Id, boot: Id, epoch: Generation): (State, OutcomeCode) {
    if !Named(publisher) || !Named(boot) || epoch == 0 then (s, MalformedRequest)
    else if epoch != s.epoch then (s, StaleCoordinatorEpoch)
    else
      var entry := PublisherRecord(publisher, boot, epoch, false);
      if publisher in s.publishers && s.publishers[publisher].boot == boot then
        (s, if s.publishers[publisher].fenced then PublisherFenced else AlreadyCurrent)
      else if publisher in s.publishers && (s.publishers[publisher].epoch == epoch || s.publishers[publisher].fenced) then
        (s.(publishers := s.publishers[publisher := s.publishers[publisher].(boot := boot, epoch := epoch, fenced := false)]), Ok)
      else if |s.publishers| >= MAX_PUBLISHERS then (s, ResourceBoundExceeded)
      else (s.(publishers := s.publishers[publisher := entry]), Ok)
  }

  /** An empty boot names whichever incarnation is current. */
  function FencePublisher(s: State, publisher: Id, boot: Id): (State, OutcomeCode) {
    if !Named(publisher) then (s, MalformedRequest)
    else if publisher !in s.publishers then (s, UnknownPublisher)
    else
      var entry := s.publishers[publisher];
      if Named(boot) && entry.boot != boot then (s, StaleWorkerBoot)
      else if entry.fenced then (s, AlreadyCurrent)
      else
        (ReleaseOwnershipOf(s.(publishers := s.publishers[publisher := entry.(fenced := true)]), entry.publisher, entry.boot), Ok)
  }

  // -------------------------------------------------------------------------
  // Devices, topology, profiles
  // -------------------------------------------------------------------------

  function RegisterDevice(s: State, device: Id, generation: Generation, source: Text): (State, OutcomeCode) {
    if !Named(device) || generation == 0 then (s, MalformedRequest)
    else if !ValidText(source, MAX_NAME_LENGTH) then (s, InvalidText)
    else if device in s.devices then
      var existing := s.devices[device];
      if generation < existing.generation then (s, StaleDeviceGeneration)
      else if generation == existing.generation then (s, AlreadyCurrent)
      else if |s.devices| > s.config.deviceBound then (s, ResourceBoundExceeded)
      else (s.(devices := s.devices[device := existing.(generation := generation, source := source)]), Ok)
    else if |s.devices| >= s.config.deviceBound then (s, ResourceBoundExceeded)
    else (s.(devices := s.devices[device := DeviceBinding(device, generation, source)]), Ok)
  }

  function SetTopology(s: State, generation: Generation): (State, OutcomeCode) {
    if generation == 0 then (s, MalformedRequest)
    else if generation < s.topology then (s, StaleTopologyGeneration)
    else if generation == s.topology then (s, AlreadyCurrent)
    else (s.(topology := generation), Ok)
  }

  function DefineProfile(s: State, profile: PortProfile): (State, OutcomeCode) {
    var (profiles, code) := DefineIn(s.profiles, profile);
    (s.(profiles := profiles), code)
  }

  // -------------------------------------------------------------------------
  // Commit and uncertainty
  // -------------------------------------------------------------------------

  /** Compare-and-commit: the record is replaced only if nothing the expectation covers moved. */
  function Commit(s: State, port: Id, expected: ExpectedState, next: PortRecord): (State, OutcomeCode) {
    if port !in s.records then (s, UnknownPort)
    else
      var current := s.records[port];
      if Named(current.lastMutation.attempt) && current.lastMutation.attempt == next.lastMutation.attempt then
        (s, Idempotent)
      else if !expected.Matches(current) then (s, StaleConfigurationGeneration)
      else if current.lifecycle.Retired? && !next.lifecycle.Retired? then (s, PortRetired)
      else if Exhaustible(s.generation) then (s, ResourceBoundExceeded)
      else (s.(records := s.records[port := next], generation := Next(s.generation)), Ok)
  }

  /** A record after an apply whose outcome is unknown: the committed configuration stays, the
      port is fenced unless it is already past use. */
  function Uncertain(r: PortRecord, a: AuthorityContext, generation: Generation, detail: Text, source: Text): PortRecord {
    var advanced := AdvanceEvidence(r.generations);
    var fences := !r.lifecycle.Retired? && !r.lifecycle.Superseded?;
    r.(
      applied := AppliedEvidence(AppliedOutcome.OutcomeUnknown, generation, advanced.evidence, source, false),
      generations := if fences then AdvanceLifecycle(advanced) else advanced,
      drift := DriftState.RevalidationRequired,
      lifecycle := if fences then PortLifecycle.RevalidationRequired else r.lifecycle,
      statusReason := UnknownReason(),
      statusDetail := detail,
      provenance := r.provenance.(kind := ProvenanceKind.Recovery, epoch := a.epoch, attempt := a.attempt))
  }

  function RecordUncertainty(s: State, port: Id, a: AuthorityContext, generation: Generation, detail: Text, source: Text): State {
    if port !in s.records then s
    else
      s.(records := s.records[port := Uncertain(s.records[port], a, generation, detail, source)],
         generation := Next(s.generation))
  }

  // -------------------------------------------------------------------------
  // Binding a port
  // -------------------------------------------------------------------------

  datatype Binding = Binding(
    port: Id, parentDevice: Id, deviceGeneration: Generation, provenanceKind: ProvenanceKind, provenanceSource: Text,
    epoch: Generation, attempt: Id, digest: PayloadDigest)

  /** The record a fresh port starts from. */
  function BoundRecord(b: Binding, provider: Provider): PortRecord {
    var blank := PortRecord(
      b.port, b.parentDevice, PortLifecycle.Unconfigured, None, None, NO_BINDING, NO_EVIDENCE, DriftState.Unknown,
      GenerationVector(0, 0, 0, 0, 0, b.deviceGeneration, 1, 0),
      Provenance(if b.provenanceKind.Unknown? then ProvenanceKind.Operator else b.provenanceKind,
                 b.provenanceSource, [], [], b.epoch, b.attempt),
      LastMutation(b.attempt, b.digest, 0), BoundReason(), []);
    var (code, evidence) := ResolveCapabilities(blank, provider);
    if code.Ok? && evidence.present then
      blank.(capability := evidence,
             generations := blank.generations.(capability := evidence.generation, evidence := evidence.evidenceGeneration))
    else blank
  }

  /** The insertion of the record, the second of the three regions of `bind_port`. */
  function InsertPort(s: State, b: Binding, provider: Provider): (State, OutcomeCode) {
    if b.port in s.records then
      var existing := s.records[b.port];
      if existing.parentDevice != b.parentDevice then (s, ConflictDetected)
      else if existing.lastMutation.Valid() && existing.lastMutation.attempt == b.attempt then (s, Idempotent)
      else (s, AlreadyCurrent)
    else if |s.records| >= s.config.portBound then (s, ResourceBoundExceeded)
    else
      var record := BoundRecord(b, provider);
      if !record.Valid() then (s, InvalidConfiguration)
      else (s.(records := s.records[b.port := record], generation := Advance(s.generation)), Ok)
  }

  /** The parent has been replaced by a newer generation than the binding declares. */
  predicate TakesBack(s: State, b: Binding) {
    b.parentDevice in s.devices && s.devices[b.parentDevice].generation > b.deviceGeneration
  }

  /** The device bookkeeping that follows: it records the parent, advances it, or takes the
      new record back when the parent has already been replaced. */
  function AttachDevice(s: State, b: Binding): (State, OutcomeCode) {
    if b.parentDevice !in s.devices then
      if |s.devices| >= s.config.deviceBound then (s, ResourceBoundExceeded)
      else
        (s.(devices := s.devices[b.parentDevice := DeviceBinding(b.parentDevice, b.deviceGeneration, b.provenanceSource)]), Ok)
    else
      var existing := s.devices[b.parentDevice];
      if existing.generation < b.deviceGeneration then
        (s.(devices := s.devices[b.parentDevice := existing.(generation := b.deviceGeneration, source := b.provenanceSource)]), Ok)
      else if TakesBack(s, b) then (s.(records := s.records - {b.port}), StaleDeviceGeneration)
      else (s, Ok)
  }

  /** Binding as one step. */
  function BindPort(s: State, b: Binding, provider: Provider): (State, OutcomeCode) {
    if !Named(b.port) || !Named(b.parentDevice) || b.deviceGeneration == 0 || !Named(b.attempt) then
      (s, MalformedRequest)
    else if b.epoch != s.epoch then (s, StaleCoordinatorEpoch)
    else
      var (inserted, code) := InsertPort(s, b, provider);
      if code != Ok then (inserted, code) else AttachDevice(inserted, b)
  }
}
