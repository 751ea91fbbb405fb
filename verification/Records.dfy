/** The entities the engine governs and the container stores. */
module Records {
  import opened Basics
  import opened Rates
  import opened Characteristics
  import opened Utf8

  // -------------------------------------------------------------------------
  // Outcomes
  // -------------------------------------------------------------------------

  datatype OutcomeCode =
    | Ok | Idempotent | AlreadyCurrent
    | MalformedRequest | UnknownPort | UnknownDevice | UnknownProfile | UnknownPublisher | UnknownOwnership
    | WrongEntityClass | DuplicateRecord | ResourceBoundExceeded | InvalidText
    | StaleDeviceGeneration | StaleTopologyGeneration | StaleConfigurationGeneration
    | StaleCapabilityGeneration | StaleWorkerBoot | StaleCoordinatorEpoch | StaleOwnershipGeneration
    | UnauthorizedOwner | OwnershipConflict | PublisherFenced
    | UnsupportedConfiguration | CapabilityUnknown | CapabilityUnavailable
    | InvalidLifecycleTransition | InvalidConfiguration | InvalidLaneConfiguration | InvalidProfile
    | PortRetired | PortSuperseded | RevalidationRequired | ConflictDetected | TransceiverUnknown
    | ApplyFailed | ApplyOutcomeUnknown | ReadbackMismatch
    | PersistenceCorruption | PersistenceVersionUnsupported | PersistenceBoundsExceeded
    | TransportFailure | InternalError
  {
    /** Accepted outcomes: the operation changed state, or it had nothing left to change. */
    predicate Accepted() { Ok? || Idempotent? || AlreadyCurrent? }
  }

  // -------------------------------------------------------------------------
  // Lifecycle and administrative state
  // -------------------------------------------------------------------------

  datatype PortLifecycle =
    | Unconfigured | Configured | Active | AdminDisabled | Draining | Maintenance
    | RevalidationRequired | Superseded | Retired | Conflicted

  datatype AdministrativeState = Unknown | Enabled | Disabled | Draining | Maintenance | RevalidationRequired

  predicate IsLive(state: PortLifecycle) {
    state.Configured? || state.Active? || state.AdminDisabled? || state.Draining? || state.Maintenance?
  }

  predicate RequiresReconciliation(state: PortLifecycle) {
    state.RevalidationRequired? || state.Superseded? || state.Conflicted?
  }

  // -------------------------------------------------------------------------
  // Provenance, profiles bound to a port, configuration
  // -------------------------------------------------------------------------

  datatype ProvenanceKind =
    | Unknown | Operator | NetworkController | SwitchAgent | HostAgent | DelegatedSubsystem
    | SyntheticBackend | HostAdapter | Recovery | Reconciliation

  datatype Provenance = Provenance(
    kind: ProvenanceKind, source: Text, publisher: Id, boot: Id, epoch: Generation, attempt: Id)
  {
    predicate Valid() { epoch != 0 && Named(attempt) }
  }

  const NO_PROVENANCE := Provenance(ProvenanceKind.Unknown, [], [], [], 0, [])

  datatype ProfileBinding = ProfileBinding(bound: bool, id: Id, generation: Generation) {
    predicate Valid() {
      if bound then Named(id) && generation != 0 else !Named(id) && generation == 0
    }
  }

  const NO_PROFILE := ProfileBinding(false, [], 0)

  datatype PortConfiguration = PortConfiguration(
    record: Id,
    port: Id,
    parentDevice: Id,
    deviceGeneration: Generation,
    topologyGeneration: Generation,
    generation: Generation,
    administrative: AdministrativeState,
    mode: PortMode,
    protocol: ProtocolFamily,
    speed: SpeedSetting,
    duplex: DuplexMode,
    mtu: Mtu,
    lanes: Lanes,
    breakout: BreakoutMode,
    autoneg: AutonegPolicy,
    fec: FecMode,
    pause: PauseMode,
    aggregation: Aggregation,
    profile: ProfileBinding,
    role: Text,
    logicalIdentity: Id,
    derivedFrom: Id,
    childIndex: u32,
    provenance: Provenance,
    capabilityGeneration: Generation,
    evidenceGeneration: Generation)
  {
    /** Structural and semantic validation of every dimension. */
    predicate Valid() {
      && Named(record) && Named(port) && Named(parentDevice)
      && deviceGeneration != 0 && topologyGeneration != 0 && generation != 0
      && speed.Valid() && mtu != 0 && HasLanes(lanes)
      && aggregation.Valid() && profile.Valid() && provenance.Valid()
      && ValidText(role, MAX_NAME_LENGTH)
      && (speed.selection.Forced? ==> LaneTotal(lanes) == Some(speed.rate))
      && (breakout != NoBreakout ==> LanesAreDivisible(lanes.lanes, breakout))
      && ValidDerivation()
    }

    predicate ValidDerivation() {
      if mode.Physical? then
        !Named(logicalIdentity) && !Named(derivedFrom) && childIndex == 0
      else
        Named(logicalIdentity) && Named(derivedFrom) && childIndex <= MAX_BREAKOUT_CHILDREN
    }
  }

  // -------------------------------------------------------------------------
  // Capabilities
  // -------------------------------------------------------------------------

  datatype CapabilityCertainty = Unknown | Known | Partial

  datatype PortCapabilities = PortCapabilities(
    certainty: CapabilityCertainty,
    supportedSpeeds: seq<PortSpeed>,
    laneModes: seq<u32>,
    maxLanes: u32,
    breakoutSupported: bool,
    maxBreakoutChildren: u32,
    fecModes: seq<FecMode>,
    autonegModes: seq<AutonegPolicy>,
    pauseModes: seq<PauseMode>,
    protocolFamilies: seq<ProtocolFamily>,
    mtuMin: u32,
    mtuMax: u32,
    duplex: DuplexMode,
    logicalInterfaceSupported: bool,
    maxQueueCount: u32,
    transceiverRequired: bool,
    transceiverClass: Text)
  {
    predicate Valid() {
      && |supportedSpeeds| <= MAX_CAPABILITY_ENTRIES
      && |laneModes| <= MAX_MODE_ENTRIES && |fecModes| <= MAX_MODE_ENTRIES
      && |autonegModes| <= MAX_MODE_ENTRIES && |pauseModes| <= MAX_MODE_ENTRIES
      && |protocolFamilies| <= MAX_MODE_ENTRIES
      && maxLanes <= MAX_LANES
      && (forall i :: 0 <= i < |supportedSpeeds| ==> supportedSpeeds[i] != 0)
      && (forall i :: 0 <= i < |laneModes| ==> 1 <= laneModes[i] <= MAX_LANES)
      && mtuMin <= mtuMax <= MAX_MTU
      && maxBreakoutChildren <= MAX_BREAKOUT_CHILDREN
      && maxQueueCount <= MAX_QUEUE_COUNT
      && ValidText(transceiverClass, MAX_NAME_LENGTH)
    }

    predicate SupportsSpeed(speed: PortSpeed) {
      speed != 0 && !certainty.Unknown? && speed in supportedSpeeds
    }

    predicate SupportsLanes(lanes: nat) {
      && lanes != 0 && !certainty.Unknown?
      && (maxLanes != 0 ==> lanes <= maxLanes)
      && if laneModes == [] then maxLanes == 0 && lanes == 1 else lanes in laneModes
    }

    predicate SupportsFec(mode: FecMode) { !certainty.Unknown? && !mode.Unknown? && mode in fecModes }

    predicate SupportsAutoneg(policy: AutonegPolicy) {
      !certainty.Unknown? && !policy.Unknown? && policy in autonegModes
    }

    predicate SupportsPause(mode: PauseMode) { !certainty.Unknown? && !mode.Unknown? && mode in pauseModes }

    predicate SupportsProtocol(family: ProtocolFamily) {
      !certainty.Unknown? && !family.Unknown? && family in protocolFamilies
    }
  }

  const NO_CAPABILITIES := PortCapabilities(
    CapabilityCertainty.Unknown, [], [], 0, false, 1, [], [], [], [], 0, 0, DuplexMode.Unknown, false, 0, false, [])

  datatype CapabilityBinding = CapabilityBinding(
    capabilities: PortCapabilities,
    generation: Generation,
    evidenceGeneration: Generation,
    evidence: Id,
    source: Text,
    present: bool)
  {
    predicate Valid() { present ==> generation != 0 && evidenceGeneration != 0 }
  }

  const NO_BINDING := CapabilityBinding(NO_CAPABILITIES, 0, 0, [], [], false)

  /** The speed dimension of the capability check. */
  function SpeedVerdict(speed: SpeedSetting, lanes: Lanes, capabilities: PortCapabilities): OutcomeCode {
    var total := LaneTotal(lanes);
    if total.None? then InvalidLaneConfiguration
    else if speed.selection.Auto? then
      if total.value in capabilities.supportedSpeeds then Ok else UnsupportedConfiguration
    else if !capabilities.SupportsSpeed(speed.rate) then UnsupportedConfiguration
    else if speed.rate != total.value then InvalidLaneConfiguration
    else Ok
  }

  function BreakoutVerdict(breakout: BreakoutMode, capabilities: PortCapabilities): OutcomeCode {
    if breakout == NoBreakout then Ok
    else if !capabilities.breakoutSupported then UnsupportedConfiguration
    else if BreakoutChildren(breakout) > capabilities.maxBreakoutChildren then UnsupportedConfiguration
    else Ok
  }

  /** A dimension that is not named is unknown, one that is marked unsupported asks for
      nothing, and any other must be positively supported. */
  function DimensionVerdict(unknown: bool, unsupported: bool, supported: bool): OutcomeCode {
    if unknown then CapabilityUnknown
    else if !unsupported && !supported then UnsupportedConfiguration
    else Ok
  }

  function MtuVerdict(mtu: Mtu, capabilities: PortCapabilities): OutcomeCode {
    if capabilities.mtuMax == 0 then CapabilityUnknown
    else if mtu < capabilities.mtuMin || mtu > capabilities.mtuMax then UnsupportedConfiguration
    else Ok
  }

  function Then(first: OutcomeCode, second: OutcomeCode): OutcomeCode {
    if first != Ok then first else second
  }

  /** Fail-closed validation of a configuration against bound evidence: the first dimension
      the evidence does not support decides the code. */
  function CapabilityVerdict(c: PortConfiguration, binding: CapabilityBinding): OutcomeCode {
    var p := binding.capabilities;
    if !binding.present || binding.generation == 0 || !p.Valid() then CapabilityUnavailable
    else if p.certainty.Unknown? then CapabilityUnknown
    else
      Then(SpeedVerdict(c.speed, c.lanes, p),
      Then(if p.SupportsLanes(c.lanes.lanes) then Ok else UnsupportedConfiguration,
      Then(BreakoutVerdict(c.breakout, p),
      Then(DimensionVerdict(c.protocol.Unknown?, false, p.SupportsProtocol(c.protocol)),
      Then(DimensionVerdict(c.fec.Unknown?, c.fec.Unsupported?, p.SupportsFec(c.fec)),
      Then(DimensionVerdict(c.autoneg.Unknown?, c.autoneg.Unsupported?, p.SupportsAutoneg(c.autoneg)),
      Then(DimensionVerdict(c.pause.Unknown?, c.pause.Unsupported?, p.SupportsPause(c.pause)),
      Then(DimensionVerdict(c.duplex.Unknown?, c.duplex.Unsupported?,
                            p.duplex.Unknown? || p.duplex == c.duplex),
      Then(MtuVerdict(c.mtu, p),
      Then(if c.mode.Logical? && !p.logicalInterfaceSupported then UnsupportedConfiguration else Ok,
           if p.transceiverRequired && p.transceiverClass == [] then TransceiverUnknown else Ok))))))))))
  }

  predicate Supports(binding: CapabilityBinding, c: PortConfiguration) { CapabilityVerdict(c, binding) == Ok }

  /** The verdict looks only at the technical dimensions: identity, generations,
      administrative intent and provenance cannot change it. */
  lemma VerdictIgnoresBookkeeping(c: PortConfiguration, d: PortConfiguration, binding: CapabilityBinding)
    requires c.speed == d.speed && c.lanes == d.lanes && c.breakout == d.breakout && c.protocol == d.protocol
    requires c.fec == d.fec && c.autoneg == d.autoneg && c.pause == d.pause && c.duplex == d.duplex
    requires c.mtu == d.mtu && c.mode == d.mode
    ensures CapabilityVerdict(c, binding) == CapabilityVerdict(d, binding)
  {
    hide SpeedVerdict, BreakoutVerdict, MtuVerdict, DimensionVerdict, Then;
  }

  /** Exactly what acceptance means. Every dimension a configuration names must be positively
      supported, with one exception: evidence that does not know the duplex accepts any. A dimension
      marked unsupported asks for nothing, and one that is not named is refused. */
  lemma AcceptedMeansSupported(c: PortConfiguration, binding: CapabilityBinding)
    ensures Supports(binding, c) <==>
              var p := binding.capabilities;
              && binding.present && binding.generation != 0 && p.Valid() && !p.certainty.Unknown?
              && LaneTotal(c.lanes).Some? && LaneTotal(c.lanes).value in p.supportedSpeeds
              && (c.speed.selection.Forced? ==> LaneTotal(c.lanes).value == c.speed.rate)
              && p.SupportsLanes(c.lanes.lanes)
              && (c.breakout != NoBreakout ==> p.breakoutSupported && BreakoutChildren(c.breakout) <= p.maxBreakoutChildren)
              && p.SupportsProtocol(c.protocol)
              && (c.fec.Unsupported? || p.SupportsFec(c.fec))
              && (c.autoneg.Unsupported? || p.SupportsAutoneg(c.autoneg))
              && (c.pause.Unsupported? || p.SupportsPause(c.pause))
              && !c.duplex.Unknown? && (c.duplex.Unsupported? || p.duplex.Unknown? || p.duplex == c.duplex)
              && p.mtuMax != 0 && p.mtuMin <= c.mtu <= p.mtuMax
              && (c.mode.Logical? ==> p.logicalInterfaceSupported)
              && (p.transceiverRequired ==> p.transceiverClass != [])
  {
    hide PortCapabilities.Valid;
  }

  // -------------------------------------------------------------------------
  // Ownership, evidence, generations
  // -------------------------------------------------------------------------

  datatype PortOwnerKind =
    | Unknown | SwitchAgent | HostAgent | NetworkController | AdministrativeControlPlane | DelegatedSubsystem

  datatype PortOwnership = PortOwnership(
    id: Id, kind: PortOwnerKind, owner: Id, generation: Generation,
    publisher: Id, boot: Id, epoch: Generation, exclusive: bool)
  {
    predicate Valid() {
      Named(id) && Named(owner) && generation != 0 && Named(publisher) && Named(boot) && epoch != 0
    }

    predicate HeldBy(candidatePublisher: Id, candidateBoot: Id, candidateEpoch: Generation) {
      Valid() && publisher == candidatePublisher && boot == candidateBoot && epoch == candidateEpoch
    }
  }

  datatype AppliedOutcome = NotAttempted | Applied | ApplyFailed | OutcomeUnknown | Verified | Unsupported

  datatype AppliedEvidence = AppliedEvidence(
    outcome: AppliedOutcome, generation: Generation, evidenceGeneration: Generation, source: Text, verified: bool)

  const NO_EVIDENCE := AppliedEvidence(NotAttempted, 0, 0, [], false)

  datatype DriftState = Unknown | InSync | Drifted | RevalidationRequired | Conflicted

  datatype GenerationVector = GenerationVector(
    configuration: Generation, administrative: Generation, ownership: Generation, capability: Generation,
    topology: Generation, device: Generation, lifecycle: Generation, evidence: Generation)

  datatype LastMutation = LastMutation(attempt: Id, payloadDigest: u64, resultGeneration: Generation) {
    predicate Valid() { Named(attempt) && payloadDigest != 0 }
  }

  const NO_MUTATION := LastMutation([], 0, 0)

  // -------------------------------------------------------------------------
  // The port record
  // -------------------------------------------------------------------------

  datatype PortRecord = PortRecord(
    port: Id,
    parentDevice: Id,
    lifecycle: PortLifecycle,
    configuration: Option<PortConfiguration>,
    ownership: Option<PortOwnership>,
    capability: CapabilityBinding,
    applied: AppliedEvidence,
    drift: DriftState,
    generations: GenerationVector,
    provenance: Provenance,
    lastMutation: LastMutation,
    statusReason: Text,
    statusDetail: Text)
  {
    predicate Valid() {
      ValidButFor() && (configuration.None? ==> lifecycle.Unconfigured? || lifecycle.Retired? || lifecycle.Superseded?)
    }

    /** Everything `validate` asks except that an unconfigured record is in a state an
        unconfigured record may be in. */
    predicate ValidButFor() {
      && Named(port) && Named(parentDevice)
      && capability.Valid()
      && (ownership.Some? ==> ownership.value.Valid())
      && (configuration.Some? ==>
            && configuration.value.Valid()
            && configuration.value.port == port
            && configuration.value.parentDevice == parentDevice
            && (generations.configuration != 0 ==> configuration.value.generation == generations.configuration))
      && ValidText(statusReason, MAX_NAME_LENGTH)
      && ValidText(statusDetail, MAX_DESCRIPTION_LENGTH)
    }
  }

  // -------------------------------------------------------------------------
  // Profiles, devices, publishers, durable state
  // -------------------------------------------------------------------------

  datatype ProfileConfiguration = ProfileConfiguration(
    specifiesSpeed: bool, speed: SpeedSetting,
    specifiesMtu: bool, mtu: Mtu,
    specifiesDuplex: bool, duplex: DuplexMode,
    specifiesAutoneg: bool, autoneg: AutonegPolicy,
    specifiesFec: bool, fec: FecMode,
    specifiesPause: bool, pause: PauseMode,
    specifiesBreakout: bool, breakout: BreakoutMode,
    specifiesMode: bool, mode: PortMode,
    specifiesProtocol: bool, protocol: ProtocolFamily,
    specifiesAggregation: bool, aggregateParticipation: bool,
    specifiesRole: bool, role: Text)
  {
    predicate Valid() {
      && (specifiesSpeed ==> speed.Valid())
      && (specifiesMtu ==> mtu != 0)
      && ValidText(role, MAX_NAME_LENGTH)
      && (!specifiesRole ==> role == [])
    }
  }

  datatype PortProfile = PortProfile(
    id: Id, generation: Generation, name: Text, description: Text,
    configuration: ProfileConfiguration, provenance: Provenance)
  {
    predicate Valid() {
      && Named(id) && generation != 0
      && ValidText(name, MAX_NAME_LENGTH) && name != []
      && ValidText(description, MAX_DESCRIPTION_LENGTH)
      && configuration.Valid()
      && provenance.epoch != 0
    }
  }

  datatype DeviceBinding = DeviceBinding(device: Id, generation: Generation, source: Text) {
    predicate Valid() { Named(device) && generation != 0 }
  }

  datatype PublisherRecord = PublisherRecord(publisher: Id, boot: Id, epoch: Generation, fenced: bool) {
    predicate Valid() { Named(publisher) && Named(boot) }
  }

  datatype PersistedState = PersistedState(
    fabric: Id,
    site: Id,
    epoch: Generation,
    engineGeneration: Generation,
    topology: Generation,
    records: seq<PortRecord>,
    profiles: seq<PortProfile>,
    devices: seq<DeviceBinding>,
    publishers: seq<PublisherRecord>)
}
