/** The canonical encoding of every durable entity, as functions: what is written, what is
    accepted, and that each undoes the other. */
module Wire {
  import opened Basics
  import opened Rates
  import opened Characteristics
  import opened Records
  import opened Utf8
  import opened Codec
  import opened Codes

  // -------------------------------------------------------------------------
  // Provenance
  // -------------------------------------------------------------------------

  predicate LegalProvenance(p: Provenance) { |p.source| <= MAX_NAME_LENGTH }

  function PutProvenance(p: Provenance, rest: Text): (s: Text)
    ensures |s| >= |rest|
  {
    PutEnum(ProvenanceKindCode, p.kind, PutText(p.source, PutId(p.publisher, PutId(p.boot, PutU64(p.epoch, PutId(p.attempt, rest))))))
  }

  function GetProvenance(s: Text): Parsed<Provenance> {
    var (kind, s) :- GetEnum(ProvenanceKindOf, s);
    var (source, s) :- GetText(MAX_NAME_LENGTH, s);
    var (publisher, s) :- GetId(s);
    var (boot, s) :- GetId(s);
    var (epoch, s) :- GetU64(s);
    var (attempt, s) :- GetId(s);
    Some((Provenance(kind, source, publisher, boot, epoch, attempt), s))
  }

  lemma ProvenanceLaw()
    ensures forall p, rest :: LegalProvenance(p) ==> GetProvenance(PutProvenance(p, rest)) == Some((p, rest))
    ensures forall s :: GetProvenance(s).Some? ==>
              LegalProvenance(GetProvenance(s).value.0) && s == PutProvenance(GetProvenance(s).value.0, GetProvenance(s).value.1)
  {
    hide GetEnum, PutEnum, GetText, PutText, GetId, PutId, GetU64, PutU64, ValidIdentifier;
    EnumLaw(ProvenanceKindCode, ProvenanceKindOf);
    TextLaw(MAX_NAME_LENGTH);
    IdLaw();
    U64Law();
  }

  // -------------------------------------------------------------------------
  // Rates, MTU, lanes
  // -------------------------------------------------------------------------

  function PutRate(rate: PortSpeed, rest: Text): (s: Text)
    ensures |s| == |rest| + 8
  {
    PutU64(rate, rest)
  }

  /** Zero is the absent rate; anything else must be representable. */
  function GetRate(s: Text): (r: Parsed<PortSpeed>)
    ensures r.Some? ==> s == PutRate(r.value.0, r.value.1)
  {
    hide PutU64;
    var (bits, rest) :- GetU64(s);
    if bits == 0 || RepresentableRate(bits) then Some((bits, rest)) else None
  }

  predicate IsRate(rate: PortSpeed) { rate != 0 }

  function GetSpeed(s: Text): (r: Parsed<PortSpeed>)
    ensures r.Some? ==> s == PutRate(r.value.0, r.value.1) && IsRate(r.value.0)
  {
    hide PutU64;
    var (bits, rest) :- GetU64(s);
    var speed :- FromBits(bits);
    Some((speed, rest))
  }

  lemma RateLaw()
    ensures forall rate: PortSpeed, rest: Text :: GetRate(PutRate(rate, rest)) == Some((rate, rest))
    ensures forall rate: PortSpeed, rest: Text :: rate != 0 ==> GetSpeed(PutRate(rate, rest)) == Some((rate, rest))
  {
    hide GetU64, PutU64;
    U64Law();
  }

  function PutMtu(mtu: Mtu, rest: Text): (s: Text)
    ensures |s| >= |rest|
  {
    PutU32(mtu, rest)
  }

  function GetMtu(s: Text): (r: Parsed<Mtu>)
    ensures r.Some? ==> s == PutMtu(r.value.0, r.value.1) && r.value.0 != 0
  {
    hide PutU32;
    var (value, rest) :- GetU32(s);
    var mtu :- CreateMtu(value);
    Some((mtu, rest))
  }

  function PutLanes(l: Lanes, rest: Text): (s: Text)
    ensures |s| >= |rest|
  {
    PutU32(l.lanes, PutRate(l.perLane, rest))
  }

  function GetLanes(s: Text): (r: Parsed<Lanes>)
    ensures r.Some? ==> s == PutLanes(r.value.0, r.value.1) && HasLanes(r.value.0)
  {
    hide PutU32, PutRate;
    var (lanes, s) :- GetU32(s);
    var (perLane, s) :- GetSpeed(s);
    var l :- CreateLanes(lanes, perLane);
    Some((l, s))
  }

  lemma MtuLaw()
    ensures forall mtu: Mtu, rest: Text :: mtu != 0 ==> GetMtu(PutMtu(mtu, rest)) == Some((mtu, rest))
  {
    hide GetU32, PutU32;
    U32Law();
  }

  lemma LanesLaw()
    ensures forall l: Lanes, rest: Text :: HasLanes(l) ==> GetLanes(PutLanes(l, rest)) == Some((l, rest))
  {
    hide GetU32, PutU32, GetSpeed, PutRate;
    U32Law();
    RateLaw();
    forall l: Lanes, rest: Text | HasLanes(l) ensures GetLanes(PutLanes(l, rest)) == Some((l, rest)) {
      assert LegalLanes(l);
    }
  }

  // -------------------------------------------------------------------------
  // Capabilities
  // -------------------------------------------------------------------------

  /** The modes a capability record lists, in the order they are written. */
  datatype Modes = Modes(
    fec: seq<FecMode>, autoneg: seq<AutonegPolicy>, pause: seq<PauseMode>, protocols: seq<ProtocolFamily>)
  {
    predicate Bounded() {
      |fec| <= MAX_MODE_ENTRIES && |autoneg| <= MAX_MODE_ENTRIES && |pause| <= MAX_MODE_ENTRIES
      && |protocols| <= MAX_MODE_ENTRIES
    }
  }

  function PutFec(e: FecMode, rest: Text): (s: Text)
    ensures |s| == |rest| + 1
  {
    PutEnum(FecModeCode, e, rest)
  }

  function GetFec(s: Text): Parsed<FecMode> { GetEnum(FecModeOf, s) }
  function PutAutoneg(e: AutonegPolicy, rest: Text): (s: Text)
    ensures |s| == |rest| + 1
  {
    PutEnum(AutonegPolicyCode, e, rest)
  }

  function GetAutoneg(s: Text): Parsed<AutonegPolicy> { GetEnum(AutonegPolicyOf, s) }
  function PutPause(e: PauseMode, rest: Text): (s: Text)
    ensures |s| == |rest| + 1
  {
    PutEnum(PauseModeCode, e, rest)
  }

  function GetPause(s: Text): Parsed<PauseMode> { GetEnum(PauseModeOf, s) }
  function PutProtocol(e: ProtocolFamily, rest: Text): (s: Text)
    ensures |s| == |rest| + 1
  {
    PutEnum(ProtocolFamilyCode, e, rest)
  }

  function GetProtocol(s: Text): Parsed<ProtocolFamily> { GetEnum(ProtocolFamilyOf, s) }

  predicate AnyFec(e: FecMode) { true }
  predicate AnyAutoneg(e: AutonegPolicy) { true }
  predicate AnyPause(e: PauseMode) { true }
  predicate AnyProtocol(e: ProtocolFamily) { true }
  predicate AnyLanes(n: u32) { true }

  lemma ModeInverses()
    ensures Inverse(PutFec, GetFec, AnyFec)
    ensures Inverse(PutAutoneg, GetAutoneg, AnyAutoneg)
    ensures Inverse(PutPause, GetPause, AnyPause)
    ensures Inverse(PutProtocol, GetProtocol, AnyProtocol)
  {
    hide GetEnum, PutEnum;
    EnumLaw(FecModeCode, FecModeOf);
    EnumLaw(AutonegPolicyCode, AutonegPolicyOf);
    EnumLaw(PauseModeCode, PauseModeOf);
    EnumLaw(ProtocolFamilyCode, ProtocolFamilyOf);
  }

  function PutModes(m: Modes, rest: Text): (s: Text)
    ensures |s| >= |rest|
  {
    EachGrows(m.protocols, PutProtocol, rest);
    var after := PutList(m.protocols, PutProtocol, rest);
    EachGrows(m.pause, PutPause, after);
    var after := PutList(m.pause, PutPause, after);
    EachGrows(m.autoneg, PutAutoneg, after);
    var after := PutList(m.autoneg, PutAutoneg, after);
    EachGrows(m.fec, PutFec, after);
    PutList(m.fec, PutFec, PutList(m.autoneg, PutAutoneg, PutList(m.pause, PutPause, PutList(m.protocols, PutProtocol, rest))))
  }

  function GetModes(s: Text): Parsed<Modes> {
    var (fec, s) :- GetList(MAX_MODE_ENTRIES, GetFec, s);
    var (autoneg, s) :- GetList(MAX_MODE_ENTRIES, GetAutoneg, s);
    var (pause, s) :- GetList(MAX_MODE_ENTRIES, GetPause, s);
    var (protocols, s) :- GetList(MAX_MODE_ENTRIES, GetProtocol, s);
    Some((Modes(fec, autoneg, pause, protocols), s))
  }

  lemma ModesLaw()
    ensures forall m: Modes, rest: Text :: m.Bounded() ==> GetModes(PutModes(m, rest)) == Some((m, rest))
    ensures forall s :: GetModes(s).Some? ==>
              GetModes(s).value.0.Bounded() && s == PutModes(GetModes(s).value.0, GetModes(s).value.1)
  {
    hide GetList, PutList, Inverse;
    ModeInverses();
    ListLaw(MAX_MODE_ENTRIES, PutFec, GetFec, AnyFec);
    ListLaw(MAX_MODE_ENTRIES, PutAutoneg, GetAutoneg, AnyAutoneg);
    ListLaw(MAX_MODE_ENTRIES, PutPause, GetPause, AnyPause);
    ListLaw(MAX_MODE_ENTRIES, PutProtocol, GetProtocol, AnyProtocol);
    assert forall items: seq<FecMode> :: AllLegal(items, AnyFec);
    assert forall items: seq<AutonegPolicy> :: AllLegal(items, AnyAutoneg);
    assert forall items: seq<PauseMode> :: AllLegal(items, AnyPause);
    assert forall items: seq<ProtocolFamily> :: AllLegal(items, AnyProtocol);
  }

  /** The dimensions written before the modes. */
  datatype Reach = Reach(
    certainty: CapabilityCertainty, speeds: seq<PortSpeed>, laneModes: seq<u32>, maxLanes: u32,
    breakoutSupported: bool, maxBreakoutChildren: u32)
  {
    predicate Bounded() {
      |speeds| <= MAX_CAPABILITY_ENTRIES && |laneModes| <= MAX_MODE_ENTRIES
      && forall i :: 0 <= i < |speeds| ==> IsRate(speeds[i])
    }
  }

  lemma ReachInverses()
    ensures Inverse(PutRate, GetSpeed, IsRate)
    ensures Inverse(PutU32, GetU32, AnyLanes)
  {
    hide GetU64, PutU64, GetU32, PutU32;
    U64Law();
    U32Law();
  }

  function PutReach(r: Reach, rest: Text): (s: Text)
    ensures |s| >= |rest|
  {
    var after := PutU32(r.maxLanes, PutBool(r.breakoutSupported, PutU32(r.maxBreakoutChildren, rest)));
    EachGrows(r.laneModes, PutU32, after);
    var after := PutList(r.laneModes, PutU32, after);
    EachGrows(r.speeds, PutRate, after);
    PutEnum(CapabilityCertaintyCode, r.certainty,
    PutList(r.speeds, PutRate,
    PutList(r.laneModes, PutU32,
    PutU32(r.maxLanes, PutBool(r.breakoutSupported, PutU32(r.maxBreakoutChildren, rest))))))
  }

  function GetReach(s: Text): Parsed<Reach> {
    var (certainty, s) :- GetEnum(CapabilityCertaintyOf, s);
    var (speeds, s) :- GetList(MAX_CAPABILITY_ENTRIES, GetSpeed, s);
    var (laneModes, s) :- GetList(MAX_MODE_ENTRIES, GetU32, s);
    var (maxLanes, s) :- GetU32(s);
    var (breakoutSupported, s) :- GetBool(s);
    var (maxBreakoutChildren, s) :- GetU32(s);
    Some((Reach(certainty, speeds, laneModes, maxLanes, breakoutSupported, maxBreakoutChildren), s))
  }

  lemma ReachLaw()
    ensures forall r: Reach, rest: Text :: r.Bounded() ==> GetReach(PutReach(r, rest)) == Some((r, rest))
    ensures forall s :: GetReach(s).Some? ==>
              GetReach(s).value.0.Bounded() && s == PutReach(GetReach(s).value.0, GetReach(s).value.1)
  {
    hide GetList, PutList, Inverse, GetEnum, PutEnum, GetBool, PutBool, GetU32, PutU32, GetSpeed, PutRate, IsRate;
    ReachInverses();
    EnumLaw(CapabilityCertaintyCode, CapabilityCertaintyOf);
    ListLaw(MAX_CAPABILITY_ENTRIES, PutRate, GetSpeed, IsRate);
    ListLaw(MAX_MODE_ENTRIES, PutU32, GetU32, AnyLanes);
    U32Law();
    BoolLaw();
    assert forall items: seq<u32> :: AllLegal(items, AnyLanes);
  }

  /** The dimensions written after the modes. */
  datatype Limits = Limits(
    mtuMin: u32, mtuMax: u32, duplex: DuplexMode, logicalInterface: bool, maxQueueCount: u32,
    transceiverRequired: bool, transceiverClass: Text)
  {
    predicate Bounded() { |transceiverClass| <= MAX_NAME_LENGTH }
  }

  function PutLimits(l: Limits, rest: Text): (s: Text)
    ensures |s| >= |rest|
  {
    PutU32(l.mtuMin, PutU32(l.mtuMax, PutEnum(DuplexModeCode, l.duplex, PutBool(l.logicalInterface,
    PutU32(l.maxQueueCount, PutBool(l.transceiverRequired, PutText(l.transceiverClass, rest)))))))
  }

  function GetLimits(s: Text): Parsed<Limits> {
    var (mtuMin, s) :- GetU32(s);
    var (mtuMax, s) :- GetU32(s);
    var (duplex, s) :- GetEnum(DuplexModeOf, s);
    var (logicalInterface, s) :- GetBool(s);
    var (maxQueueCount, s) :- GetU32(s);
    var (transceiverRequired, s) :- GetBool(s);
    var (transceiverClass, s) :- GetText(MAX_NAME_LENGTH, s);
    Some((Limits(mtuMin, mtuMax, duplex, logicalInterface, maxQueueCount, transceiverRequired, transceiverClass), s))
  }

  lemma LimitsLaw()
    ensures forall l: Limits, rest: Text :: l.Bounded() ==> GetLimits(PutLimits(l, rest)) == Some((l, rest))
    ensures forall s :: GetLimits(s).Some? ==>
              GetLimits(s).value.0.Bounded() && s == PutLimits(GetLimits(s).value.0, GetLimits(s).value.1)
  {
    hide GetEnum, PutEnum, GetBool, PutBool, GetU32, PutU32, GetText, PutText;
    EnumLaw(DuplexModeCode, DuplexModeOf);
    TextLaw(MAX_NAME_LENGTH);
    U32Law();
    BoolLaw();
  }

  function ReachOf(c: PortCapabilities): Reach {
    Reach(c.certainty, c.supportedSpeeds, c.laneModes, c.maxLanes, c.breakoutSupported, c.maxBreakoutChildren)
  }

  function ModesOf(c: PortCapabilities): Modes { Modes(c.fecModes, c.autonegModes, c.pauseModes, c.protocolFamilies) }

  function LimitsOf(c: PortCapabilities): Limits {
    Limits(c.mtuMin, c.mtuMax, c.duplex, c.logicalInterfaceSupported, c.maxQueueCount, c.transceiverRequired, c.transceiverClass)
  }

  function Capabilities(r: Reach, m: Modes, l: Limits): PortCapabilities {
    PortCapabilities(
      r.certainty, r.speeds, r.laneModes, r.maxLanes, r.breakoutSupported, r.maxBreakoutChildren,
      m.fec, m.autoneg, m.pause, m.protocols,
      l.mtuMin, l.mtuMax, l.duplex, l.logicalInterface, l.maxQueueCount, l.transceiverRequired, l.transceiverClass)
  }

  function PutCapabilities(c: PortCapabilities, rest: Text): (s: Text)
    ensures |s| >= |rest|
  {
    PutReach(ReachOf(c), PutModes(ModesOf(c), PutLimits(LimitsOf(c), rest)))
  }

  function GetCapabilities(s: Text): Parsed<PortCapabilities> {
    var (reach, s) :- GetReach(s);
    var (modes, s) :- GetModes(s);
    var (limits, s) :- GetLimits(s);
    var c := Capabilities(reach, modes, limits);
    if c.Valid() then Some((c, s)) else None
  }

  lemma CapabilitiesLaw()
    ensures forall c: PortCapabilities, rest: Text :: c.Valid() ==> GetCapabilities(PutCapabilities(c, rest)) == Some((c, rest))
    ensures forall s :: GetCapabilities(s).Some? ==>
              && GetCapabilities(s).value.0.Valid()
              && s == PutCapabilities(GetCapabilities(s).value.0, GetCapabilities(s).value.1)
  {
    hide GetReach, PutReach, GetModes, PutModes, GetLimits, PutLimits, WellFormed;
    ReachLaw();
    ModesLaw();
    LimitsLaw();
  }

  // -------------------------------------------------------------------------
  // Capability bindings, ownership, counters
  // -------------------------------------------------------------------------

  predicate LegalBinding(b: CapabilityBinding) { b.Valid() && b.capabilities.Valid() && |b.source| <= MAX_NAME_LENGTH }

  function PutBinding(b: CapabilityBinding, rest: Text): (s: Text)
    ensures |s| >= |rest|
  {
    PutBool(b.present, PutU64(b.generation, PutU64(b.evidenceGeneration, PutId(b.evidence, PutText(b.source,
    PutCapabilities(b.capabilities, rest))))))
  }

  function GetBinding(s: Text): Parsed<CapabilityBinding> {
    hide GetU64, PutU64, GetId, PutId, GetText, PutText, GetBool, PutBool, GetCapabilities, ValidIdentifier;
    var (present, s) :- GetBool(s);
    var (generation, s) :- GetU64(s);
    var (evidenceGeneration, s) :- GetU64(s);
    var (evidence, s) :- GetId(s);
    var (source, s) :- GetText(MAX_NAME_LENGTH, s);
    var (capabilities, s) :- GetCapabilities(s);
    var b := CapabilityBinding(capabilities, generation, evidenceGeneration, evidence, source, present);
    if b.Valid() then Some((b, s)) else None
  }

  lemma BindingLaw()
    ensures forall b: CapabilityBinding, rest: Text :: LegalBinding(b) ==> GetBinding(PutBinding(b, rest)) == Some((b, rest))
    ensures forall s :: GetBinding(s).Some? ==>
              LegalBinding(GetBinding(s).value.0) && s == PutBinding(GetBinding(s).value.0, GetBinding(s).value.1)
  {
    hide GetBool, PutBool, GetText, PutText, GetId, PutId, GetU64, PutU64, ValidIdentifier, GetCapabilities, PutCapabilities;
    hide PortCapabilities.Valid;
    BoolLaw();
    U64Law();
    IdLaw();
    TextLaw(MAX_NAME_LENGTH);
    CapabilitiesLaw();
  }

  function PutOwnership(o: PortOwnership, rest: Text): (s: Text)
    ensures |s| >= |rest|
  {
    PutId(o.id, PutEnum(PortOwnerKindCode, o.kind, PutId(o.owner, PutU64(o.generation, PutId(o.publisher, PutId(o.boot,
    PutU64(o.epoch, PutBool(o.exclusive, rest))))))))
  }

  function GetOwnership(s: Text): Parsed<PortOwnership> {
    hide GetU64, PutU64, GetId, PutId, GetBool, PutBool, GetEnum, ValidIdentifier;
    var (id, s) :- GetId(s);
    var (kind, s) :- GetEnum(PortOwnerKindOf, s);
    var (owner, s) :- GetId(s);
    var (generation, s) :- GetU64(s);
    var (publisher, s) :- GetId(s);
    var (boot, s) :- GetId(s);
    var (epoch, s) :- GetU64(s);
    var (exclusive, s) :- GetBool(s);
    var o := PortOwnership(id, kind, owner, generation, publisher, boot, epoch, exclusive);
    if o.Valid() then Some((o, s)) else None
  }

  lemma OwnershipLaw()
    ensures forall o: PortOwnership, rest: Text :: o.Valid() ==> GetOwnership(PutOwnership(o, rest)) == Some((o, rest))
    ensures forall s :: GetOwnership(s).Some? ==>
              GetOwnership(s).value.0.Valid() && s == PutOwnership(GetOwnership(s).value.0, GetOwnership(s).value.1)
  {
    hide GetBool, PutBool, GetId, PutId, GetU64, PutU64, ValidIdentifier, GetEnum, PutEnum;
    EnumLaw(PortOwnerKindCode, PortOwnerKindOf);
    BoolLaw();
    U64Law();
    IdLaw();
  }

  function PutGenerations(g: GenerationVector, rest: Text): (s: Text)
    ensures |s| >= |rest|
  {
    PutU64(g.configuration, PutU64(g.administrative, PutU64(g.ownership, PutU64(g.capability, PutU64(g.topology,
    PutU64(g.device, PutU64(g.lifecycle, PutU64(g.evidence, rest))))))))
  }

  function GetGenerations(s: Text): Parsed<GenerationVector> {
    hide GetU64, PutU64;
    var (configuration, s) :- GetU64(s);
    var (administrative, s) :- GetU64(s);
    var (ownership, s) :- GetU64(s);
    var (capability, s) :- GetU64(s);
    var (topology, s) :- GetU64(s);
    var (device, s) :- GetU64(s);
    var (lifecycle, s) :- GetU64(s);
    var (evidence, s) :- GetU64(s);
    Some((GenerationVector(configuration, administrative, ownership, capability, topology, device, lifecycle, evidence), s))
  }

  lemma GenerationsLaw()
    ensures forall g: GenerationVector, rest: Text :: GetGenerations(PutGenerations(g, rest)) == Some((g, rest))
    ensures forall s :: GetGenerations(s).Some? ==>
              s == PutGenerations(GetGenerations(s).value.0, GetGenerations(s).value.1)
  {
    hide GetU64, PutU64;
    U64Law();
  }

  // -------------------------------------------------------------------------
  // Configurations
  // -------------------------------------------------------------------------

  datatype Identity = Identity(
    record: Id, port: Id, parentDevice: Id, deviceGeneration: Generation, topologyGeneration: Generation,
    generation: Generation)

  datatype Shape = Shape(
    administrative: AdministrativeState, mode: PortMode, protocol: ProtocolFamily, speed: SpeedSetting,
    duplex: DuplexMode, mtu: Mtu, lanes: Lanes)
  {
    predicate Present() { mtu != 0 && HasLanes(lanes) }
  }

  datatype Policy = Policy(
    breakout: BreakoutMode, autoneg: AutonegPolicy, fec: FecMode, pause: PauseMode, aggregation: Aggregation,
    profile: ProfileBinding)

  datatype Origin = Origin(
    role: Text, logicalIdentity: Id, derivedFrom: Id, childIndex: u32, provenance: Provenance,
    capabilityGeneration: Generation, evidenceGeneration: Generation)
  {
    predicate Bounded() { |role| <= MAX_NAME_LENGTH && LegalProvenance(provenance) }
  }

  function PutIdentity(i: Identity, rest: Text): (s: Text)
    ensures |s| >= |rest|
  {
    PutId(i.record, PutId(i.port, PutId(i.parentDevice, PutU64(i.deviceGeneration, PutU64(i.topologyGeneration,
    PutU64(i.generation, rest))))))
  }

  function GetIdentity(s: Text): Parsed<Identity> {
    hide GetU64, PutU64, GetId, PutId, ValidIdentifier;
    var (record, s) :- GetId(s);
    var (port, s) :- GetId(s);
    var (parentDevice, s) :- GetId(s);
    var (deviceGeneration, s) :- GetU64(s);
    var (topologyGeneration, s) :- GetU64(s);
    var (generation, s) :- GetU64(s);
    Some((Identity(record, port, parentDevice, deviceGeneration, topologyGeneration, generation), s))
  }

  lemma IdentityLaw()
    ensures forall i, rest :: GetIdentity(PutIdentity(i, rest)) == Some((i, rest))
    ensures forall s :: GetIdentity(s).Some? ==> s == PutIdentity(GetIdentity(s).value.0, GetIdentity(s).value.1)
  {
    hide GetU64, PutU64, GetId, PutId, ValidIdentifier;
    U64Law();
    IdLaw();
  }

  function PutSetting(v: SpeedSetting, rest: Text): (s: Text)
    ensures |s| >= |rest|
  {
    PutEnum(SpeedSelectionCode, v.selection, PutRate(v.rate, rest))
  }

  function GetSetting(s: Text): Parsed<SpeedSetting> {
    var (selection, s) :- GetEnum(SpeedSelectionOf, s);
    var (rate, s) :- GetRate(s);
    Some((SpeedSetting(selection, rate), s))
  }

  lemma SettingLaw()
    ensures forall v, rest :: GetSetting(PutSetting(v, rest)) == Some((v, rest))
    ensures forall s :: GetSetting(s).Some? ==> s == PutSetting(GetSetting(s).value.0, GetSetting(s).value.1)
  {
    hide GetEnum, PutEnum, GetRate, PutRate;
    EnumLaw(SpeedSelectionCode, SpeedSelectionOf);
    RateLaw();
  }

  function PutShape(v: Shape, rest: Text): (s: Text)
    ensures |s| >= |rest|
  {
    PutEnum(AdministrativeStateCode, v.administrative, PutEnum(PortModeCode, v.mode,
    PutEnum(ProtocolFamilyCode, v.protocol, PutSetting(v.speed, PutEnum(DuplexModeCode, v.duplex,
    PutMtu(v.mtu, PutLanes(v.lanes, rest)))))))
  }

  function GetShape(s: Text): Parsed<Shape> {
    hide GetEnum, GetSetting, GetMtu, GetLanes, PutMtu, PutLanes;
    var (administrative, s) :- GetEnum(AdministrativeStateOf, s);
    var (mode, s) :- GetEnum(PortModeOf, s);
    var (protocol, s) :- GetEnum(ProtocolFamilyOf, s);
    var (speed, s) :- GetSetting(s);
    var (duplex, s) :- GetEnum(DuplexModeOf, s);
    var (mtu, s) :- GetMtu(s);
    var (lanes, s) :- GetLanes(s);
    Some((Shape(administrative, mode, protocol, speed, duplex, mtu, lanes), s))
  }

  lemma ShapeLaw()
    ensures forall v: Shape, rest: Text :: v.Present() ==> GetShape(PutShape(v, rest)) == Some((v, rest))
    ensures forall s :: GetShape(s).Some? ==>
              GetShape(s).value.0.Present() && s == PutShape(GetShape(s).value.0, GetShape(s).value.1)
  {
    hide GetEnum, PutEnum, GetSetting, PutSetting, GetMtu, PutMtu, GetLanes, PutLanes;
    EnumLaw(AdministrativeStateCode, AdministrativeStateOf);
    EnumLaw(PortModeCode, PortModeOf);
    EnumLaw(ProtocolFamilyCode, ProtocolFamilyOf);
    EnumLaw(DuplexModeCode, DuplexModeOf);
    SettingLaw();
    MtuLaw();
    LanesLaw();
  }

  function PutAggregation(a: Aggregation, rest: Text): (s: Text)
    ensures |s| >= |rest|
  {
    PutBool(a.member, PutId(a.aggregate, PutU64(a.generation, PutBool(a.participates, rest))))
  }

  function GetAggregation(s: Text): Parsed<Aggregation> {
    hide GetU64, PutU64, GetId, PutId, ValidIdentifier, GetBool, PutBool;
    var (member, s) :- GetBool(s);
    var (aggregate, s) :- GetId(s);
    var (generation, s) :- GetU64(s);
    var (participates, s) :- GetBool(s);
    Some((Aggregation(member, aggregate, generation, participates), s))
  }

  function PutProfileBinding(b: ProfileBinding, rest: Text): (s: Text)
    ensures |s| >= |rest|
  {
    PutBool(b.bound, PutId(b.id, PutU64(b.generation, rest)))
  }

  function GetProfileBinding(s: Text): Parsed<ProfileBinding> {
    hide GetU64, PutU64, GetId, PutId, ValidIdentifier, GetBool, PutBool;
    var (bound, s) :- GetBool(s);
    var (id, s) :- GetId(s);
    var (generation, s) :- GetU64(s);
    Some((ProfileBinding(bound, id, generation), s))
  }

  lemma MembershipLaw()
    ensures forall a, rest :: GetAggregation(PutAggregation(a, rest)) == Some((a, rest))
    ensures forall s :: GetAggregation(s).Some? ==> s == PutAggregation(GetAggregation(s).value.0, GetAggregation(s).value.1)
    ensures forall b, rest :: GetProfileBinding(PutProfileBinding(b, rest)) == Some((b, rest))
    ensures forall s :: GetProfileBinding(s).Some? ==>
              s == PutProfileBinding(GetProfileBinding(s).value.0, GetProfileBinding(s).value.1)
  {
    hide GetU64, PutU64, GetId, PutId, ValidIdentifier, GetBool, PutBool;
    U64Law();
    IdLaw();
    BoolLaw();
  }

  function PutPolicy(v: Policy, rest: Text): (s: Text)
    ensures |s| >= |rest|
  {
    PutEnum(BreakoutModeCode, v.breakout, PutEnum(AutonegPolicyCode, v.autoneg, PutEnum(FecModeCode, v.fec,
    PutEnum(PauseModeCode, v.pause, PutAggregation(v.aggregation, PutProfileBinding(v.profile, rest))))))
  }

  function GetPolicy(s: Text): Parsed<Policy> {
    hide GetEnum, GetAggregation, GetProfileBinding;
    var (breakout, s) :- GetEnum(BreakoutModeOf, s);
    var (autoneg, s) :- GetEnum(AutonegPolicyOf, s);
    var (fec, s) :- GetEnum(FecModeOf, s);
    var (pause, s) :- GetEnum(PauseModeOf, s);
    var (aggregation, s) :- GetAggregation(s);
    var (profile, s) :- GetProfileBinding(s);
    Some((Policy(breakout, autoneg, fec, pause, aggregation, profile), s))
  }

  lemma PolicyLaw()
    ensures forall v, rest :: GetPolicy(PutPolicy(v, rest)) == Some((v, rest))
    ensures forall s :: GetPolicy(s).Some? ==> s == PutPolicy(GetPolicy(s).value.0, GetPolicy(s).value.1)
  {
    hide GetEnum, PutEnum, GetAggregation, PutAggregation, GetProfileBinding, PutProfileBinding;
    EnumLaw(BreakoutModeCode, BreakoutModeOf);
    EnumLaw(AutonegPolicyCode, AutonegPolicyOf);
    EnumLaw(FecModeCode, FecModeOf);
    EnumLaw(PauseModeCode, PauseModeOf);
    MembershipLaw();
  }

  function PutOrigin(v: Origin, rest: Text): (s: Text)
    ensures |s| >= |rest|
  {
    PutText(v.role, PutId(v.logicalIdentity, PutId(v.derivedFrom, PutU32(v.childIndex, PutProvenance(v.provenance,
    PutU64(v.capabilityGeneration, PutU64(v.evidenceGeneration, rest)))))))
  }

  function GetOrigin(s: Text): Parsed<Origin> {
    hide GetU64, PutU64, GetU32, PutU32, GetId, PutId, ValidIdentifier, GetText, PutText, GetProvenance;
    var (role, s) :- GetText(MAX_NAME_LENGTH, s);
    var (logicalIdentity, s) :- GetId(s);
    var (derivedFrom, s) :- GetId(s);
    var (childIndex, s) :- GetU32(s);
    var (provenance, s) :- GetProvenance(s);
    var (capabilityGeneration, s) :- GetU64(s);
    var (evidenceGeneration, s) :- GetU64(s);
    Some((Origin(role, logicalIdentity, derivedFrom, childIndex, provenance, capabilityGeneration, evidenceGeneration), s))
  }

  lemma OriginLaw()
    ensures forall v: Origin, rest: Text :: v.Bounded() ==> GetOrigin(PutOrigin(v, rest)) == Some((v, rest))
    ensures forall s :: GetOrigin(s).Some? ==>
              GetOrigin(s).value.0.Bounded() && s == PutOrigin(GetOrigin(s).value.0, GetOrigin(s).value.1)
  {
    hide GetU64, PutU64, GetU32, PutU32, GetId, PutId, ValidIdentifier, GetText, PutText, GetProvenance, PutProvenance;
    hide LegalProvenance;
    TextLaw(MAX_NAME_LENGTH);
    IdLaw();
    U32Law();
    U64Law();
    ProvenanceLaw();
  }

  function IdentityOf(c: PortConfiguration): Identity {
    Identity(c.record, c.port, c.parentDevice, c.deviceGeneration, c.topologyGeneration, c.generation)
  }

  function ShapeOf(c: PortConfiguration): Shape {
    Shape(c.administrative, c.mode, c.protocol, c.speed, c.duplex, c.mtu, c.lanes)
  }

  function PolicyOf(c: PortConfiguration): Policy {
    Policy(c.breakout, c.autoneg, c.fec, c.pause, c.aggregation, c.profile)
  }

  function OriginOf(c: PortConfiguration): Origin {
    Origin(c.role, c.logicalIdentity, c.derivedFrom, c.childIndex, c.provenance, c.capabilityGeneration, c.evidenceGeneration)
  }

  function Configuration(i: Identity, v: Shape, p: Policy, o: Origin): PortConfiguration {
    PortConfiguration(
      i.record, i.port, i.parentDevice, i.deviceGeneration, i.topologyGeneration, i.generation,
      v.administrative, v.mode, v.protocol, v.speed, v.duplex, v.mtu, v.lanes,
      p.breakout, p.autoneg, p.fec, p.pause, p.aggregation, p.profile,
      o.role, o.logicalIdentity, o.derivedFrom, o.childIndex, o.provenance, o.capabilityGeneration, o.evidenceGeneration)
  }

  predicate LegalConfiguration(c: PortConfiguration) { ShapeOf(c).Present() && OriginOf(c).Bounded() }

  function PutConfiguration(c: PortConfiguration, rest: Text): (s: Text)
    ensures |s| >= |rest|
  {
    PutIdentity(IdentityOf(c), PutShape(ShapeOf(c), PutPolicy(PolicyOf(c), PutOrigin(OriginOf(c), rest))))
  }

  /** A configuration is read as a proposal: its fields are checked one by one, the whole only
      with the record it belongs to. */
  function GetConfiguration(s: Text): Parsed<PortConfiguration> {
    var (identity, s) :- GetIdentity(s);
    var (shape, s) :- GetShape(s);
    var (policy, s) :- GetPolicy(s);
    var (origin, s) :- GetOrigin(s);
    Some((Configuration(identity, shape, policy, origin), s))
  }

  lemma ConfigurationLaw()
    ensures forall c, rest :: LegalConfiguration(c) ==> GetConfiguration(PutConfiguration(c, rest)) == Some((c, rest))
    ensures forall s :: GetConfiguration(s).Some? ==>
              && LegalConfiguration(GetConfiguration(s).value.0)
              && s == PutConfiguration(GetConfiguration(s).value.0, GetConfiguration(s).value.1)
  {
    hide GetIdentity, PutIdentity, GetShape, PutShape, GetPolicy, PutPolicy, GetOrigin, PutOrigin, ValidIdentifier;
    hide Origin.Bounded, Shape.Present;
    IdentityLaw();
    ShapeLaw();
    PolicyLaw();
    OriginLaw();
  }

  // -------------------------------------------------------------------------
  // Records
  // -------------------------------------------------------------------------

  function PutMaybeConfiguration(c: Option<PortConfiguration>, rest: Text): (s: Text)
    ensures |s| >= |rest|
  {
    PutBool(c.Some?, if c.Some? then PutConfiguration(c.value, rest) else rest)
  }

  function GetMaybeConfiguration(s: Text): Parsed<Option<PortConfiguration>> {
    var (present, s) :- GetBool(s);
    if !present then Some((None, s))
    else
      var (c, s) :- GetConfiguration(s);
      Some((Some(c), s))
  }

  function PutMaybeOwnership(o: Option<PortOwnership>, rest: Text): (s: Text)
    ensures |s| >= |rest|
  {
    PutBool(o.Some?, if o.Some? then PutOwnership(o.value, rest) else rest)
  }

  function GetMaybeOwnership(s: Text): Parsed<Option<PortOwnership>> {
    var (present, s) :- GetBool(s);
    if !present then Some((None, s))
    else
      var (o, s) :- GetOwnership(s);
      Some((Some(o), s))
  }

  predicate LegalMaybeConfiguration(c: Option<PortConfiguration>) { c.Some? ==> LegalConfiguration(c.value) }

  predicate LegalMaybeOwnership(o: Option<PortOwnership>) { o.Some? ==> o.value.Valid() }

  lemma MaybeLaw()
    ensures forall c, rest :: LegalMaybeConfiguration(c) ==>
              GetMaybeConfiguration(PutMaybeConfiguration(c, rest)) == Some((c, rest))
    ensures forall s :: GetMaybeConfiguration(s).Some? ==>
              && LegalMaybeConfiguration(GetMaybeConfiguration(s).value.0)
              && s == PutMaybeConfiguration(GetMaybeConfiguration(s).value.0, GetMaybeConfiguration(s).value.1)
    ensures forall o, rest :: LegalMaybeOwnership(o) ==> GetMaybeOwnership(PutMaybeOwnership(o, rest)) == Some((o, rest))
    ensures forall s :: GetMaybeOwnership(s).Some? ==>
              && LegalMaybeOwnership(GetMaybeOwnership(s).value.0)
              && s == PutMaybeOwnership(GetMaybeOwnership(s).value.0, GetMaybeOwnership(s).value.1)
  {
    hide GetBool, PutBool, GetConfiguration, PutConfiguration, GetOwnership, PutOwnership, LegalConfiguration;
    hide PortOwnership.Valid;
    BoolLaw();
    ConfigurationLaw();
    OwnershipLaw();
  }

  function PutApplied(a: AppliedEvidence, rest: Text): (s: Text)
    ensures |s| >= |rest|
  {
    PutEnum(AppliedOutcomeCode, a.outcome, PutU64(a.generation, PutU64(a.evidenceGeneration, PutText(a.source,
    PutBool(a.verified, rest)))))
  }

  function GetApplied(s: Text): Parsed<AppliedEvidence> {
    hide GetEnum, GetU64, PutU64, GetText, PutText, GetBool, PutBool;
    var (outcome, s) :- GetEnum(AppliedOutcomeOf, s);
    var (generation, s) :- GetU64(s);
    var (evidenceGeneration, s) :- GetU64(s);
    var (source, s) :- GetText(MAX_NAME_LENGTH, s);
    var (verified, s) :- GetBool(s);
    Some((AppliedEvidence(outcome, generation, evidenceGeneration, source, verified), s))
  }

  predicate LegalApplied(a: AppliedEvidence) { |a.source| <= MAX_NAME_LENGTH }

  lemma AppliedLaw()
    ensures forall a, rest :: LegalApplied(a) ==> GetApplied(PutApplied(a, rest)) == Some((a, rest))
    ensures forall s :: GetApplied(s).Some? ==>
              LegalApplied(GetApplied(s).value.0) && s == PutApplied(GetApplied(s).value.0, GetApplied(s).value.1)
  {
    hide GetEnum, PutEnum, GetU64, PutU64, GetText, PutText, GetBool, PutBool;
    EnumLaw(AppliedOutcomeCode, AppliedOutcomeOf);
    U64Law();
    TextLaw(MAX_NAME_LENGTH);
    BoolLaw();
  }

  datatype Standing = Standing(last: LastMutation, reason: Text, detail: Text) {
    predicate Bounded() { |reason| <= MAX_NAME_LENGTH && |detail| <= MAX_DESCRIPTION_LENGTH }
  }

  function PutStanding(v: Standing, rest: Text): (s: Text)
    ensures |s| >= |rest|
  {
    PutId(v.last.attempt, PutU64(v.last.payloadDigest, PutU64(v.last.resultGeneration, PutText(v.reason,
    PutText(v.detail, rest)))))
  }

  function GetStanding(s: Text): Parsed<Standing> {
    hide GetU64, PutU64, GetText, PutText, GetId, PutId, ValidIdentifier;
    var (attempt, s) :- GetId(s);
    var (digest, s) :- GetU64(s);
    var (result, s) :- GetU64(s);
    var (reason, s) :- GetText(MAX_NAME_LENGTH, s);
    var (detail, s) :- GetText(MAX_DESCRIPTION_LENGTH, s);
    Some((Standing(LastMutation(attempt, digest, result), reason, detail), s))
  }

  lemma StandingLaw()
    ensures forall v: Standing, rest: Text :: v.Bounded() ==> GetStanding(PutStanding(v, rest)) == Some((v, rest))
    ensures forall s :: GetStanding(s).Some? ==>
              GetStanding(s).value.0.Bounded() && s == PutStanding(GetStanding(s).value.0, GetStanding(s).value.1)
  {
    hide GetU64, PutU64, GetText, PutText, GetId, PutId, ValidIdentifier;
    U64Law();
    IdLaw();
    TextLaw(MAX_NAME_LENGTH);
    TextLaw(MAX_DESCRIPTION_LENGTH);
  }

  /** What a record must be for the codec to carry it: valid, with legal evidence even where
      none is bound, and with its unvalidated texts within their bounds. */
  predicate LegalRecord(r: PortRecord) {
    && r.Valid()
    && LegalMaybeConfiguration(r.configuration)
    && LegalBinding(r.capability) && LegalApplied(r.applied) && LegalProvenance(r.provenance)
  }

  function StandingOf(r: PortRecord): Standing { Standing(r.lastMutation, r.statusReason, r.statusDetail) }

  function PutRecordTail(r: PortRecord, rest: Text): (s: Text)
    ensures |s| >= |rest|
  {
    PutApplied(r.applied, PutEnum(DriftStateCode, r.drift, PutGenerations(r.generations, PutProvenance(r.provenance,
    PutStanding(StandingOf(r), rest)))))
  }

  function PutRecord(r: PortRecord, rest: Text): (s: Text)
    ensures |s| > |rest|
  {
    PutId(r.port, PutId(r.parentDevice, PutEnum(PortLifecycleCode, r.lifecycle, PutMaybeConfiguration(r.configuration,
    PutMaybeOwnership(r.ownership, PutBinding(r.capability, PutRecordTail(r, rest)))))))
  }

  datatype Tail = Tail(
    applied: AppliedEvidence, drift: DriftState, generations: GenerationVector, provenance: Provenance, standing: Standing)

  function GetRecordTail(s: Text): Parsed<Tail> {
    hide GetApplied, GetEnum, GetGenerations, GetProvenance, GetStanding;
    var (applied, s) :- GetApplied(s);
    var (drift, s) :- GetEnum(DriftStateOf, s);
    var (generations, s) :- GetGenerations(s);
    var (provenance, s) :- GetProvenance(s);
    var (standing, s) :- GetStanding(s);
    Some((Tail(applied, drift, generations, provenance, standing), s))
  }

  function GetRecord(s: Text): Parsed<PortRecord> {
    hide GetId, PutId, GetEnum, GetMaybeConfiguration, GetMaybeOwnership, GetBinding, GetRecordTail, ValidIdentifier;
    var (port, s) :- GetId(s);
    var (parentDevice, s) :- GetId(s);
    var (lifecycle, s) :- GetEnum(PortLifecycleOf, s);
    var (configuration, s) :- GetMaybeConfiguration(s);
    var (ownership, s) :- GetMaybeOwnership(s);
    var (capability, s) :- GetBinding(s);
    var (tail, s) :- GetRecordTail(s);
    var r := PortRecord(
      port, parentDevice, lifecycle, configuration, ownership, capability, tail.applied, tail.drift, tail.generations,
      tail.provenance, tail.standing.last, tail.standing.reason, tail.standing.detail);
    if r.Valid() then Some((r, s)) else None
  }

  function TailOf(r: PortRecord): Tail { Tail(r.applied, r.drift, r.generations, r.provenance, StandingOf(r)) }

  predicate LegalTail(t: Tail) { LegalApplied(t.applied) && LegalProvenance(t.provenance) && t.standing.Bounded() }

  lemma TailLaw()
    ensures forall r, rest :: LegalTail(TailOf(r)) ==> GetRecordTail(PutRecordTail(r, rest)) == Some((TailOf(r), rest))
    ensures forall s, r :: GetRecordTail(s).Some? && TailOf(r) == GetRecordTail(s).value.0 ==>
              LegalTail(TailOf(r)) && s == PutRecordTail(r, GetRecordTail(s).value.1)
  {
    hide GetApplied, PutApplied, GetEnum, PutEnum, GetGenerations, PutGenerations, GetProvenance, PutProvenance;
    hide GetStanding, PutStanding, LegalApplied, LegalProvenance, Standing.Bounded;
    AppliedLaw();
    EnumLaw(DriftStateCode, DriftStateOf);
    GenerationsLaw();
    ProvenanceLaw();
    StandingLaw();
  }

  lemma LegalRecordParts(r: PortRecord)
    ensures r.Valid() ==> StandingOf(r).Bounded() && LegalMaybeOwnership(r.ownership)
  {
    hide PortConfiguration.Valid, CapabilityBinding.Valid, WellFormed, ValidIdentifier;
  }

  lemma RecordLaw()
    ensures forall r, rest :: LegalRecord(r) ==> GetRecord(PutRecord(r, rest)) == Some((r, rest))
    ensures forall s :: GetRecord(s).Some? ==>
              LegalRecord(GetRecord(s).value.0) && s == PutRecord(GetRecord(s).value.0, GetRecord(s).value.1)
  {
    forall r, rest | LegalRecord(r) ensures GetRecord(PutRecord(r, rest)) == Some((r, rest)) {
      RecordThere(r, rest);
    }
    forall s | GetRecord(s).Some?
      ensures LegalRecord(GetRecord(s).value.0) && s == PutRecord(GetRecord(s).value.0, GetRecord(s).value.1)
    {
      RecordBack(s);
    }
  }

  lemma RecordThere(r: PortRecord, rest: Text)
    requires LegalRecord(r)
    ensures GetRecord(PutRecord(r, rest)) == Some((r, rest))
  {
    hide GetId, PutId, ValidIdentifier, GetEnum, PutEnum, GetMaybeConfiguration, PutMaybeConfiguration, GetMaybeOwnership;
    hide PutMaybeOwnership, GetBinding, PutBinding, GetRecordTail, PutRecordTail, PortRecord.Valid, LegalMaybeConfiguration;
    hide LegalMaybeOwnership, LegalBinding, LegalApplied, LegalProvenance, Standing.Bounded;
    IdLaw();
    EnumLaw(PortLifecycleCode, PortLifecycleOf);
    MaybeLaw();
    BindingLaw();
    TailLaw();
    LegalRecordParts(r);
  }

  lemma RecordBack(s: Text)
    requires GetRecord(s).Some?
    ensures LegalRecord(GetRecord(s).value.0) && s == PutRecord(GetRecord(s).value.0, GetRecord(s).value.1)
  {
    hide GetId, PutId, ValidIdentifier, GetEnum, PutEnum, GetMaybeConfiguration, PutMaybeConfiguration, GetMaybeOwnership;
    hide PutMaybeOwnership, GetBinding, PutBinding, GetRecordTail, PutRecordTail, PortRecord.Valid, LegalMaybeConfiguration;
    hide LegalMaybeOwnership, LegalBinding, LegalApplied, LegalProvenance, Standing.Bounded;
    IdLaw();
    EnumLaw(PortLifecycleCode, PortLifecycleOf);
    MaybeLaw();
    BindingLaw();
    TailLaw();
    var r := GetRecord(s).value.0;
    assert exists t :: GetRecordTail(t).Some? && TailOf(r) == GetRecordTail(t).value.0;
  }

  // -------------------------------------------------------------------------
  // Profiles
  // -------------------------------------------------------------------------

  /** A dimension a profile may specify. The value is written whether it is specified or not. */
  datatype Choice<E> = Choice(specified: bool, value: E)

  function PutChoice<E>(code: E -> u8, c: Choice<E>, rest: Text): (s: Text)
    ensures |s| >= |rest|
  {
    PutBool(c.specified, PutEnum(code, c.value, rest))
  }

  function GetChoice<E>(of: u8 -> Option<E>, s: Text): Parsed<Choice<E>> {
    var (specified, s) :- GetBool(s);
    var (value, s) :- GetEnum(of, s);
    Some((Choice(specified, value), s))
  }

  lemma ChoiceLaw<E(!new)>(code: E -> u8, of: u8 -> Option<E>)
    requires Decodes(code, of)
    ensures forall c, rest :: GetChoice(of, PutChoice(code, c, rest)) == Some((c, rest))
    ensures forall s :: GetChoice(of, s).Some? ==>
              s == PutChoice(code, GetChoice(of, s).value.0, GetChoice(of, s).value.1)
  {
    hide GetBool, PutBool, GetEnum, PutEnum;
    BoolLaw();
    EnumLaw(code, of);
  }

  /** The MTU of a profile: legal where specified, zero where not. */
  datatype MtuChoice = MtuChoice(specified: bool, mtu: Mtu) {
    predicate Legal() { specified <==> mtu != 0 }
  }

  function PutMtuChoice(c: MtuChoice, rest: Text): (s: Text)
    ensures |s| >= |rest|
  {
    PutBool(c.specified, PutMtu(c.mtu, rest))
  }

  function GetMtuChoice(s: Text): Parsed<MtuChoice> {
    hide GetBool, PutBool, GetU32, PutU32;
    var (specified, s) :- GetBool(s);
    var (value, s) :- GetU32(s);
    if specified then
      var mtu :- CreateMtu(value);
      Some((MtuChoice(true, mtu), s))
    else if value != 0 then None
    else Some((MtuChoice(false, 0), s))
  }

  lemma MtuChoiceLaw()
    ensures forall c: MtuChoice, rest: Text :: c.Legal() ==> GetMtuChoice(PutMtuChoice(c, rest)) == Some((c, rest))
    ensures forall s :: GetMtuChoice(s).Some? ==>
              GetMtuChoice(s).value.0.Legal() && s == PutMtuChoice(GetMtuChoice(s).value.0, GetMtuChoice(s).value.1)
  {
    hide GetBool, PutBool, GetU32, PutU32;
    BoolLaw();
    U32Law();
  }

  datatype Technical = Technical(
    specifiesSpeed: bool, speed: SpeedSetting, mtu: MtuChoice, duplex: Choice<DuplexMode>, autoneg: Choice<AutonegPolicy>,
    fec: Choice<FecMode>)

  datatype Structural = Structural(
    pause: Choice<PauseMode>, breakout: Choice<BreakoutMode>, mode: Choice<PortMode>, protocol: Choice<ProtocolFamily>,
    specifiesAggregation: bool, participates: bool, specifiesRole: bool, role: Text)
  {
    predicate Bounded() { |role| <= MAX_NAME_LENGTH }
  }

  function PutTechnical(t: Technical, rest: Text): (s: Text)
    ensures |s| >= |rest|
  {
    PutBool(t.specifiesSpeed, PutSetting(t.speed, PutMtuChoice(t.mtu, PutChoice(DuplexModeCode, t.duplex,
    PutChoice(AutonegPolicyCode, t.autoneg, PutChoice(FecModeCode, t.fec, rest))))))
  }

  function GetTechnical(s: Text): Parsed<Technical> {
    hide GetBool, PutBool, GetSetting, GetMtuChoice, GetChoice;
    var (specifiesSpeed, s) :- GetBool(s);
    var (speed, s) :- GetSetting(s);
    var (mtu, s) :- GetMtuChoice(s);
    var (duplex, s) :- GetChoice(DuplexModeOf, s);
    var (autoneg, s) :- GetChoice(AutonegPolicyOf, s);
    var (fec, s) :- GetChoice(FecModeOf, s);
    Some((Technical(specifiesSpeed, speed, mtu, duplex, autoneg, fec), s))
  }

  lemma TechnicalThere(t: Technical, rest: Text)
    requires t.mtu.Legal()
    ensures GetTechnical(PutTechnical(t, rest)) == Some((t, rest))
  {
    hide GetBool, PutBool, GetSetting, PutSetting, GetMtuChoice, PutMtuChoice, GetChoice, PutChoice, MtuChoice.Legal;
    BoolLaw();
    SettingLaw();
    MtuChoiceLaw();
    ChoiceLaw(DuplexModeCode, DuplexModeOf);
    ChoiceLaw(AutonegPolicyCode, AutonegPolicyOf);
    ChoiceLaw(FecModeCode, FecModeOf);
  }

  lemma TechnicalBack(s: Text)
    requires GetTechnical(s).Some?
    ensures GetTechnical(s).value.0.mtu.Legal() && s == PutTechnical(GetTechnical(s).value.0, GetTechnical(s).value.1)
  {
    hide GetBool, PutBool, GetSetting, PutSetting, GetMtuChoice, PutMtuChoice, GetChoice, PutChoice, MtuChoice.Legal;
    BoolLaw();
    SettingLaw();
    MtuChoiceLaw();
    ChoiceLaw(DuplexModeCode, DuplexModeOf);
    ChoiceLaw(AutonegPolicyCode, AutonegPolicyOf);
    ChoiceLaw(FecModeCode, FecModeOf);
  }

  lemma TechnicalLaw()
    ensures forall t: Technical, rest: Text :: t.mtu.Legal() ==> GetTechnical(PutTechnical(t, rest)) == Some((t, rest))
    ensures forall s :: GetTechnical(s).Some? ==>
              GetTechnical(s).value.0.mtu.Legal() && s == PutTechnical(GetTechnical(s).value.0, GetTechnical(s).value.1)
  {
    hide GetTechnical, PutTechnical, MtuChoice.Legal;
    forall t: Technical, rest: Text | t.mtu.Legal() ensures GetTechnical(PutTechnical(t, rest)) == Some((t, rest)) {
      TechnicalThere(t, rest);
    }
    forall s | GetTechnical(s).Some?
      ensures GetTechnical(s).value.0.mtu.Legal() && s == PutTechnical(GetTechnical(s).value.0, GetTechnical(s).value.1)
    {
      TechnicalBack(s);
    }
  }

  function PutStructural(t: Structural, rest: Text): (s: Text)
    ensures |s| >= |rest|
  {
    PutChoice(PauseModeCode, t.pause, PutChoice(BreakoutModeCode, t.breakout, PutChoice(PortModeCode, t.mode,
    PutChoice(ProtocolFamilyCode, t.protocol, PutBool(t.specifiesAggregation, PutBool(t.participates,
    PutBool(t.specifiesRole, PutText(t.role, rest))))))))
  }

  function GetStructural(s: Text): Parsed<Structural> {
    hide GetBool, PutBool, GetChoice, GetText, PutText;
    var (pause, s) :- GetChoice(PauseModeOf, s);
    var (breakout, s) :- GetChoice(BreakoutModeOf, s);
    var (mode, s) :- GetChoice(PortModeOf, s);
    var (protocol, s) :- GetChoice(ProtocolFamilyOf, s);
    var (specifiesAggregation, s) :- GetBool(s);
    var (participates, s) :- GetBool(s);
    var (specifiesRole, s) :- GetBool(s);
    var (role, s) :- GetText(MAX_NAME_LENGTH, s);
    Some((Structural(pause, breakout, mode, protocol, specifiesAggregation, participates, specifiesRole, role), s))
  }

  lemma StructuralLaw()
    ensures forall t: Structural, rest: Text :: t.Bounded() ==> GetStructural(PutStructural(t, rest)) == Some((t, rest))
    ensures forall s :: GetStructural(s).Some? ==>
              GetStructural(s).value.0.Bounded() && s == PutStructural(GetStructural(s).value.0, GetStructural(s).value.1)
  {
    hide GetBool, PutBool, GetChoice, PutChoice, GetText, PutText;
    BoolLaw();
    TextLaw(MAX_NAME_LENGTH);
    ChoiceLaw(PauseModeCode, PauseModeOf);
    ChoiceLaw(BreakoutModeCode, BreakoutModeOf);
    ChoiceLaw(PortModeCode, PortModeOf);
    ChoiceLaw(ProtocolFamilyCode, ProtocolFamilyOf);
  }

  function TechnicalOf(c: ProfileConfiguration): Technical {
    Technical(c.specifiesSpeed, c.speed, MtuChoice(c.specifiesMtu, c.mtu), Choice(c.specifiesDuplex, c.duplex),
              Choice(c.specifiesAutoneg, c.autoneg), Choice(c.specifiesFec, c.fec))
  }

  function StructuralOf(c: ProfileConfiguration): Structural {
    Structural(Choice(c.specifiesPause, c.pause), Choice(c.specifiesBreakout, c.breakout), Choice(c.specifiesMode, c.mode),
               Choice(c.specifiesProtocol, c.protocol), c.specifiesAggregation, c.aggregateParticipation,
               c.specifiesRole, c.role)
  }

  function ProfileDimensions(t: Technical, v: Structural): ProfileConfiguration {
    ProfileConfiguration(
      t.specifiesSpeed, t.speed, t.mtu.specified, t.mtu.mtu, t.duplex.specified, t.duplex.value,
      t.autoneg.specified, t.autoneg.value, t.fec.specified, t.fec.value, v.pause.specified, v.pause.value,
      v.breakout.specified, v.breakout.value, v.mode.specified, v.mode.value, v.protocol.specified, v.protocol.value,
      v.specifiesAggregation, v.participates, v.specifiesRole, v.role)
  }

  /** A profile that does not specify an MTU must carry none: decoding refuses any other. */
  predicate LegalDimensions(c: ProfileConfiguration) { c.Valid() && (!c.specifiesMtu ==> c.mtu == 0) }

  function PutDimensions(c: ProfileConfiguration, rest: Text): (s: Text)
    ensures |s| >= |rest|
  {
    PutTechnical(TechnicalOf(c), PutStructural(StructuralOf(c), rest))
  }

  function GetDimensions(s: Text): Parsed<ProfileConfiguration> {
    hide GetTechnical, GetStructural, WellFormed;
    var (technical, s) :- GetTechnical(s);
    var (structural, s) :- GetStructural(s);
    var c := ProfileDimensions(technical, structural);
    if c.Valid() then Some((c, s)) else None
  }

  lemma DimensionsLaw()
    ensures forall c, rest :: LegalDimensions(c) ==> GetDimensions(PutDimensions(c, rest)) == Some((c, rest))
    ensures forall s :: GetDimensions(s).Some? ==>
              && LegalDimensions(GetDimensions(s).value.0)
              && s == PutDimensions(GetDimensions(s).value.0, GetDimensions(s).value.1)
  {
    hide GetTechnical, PutTechnical, GetStructural, PutStructural, WellFormed;
    TechnicalLaw();
    StructuralLaw();
  }

  predicate LegalProfile(p: PortProfile) {
    p.Valid() && LegalDimensions(p.configuration) && LegalProvenance(p.provenance)
  }

  function PutProfile(p: PortProfile, rest: Text): (s: Text)
    ensures |s| > |rest|
  {
    PutId(p.id, PutU64(p.generation, PutText(p.name, PutText(p.description, PutDimensions(p.configuration,
    PutProvenance(p.provenance, rest))))))
  }

  function GetProfile(s: Text): Parsed<PortProfile> {
    hide GetU64, PutU64, GetText, PutText, GetId, PutId, ValidIdentifier, GetDimensions, GetProvenance, PortProfile.Valid;
    var (id, s) :- GetId(s);
    var (generation, s) :- GetU64(s);
    var (name, s) :- GetText(MAX_NAME_LENGTH, s);
    var (description, s) :- GetText(MAX_DESCRIPTION_LENGTH, s);
    var (configuration, s) :- GetDimensions(s);
    var (provenance, s) :- GetProvenance(s);
    var p := PortProfile(id, generation, name, description, configuration, provenance);
    if p.Valid() then Some((p, s)) else None
  }

  lemma ProfileLaw()
    ensures forall p, rest :: LegalProfile(p) ==> GetProfile(PutProfile(p, rest)) == Some((p, rest))
    ensures forall s :: GetProfile(s).Some? ==>
              LegalProfile(GetProfile(s).value.0) && s == PutProfile(GetProfile(s).value.0, GetProfile(s).value.1)
  {
    hide GetU64, PutU64, GetText, PutText, GetId, PutId, ValidIdentifier, GetDimensions, PutDimensions, GetProvenance;
    hide PutProvenance, LegalDimensions, LegalProvenance, WellFormed, ProfileConfiguration.Valid;
    U64Law();
    IdLaw();
    TextLaw(MAX_NAME_LENGTH);
    TextLaw(MAX_DESCRIPTION_LENGTH);
    DimensionsLaw();
    ProvenanceLaw();
  }

  predicate HidesMtu(c: ProfileConfiguration) { !c.specifiesMtu && c.mtu != 0 }

  lemma HiddenTechnical(t: Technical, rest: Text)
    requires !t.mtu.specified && t.mtu.mtu != 0
    ensures GetTechnical(PutTechnical(t, rest)).None?
  {
    hide GetBool, PutBool, GetSetting, PutSetting, GetChoice, PutChoice, GetU32, PutU32;
    BoolLaw();
    SettingLaw();
    U32Law();
  }

  lemma HiddenDimensions(c: ProfileConfiguration, rest: Text)
    requires HidesMtu(c)
    ensures GetDimensions(PutDimensions(c, rest)).None?
  {
    hide GetTechnical, PutTechnical, GetStructural, PutStructural, WellFormed;
    HiddenTechnical(TechnicalOf(c), PutStructural(StructuralOf(c), rest));
  }

  /** A profile with an MTU it does not specify is encoded, and its encoding is refused. */
  lemma HiddenMtuIsRefused(p: PortProfile, rest: Text)
    requires p.Valid() && HidesMtu(p.configuration)
    ensures GetProfile(PutProfile(p, rest)).None?
  {
    hide GetU64, PutU64, GetText, PutText, GetId, PutId, ValidIdentifier, GetDimensions, PutDimensions, GetProvenance;
    hide PutProvenance, WellFormed, ProfileConfiguration.Valid, HidesMtu;
    U64Law();
    IdLaw();
    TextLaw(MAX_NAME_LENGTH);
    TextLaw(MAX_DESCRIPTION_LENGTH);
    HiddenDimensions(p.configuration, PutProvenance(p.provenance, rest));
  }

  // -------------------------------------------------------------------------
  // Devices and publishers
  // -------------------------------------------------------------------------

  predicate LegalDevice(d: DeviceBinding) { d.Valid() && |d.source| <= MAX_NAME_LENGTH }

  function PutDevice(d: DeviceBinding, rest: Text): (s: Text)
    ensures |s| > |rest|
  {
    PutId(d.device, PutU64(d.generation, PutText(d.source, rest)))
  }

  function GetDevice(s: Text): Parsed<DeviceBinding> {
    hide GetU64, PutU64, GetText, PutText, GetId, PutId, ValidIdentifier;
    var (device, s) :- GetId(s);
    var (generation, s) :- GetU64(s);
    var (source, s) :- GetText(MAX_NAME_LENGTH, s);
    var d := DeviceBinding(device, generation, source);
    if d.Valid() then Some((d, s)) else None
  }

  predicate LegalPublisher(p: PublisherRecord) { p.Valid() }

  function PutPublisher(p: PublisherRecord, rest: Text): (s: Text)
    ensures |s| > |rest|
  {
    PutId(p.publisher, PutId(p.boot, PutU64(p.epoch, PutBool(p.fenced, rest))))
  }

  function GetPublisher(s: Text): Parsed<PublisherRecord> {
    hide GetU64, PutU64, GetBool, PutBool, GetId, PutId, ValidIdentifier;
    var (publisher, s) :- GetId(s);
    var (boot, s) :- GetId(s);
    var (epoch, s) :- GetU64(s);
    var (fenced, s) :- GetBool(s);
    var p := PublisherRecord(publisher, boot, epoch, fenced);
    if p.Valid() then Some((p, s)) else None
  }

  lemma TableLaws()
    ensures forall d, rest :: LegalDevice(d) ==> GetDevice(PutDevice(d, rest)) == Some((d, rest))
    ensures forall s :: GetDevice(s).Some? ==>
              LegalDevice(GetDevice(s).value.0) && s == PutDevice(GetDevice(s).value.0, GetDevice(s).value.1)
    ensures forall p, rest :: LegalPublisher(p) ==> GetPublisher(PutPublisher(p, rest)) == Some((p, rest))
    ensures forall s :: GetPublisher(s).Some? ==>
              LegalPublisher(GetPublisher(s).value.0) && s == PutPublisher(GetPublisher(s).value.0, GetPublisher(s).value.1)
  {
    hide GetU64, PutU64, GetText, PutText, GetBool, PutBool, GetId, PutId, ValidIdentifier;
    U64Law();
    IdLaw();
    TextLaw(MAX_NAME_LENGTH);
    BoolLaw();
  }
}
