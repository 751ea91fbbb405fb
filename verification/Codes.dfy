/** The one-byte codes of the enumerations. A byte that is no code is refused. */
module Codes {
  import opened Basics
  import opened Records
  import opened Characteristics
  import opened Codec

  /** A decoding table: at most one value per code, and every value has its code. */
  ghost predicate Decodes<E(!new)>(code: E -> u8, of: u8 -> Option<E>) {
    forall e, n :: of(n) == Some(e) <==> code(e) == n
  }

  function PutEnum<E>(code: E -> u8, e: E, rest: Text): (s: Text)
    ensures |s| == |rest| + 1
  {
    PutU8(code(e), rest)
  }

  function GetEnum<E>(of: u8 -> Option<E>, s: Text): Parsed<E> {
    var (raw, rest) :- GetU8(s);
    var e :- of(raw);
    Some((e, rest))
  }

  /** Reading an enumeration undoes writing it, both ways. */
  lemma EnumLaw<E(!new)>(code: E -> u8, of: u8 -> Option<E>)
    requires Decodes(code, of)
    ensures forall e, rest :: GetEnum(of, PutEnum(code, e, rest)) == Some((e, rest))
    ensures forall s :: GetEnum(of, s).Some? ==>
              s == PutEnum(code, GetEnum(of, s).value.0, GetEnum(of, s).value.1)
    ensures forall e, rest :: |PutEnum(code, e, rest)| > |rest|
  {
    hide GetU8, PutU8;
    U8Law();
  }

  function ProvenanceKindCode(e: ProvenanceKind): u8 {
    match e
    case Unknown => 0
    case Operator => 1
    case NetworkController => 2
    case SwitchAgent => 3
    case HostAgent => 4
    case DelegatedSubsystem => 5
    case SyntheticBackend => 6
    case HostAdapter => 7
    case Recovery => 8
    case Reconciliation => 9
  }

  function ProvenanceKindOf(n: u8): (r: Option<ProvenanceKind>)
    ensures forall e :: r == Some(e) <==> ProvenanceKindCode(e) == n
  {
    if n == 0 then Some(ProvenanceKind.Unknown)
    else if n == 1 then Some(ProvenanceKind.Operator)
    else if n == 2 then Some(ProvenanceKind.NetworkController)
    else if n == 3 then Some(ProvenanceKind.SwitchAgent)
    else if n == 4 then Some(ProvenanceKind.HostAgent)
    else if n == 5 then Some(ProvenanceKind.DelegatedSubsystem)
    else if n == 6 then Some(ProvenanceKind.SyntheticBackend)
    else if n == 7 then Some(ProvenanceKind.HostAdapter)
    else if n == 8 then Some(ProvenanceKind.Recovery)
    else if n == 9 then Some(ProvenanceKind.Reconciliation)
    else None
  }

  function CapabilityCertaintyCode(e: CapabilityCertainty): u8 {
    match e
    case Unknown => 0
    case Known => 1
    case Partial => 2
  }

  function CapabilityCertaintyOf(n: u8): (r: Option<CapabilityCertainty>)
    ensures forall e :: r == Some(e) <==> CapabilityCertaintyCode(e) == n
  {
    if n == 0 then Some(CapabilityCertainty.Unknown)
    else if n == 1 then Some(CapabilityCertainty.Known)
    else if n == 2 then Some(CapabilityCertainty.Partial)
    else None
  }

  function FecModeCode(e: FecMode): u8 {
    match e
    case Unknown => 0
    case Unsupported => 1
    case NoFec => 2
    case Firecode => 3
    case ReedSolomon528 => 4
    case ReedSolomon544 => 5
    case ReedSolomon544Interleaved => 6
    case ReedSolomon272Interleaved => 7
  }

  function FecModeOf(n: u8): (r: Option<FecMode>)
    ensures forall e :: r == Some(e) <==> FecModeCode(e) == n
  {
    if n == 0 then Some(FecMode.Unknown)
    else if n == 1 then Some(FecMode.Unsupported)
    else if n == 2 then Some(FecMode.NoFec)
    else if n == 3 then Some(FecMode.Firecode)
    else if n == 4 then Some(FecMode.ReedSolomon528)
    else if n == 5 then Some(FecMode.ReedSolomon544)
    else if n == 6 then Some(FecMode.ReedSolomon544Interleaved)
    else if n == 7 then Some(FecMode.ReedSolomon272Interleaved)
    else None
  }

  function AutonegPolicyCode(e: AutonegPolicy): u8 {
    match e
    case Unknown => 0
    case Unsupported => 1
    case Forced => 2
    case Preferred => 3
    case Negotiated => 4
  }

  function AutonegPolicyOf(n: u8): (r: Option<AutonegPolicy>)
    ensures forall e :: r == Some(e) <==> AutonegPolicyCode(e) == n
  {
    if n == 0 then Some(AutonegPolicy.Unknown)
    else if n == 1 then Some(AutonegPolicy.Unsupported)
    else if n == 2 then Some(AutonegPolicy.Forced)
    else if n == 3 then Some(AutonegPolicy.Preferred)
    else if n == 4 then Some(AutonegPolicy.Negotiated)
    else None
  }

  function PauseModeCode(e: PauseMode): u8 {
    match e
    case Unknown => 0
    case Unsupported => 1
    case Disabled => 2
    case Transmit => 3
    case Receive => 4
    case Bidirectional => 5
  }

  function PauseModeOf(n: u8): (r: Option<PauseMode>)
    ensures forall e :: r == Some(e) <==> PauseModeCode(e) == n
  {
    if n == 0 then Some(PauseMode.Unknown)
    else if n == 1 then Some(PauseMode.Unsupported)
    else if n == 2 then Some(PauseMode.Disabled)
    else if n == 3 then Some(PauseMode.Transmit)
    else if n == 4 then Some(PauseMode.Receive)
    else if n == 5 then Some(PauseMode.Bidirectional)
    else None
  }

  function ProtocolFamilyCode(e: ProtocolFamily): u8 {
    match e
    case Unknown => 0
    case Ethernet => 1
    case InfiniBand => 2
    case FibreChannel => 3
    case OpticalTransport => 4
    case Overlay => 5
    case Synthetic => 6
  }

  function ProtocolFamilyOf(n: u8): (r: Option<ProtocolFamily>)
    ensures forall e :: r == Some(e) <==> ProtocolFamilyCode(e) == n
  {
    if n == 0 then Some(ProtocolFamily.Unknown)
    else if n == 1 then Some(ProtocolFamily.Ethernet)
    else if n == 2 then Some(ProtocolFamily.InfiniBand)
    else if n == 3 then Some(ProtocolFamily.FibreChannel)
    else if n == 4 then Some(ProtocolFamily.OpticalTransport)
    else if n == 5 then Some(ProtocolFamily.Overlay)
    else if n == 6 then Some(ProtocolFamily.Synthetic)
    else None
  }

  function DuplexModeCode(e: DuplexMode): u8 {
    match e
    case Unknown => 0
    case Unsupported => 1
    case Half => 2
    case Full => 3
  }

  function DuplexModeOf(n: u8): (r: Option<DuplexMode>)
    ensures forall e :: r == Some(e) <==> DuplexModeCode(e) == n
  {
    if n == 0 then Some(DuplexMode.Unknown)
    else if n == 1 then Some(DuplexMode.Unsupported)
    else if n == 2 then Some(DuplexMode.Half)
    else if n == 3 then Some(DuplexMode.Full)
    else None
  }

  function AdministrativeStateCode(e: AdministrativeState): u8 {
    match e
    case Unknown => 0
    case Enabled => 1
    case Disabled => 2
    case Draining => 3
    case Maintenance => 4
    case RevalidationRequired => 5
  }

  function AdministrativeStateOf(n: u8): (r: Option<AdministrativeState>)
    ensures forall e :: r == Some(e) <==> AdministrativeStateCode(e) == n
  {
    if n == 0 then Some(AdministrativeState.Unknown)
    else if n == 1 then Some(AdministrativeState.Enabled)
    else if n == 2 then Some(AdministrativeState.Disabled)
    else if n == 3 then Some(AdministrativeState.Draining)
    else if n == 4 then Some(AdministrativeState.Maintenance)
    else if n == 5 then Some(AdministrativeState.RevalidationRequired)
    else None
  }

  function PortModeCode(e: PortMode): u8 {
    match e
    case Physical => 0
    case Logical => 1
  }

  function PortModeOf(n: u8): (r: Option<PortMode>)
    ensures forall e :: r == Some(e) <==> PortModeCode(e) == n
  {
    if n == 0 then Some(PortMode.Physical)
    else if n == 1 then Some(PortMode.Logical)
    else None
  }

  function SpeedSelectionCode(e: SpeedSelection): u8 {
    match e
    case Auto => 0
    case Forced => 1
  }

  function SpeedSelectionOf(n: u8): (r: Option<SpeedSelection>)
    ensures forall e :: r == Some(e) <==> SpeedSelectionCode(e) == n
  {
    if n == 0 then Some(SpeedSelection.Auto)
    else if n == 1 then Some(SpeedSelection.Forced)
    else None
  }

  function BreakoutModeCode(e: BreakoutMode): u8 {
    match e
    case NoBreakout => 0
    case X2 => 1
    case X4 => 2
    case X8 => 3
  }

  function BreakoutModeOf(n: u8): (r: Option<BreakoutMode>)
    ensures forall e :: r == Some(e) <==> BreakoutModeCode(e) == n
  {
    if n == 0 then Some(BreakoutMode.NoBreakout)
    else if n == 1 then Some(BreakoutMode.X2)
    else if n == 2 then Some(BreakoutMode.X4)
    else if n == 3 then Some(BreakoutMode.X8)
    else None
  }

  function PortOwnerKindCode(e: PortOwnerKind): u8 {
    match e
    case Unknown => 0
    case SwitchAgent => 1
    case HostAgent => 2
    case NetworkController => 3
    case AdministrativeControlPlane => 4
    case DelegatedSubsystem => 5
  }

  function PortOwnerKindOf(n: u8): (r: Option<PortOwnerKind>)
    ensures forall e :: r == Some(e) <==> PortOwnerKindCode(e) == n
  {
    if n == 0 then Some(PortOwnerKind.Unknown)
    else if n == 1 then Some(PortOwnerKind.SwitchAgent)
    else if n == 2 then Some(PortOwnerKind.HostAgent)
    else if n == 3 then Some(PortOwnerKind.NetworkController)
    else if n == 4 then Some(PortOwnerKind.AdministrativeControlPlane)
    else if n == 5 then Some(PortOwnerKind.DelegatedSubsystem)
    else None
  }

  function PortLifecycleCode(e: PortLifecycle): u8 {
    match e
    case Unconfigured => 0
    case Configured => 1
    case Active => 2
    case AdminDisabled => 3
    case Draining => 4
    case Maintenance => 5
    case RevalidationRequired => 6
    case Superseded => 7
    case Retired => 8
    case Conflicted => 9
  }

  function PortLifecycleOf(n: u8): (r: Option<PortLifecycle>)
    ensures forall e :: r == Some(e) <==> PortLifecycleCode(e) == n
  {
    if n == 0 then Some(PortLifecycle.Unconfigured)
    else if n == 1 then Some(PortLifecycle.Configured)
    else if n == 2 then Some(PortLifecycle.Active)
    else if n == 3 then Some(PortLifecycle.AdminDisabled)
    else if n == 4 then Some(PortLifecycle.Draining)
    else if n == 5 then Some(PortLifecycle.Maintenance)
    else if n == 6 then Some(PortLifecycle.RevalidationRequired)
    else if n == 7 then Some(PortLifecycle.Superseded)
    else if n == 8 then Some(PortLifecycle.Retired)
    else if n == 9 then Some(PortLifecycle.Conflicted)
    else None
  }

  function AppliedOutcomeCode(e: AppliedOutcome): u8 {
    match e
    case NotAttempted => 0
    case Applied => 1
    case ApplyFailed => 2
    case OutcomeUnknown => 3
    case Verified => 4
    case Unsupported => 5
  }

  function AppliedOutcomeOf(n: u8): (r: Option<AppliedOutcome>)
    ensures forall e :: r == Some(e) <==> AppliedOutcomeCode(e) == n
  {
    if n == 0 then Some(AppliedOutcome.NotAttempted)
    else if n == 1 then Some(AppliedOutcome.Applied)
    else if n == 2 then Some(AppliedOutcome.ApplyFailed)
    else if n == 3 then Some(AppliedOutcome.OutcomeUnknown)
    else if n == 4 then Some(AppliedOutcome.Verified)
    else if n == 5 then Some(AppliedOutcome.Unsupported)
    else None
  }

  function DriftStateCode(e: DriftState): u8 {
    match e
    case Unknown => 0
    case InSync => 1
    case Drifted => 2
    case RevalidationRequired => 3
    case Conflicted => 4
  }

  function DriftStateOf(n: u8): (r: Option<DriftState>)
    ensures forall e :: r == Some(e) <==> DriftStateCode(e) == n
  {
    if n == 0 then Some(DriftState.Unknown)
    else if n == 1 then Some(DriftState.InSync)
    else if n == 2 then Some(DriftState.Drifted)
    else if n == 3 then Some(DriftState.RevalidationRequired)
    else if n == 4 then Some(DriftState.Conflicted)
    else None
  }
}
