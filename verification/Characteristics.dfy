/** Structural dimensions of a port: enumerations, lanes, breakout, MTU and speed intent. */
module Characteristics {
  import opened Basics
  import opened Rates

  const MAX_LANES := 16
  const MAX_BREAKOUT_CHILDREN := 8
  const MIN_MTU := 68
  const MAX_MTU := 65536

  datatype PortMode = Physical | Logical

  datatype ProtocolFamily =
    | Unknown | Ethernet | InfiniBand | FibreChannel | OpticalTransport | Overlay | Synthetic

  datatype FecMode =
    | Unknown | Unsupported | NoFec | Firecode
    | ReedSolomon528 | ReedSolomon544 | ReedSolomon544Interleaved | ReedSolomon272Interleaved

  datatype DuplexMode = Unknown | Unsupported | Half | Full

  datatype AutonegPolicy = Unknown | Unsupported | Forced | Preferred | Negotiated

  datatype PauseMode = Unknown | Unsupported | Disabled | Transmit | Receive | Bidirectional

  datatype BreakoutMode = NoBreakout | X2 | X4 | X8

  datatype SpeedSelection = Auto | Forced

  // -------------------------------------------------------------------------
  // Breakout
  // -------------------------------------------------------------------------

  function BreakoutChildren(mode: BreakoutMode): nat {
    match mode
    case NoBreakout => 1
    case X2 => 2
    case X4 => 4
    case X8 => 8
  }

  function BreakoutForChildren(children: nat): (r: Option<BreakoutMode>)
    ensures forall mode :: r == Some(mode) <==> BreakoutChildren(mode) == children
  {
    if children == 1 then Some(NoBreakout)
    else if children == 2 then Some(X2)
    else if children == 4 then Some(X4)
    else if children == 8 then Some(X8)
    else None
  }

  predicate LanesAreDivisible(lanes: nat, mode: BreakoutMode) {
    lanes != 0 && lanes % BreakoutChildren(mode) == 0
  }

  // -------------------------------------------------------------------------
  // Lanes
  // -------------------------------------------------------------------------

  datatype LanePair = LanePair(lanes: u32, perLane: PortSpeed)

  /** What `create` admits: one to sixteen lanes whose total is a representable rate. */
  predicate LegalLanes(l: LanePair) {
    1 <= l.lanes <= MAX_LANES && l.perLane != 0 && RepresentableRate(l.lanes * l.perLane)
  }

  /** A lane configuration. The class keeps its fields private: it is either absent or legal. */
  type Lanes = l: LanePair | l == LanePair(0, 0) || LegalLanes(l)
    witness LanePair(0, 0)

  predicate HasLanes(l: Lanes) { l.lanes != 0 && l.perLane != 0 }

  function CreateLanes(lanes: u32, perLane: PortSpeed): Option<Lanes> {
    if LegalLanes(LanePair(lanes, perLane)) then Some(LanePair(lanes, perLane)) else None
  }

  function LaneTotal(l: Lanes): (total: Option<PortSpeed>)
    ensures total.Some? <==> HasLanes(l)
    ensures total.Some? ==> total.value == l.lanes * l.perLane && total.value != 0
  {
    if HasLanes(l) then
      assert LegalLanes(l);
      Some(l.lanes * l.perLane)
    else
      None
  }

  function LanesForTotal(lanes: u32, total: PortSpeed): Option<Lanes> {
    if lanes == 0 || lanes > MAX_LANES || total == 0 || total % lanes != 0 then None
    else
      var perLane :- FromBits(total / lanes);
      CreateLanes(lanes, perLane)
  }

  /** Splitting a total over lanes either realises that total exactly or is refused, and it
      is refused only when no legal lane configuration realises it. */
  lemma LanesForTotalIsExact(lanes: u32, total: PortSpeed)
    requires total != 0
    ensures LanesForTotal(lanes, total).Some? ==>
              LaneTotal(LanesForTotal(lanes, total).value) == Some(total)
              && LanesForTotal(lanes, total).value.lanes == lanes
    ensures LanesForTotal(lanes, total).None? ==>
              forall l: Lanes | l.lanes == lanes :: LaneTotal(l) != Some(total)
  {
    if lanes != 0 && lanes <= MAX_LANES {
      var q := total / lanes;
      assert total == lanes * q + total % lanes;
      forall l: Lanes | l.lanes == lanes && LaneTotal(l) == Some(total)
        ensures total % lanes == 0 && q == l.perLane
      {
        assert total == lanes * l.perLane;
        ExactDivision(total, lanes, l.perLane);
      }
    }
    forall l: Lanes | l.lanes == lanes && HasLanes(l)
      ensures lanes <= MAX_LANES
    {
      assert LegalLanes(l);
    }
  }

  lemma SmallMultiple(d: int, a: nat, r: nat)
    requires d * a == r < a
    ensures d == 0
  {
    assert d >= 1 ==> d * a >= a;
    assert d <= -1 ==> d * a + a <= 0;
  }

  lemma ExactDivision(product: nat, a: nat, b: nat)
    requires a != 0 && product == a * b
    ensures product % a == 0 && product / a == b
  {
    var q, r := product / a, product % a;
    assert product == q * a + r;
    assert (b - q) * a == b * a - q * a;
    SmallMultiple(b - q, a, r);
  }

  // -------------------------------------------------------------------------
  // MTU and speed intent
  // -------------------------------------------------------------------------

  /** A port MTU: absent (zero) or within the legal range. */
  type Mtu = n: nat | n == 0 || MIN_MTU <= n <= MAX_MTU

  function CreateMtu(value: u32): Option<Mtu> {
    if value < MIN_MTU || value > MAX_MTU then None else Some(value)
  }

  datatype SpeedSetting = SpeedSetting(selection: SpeedSelection, rate: PortSpeed) {
    predicate Valid() { if selection.Auto? then rate == 0 else rate != 0 }
  }

  datatype Aggregation = Aggregation(member: bool, aggregate: Id, generation: Generation, participates: bool) {
    predicate Valid() {
      if !member then !Named(aggregate) && generation == 0 && !participates
      else Named(aggregate) && generation != 0
    }
  }
}
