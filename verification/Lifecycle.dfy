/** The lifecycle relation and the administrative operations mapped onto it. */
module Lifecycle {
  import opened Basics
  import opened Records

  datatype Transition =
    | Configure | Activate | AdminDisable | AdminEnable | BeginDrain | CompleteDrain | EnterMaintenance
    | ExitMaintenance | RequireRevalidation | Supersede | Retire | Conflict | Reconcile

  /** The resulting state of a transition, or `None` when it is not defined. */
  function Evaluate(current: PortLifecycle, transition: Transition): Option<PortLifecycle> {
    if current.Retired? then None
    else
      match transition
      case Configure => if current.Unconfigured? then Some(PortLifecycle.Configured) else None
      case Activate => if IsLive(current) then Some(PortLifecycle.Active) else None
      case AdminDisable => if IsLive(current) then Some(PortLifecycle.AdminDisabled) else None
      case AdminEnable => if current.AdminDisabled? then Some(PortLifecycle.Configured) else None
      case BeginDrain => if IsLive(current) then Some(PortLifecycle.Draining) else None
      case CompleteDrain => if current.Draining? then Some(PortLifecycle.Maintenance) else None
      case EnterMaintenance => if IsLive(current) then Some(PortLifecycle.Maintenance) else None
      case ExitMaintenance =>
        if current.Maintenance? || current.Draining? then Some(PortLifecycle.Configured) else None
      case RequireRevalidation =>
        if IsLive(current) || current.Unconfigured? || current.RevalidationRequired? then
          Some(PortLifecycle.RevalidationRequired)
        else
          None
      case Supersede => if current.Superseded? then None else Some(PortLifecycle.Superseded)
      case Retire => Some(PortLifecycle.Retired)
      case Conflict => if current.Conflicted? then None else Some(PortLifecycle.Conflicted)
      case Reconcile => if RequiresReconciliation(current) then Some(PortLifecycle.Configured) else None
  }

  datatype AdministrativeOp = Enable | Disable | Drain | Maintain | Resume | Revalidate

  function AdministrativeTarget(op: AdministrativeOp): AdministrativeState {
    match op
    case Enable => AdministrativeState.Enabled
    case Disable => AdministrativeState.Disabled
    case Drain => AdministrativeState.Draining
    case Maintain => AdministrativeState.Maintenance
    case Resume => AdministrativeState.Enabled
    case Revalidate => AdministrativeState.RevalidationRequired
  }

  function TransitionFor(op: AdministrativeOp): Transition {
    match op
    case Enable => Activate
    case Disable => AdminDisable
    case Drain => BeginDrain
    case Maintain => EnterMaintenance
    case Resume => Activate
    case Revalidate => RequireRevalidation
  }

  /** Following a list of transitions, stopping at the first that is not defined. */
  function Walk(current: PortLifecycle, transitions: seq<Transition>): Option<PortLifecycle>
    decreases |transitions|
  {
    if transitions == [] then Some(current)
    else
      var next :- Evaluate(current, transitions[0]);
      Walk(next, transitions[1..])
  }

  /** Nothing leaves retirement, and nothing goes back to being unconfigured. */
  lemma {:induction false} NoWayBack(current: PortLifecycle, transitions: seq<Transition>)
    ensures current.Retired? && transitions != [] ==> Walk(current, transitions).None?
    ensures Walk(current, transitions).Some? && !current.Unconfigured? ==> !Walk(current, transitions).value.Unconfigured?
    decreases |transitions|
  {
    if transitions != [] && Evaluate(current, transitions[0]).Some? {
      NoWayBack(Evaluate(current, transitions[0]).value, transitions[1..]);
    }
  }

  /** A walk from outside the live states into them passes through the one transition that
      commits a first configuration, or through an explicit reconciliation. */
  lemma {:induction false} LiveOnlyByConfigureOrReconcile(current: PortLifecycle, transitions: seq<Transition>)
    requires !IsLive(current)
    requires Walk(current, transitions).Some? && IsLive(Walk(current, transitions).value)
    ensures exists i :: 0 <= i < |transitions| && (transitions[i].Configure? || transitions[i].Reconcile?)
    decreases |transitions|
  {
    var next := Evaluate(current, transitions[0]).value;
    if IsLive(next) {
      assert transitions[0].Configure? || transitions[0].Reconcile?;
    } else {
      LiveOnlyByConfigureOrReconcile(next, transitions[1..]);
      var i :| 0 <= i < |transitions[1..]| && (transitions[1..][i].Configure? || transitions[1..][i].Reconcile?);
      assert transitions[i + 1] == transitions[1..][i];
    }
  }
}
