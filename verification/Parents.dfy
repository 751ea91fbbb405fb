/** Live ports and the parent devices they stand on: the unchecked uses of a device's generation. */
module Parents {
  import opened Basics
  import opened Records
  import opened Lifecycle
  import opened Profiles
  import opened Planning
  import opened PlanningLaws
  import opened Engine
  import opened Recovery
  import opened Safety
  import opened Runs
  import opened RunLaws
  import opened RunTheorems
  import opened Wording
  import Utf8

  // -------------------------------------------------------------------------
  // When planning uses a generation that is not there
  // -------------------------------------------------------------------------

  /** The requests whose planners use the generation of the parent device unchecked. */
  predicate Dereferences(q: Request, base: PortRecord, profiles: Registry) {
    match q.operation
    case Reconfigure(wanted) => !Named(wanted.port) || wanted.port == base.port
    case AssignProfile(id, generation) => Get(profiles, id, generation).Some?
    case ReleaseProfile => base.configuration.Some? && base.configuration.value.profile.bound
    case _ => false
  }

  /** For every kind, every answer and any device: a mutation that has resolved its device crashes
      exactly when the device is not recorded, the port is live and configured, evidence is found, and
      the request is one of those. */
  lemma CrashesExactly(s: State, t: Token, provider: Provider, looksIdentical: bool, sameEvidence: bool, note: Text)
    requires t.Resolved?
    ensures PlanToken(s, t, provider, looksIdentical, sameEvidence, note).Crashed?
            <==> && t.device.None? && IsLive(t.base.lifecycle) && t.base.configuration.Some?
                 && ResolveCapabilities(t.base, provider).0 == Ok && Dereferences(t.q, t.base, s.profiles)
  {
    hide ValidIdentifier, Consistent, PortConfiguration.Valid, Supports, CapabilityVerdict, PortRecord.Valid, Stamp;
    hide PortCapabilities.Valid, FencedRejection, Get, ProfileIsKnown;
  }

  // -------------------------------------------------------------------------
  // The invariant
  // -------------------------------------------------------------------------

  /** The mutation is live, or will make its port so, on the strength of the parent it has seen. */
  predicate NeedsParent(t: Token) {
    t.HasBase()
    && (|| IsLive(t.base.lifecycle)
        || (t.Resolved? && t.device.Some?)
        || (t.Planned? && IsLive(t.plan.next.lifecycle))
        || (t.Ready? && IsLive(t.next.lifecycle)))
  }

  predicate ParentGood(s: State, t: Token) {
    && !t.Crashed?
    && (NeedsParent(t) ==> t.base.parentDevice in s.devices)
    && (t.Resolved? && IsLive(t.base.lifecycle) ==> t.device.Some?)
  }

  predicate ParentsGood(s: State, tokens: map<nat, Token>) { forall id :: id in tokens ==> ParentGood(s, tokens[id]) }

  /** Some load is between its authority region and its records region. */
  predicate Restoring(w: World) { exists id :: id in w.loads && w.loads[id].AuthorityRestored? }

  predicate ParentInv(w: World) {
    ParentsGood(w.state, w.tokens) && (Restoring(w) || LiveHaveParents(w.state))
  }

  /** What a run must keep to besides: no load takes the parent from under a mutation in flight that
      needs it, and no mutation starts on a live port whose parent a load has dropped. */
  predicate KeepsParents(w: World, e: Event) {
    && (e.RestoringAuthority? && e.id in w.loads && w.loads[e.id].ProfilesRestored?
        && RecoverTables(w.state, w.loads[e.id].image).1 == Ok ==>
          forall id :: id in w.tokens && NeedsParent(w.tokens[id]) ==>
            w.tokens[id].base.parentDevice in RefillDevices(w.loads[e.id].image.devices))
    && (e.Snapshot? && e.id in w.tokens && w.tokens[e.id].Gated? && w.tokens[e.id].q.Port() in w.state.records ==>
          var r := w.state.records[w.tokens[e.id].q.Port()];
          IsLive(r.lifecycle) ==> r.parentDevice in w.state.devices)
  }

  // -------------------------------------------------------------------------
  // The tokens
  // -------------------------------------------------------------------------

  lemma ParentStays(s: State, u: State, t: Token)
    requires ParentGood(s, t) && DevicesAdvance(s.devices, u.devices)
    ensures ParentGood(u, t)
  {
    hide ValidIdentifier;
  }

  lemma PlannedParent(w: World, t: Token, provider: Provider, looksIdentical: bool, sameEvidence: bool, note: Text)
    requires t.Resolved? && GoodToken(w, t) && ParentGood(w.state, t)
    ensures ParentGood(w.state, PlanToken(w.state, t, provider, looksIdentical, sameEvidence, note))
  {
    hide Build, Prepare, ValidIdentifier, Consistent, GoodRequest, DeviceGate, CaptureExpected, Admitted, Evolves;
    hide Sound, Spent, Tracks;
    var (code, capability) :=
      if t.q.operation.AppliesToDevice() then ResolveCapabilities(t.base, provider) else (Ok, NO_BINDING);
    var input := BuildInput(t.topology, t.device, capability, w.state.profiles, looksIdentical, sameEvidence, note);
    NeverUndefined(t.base, input, t.q);
    PrepareKeepsDefined(Build(t.base, input, t.q), t.q);
    if Prepare(Build(t.base, input, t.q), t.q).Prepared? && code == Ok {
      AdmittedIsNotRetired(t.q, t.base);
      PreparedProposes(t.base, input, t.q);
    }
  }

  lemma AdmittedIsNotRetired(q: Request, base: PortRecord)
    requires Admitted(q, base)
    ensures !base.lifecycle.Retired?
  {
    hide OwnershipGate;
  }

  lemma AppliedParent(w: World, t: Token, reply: AdapterReply)
    requires t.Planned? && ParentGood(w.state, t)
    ensures ParentGood(w.state, ApplyToken(w.state, t, reply))
  {
    hide Settle, ValidIdentifier, Consistent;
    SettledKeepsOwner(t.plan, w.state.config.policy, reply);
  }

  /** The region of one mutation. */
  lemma RegionKeepsParent(w: World, e: Event)
    requires Inv(w) && ParentInv(w) && KeepsParents(w, e) && e.OfMutation() && e.id in Step(w, e).tokens
    ensures ParentGood(w.state, Step(w, e).tokens[e.id])
  {
    hide BindingStep, SaveStep, LoadStep, RestartStep, EnvironmentStep, Inv, PlanToken, ApplyToken, Screen, GateState;
    hide CheckAuthority, Commit, RecordUncertainty, LiveHaveParents, GoodToken, ValidIdentifier, Consistent;
    if e.id in w.tokens {
      GoodTokenAt(w, e.id);
      var t := w.tokens[e.id];
      if e.Planning? && t.Resolved? {
        PlannedParent(w, t, e.provider, e.looksIdentical, e.sameEvidence, e.note);
      } else if e.Applying? && t.Planned? {
        AppliedParent(w, t, e.reply);
      }
    }
  }

  lemma MutationKeepsParents(w: World, e: Event)
    requires Inv(w) && ParentInv(w) && KeepsParents(w, e) && e.OfMutation()
    ensures ParentsGood(Step(w, e).state, Step(w, e).tokens)
  {
    hide Step, Inv, ParentGood, KeepsParents, LiveHaveParents;
    DevicesOnlyAdvance(w, e);
    MutationLeavesDevices(w, e);
    var v := Step(w, e);
    forall id | id in v.tokens ensures ParentGood(v.state, v.tokens[id]) {
      if id == e.id {
        RegionKeepsParent(w, e);
        SameDevices(w.state.devices);
        ParentStays(w.state, v.state, v.tokens[id]);
      } else {
        OtherRegionSpares(w, e, id);
        ParentStays(w.state, v.state, v.tokens[id]);
      }
    }
  }

  lemma AuthorityRegion(w: World, id: nat)
    ensures Step(w, RestoringAuthority(id))
            == if id in w.loads && w.loads[id].ProfilesRestored? then RestoreAuthorityStep(w, id, w.loads[id].image) else w
  {
    hide MutationStep, BindingStep, SaveStep, EnvironmentStep, RestartStep, RestoreAuthorityStep, RestoreProfilesStep;
    hide RestoreRecordsStep, OpenToken;
  }

  /** The authority region of a load, as far as parents are concerned. */
  lemma AuthorityRegionState(w: World, id: nat)
    ensures var v := Step(w, RestoringAuthority(id));
            && v.tokens == w.tokens
            && (if id in w.loads && w.loads[id].ProfilesRestored? && RecoverTables(w.state, w.loads[id].image).1 == Ok then
                  && v.state.devices == RefillDevices(w.loads[id].image.devices) && v.state.records == w.state.records
                  && LoadAt(v, id) == Some(AuthorityRestored(w.loads[id].image))
                else
                  v.state == w.state)
  {
    hide Step, RefillDevices, RefillPublishers;
    AuthorityRegion(w, id);
  }

  lemma OthersKeepParents(w: World, e: Event)
    requires Inv(w) && ParentInv(w) && KeepsParents(w, e) && !e.OfMutation()
    ensures ParentsGood(Step(w, e).state, Step(w, e).tokens)
  {
    hide Step, Inv, LiveHaveParents, Restoring;
    if e.Restarting? {
      RestartEmpties(w, e.config, e.loads);
    } else if e.RestoringAuthority? {
      AuthorityRegionState(w, e.id);
    } else {
      OtherStepsSpareTokens(w, e);
      DevicesOnlyAdvance(w, e);
    }
  }

  lemma RestartEmpties(w: World, config: EngineConfig, loads: bool)
    ensures Step(w, Restarting(config, loads)).tokens == map[]
  {
    hide MutationStep, BindingStep, SaveStep, EnvironmentStep, LoadStep, Recover;
  }

  // -------------------------------------------------------------------------
  // The records
  // -------------------------------------------------------------------------

  /** What is recovered is not live. */
  lemma NothingLive(w: World, e: Event)
    requires Inv(w) && e.Recovers() && (e.RestoringRecords? ==> Effective(w, e))
    ensures LiveHaveParents(Step(w, e).state)
  {
    hide Step, Inv, GoodImage, Refill, IsLive, Recover, DefineAll, Sort, RefillDevices, RefillPublishers;
    if Effective(w, e) {
      EffectiveRecords(w, e);
      var image := RecoveredImage(w, e);
      forall port | port in Refill(image.records).0 ensures !IsLive(Refill(image.records).0[port].lifecycle) {
        RefilledIsDead(image, port);
      }
    } else {
      FailedRestart(w, e.config, e.loads);
    }
  }

  lemma FailedRestart(w: World, config: EngineConfig, loads: bool)
    requires Inv(w)
    ensures LiveHaveParents(Step(w, Restarting(config, loads)).state)
  {
    hide Step, Inv, GoodImage, Refill, IsLive, Recover;
    DiskIsGood(w);
    RestartedState(w, config, loads);
    if loads && w.disk.Some? {
      forall port | port in Refill(w.disk.value.records).0 ensures !IsLive(Refill(w.disk.value.records).0[port].lifecycle) {
        RefilledIsDead(w.disk.value, port);
      }
      RecoverLeaves(FreshEngine(config), w.disk.value);
    }
  }

  lemma RestartedState(w: World, config: EngineConfig, loads: bool)
    ensures Step(w, Restarting(config, loads)).state
            == if loads && w.disk.Some? then Recover(FreshEngine(config), w.disk.value).0 else FreshEngine(config)
  {
    hide MutationStep, BindingStep, SaveStep, EnvironmentStep, LoadStep, Recover;
  }

  lemma RecoverLeaves(s: State, image: PersistedState)
    ensures Recover(s, image).0.records == s.records || Recover(s, image).0.records == Refill(image.records).0
  {
    hide Refill, DefineAll, Sort, RefillDevices, RefillPublishers, ValidIdentifier, Consistent, RecoveryRefusal;
  }

  lemma EffectKeepsParents(w: World, e: Event, v: World, port: Id)
    requires Inv(w) && ParentInv(w) && Effect(w, e, v, port) && DevicesAdvance(w.state.devices, v.state.devices)
    requires IsLive(w.state.records[port].lifecycle) ==> w.state.records[port].parentDevice in w.state.devices
    ensures IsLive(v.state.records[port].lifecycle) ==> v.state.records[port].parentDevice in v.state.devices
  {
    hide Inv, Doubted, ValidIdentifier, Consistent, HeldWhereOwned, PortRecord.Valid, Sound, CountersAdvance, LiveHaveParents;
    hide EntersLive;
    var r, after := w.state.records[port], v.state.records[port];
    if Doubted(r, after) {
      DoubtedKeepsStanding(r, after);
    }
    if e.Committing? && CommittedBy(w, v, port, e.id) {
      assert ParentGood(w.state, w.tokens[e.id]);
    }
  }

  /** A port that was not there comes in unconfigured. */
  lemma NewPortsAreNotLive(w: World, e: Event, port: Id)
    requires !e.Recovers() && port !in w.state.records && port in Step(w, e).state.records
    ensures !IsLive(Step(w, e).state.records[port].lifecycle)
  {
    hide Step;
    if e.OfMutation() {
      MutationAddsNothing(w, e);
    } else if e.OfBinding() {
      BindingAddsUnconfigured(w, e, port);
    } else if e.OfSave() {
      SaveLeavesState(w, e);
    } else if e.OfLoad() {
      LoadLeavesRecords(w, e);
    } else {
      EnvironmentAddsNothing(w, e);
    }
  }

  lemma MutationAddsNothing(w: World, e: Event)
    requires e.OfMutation()
    ensures Step(w, e).state.records.Keys == w.state.records.Keys
  {
    hide BindingStep, SaveStep, LoadStep, RestartStep, EnvironmentStep, SnapshotToken, ScreenToken, ResolveToken, PlanToken;
    hide ApplyToken, GateToken, CaptureExpected, Uncertain, ValidIdentifier, Consistent;
  }

  lemma EnvironmentAddsNothing(w: World, e: Event)
    requires e.OfEnvironment()
    ensures Step(w, e).state.records.Keys == w.state.records.Keys
  {
    hide MutationStep, BindingStep, SaveStep, LoadStep, RestartStep, DefineIn, ReleasedByFence, ReleasedByEpoch;
    hide ValidIdentifier, Consistent, Utf8.ValidText;
  }

  lemma BindingAddsUnconfigured(w: World, e: Event, port: Id)
    requires e.OfBinding() && port !in w.state.records && port in Step(w, e).state.records
    ensures Step(w, e).state.records[port].lifecycle.Unconfigured?
  {
    hide MutationStep, SaveStep, LoadStep, RestartStep, EnvironmentStep, ClearToken, PortRecord.Valid, ValidIdentifier;
    hide Consistent, BoundReason, PortCapabilities.Valid;
  }

  lemma RecordsKeepParents(w: World, e: Event)
    requires Inv(w) && ParentInv(w) && LiveHaveParents(w.state) && !e.Recovers() && !e.RestoringAuthority?
    ensures LiveHaveParents(Step(w, e).state)
  {
    hide Step, Inv, Effect, Restoring, ParentsGood;
    DevicesOnlyAdvance(w, e);
    var v := Step(w, e);
    forall port | port in v.state.records && IsLive(v.state.records[port].lifecycle)
      ensures v.state.records[port].parentDevice in v.state.devices
    {
      if port in w.state.records {
        StepEffect(w, e, port);
        EffectKeepsParents(w, e, v, port);
      } else {
        NewPortsAreNotLive(w, e, port);
      }
    }
  }

  /** Only the regions of a load start or end a restoration. */
  lemma OtherLoadsStay(w: World, e: Event)
    requires !e.OfLoad() && !e.Restarting?
    ensures Step(w, e).loads == w.loads
  {
    hide RestartStep, LoadStep, BeginEpoch, RegisterPublisher, FencePublisher, RegisterDevice, DefineProfile, SetTopology;
    hide InsertPort, AttachDevice, WalksRecords, WalksDevices, WalksPublishers, Lists, ValidIdentifier, Consistent;
    hide PlanToken, ApplyToken, ScreenToken, ResolveToken, SnapshotToken, GateToken, GateState, Commit, RecordUncertainty;
  }

  lemma LoadsStayBut(w: World, e: Event, id: nat)
    requires e.OfLoad() && id != e.id
    ensures LoadAt(Step(w, e), id) == LoadAt(w, id)
  {
    hide MutationStep, BindingStep, SaveStep, EnvironmentStep, RestartStep, RecoverProfiles, RecoverTables, RecoverRecords;
    hide OpenToken;
  }

  lemma RestoringStays(w: World, e: Event)
    requires Restoring(w) && !e.Restarting? && !(e.RestoringRecords? && Effective(w, e))
    ensures Restoring(Step(w, e))
  {
    hide Step;
    var id :| id in w.loads && w.loads[id].AuthorityRestored?;
    if e.OfLoad() {
      if id == e.id {
        EarlierRegionsSpare(w, e);
      } else {
        LoadsStayBut(w, e, id);
      }
    } else {
      OtherLoadsStay(w, e);
    }
    assert LoadAt(Step(w, e), id) == LoadAt(w, id);
  }

  lemma EarlierRegionsSpare(w: World, e: Event)
    requires e.OfLoad() && !e.RestoringRecords? && e.id in w.loads && w.loads[e.id].AuthorityRestored?
    ensures Step(w, e) == w
  {
    hide MutationStep, BindingStep, SaveStep, EnvironmentStep, RestartStep, RestoreProfilesStep, RestoreAuthorityStep, OpenToken;
  }

  // -------------------------------------------------------------------------
  // Every step, every run
  // -------------------------------------------------------------------------

  lemma StepKeepsParents(w: World, e: Event)
    requires Inv(w) && ParentInv(w) && Lawful(w, e) && KeepsParents(w, e)
    ensures ParentInv(Step(w, e))
  {
    hide Step, Inv, Lawful, ParentsGood, LiveHaveParents, Restoring, KeepsParents, Effective;
    if e.OfMutation() {
      MutationKeepsParents(w, e);
    } else {
      OthersKeepParents(w, e);
    }
    if e.Restarting? || (e.RestoringRecords? && Effective(w, e)) {
      NothingLive(w, e);
    } else if Restoring(w) {
      RestoringStays(w, e);
    } else if e.RestoringAuthority? {
      AuthorityKeepsRecords(w, e.id);
    } else if e.RestoringRecords? {
      IdleRecords(w, e.id);
    } else {
      RecordsKeepParents(w, e);
    }
  }

  lemma IdleRecords(w: World, id: nat)
    requires Inv(w) && !Effective(w, RestoringRecords(id))
    ensures Step(w, RestoringRecords(id)) == w
  {
    hide Step, Inv;
    RecordsRegionState(w, id);
  }

  lemma AuthorityKeepsRecords(w: World, id: nat)
    requires LiveHaveParents(w.state)
    ensures Restoring(Step(w, RestoringAuthority(id))) || LiveHaveParents(Step(w, RestoringAuthority(id)).state)
  {
    hide Step, RecoverTables;
    AuthorityRegionState(w, id);
    var v := Step(w, RestoringAuthority(id));
    if v.state != w.state {
      assert LoadAt(v, id).Some?;
    }
  }

  /** A lawful run in which every load leaves the parents that mutations in flight need. */
  ghost predicate ParentedRun(w: World, events: seq<Event>)
    decreases |events|
  {
    hide Step, KeepsParents;
    events != [] ==> KeepsParents(w, events[0]) && ParentedRun(Step(w, events[0]), events[1..])
  }

  lemma {:induction false} RunKeepsParents(w: World, events: seq<Event>)
    requires Inv(w) && ParentInv(w) && LawfulRun(w, events) && ParentedRun(w, events)
    ensures ParentInv(Exec(w, events))
    decreases |events|
  {
    hide Inv, Step, Lawful, ParentInv, KeepsParents;
    if events != [] {
      StepKeepsParents(w, events[0]);
      StepKeepsInv(w, events[0]);
      RunKeepsParents(Step(w, events[0]), events[1..]);
    }
  }

  lemma StartHasParents(config: EngineConfig)
    ensures ParentInv(Start(config))
  {
  }

  /** In such runs no mutation ever uses the generation of a device that is not recorded. */
  lemma NothingCrashes(config: EngineConfig, events: seq<Event>, w: World, id: nat)
    requires Reached(config, events, w) && ParentedRun(Start(config), events) && id in w.tokens
    ensures !w.tokens[id].Crashed?
  {
    hide Inv, Exec, LawfulRun, ParentedRun, Start, Restoring, LiveHaveParents;
    StartIsGood(config);
    StartHasParents(config);
    RunKeepsParents(Start(config), events);
  }

  /** And the parent of every live port is recorded, but while a load is between its authority region
      and its records region. */
  lemma ParentsAreRecorded(config: EngineConfig, events: seq<Event>, w: World)
    requires Reached(config, events, w) && ParentedRun(Start(config), events)
    ensures Restoring(w) || LiveHaveParents(w.state)
  {
    hide Inv, Exec, LawfulRun, ParentedRun, Start, Restoring, LiveHaveParents;
    StartIsGood(config);
    StartHasParents(config);
    RunKeepsParents(Start(config), events);
  }

  /** There, exactly the live ports whose parent the container lacks stand on none. */
  lemma BetweenTheRegions(w: World, id: nat, port: Id)
    requires id in w.loads && w.loads[id].ProfilesRestored? && RecoverTables(w.state, w.loads[id].image).1 == Ok
    requires port in w.state.records
    ensures var v := Step(w, RestoringAuthority(id));
            && v.state.records == w.state.records
            && (v.state.records[port].parentDevice in v.state.devices
                <==> exists d :: d in w.loads[id].image.devices && d.device == w.state.records[port].parentDevice)
  {
    hide Step, RecoverTables, RefillDevices, ValidIdentifier;
    AuthorityRegionState(w, id);
    DevicesAreFromImage(w.loads[id].image.devices);
  }
}
