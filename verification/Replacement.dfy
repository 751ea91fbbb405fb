/** Ports whose parent device has been replaced since they were bound. */
module Replacement {
  import opened Basics
  import opened Records
  import opened Profiles
  import opened Planning
  import opened PlanningLaws
  import opened Engine
  import opened Recovery
  import opened Safety
  import opened Runs
  import opened RunLaws
  import opened RunTheorems
  import Lifecycle
  import Utf8
  import opened Wording

  /** The recorded generation of the parent device is past the one the port was bound under. */
  predicate Replaced(s: State, port: Id) {
    && port in s.records && s.records[port].parentDevice in s.devices
    && s.devices[s.records[port].parentDevice].generation > s.records[port].generations.device
  }

  /** A configured port without an owner, its parent device replaced. */
  predicate Orphaned(s: State, port: Id) {
    Replaced(s, port) && s.records[port].configuration.Some? && s.records[port].ownership.None?
  }

  // -------------------------------------------------------------------------
  // Replacement lasts
  // -------------------------------------------------------------------------

  lemma EffectKeepsPlace(w: World, e: Event, v: World, port: Id)
    requires Effect(w, e, v, port)
    ensures v.state.records[port].parentDevice == w.state.records[port].parentDevice
  {
    hide Inv, Doubted, ValidIdentifier, Consistent, HeldWhereOwned, PortRecord.Valid, Sound, CountersAdvance;
    var r, after := w.state.records[port], v.state.records[port];
    if Doubted(r, after) {
      DoubtedKeepsPlace(r, after);
    }
  }

  lemma DoubtedKeepsPlace(r: PortRecord, after: PortRecord)
    requires Doubted(r, after)
    ensures after.parentDevice == r.parentDevice
  {
    hide ValidIdentifier;
  }

  lemma ReplacedStays(w: World, e: Event, port: Id)
    requires Inv(w) && Lawful(w, e) && !e.Recovers() && !e.RestoringAuthority? && !Withdraws(w, e, port) && Replaced(w.state, port)
    ensures Replaced(Step(w, e).state, port)
  {
    hide Inv, Step, Lawful, Withdraws, OwnerReleased, Doubted, CommittedBy, ValidIdentifier, Consistent, RecordsStep;
    StepEffect(w, e, port);
    DevicesOnlyAdvance(w, e);
    EffectAdvances(w, e, Step(w, e), port);
    EffectKeepsPlace(w, e, Step(w, e), port);
    StepKeepsInv(w, e);
  }

  lemma {:induction false} ReplacedForever(w: World, events: seq<Event>, port: Id)
    requires Inv(w) && LawfulRun(w, events) && Stays(w, events, port) && Replaced(w.state, port)
    requires forall i :: 0 <= i < |events| ==> !events[i].RestoringAuthority?
    ensures Replaced(Exec(w, events).state, port)
    decreases |events|
  {
    hide Inv, Step, Lawful, Replaced, Withdraws;
    if events != [] {
      ReplacedStays(w, events[0], port);
      StepKeepsInv(w, events[0]);
      ReplacedForever(Step(w, events[0]), events[1..], port);
    }
  }

  /** In every run: once the parent device of a port has been replaced, then over any continuation
      in which the port stays, a mutation that resolves its device passes the device gate exactly
      when it reconciles, supersedes or retires. No reconciliation ends this: none of them moves
      the generation the port is bound under. */
  lemma ReplacedDeviceGates(config: EngineConfig, before: seq<Event>, w: World, port: Id, after: seq<Event>, q: Request)
    requires Reached(config, before, w) && Replaced(w.state, port)
    requires LawfulRun(w, after) && Stays(w, after, port) && forall i :: 0 <= i < |after| ==> !after[i].RestoringAuthority?
    ensures var s := Exec(w, after).state;
            && Replaced(s, port)
            && var t := ResolveToken(s, q, s.records[port]);
               DeviceGate(t.base, q, t.device).None? <==>
                 q.operation.Reconcile? || q.operation.Supersede? || q.operation.Retire?
  {
    hide Inv, Reached, Exec, LawfulRun, Stays, ValidIdentifier, Consistent;
    ReachedIsGood(config, before, w);
    ReplacedForever(w, after, port);
  }

  // -------------------------------------------------------------------------
  // Orphaned ports
  // -------------------------------------------------------------------------

  /** The mutation has passed the device gate, or will. */
  predicate PastGate(t: Token) {
    t.Planned? || t.Ready? || (t.Resolved? && DeviceGate(t.base, t.q, t.device).None?)
  }

  /** No mutation on the port is past the device gate with a snapshot that still stands. */
  predicate NonePastGate(w: World, port: Id) {
    forall id :: id in w.tokens && w.tokens[id].HasBase() && w.tokens[id].q.Port() == port && port in w.state.records
                 && !Moved(w.state.records[port], w.tokens[id].base) ==>
      !PastGate(w.tokens[id])
  }

  predicate Stuck(w: World, port: Id) { Orphaned(w.state, port) && NonePastGate(w, port) }

  lemma StuckCannotCommit(w: World, port: Id, id: nat)
    requires Inv(w) && Stuck(w, port) && id in w.tokens && w.tokens[id].q.Port() == port
    ensures !WouldCommit(w, id)
  {
    hide Step;
    hide Inv, ValidIdentifier, Consistent, Commit, Sound, Evolves, PortRecord.Valid, Proposal, DeviceGate, Moved;
    StillItself(w.state.records[port]);
    if WouldCommit(w, id) {
      CommitReplacesBase(w, id);
    }
  }

  lemma StillItself(r: PortRecord)
    ensures !Moved(r, r)
  {
    hide ValidIdentifier;
  }

  lemma OrphanedStays(w: World, e: Event, port: Id)
    requires Inv(w) && Lawful(w, e) && !e.Recovers() && !e.RestoringAuthority? && !Withdraws(w, e, port) && Stuck(w, port)
    ensures Orphaned(Step(w, e).state, port)
    ensures e.Committing? ==> Step(w, e).state.records[port] == w.state.records[port]
  {
    hide Inv, Step, Lawful, Withdraws, OwnerReleased, Doubted, CommittedBy, ValidIdentifier, Consistent, Replaced, NonePastGate;
    ReplacedIsThere(w.state, port);
    ReplacedStays(w, e, port);
    StepEffect(w, e, port);
    if e.Committing? {
      CommitSparesStuck(w, e.id, port);
    } else {
      SparedConfiguration(w.state.records[port], Step(w, e).state.records[port]);
    }
    ReplacedIsThere(Step(w, e).state, port);
  }

  lemma ReplacedIsThere(s: State, port: Id)
    requires Replaced(s, port)
    ensures port in s.records
  {
  }

  lemma SparedConfiguration(r: PortRecord, after: PortRecord)
    requires r.configuration.Some? && r.ownership.None?
    ensures after == r || OwnerReleased(r, after) || Doubted(r, after) ==> after.configuration.Some? && after.ownership.None?
  {
    hide ValidIdentifier;
    if Doubted(r, after) {
      DoubtedKeepsStanding(r, after);
    }
  }

  lemma CommitSparesStuck(w: World, id: nat, port: Id)
    requires Inv(w) && Stuck(w, port) && port in w.state.records
    ensures port in Step(w, Committing(id)).state.records
    ensures Step(w, Committing(id)).state.records[port] == w.state.records[port]
  {
    hide Inv, Stuck, ValidIdentifier, Consistent, Step;
    if WouldCommit(w, id) {
      if w.tokens[id].q.Port() == port {
        StuckCannotCommit(w, port, id);
      }
      hide WouldCommit;
      CommitReplacesBase(w, id);
    } else {
      CommitRefusedStep(w, id);
    }
  }

  lemma StuckStays(w: World, e: Event, port: Id)
    requires Inv(w) && Lawful(w, e) && !e.Recovers() && !e.RestoringAuthority? && !Withdraws(w, e, port) && Stuck(w, port)
    ensures Stuck(Step(w, e), port)
  {
    hide Inv, Step, Lawful, Withdraws, ValidIdentifier, Consistent, Moved, PastGate, Orphaned;
    OrphanedStays(w, e, port);
    var v := Step(w, e);
    forall id | id in v.tokens && v.tokens[id].HasBase() && v.tokens[id].q.Port() == port && port in v.state.records
                && !Moved(v.state.records[port], v.tokens[id].base)
      ensures !PastGate(v.tokens[id])
    {
      NotPastGate(w, e, port, id);
    }
  }

  lemma NotPastGate(w: World, e: Event, port: Id, id: nat)
    requires Inv(w) && Lawful(w, e) && !e.Recovers() && Stuck(w, port)
    requires var v := Step(w, e);
             && id in v.tokens && v.tokens[id].HasBase() && v.tokens[id].q.Port() == port && port in v.state.records
             && !Moved(v.state.records[port], v.tokens[id].base)
    ensures !PastGate(Step(w, e).tokens[id])
  {
    hide Inv, Step, Lawful, ValidIdentifier, Consistent, Moved, PastGate;
    if id in w.tokens && !w.tokens[id].Gated? {
      TokenKeepsBase(w, e, id);
      StepKeepsInv(w, e);
      BaseOvertaken(w, Step(w, e), id);
      StillBeforeGate(w, e, port, id);
    } else {
      NewSnapshot(w, e, id);
    }
  }

  lemma NewSnapshot(w: World, e: Event, id: nat)
    requires id in w.tokens ==> w.tokens[id].Gated?
    requires !e.Recovers() && id in Step(w, e).tokens
    ensures !PastGate(Step(w, e).tokens[id])
  {
    hide Step;
    if e.OfMutation() && e.id == id {
      FirstRegions(w, e);
    } else if e.OfMutation() {
      OtherRegionSpares(w, e, id);
    } else {
      OtherStepsSpareTokens(w, e);
    }
  }

  lemma FirstRegions(w: World, e: Event)
    requires e.OfMutation() && (e.id in w.tokens ==> w.tokens[e.id].Gated?) && e.id in Step(w, e).tokens
    ensures !PastGate(Step(w, e).tokens[e.id])
  {
    hide BindingStep, SaveStep, LoadStep, RestartStep, EnvironmentStep, PlanToken, ApplyToken, ScreenToken, ResolveToken;
    hide CheckAuthority, Commit, RecordUncertainty, ValidIdentifier, Consistent;
  }

  lemma StillBeforeGate(w: World, e: Event, port: Id, id: nat)
    requires Inv(w) && Stuck(w, port) && !e.Recovers()
    requires id in w.tokens && w.tokens[id].HasBase() && w.tokens[id].q.Port() == port && port in w.state.records
    requires !Moved(w.state.records[port], w.tokens[id].base)
    requires id in Step(w, e).tokens
    ensures !PastGate(Step(w, e).tokens[id])
  {
    hide Inv, Step, Moved, ValidIdentifier, Consistent, PastGate, Admitted, Sound, Spent, GoodRequest, Orphaned, SafeRecord;
    if e.OfMutation() && e.id == id {
      var t := w.tokens[id];
      GoodTokenAt(w, id);
      RegionBeforeGate(w, e, port, t);
    } else {
      TokenUntouched(w, e, id);
    }
  }

  /** A mutation still before the gate, on a snapshot of the orphan as it stands. */
  predicate Waits(s: State, port: Id, t: Token) {
    && t.HasBase() && !PastGate(t) && Orphaned(s, port) && s.records[port] == t.base
    && (t.Screened? ==> Admitted(t.q, t.base))
  }

  predicate NotPast(t: Option<Token>) { t.Some? && !PastGate(t.value) }

  lemma RegionBeforeGate(w: World, e: Event, port: Id, t: Token)
    requires e.OfMutation() && TokenAt(w, e.id) == Some(t) && Waits(w.state, port, t)
    ensures NotPast(TokenAt(Step(w, e), e.id))
  {
    hide BindingStep, SaveStep, LoadStep, RestartStep, EnvironmentStep, PlanToken, ApplyToken, CommitStep, DoubtStep, ResolveToken;
    hide ValidIdentifier, Consistent, Screen, Admitted, DeviceGate;
    if t.Screened? {
      ResolvesBeforeGate(w.state, t.q, port);
    } else if t.Resolved? && e.Planning? {
      EndsAtGate(w.state, t, e.provider, e.looksIdentical, e.sameEvidence, e.note);
    } else if e.Committing? || e.RecordingDoubt? {
      LastRegionEnds(w, e);
    }
  }

  lemma ResolvesBeforeGate(s: State, q: Request, port: Id)
    requires Orphaned(s, port) && Admitted(q, s.records[port])
    ensures !PastGate(ResolveToken(s, q, s.records[port]))
  {
    hide ValidIdentifier, Consistent;
  }

  lemma EndsAtGate(s: State, t: Token, provider: Provider, looksIdentical: bool, sameEvidence: bool, note: Text)
    requires t.Resolved? && DeviceGate(t.base, t.q, t.device).Some?
    ensures PlanToken(s, t, provider, looksIdentical, sameEvidence, note).Finished?
  {
    hide ValidIdentifier, Consistent, Build, Prepare, DeviceGate, ResolveCapabilities;
  }

  lemma LastRegionEnds(w: World, e: Event)
    requires (e.Committing? || e.RecordingDoubt?) && e.id in w.tokens
    ensures var after := TokenAt(Step(w, e), e.id);
            after.Some? && (after.value == w.tokens[e.id] || after.value.Finished?)
  {
    hide BindingStep, SaveStep, LoadStep, RestartStep, EnvironmentStep, PlanToken, ApplyToken, ResolveToken, GateToken, GateState;
    hide SnapshotToken, ScreenToken, Commit, RecordUncertainty, ValidIdentifier, Consistent;
  }

  /** A configured port that has lost its owner and whose parent device has been replaced is out of
      reach: unless a mutation had passed the device gate before, nothing is ever committed to it
      again, over any continuation of the run in which the port stays. */
  lemma {:induction false} StuckForever(w: World, events: seq<Event>, port: Id)
    requires Inv(w) && LawfulRun(w, events) && Stays(w, events, port) && Stuck(w, port)
    requires forall i :: 0 <= i < |events| ==> !events[i].RestoringAuthority?
    ensures Stuck(Exec(w, events), port)
    decreases |events|
  {
    hide Inv, Step, Lawful, Stuck, Withdraws;
    if events != [] {
      StuckStays(w, events[0], port);
      StepKeepsInv(w, events[0]);
      StuckForever(Step(w, events[0]), events[1..], port);
    }
  }

  lemma ReplacedAndUnownedIsStuck(config: EngineConfig, before: seq<Event>, w: World, port: Id, after: seq<Event>, id: nat)
    requires Reached(config, before, w) && Orphaned(w.state, port) && NonePastGate(w, port)
    requires LawfulRun(w, after) && Stays(w, after, port) && forall i :: 0 <= i < |after| ==> !after[i].RestoringAuthority?
    ensures var v := Exec(w, after);
            && Orphaned(v.state, port)
            && (id in v.tokens && v.tokens[id].q.Port() == port ==> !WouldCommit(v, id))
  {
    hide Inv, Reached, Exec, LawfulRun, Stays, Orphaned, NonePastGate, WouldCommit;
    ReachedIsGood(config, before, w);
    StuckForever(w, after, port);
    RunKeepsInv(w, after);
    var v := Exec(w, after);
    if id in v.tokens && v.tokens[id].q.Port() == port {
      StuckCannotCommit(v, port, id);
    }
  }

  /** The boundary: a mutation that has resolved its device takes its remaining regions with the
      same outcome whether or not the device is replaced meanwhile. A claim in flight can so give
      an orphaned port an owner again. */
  lemma ReplacementOvertakesNothing(w: World, device: Id, generation: Generation, source: Text, e: Event)
    requires e.Planning? || e.Applying? || e.Committing?
    requires e.id in w.tokens && (w.tokens[e.id].Resolved? || w.tokens[e.id].Planned? || w.tokens[e.id].Ready?)
    ensures TokenAt(Step(Step(w, RecordingDevice(device, generation, source)), e), e.id) == TokenAt(Step(w, e), e.id)
  {
    hide BindingStep, SaveStep, LoadStep, RestartStep;
    hide ValidIdentifier, Consistent, RegisterDevice, PlanToken, ApplyToken, Commit;
    hide EnvironmentStep;
    var t := RegisterDevice(w.state, device, generation, source).0;
    OnlyDevicesChange(w.state, device, generation, source);
    OnlyStateChanges(w, device, generation, source);
    match e
    case Planning(id, provider, looksIdentical, sameEvidence, note) =>
      PlanIgnoresDevices(w.state, t, w.tokens[id], provider, looksIdentical, sameEvidence, note);
    case Applying(id, reply) => ApplyIgnoresDevices(w.state, t, w.tokens[id], reply);
    case Committing(id) => CommitIgnoresDevices(w.state, t, w.tokens[id]);
  }

  lemma OnlyStateChanges(w: World, device: Id, generation: Generation, source: Text)
    ensures Step(w, RecordingDevice(device, generation, source))
            == w.(state := RegisterDevice(w.state, device, generation, source).0)
  {
    hide MutationStep, BindingStep, SaveStep, LoadStep, RestartStep, RegisterDevice, ValidIdentifier, Consistent;
  }

  lemma OnlyDevicesChange(s: State, device: Id, generation: Generation, source: Text)
    ensures var t := RegisterDevice(s, device, generation, source).0;
            t.records == s.records && t.generation == s.generation && t.profiles == s.profiles && t.config == s.config
  {
    hide ValidIdentifier, Consistent, Utf8.ValidText;
  }

  lemma PlanIgnoresDevices(s: State, t: State, token: Token, provider: Provider, looksIdentical: bool, sameEvidence: bool,
                           note: Text)
    requires t.profiles == s.profiles
    ensures token.Resolved? ==>
              PlanToken(s, token, provider, looksIdentical, sameEvidence, note)
              == PlanToken(t, token, provider, looksIdentical, sameEvidence, note)
  {
    hide Build, Prepare, DeviceGate, ResolveCapabilities, ValidIdentifier, Consistent;
  }

  lemma ApplyIgnoresDevices(s: State, t: State, token: Token, reply: AdapterReply)
    requires t.config == s.config
    ensures token.Planned? ==> ApplyToken(s, token, reply) == ApplyToken(t, token, reply)
  {
    hide Settle, ValidIdentifier, Consistent;
  }

  lemma CommitIgnoresDevices(s: State, t: State, token: Token)
    requires t.records == s.records && t.generation == s.generation
    ensures token.Ready? ==>
              Commit(s, token.q.Port(), token.expected, token.next).1 == Commit(t, token.q.Port(), token.expected, token.next).1
  {
    hide ValidIdentifier, Consistent, CaptureExpected;
  }

  predicate SavedReplaced(image: PersistedState, saved: PortRecord) {
    exists i :: 0 <= i < |image.devices| && image.devices[i].device == saved.parentDevice
                && image.devices[i].generation > saved.generations.device
  }

  /** Whether a restart heals it depends on the container alone: recovered from it, a configured port is
      out of reach from the start exactly when the container has its parent replaced. A claim passes
      the device gate again exactly when the container lacks the parent or has it at the generation
      the port is bound under. */
  lemma RestartDoesNotHeal(config: EngineConfig, before: seq<Event>, w: World, restarted: EngineConfig, saved: PortRecord,
                           q: Request)
    requires Reached(config, before, w) && w.disk.Some? && saved in w.disk.value.records && saved.configuration.Some?
    requires Recover(FreshEngine(restarted), w.disk.value).1 == Ok
    requires q.operation.ClaimOwnership? && q.Authority().expectedDevice == 0
    ensures var v := Step(w, Restarting(restarted, true));
            && saved.port in v.state.records
            && (Stuck(v, saved.port) <==> SavedReplaced(w.disk.value, saved))
            && var t := ResolveToken(v.state, q, v.state.records[saved.port]);
               DeviceGate(t.base, q, t.device).None? <==>
                 forall i :: 0 <= i < |w.disk.value.devices| && w.disk.value.devices[i].device == saved.parentDevice ==>
                   w.disk.value.devices[i].generation == saved.generations.device
  {
    hide Step, Reached, Inv, GoodImage, Rewritten, Refill, RefillDevices, Recover, Effective, ValidIdentifier, Consistent;
    ReachedIsGood(config, before, w);
    var e := Restarting(restarted, true);
    var image := w.disk.value;
    RestartState(w, restarted);
    DiskIsGood(w);
    RestoredDevice(image, saved.parentDevice);
    RestoredRecord(image, saved);
    RewriteKeepsPlace(saved);
  }

  lemma RestartState(w: World, restarted: EngineConfig)
    requires w.disk.Some? && Recover(FreshEngine(restarted), w.disk.value).1 == Ok
    ensures var v := Step(w, Restarting(restarted, true));
            && v.tokens == map[] && v.state.records == Refill(w.disk.value.records).0
            && v.state.devices == RefillDevices(w.disk.value.devices)
  {
    hide MutationStep, BindingStep, SaveStep, EnvironmentStep, LoadStep, DefineAll, Sort, Refill, RefillDevices;
    hide RefillPublishers, ValidIdentifier, Consistent;
  }

  /** The device table of a container, entry by entry. */
  lemma RestoredDevice(image: PersistedState, device: Id)
    requires GoodImage(image)
    ensures device in RefillDevices(image.devices)
            <==> exists i :: 0 <= i < |image.devices| && image.devices[i].device == device
    ensures forall i :: 0 <= i < |image.devices| && image.devices[i].device == device ==>
              RefillDevices(image.devices)[device] == image.devices[i]
  {
    hide Sound, PortRecord.Valid, ValidIdentifier, RefillDevices, DistinctPorts, DeviceBinding.Valid, PublisherRecord.Valid;
    DevicesAreFromImage(image.devices);
    forall i | 0 <= i < |image.devices| && image.devices[i].device == device
      ensures device in RefillDevices(image.devices) && RefillDevices(image.devices)[device] == image.devices[i]
    {
      assert image.devices[i] in image.devices;
      var j :| 0 <= j < |image.devices| && image.devices[j] == RefillDevices(image.devices)[device];
      assert i == j;
    }
  }

  lemma RestoredRecord(image: PersistedState, saved: PortRecord)
    requires GoodImage(image) && saved in image.records
    ensures saved.port in Refill(image.records).0 && Refill(image.records).0[saved.port] == Rewritten(saved)
  {
    hide Sound, PortRecord.Valid, ValidIdentifier, Refill, Rewritten;
    RefillIsComplete(image.records);
    assert Restores(Refill(image.records).0, saved);
  }

  lemma RewriteKeepsPlace(r: PortRecord)
    ensures var after := Rewritten(r);
            && after.parentDevice == r.parentDevice && after.generations.device == r.generations.device
            && after.configuration == r.configuration && after.ownership.None?
  {
    hide RecoveryReason, RecoveredReason, RecoveryDetail, RecoveredDetail;
  }
}
