/** What holds of every run. */
module RunTheorems {
  import opened Basics
  import opened Records
  import opened Profiles
  import opened Lifecycle
  import opened Planning
  import opened PlanningLaws
  import opened Engine
  import opened Recovery
  import opened Safety
  import opened Utf8
  import opened Wording
  import opened Runs
  import opened RunLaws

  /** `w` is what a lawful run from a fresh engine leads to. */
  ghost predicate Reached(config: EngineConfig, events: seq<Event>, w: World) {
    LawfulRun(Start(config), events) && w == Exec(Start(config), events)
  }

  lemma ReachedIsGood(config: EngineConfig, events: seq<Event>, w: World)
    requires Reached(config, events, w)
    ensures Inv(w)
  {
    hide Inv, Exec, LawfulRun;
    StartIsGood(config);
    RunKeepsInv(Start(config), events);
  }

  /** Some lawful run leads to `w`. */
  ghost predicate Reachable(config: EngineConfig, w: World) { exists events :: Reached(config, events, w) }

  lemma StartIsReachable(config: EngineConfig)
    ensures Reachable(config, Start(config))
  {
    hide Start;
    assert Reached(config, [], Start(config));
  }

  /** A lawful step leads from what can be reached to what can be reached. */
  lemma ReachOn(config: EngineConfig, w: World, e: Event)
    requires Reachable(config, w) && Lawful(w, e)
    ensures Reachable(config, Step(w, e))
  {
    hide Step, Lawful, Start;
    var events :| Reached(config, events, w);
    RunOn(Start(config), events, e);
    assert Reached(config, events + [e], Step(w, e));
  }

  lemma {:induction false} RunOn(w: World, events: seq<Event>, e: Event)
    requires LawfulRun(w, events) && Lawful(Exec(w, events), e)
    ensures LawfulRun(w, events + [e]) && Exec(w, events + [e]) == Step(Exec(w, events), e)
    decreases |events|
  {
    hide Step, Lawful;
    if events == [] {
      assert events + [e] == [e] && [e][1..] == [];
    } else {
      assert (events + [e])[0] == events[0] && (events + [e])[1..] == events[1..] + [e];
      RunOn(Step(w, events[0]), events[1..], e);
    }
  }

  // -------------------------------------------------------------------------
  // No lost update
  // -------------------------------------------------------------------------

  /** A commit that is accepted replaces a record equal in every field to the snapshot its plan
      was built from, whatever else ran in between. */
  lemma NoLostUpdate(config: EngineConfig, events: seq<Event>, w: World, id: nat)
    requires Reached(config, events, w) && WouldCommit(w, id)
    ensures var t := w.tokens[id];
            && t.q.Port() in w.state.records
            && w.state.records[t.q.Port()] == t.base
            && Evolves(t.q.operation, t.base, t.next)
            && HeldWhereOwned(t.q, w.state.records[t.q.Port()])
            && Step(w, Committing(id)).state.records == w.state.records[t.q.Port() := t.next]
            && Step(w, Committing(id)).state.generation > w.state.generation
  {
    hide Inv, Reached;
    ReachedIsGood(config, events, w);
    CommitReplacesBase(w, id);
  }

  lemma CommitReplacesBase(w: World, id: nat)
    requires Inv(w) && WouldCommit(w, id)
    ensures var t := w.tokens[id];
            && t.q.Port() in w.state.records
            && w.state.records[t.q.Port()] == t.base
            && Proposal(w.state, t.q, t.base, t.next)
            && Step(w, Committing(id)).state.records == w.state.records[t.q.Port() := t.next]
            && Step(w, Committing(id)).state.generation > w.state.generation
  {
    hide PlanToken, ScreenToken, ApplyToken, GateToken, GateState, SnapshotToken, ResolveToken, DoubtStep;
    hide BindingStep, SaveStep, LoadStep, RestartStep, EnvironmentStep;
    hide Inv, ValidIdentifier, Consistent, Sound, SafeRecord, PortRecord.Valid, Evolves, CaptureExpected, HeldWhereOwned;
    hide Moved, Spent, Stranded;
    var t := w.tokens[id];
    GoodTokenAt(w, id);
    if Moved(w.state.records[t.q.Port()], t.base) {
      MovedMismatches(w.state.records[t.q.Port()], t.base);
    }
  }

  /** The assumption on attempts is needed: reusing an attempt after another was committed
      restores the fingerprint of a record without restoring the record. */
  lemma ReuseHidesAnUpdate(r: PortRecord, first: Request, second: Request)
    requires !IsLive(r.lifecycle) && r.drift.Unknown?
    requires second.Attempt() == r.lastMutation.attempt
    ensures var between := Stamp(PlanDrift(r, DriftState.Drifted, []).plan, first).next;
            && PlanDrift(between, DriftState.InSync, []).Prepared?
            && var after := Stamp(PlanDrift(between, DriftState.InSync, []).plan, second).next;
               CaptureExpected(r).Matches(after) && after.drift != r.drift
  {
    hide ValidIdentifier;
  }

  /** The same for bindings: a port taken back and bound again under the attempt of its first
      binding has the fingerprint its first record had, under another device generation. */
  lemma ReboundHidesAnUpdate(b: Binding, device: Generation)
    requires device != b.deviceGeneration
    ensures var first, second := BoundRecord(b, NoReading), BoundRecord(b.(deviceGeneration := device), NoReading);
            CaptureExpected(first).Matches(second) && first != second
  {
    hide ValidIdentifier, BoundReason;
  }

  // -------------------------------------------------------------------------
  // In-flight fencing
  // -------------------------------------------------------------------------

  /** An accepted commit that is no claim acts on an unowned record, or on one that the exact
      publisher, boot and epoch of the request hold at that moment. */
  lemma CommitterHoldsThePort(config: EngineConfig, events: seq<Event>, w: World, id: nat)
    requires Reached(config, events, w) && WouldCommit(w, id)
    requires !w.tokens[id].q.operation.ClaimOwnership?
    ensures w.tokens[id].q.Port() in w.state.records
    ensures var cur := w.state.records[w.tokens[id].q.Port()];
            cur.ownership.Some? ==> Planning.Holds(cur, w.tokens[id].q.Authority())
  {
    hide Inv, Reached, Evolves;
    NoLostUpdate(config, events, w, id);
  }

  /** This snapshot can no longer be committed. */
  ghost predicate Doomed(w: World, id: nat, q: Request, base: PortRecord) {
    && id in w.tokens && w.tokens[id].q == q && !w.tokens[id].Gated?
    && (w.tokens[id].HasBase() ==>
          && w.tokens[id].base == base
          && ((q.Port() in w.state.records ==> Moved(w.state.records[q.Port()], base)) || !HeldWhereOwned(q, base)))
  }

  /** A mutation keeps its request and its snapshot from region to region. */
  lemma TokenKeepsBase(w: World, e: Event, id: nat)
    requires id in w.tokens && !e.Restarting? && !w.tokens[id].Gated?
    ensures id in Step(w, e).tokens
    ensures Step(w, e).tokens[id].q == w.tokens[id].q && !Step(w, e).tokens[id].Gated?
    ensures Step(w, e).tokens[id].HasBase() ==>
              w.tokens[id].HasBase() && Step(w, e).tokens[id].base == w.tokens[id].base
  {
    hide Step, PlanToken, ApplyToken, ScreenToken, ResolveToken, SnapshotToken;
    if e.OfMutation() && e.id == id {
      RegionKeepsBase(w, e, w.tokens[id]);
    } else {
      TokenUntouched(w, e, id);
    }
  }

  /** From region to region. */
  predicate KeepsBase(t: Token, u: Token) {
    u.q == t.q && !u.Gated? && (u.HasBase() ==> t.HasBase() && u.base == t.base)
  }

  lemma RegionKeepsBase(w: World, e: Event, t: Token)
    requires e.OfMutation() && TokenAt(w, e.id) == Some(t) && !t.Gated?
    ensures TokenAt(Step(w, e), e.id).Some? && KeepsBase(t, TokenAt(Step(w, e), e.id).value)
  {
    hide BindingStep, SaveStep, LoadStep, RestartStep, EnvironmentStep;
    hide ValidIdentifier, Consistent, Build, Prepare, Settle, Screen, DeviceGate, ResolveCapabilities, Commit;
    hide RecordUncertainty, CheckAuthority;
  }

  /** Only its own regions change a mutation. */
  lemma TokenUntouched(w: World, e: Event, id: nat)
    requires id in w.tokens && !e.Restarting? && !(e.OfMutation() && e.id == id)
    ensures TokenAt(Step(w, e), id) == Some(w.tokens[id])
  {
    hide Step;
    if e.OfMutation() {
      OtherRegionSpares(w, e, id);
    } else {
      OtherStepsSpareTokens(w, e);
    }
  }

  lemma OtherRegionSpares(w: World, e: Event, id: nat)
    requires e.OfMutation() && e.id != id
    ensures TokenAt(Step(w, e), id) == TokenAt(w, id)
  {
    hide BindingStep, SaveStep, LoadStep, RestartStep, EnvironmentStep, PlanToken, ApplyToken, ScreenToken, ResolveToken;
    hide SnapshotToken, GateToken, GateState, Commit, RecordUncertainty, ValidIdentifier, Consistent;
  }

  lemma OtherStepsSpareTokens(w: World, e: Event)
    requires !e.OfMutation() && !e.Restarting?
    ensures Step(w, e).tokens == w.tokens
  {
    hide MutationStep, RestartStep, RecoverProfiles, RecoverTables, RecoverRecords, OpenToken, BeginEpoch, RegisterPublisher;
    hide FencePublisher, RegisterDevice, DefineProfile, SetTopology, InsertPort, AttachDevice, WalksRecords, WalksDevices;
    hide WalksPublishers, Lists, ValidIdentifier, Consistent;
  }

  /** A snapshot that no recovery can bring back: recovered records carry no attempt and no owner. */
  predicate Lasting(base: PortRecord) { Named(base.lastMutation.attempt) || base.ownership.Some? }

  /** Steps that leave a mutation in flight, and what dooms it. */
  predicate Spares(e: Event, base: PortRecord) { !e.Restarting? && (e.RestoringRecords? ==> Lasting(base)) }

  lemma DoomedStays(w: World, e: Event, id: nat, q: Request, base: PortRecord)
    requires Inv(w) && Lawful(w, e) && Spares(e, base) && Doomed(w, id, q, base)
    ensures Doomed(Step(w, e), id, q, base)
  {
    hide Step, Lawful, SafeState, ValidIdentifier, Consistent, HeldWhereOwned, GoodImage, Forward, AllSpent, GoodTokens;
    hide GoodPhase, GoodRequest, Moved, RecordStep, Tracks, Sound, Spent, Lasting;
    TokenKeepsBase(w, e, id);
    if e.RestoringRecords? {
      DoomedOverLoad(w, e, id, q, base);
    } else {
      StepKeepsInv(w, e);
      if Step(w, e).tokens[id].HasBase() {
        BaseOvertaken(w, Step(w, e), id);
      }
    }
  }

  lemma DoomedOverLoad(w: World, e: Event, id: nat, q: Request, base: PortRecord)
    requires Inv(w) && Lawful(w, e) && e.RestoringRecords? && Lasting(base) && Doomed(w, id, q, base)
    ensures Doomed(Step(w, e), id, q, base)
  {
    hide Step, Lawful, Inv, Moved, HeldWhereOwned, ValidIdentifier, Consistent, Sound, Spent;
    TokenKeepsBase(w, e, id);
    StepKeepsInv(w, e);
    RecordsRegionState(w, e.id);
    var v := Step(w, e);
    if v.tokens[id].HasBase() && q.Port() in v.state.records && v.state != w.state {
      GoodTokenAt(v, id);
      RefilledIsDead(w.loads[e.id].image, q.Port());
      NotTheSame(v.state.records[q.Port()], base);
    }
  }

  lemma NotTheSame(cur: PortRecord, base: PortRecord)
    requires Lasting(base) && cur.ownership.None? && cur.lastMutation == NO_MUTATION
    ensures cur != base
  {
  }

  /** What the records region of a load does. */
  lemma RecordsRegionState(w: World, id: nat)
    requires Inv(w)
    ensures var v := Step(w, RestoringRecords(id));
            if id in w.loads && w.loads[id].AuthorityRestored? then
              GoodImage(w.loads[id].image) && v.state == RecoverRecords(w.state, w.loads[id].image).0
              && v.state.records == Refill(w.loads[id].image.records).0
            else v == w
  {
    hide MutationStep, BindingStep, SaveStep, EnvironmentStep, RestartStep, Inv, GoodImage, Refill, ValidIdentifier, Consistent;
    if id in w.loads && w.loads[id].AuthorityRestored? {
      GoodLoadAt(w, id);
    }
  }

  /** How the snapshot of a mutation in flight fares over a step. */
  lemma BaseOvertaken(w: World, v: World, id: nat)
    requires Inv(w) && Onward(w, v) && id in w.tokens && w.tokens[id].HasBase()
    ensures var port, base := w.tokens[id].q.Port(), w.tokens[id].base;
            port in v.state.records
            && (port in w.state.records ==>
                  Moved(w.state.records[port], base) || v.state.records[port] != w.state.records[port]) ==>
              Moved(v.state.records[port], base)
  {
    hide Inv, Onward, ValidIdentifier, Consistent, Sound, Moved, Tracks, Spent, GoodRequest, GoodPhase;
    var port, base := w.tokens[id].q.Port(), w.tokens[id].base;
    GoodTokenAt(w, id);
    if port in w.state.records {
      PortOfRecord(w, port);
    }
    OvertakenStays(w, v, port, base);
  }

  lemma DoomedCannotCommit(w: World, id: nat, q: Request, base: PortRecord)
    requires Inv(w) && Doomed(w, id, q, base)
    ensures !WouldCommit(w, id)
  {
    hide Inv, ValidIdentifier, Consistent, Sound, SafeRecord, PortRecord.Valid, Evolves, CaptureExpected, HeldWhereOwned;
    hide Moved, Spent, Stranded;
    if id in w.tokens && w.tokens[id].Ready? {
      GoodTokenAt(w, id);
      if q.Port() in w.state.records && Moved(w.state.records[q.Port()], base) {
        MovedMismatches(w.state.records[q.Port()], base);
      }
    }
  }

  lemma {:induction false} DoomedForever(w: World, events: seq<Event>, id: nat, q: Request, base: PortRecord)
    requires Inv(w) && LawfulRun(w, events) && Doomed(w, id, q, base)
    requires forall i :: 0 <= i < |events| ==> Spares(events[i], base)
    ensures !WouldCommit(Exec(w, events), id)
    decreases |events|
  {
    hide Inv, Step, Lawful, Doomed, WouldCommit, Spares;
    if events == [] {
      DoomedCannotCommit(w, id, q, base);
    } else {
      DoomedStays(w, events[0], id, q, base);
      StepKeepsInv(w, events[0]);
      DoomedForever(Step(w, events[0]), events[1..], id, q, base);
    }
  }

  /** An epoch advance, or a fence of the incarnation behind the request, that takes effect. */
  predicate RevokesBearer(s: State, e: Event, a: AuthorityContext) {
    Revokes(s, e)
    && (e.Fencing? ==> e.publisher == a.publisher && e.publisher in s.publishers && s.publishers[e.publisher].boot == a.boot)
  }

  /** What a fence or an epoch advance leaves. */
  function Revoked(s: State, e: Event): State
    requires e.Fencing? || e.BeginningEpoch?
  {
    if e.Fencing? then FencePublisher(s, e.publisher, e.boot).0 else BeginEpoch(s).0
  }

  lemma RevokingStep(w: World, e: Event)
    requires e.Fencing? || e.BeginningEpoch?
    ensures Step(w, e) == w.(state := Revoked(w.state, e))
  {
    hide MutationStep, BindingStep, SaveStep, LoadStep, RestartStep, BeginEpoch, FencePublisher;
  }

  lemma RevocationReleases(s: State, e: Event, q: Request, port: Id)
    requires SafeState(s) && port in s.records && RevokesBearer(s, e, q.Authority())
    requires Planning.Holds(s.records[port], q.Authority())
    ensures port in Revoked(s, e).records && Revoked(s, e).records[port].ownership.None?
  {
    hide ValidIdentifier, Consistent, Sound, SafeRecords, SafePublishers, SafeDevices, FencedReason, FencedDetail;
    if e.BeginningEpoch? {
      BeginEpochFencesAll(s);
      BeginEpochIsSafe(s);
    } else {
      KnownPublisher(s, e.publisher);
    }
  }

  /** Once a fence or an epoch advance has revoked the incarnation behind a request, the
      mutation it has in flight on an owned port can never commit, whatever follows in this process
      life, loads included. */
  lemma RevokedInFlight(config: EngineConfig, before: seq<Event>, w: World, e: Event, after: seq<Event>, id: nat)
    requires Reached(config, before, w)
    requires id in w.tokens && w.tokens[id].HasBase()
    requires w.tokens[id].base.ownership.Some? && !w.tokens[id].q.operation.ClaimOwnership?
    requires RevokesBearer(w.state, e, w.tokens[id].q.Authority()) && Lawful(w, e)
    requires LawfulRun(Step(w, e), after) && forall i :: 0 <= i < |after| ==> !after[i].Restarting?
    ensures !WouldCommit(Exec(Step(w, e), after), id)
  {
    hide Inv, Step, Lawful, Reached, RevokesBearer, Doomed, WouldCommit;
    ReachedIsGood(config, before, w);
    RevocationDooms(w, e, id);
    StepKeepsInv(w, e);
    DoomedForever(Step(w, e), after, id, w.tokens[id].q, w.tokens[id].base);
  }

  lemma TokenTracks(w: World, id: nat)
    requires Inv(w) && id in w.tokens && w.tokens[id].HasBase()
    ensures var t := w.tokens[id]; t.q.Port() in w.state.records ==> Tracks(w.state.records[t.q.Port()], t.base)
  {
    hide Inv, SafeRecord, Spent, GoodPhase, GoodRequest, Tracks;
    GoodTokenAt(w, id);
  }

  lemma RevocationDooms(w: World, e: Event, id: nat)
    requires Inv(w) && Lawful(w, e) && id in w.tokens && w.tokens[id].HasBase()
    requires w.tokens[id].base.ownership.Some? && !w.tokens[id].q.operation.ClaimOwnership?
    requires RevokesBearer(w.state, e, w.tokens[id].q.Authority())
    ensures Doomed(Step(w, e), id, w.tokens[id].q, w.tokens[id].base)
  {
    hide Step, Lawful, Inv, Onward, Revoked, FencePublisher, BeginEpoch, Moved, Planning.Holds, ValidIdentifier, Consistent;
    var t := w.tokens[id];
    var port := t.q.Port();
    RevokingStep(w, e);
    StepKeepsInv(w, e);
    BaseOvertaken(w, Step(w, e), id);
    TokenTracks(w, id);
    InvIsSafe(w);
    if port in w.state.records && w.state.records[port] == t.base && HeldWhereOwned(t.q, t.base) {
      RevocationReleases(w.state, e, t.q, port);
    }
  }

  // -------------------------------------------------------------------------
  // One of many
  // -------------------------------------------------------------------------

  /** Of any number of mutations that hold a snapshot of one port, at most one ever commits:
      whichever is accepted first overtakes all the others for the rest of the process life, unless a
      load brings the very snapshot back, as it can only if that carries neither attempt nor owner.
      In particular two mutations in flight under the same attempt are never both committed. */
  lemma OneOfManyCommits(config: EngineConfig, before: seq<Event>, w: World, first: nat, after: seq<Event>, other: nat)
    requires Reached(config, before, w) && WouldCommit(w, first) && Lawful(w, Committing(first))
    requires other != first && other in w.tokens && w.tokens[other].HasBase()
    requires w.tokens[other].q.Port() == w.tokens[first].q.Port()
    requires LawfulRun(Step(w, Committing(first)), after)
    requires forall i :: 0 <= i < |after| ==> Spares(after[i], w.tokens[other].base)
    ensures !WouldCommit(Exec(Step(w, Committing(first)), after), other)
  {
    hide Inv, Step, Lawful, Reached, Doomed, WouldCommit, Exec, LawfulRun, Spares;
    ReachedIsGood(config, before, w);
    CommitDooms(w, first, other);
    StepKeepsInv(w, Committing(first));
    DoomedForever(Step(w, Committing(first)), after, other, w.tokens[other].q, w.tokens[other].base);
  }

  lemma CommitDooms(w: World, first: nat, other: nat)
    requires Inv(w) && WouldCommit(w, first) && Lawful(w, Committing(first))
    requires other != first && other in w.tokens && w.tokens[other].HasBase()
    requires w.tokens[other].q.Port() == w.tokens[first].q.Port()
    ensures Doomed(Step(w, Committing(first)), other, w.tokens[other].q, w.tokens[other].base)
  {
    hide Inv, Step, Lawful, WouldCommit, Onward, ValidIdentifier, Consistent, Moved, HeldWhereOwned;
    var e := Committing(first);
    TokenKeepsBase(w, e, other);
    StepKeepsInv(w, e);
    BaseOvertaken(w, Step(w, e), other);
    FreshlyCommitted(w, first);
    CommitChangesAttempt(w, first);
  }

  lemma FreshlyCommitted(w: World, id: nat)
    requires WouldCommit(w, id) && Lawful(w, Committing(id))
    ensures id in w.tokens && w.tokens[id].Ready? && FreshAttempt(w, Committing(id))
  {
    hide Commit, ValidIdentifier, Consistent;
  }

  lemma CommitChangesAttempt(w: World, id: nat)
    requires id in w.tokens && Inv(w) && WouldCommit(w, id) && FreshAttempt(w, Committing(id))
    ensures var t := w.tokens[id];
            && t.q.Port() in w.state.records && t.q.Port() in Step(w, Committing(id)).state.records
            && Named(t.q.Attempt())
            && Step(w, Committing(id)).state.records[t.q.Port()].lastMutation.attempt == t.q.Attempt()
            && Step(w, Committing(id)).state.records[t.q.Port()].lastMutation.payloadDigest == t.q.digest
            && w.state.records[t.q.Port()].lastMutation.attempt != t.q.Attempt()
  {
    hide Inv, Step, ValidIdentifier, Consistent, Sound, SafeRecord, PortRecord.Valid, Evolves, HeldWhereOwned, Commit;
    hide Stranded, GoodBase, GoodPhase;
    GoodTokenAt(w, id);
    CommitReplacesBase(w, id);
    PortOfRecord(w, w.tokens[id].q.Port());
  }

  ghost predicate AnsweredAtCommit(v: World, id: nat, q: Request) {
    TokenAt(Step(v, Committing(id)), id) == Some(Finished(q, OutcomeCode.Idempotent))
  }

  /** A replay is told apart from a conflict by its payload, and on a port retired meanwhile it hears
      that instead. */
  ghost predicate AnsweredAtGate(v: World, id: nat, q: Request, digest: PayloadDigest) {
    && q.Port() in v.state.records
    && TokenAt(Step(Step(v, Snapshot(id)), Screening(id)), id)
        == Some(Finished(q, if v.state.records[q.Port()].lifecycle.Retired? then
                              (if q.operation.Retire? then AlreadyCurrent else PortRetired)
                            else if q.digest == digest then OutcomeCode.Idempotent else OutcomeCode.ConflictDetected))
  }

  /** What becomes of a replay that is in flight while its attempt is committed: at its own
      commit it is told that the attempt is committed already, and if it had no snapshot yet it
      is answered from the record, by the digest of its payload. */
  lemma ReplayIsAnswered(config: EngineConfig, before: seq<Event>, w: World, first: nat, other: nat)
    requires Reached(config, before, w) && WouldCommit(w, first) && Lawful(w, Committing(first))
    requires other != first && other in w.tokens && w.tokens[other].q.Port() == w.tokens[first].q.Port()
    requires w.tokens[other].q.Attempt() == w.tokens[first].q.Attempt()
    ensures w.tokens[other].Ready? ==> AnsweredAtCommit(Step(w, Committing(first)), other, w.tokens[other].q)
    ensures w.tokens[other].Gated? ==>
              AnsweredAtGate(Step(w, Committing(first)), other, w.tokens[other].q, w.tokens[first].q.digest)
  {
    hide Inv, Reached, ValidIdentifier, Consistent, Step, WouldCommit, Lawful;
    ReachedIsGood(config, before, w);
    FreshlyCommitted(w, first);
    CommitChangesAttempt(w, first);
    ReplayAtCommit(w, first, other);
    if w.tokens[other].Gated? {
      ReplayAtGate(Step(w, Committing(first)), other, w.tokens[other].q, w.tokens[first].q.digest);
    }
  }

  lemma ReplayAtCommit(w: World, first: nat, other: nat)
    requires Inv(w) && other != first && first in w.tokens && other in w.tokens && w.tokens[first].Ready?
    requires w.tokens[other].q.Port() in Step(w, Committing(first)).state.records
    requires Step(w, Committing(first)).state.records[w.tokens[other].q.Port()].lastMutation.attempt == w.tokens[other].q.Attempt()
    requires Named(w.tokens[other].q.Attempt())
    ensures TokenAt(Step(w, Committing(first)), other) == Some(w.tokens[other])
    ensures w.tokens[other].Ready? ==>
              TokenAt(Step(Step(w, Committing(first)), Committing(other)), other)
                == Some(Finished(w.tokens[other].q, OutcomeCode.Idempotent))
  {
    hide PlanToken, ScreenToken, ApplyToken, GateToken, GateState, SnapshotToken, ResolveToken, DoubtStep;
    hide BindingStep, SaveStep, LoadStep, RestartStep, EnvironmentStep;
    hide Inv, ValidIdentifier, Consistent, Sound, SafeRecord, PortRecord.Valid, Evolves, HeldWhereOwned, Stranded, GoodBase;
    hide CaptureExpected, Commit;
    GoodTokenAt(w, other);
    var v := Step(w, Committing(first));
    if w.tokens[other].Ready? {
      CommittedAlready(v.state, w.tokens[other]);
    }
  }

  lemma ReplayAtGate(v: World, id: nat, q: Request, digest: PayloadDigest)
    requires TokenAt(v, id) == Some(Gated(q)) && q.Port() in v.state.records
    requires var r := v.state.records[q.Port()];
             Named(q.Attempt()) && r.lastMutation.attempt == q.Attempt() && r.lastMutation.payloadDigest == digest
    ensures AnsweredAtGate(v, id, q, digest)
  {
    hide BindingStep, SaveStep, LoadStep, RestartStep, EnvironmentStep;
    hide ValidIdentifier, Consistent, OwnershipGate;
  }

  lemma CommittedAlready(s: State, t: Token)
    requires t.Ready? && t.q.Port() in s.records && Named(t.next.lastMutation.attempt)
    requires s.records[t.q.Port()].lastMutation.attempt == t.next.lastMutation.attempt
    ensures Commit(s, t.q.Port(), t.expected, t.next).1 == Idempotent
  {
    hide ValidIdentifier, Consistent, CaptureExpected;
  }

  // -------------------------------------------------------------------------
  // What one step may do to one record
  // -------------------------------------------------------------------------

  /** Committed by the mutation `id`, from the very record that was there. */
  ghost predicate CommittedBy(w: World, v: World, port: Id, id: nat) {
    && id in w.tokens && w.tokens[id].Ready? && w.tokens[id].q.Port() == port
    && port in w.state.records && port in v.state.records
    && w.state.records[port] == w.tokens[id].base
    && v.state.records[port] == w.tokens[id].next
    && Proposal(w.state, w.tokens[id].q, w.tokens[id].base, w.tokens[id].next)
  }

  /** Only its owner is gone. */
  predicate OwnerReleased(r: PortRecord, after: PortRecord) {
    after == r.(ownership := None, generations := AdvanceOwnership(r.generations), statusReason := after.statusReason,
                statusDetail := after.statusDetail)
  }

  /** Only what an uncertain apply leaves behind has changed. */
  ghost predicate Doubted(r: PortRecord, after: PortRecord) {
    exists a, g, detail, source :: after == Uncertain(r, a, g, detail, source)
  }

  ghost predicate Effect(w: World, e: Event, v: World, port: Id) {
    port in w.state.records && port in v.state.records
    && var r, after := w.state.records[port], v.state.records[port];
       || after == r
       || (e.Committing? && CommittedBy(w, v, port, e.id))
       || ((e.Fencing? || e.BeginningEpoch?) && OwnerReleased(r, after))
       || (e.RecordingDoubt? && Doubted(r, after))
  }

  lemma ReleaseEffect(s: State, publisher: Id, boot: Id, epoch: Generation, port: Id)
    requires port in s.records
    ensures port in ReleaseOwnershipOf(s, publisher, boot).records
    ensures port in ReleaseOwnershipBefore(s, epoch).records
    ensures var after := ReleaseOwnershipOf(s, publisher, boot).records[port];
            after == s.records[port] || OwnerReleased(s.records[port], after)
    ensures var after := ReleaseOwnershipBefore(s, epoch).records[port];
            after == s.records[port] || OwnerReleased(s.records[port], after)
  {
    hide ValidIdentifier, Consistent, FencedReason, FencedDetail, RestartReason, RestartDetail;
  }

  lemma EpochEffect(w: World, port: Id)
    requires port in w.state.records
    ensures Effect(w, BeginningEpoch, Step(w, BeginningEpoch), port)
  {
    hide MutationStep, BindingStep, SaveStep, LoadStep, RestartStep;
    hide ValidIdentifier, Consistent, ReleaseOwnershipOf, ReleaseOwnershipBefore, OwnerReleased, Doubted, CommittedBy;
    var epoch := Next(w.state.epoch);
    var publishers := FencedAll(w.state.publishers, epoch);
    ReleaseEffect(w.state.(epoch := epoch, publishers := publishers), [], [], epoch, port);
  }

  lemma FenceEffect(w: World, publisher: Id, boot: Id, port: Id)
    requires port in w.state.records
    ensures Effect(w, Fencing(publisher, boot), Step(w, Fencing(publisher, boot)), port)
  {
    hide MutationStep, BindingStep, SaveStep, LoadStep, RestartStep;
    hide ValidIdentifier, Consistent, ReleaseOwnershipOf, ReleaseOwnershipBefore, OwnerReleased, Doubted, CommittedBy;
    if publisher in w.state.publishers {
      var entry := w.state.publishers[publisher];
      var fenced := w.state.(publishers := w.state.publishers[publisher := entry.(fenced := true)]);
      ReleaseEffect(fenced, entry.publisher, entry.boot, 0, port);
    }
  }

  /** The step of a binding that takes the port back: its parent was replaced meanwhile. */
  predicate Withdraws(w: World, e: Event, port: Id) {
    && e.AttachingDevice? && e.id in w.binds && w.binds[e.id].Inserted? && w.binds[e.id].b.port == port
    && TakesBack(w.state, w.binds[e.id].b)
  }

  lemma BindEffect(w: World, e: Event, port: Id)
    requires Inv(w) && port in w.state.records && e.OfBinding()
    ensures port in Step(w, e).state.records <==> !Withdraws(w, e, port)
    ensures !Withdraws(w, e, port) ==> Step(w, e).state.records[port] == w.state.records[port]
  {
    hide MutationStep, SaveStep, LoadStep, RestartStep, EnvironmentStep;
    hide SafeState, ValidIdentifier, Consistent, GoodImage, GoodTokens, AllSpent, GoodSaves, BoundRecord, InsertPort;
    hide AttachDevice, Forward;
    match e
    case BindingPort(_, _) =>
    case InsertingPort(id, provider) =>
      if id in w.binds && w.binds[id].Cleared? {
        InsertPortIsSafe(w.state, w.binds[id].b, provider);
      }
    case AttachingDevice(id) =>
      if id in w.binds && w.binds[id].Inserted? {
        assert GoodBind(w.binds[id]);
        AttachDeviceIsSafe(w.state, w.binds[id].b);
      }
  }

  lemma EnvironmentEffect(w: World, e: Event, port: Id)
    requires port in w.state.records
    requires e.Registering? || e.RecordingDevice? || e.SettingTopology? || e.DefiningProfile? || e.OfSave()
    ensures Effect(w, e, Step(w, e), port)
  {
    hide Step, OwnerReleased, Doubted, CommittedBy;
    if e.OfSave() {
      SaveLeavesState(w, e);
    } else {
      TablesLeaveRecords(w, e);
    }
  }

  /** All regions of a load but the last leave the records alone. */
  lemma LoadLeavesRecords(w: World, e: Event)
    requires e.OfLoad() && !e.RestoringRecords?
    ensures Step(w, e).state.records == w.state.records
  {
    hide MutationStep, BindingStep, SaveStep, EnvironmentStep, RestartStep, DefineAll, Sort, RefillDevices, RefillPublishers;
    hide RecoverRecords, OpenToken, ValidIdentifier, Consistent;
  }

  lemma SaveLeavesState(w: World, e: Event)
    requires e.OfSave()
    ensures Step(w, e).state == w.state
  {
    hide MutationStep, BindingStep, LoadStep, RestartStep, EnvironmentStep, WalksRecords, WalksDevices, WalksPublishers, Lists;
  }

  lemma TablesLeaveRecords(w: World, e: Event)
    requires e.Registering? || e.RecordingDevice? || e.SettingTopology? || e.DefiningProfile?
    ensures Step(w, e).state.records == w.state.records
  {
    hide MutationStep, BindingStep, LoadStep, RestartStep, SaveStep, DefineIn, BeginEpoch, FencePublisher, ValidIdentifier, Consistent;
  }

  lemma MutationEffect(w: World, e: Event, port: Id)
    requires Inv(w) && port in w.state.records
    requires e.OfMutation()
    ensures Effect(w, e, Step(w, e), port)
  {
    hide BindingStep, SaveStep, LoadStep, RestartStep, EnvironmentStep;
    hide Inv, ValidIdentifier, Consistent, GateToken, SnapshotToken, ScreenToken, ResolveToken, PlanToken, ApplyToken;
    hide Uncertain, Proposal, CaptureExpected;
    if e.Committing? && WouldCommit(w, e.id) {
      CommitReplacesBase(w, e.id);
    } else if e.Committing? {
      CommitRefusedStep(w, e.id);
    }
  }

  lemma CommitRefusedStep(w: World, id: nat)
    requires !WouldCommit(w, id)
    ensures Step(w, Committing(id)).state == w.state
  {
    hide BindingStep, SaveStep, LoadStep, RestartStep, EnvironmentStep;
    hide ValidIdentifier, Consistent, Commit;
    if id in w.tokens && w.tokens[id].Ready? {
      var t := w.tokens[id];
      CommitRefused(w.state, t.q.Port(), t.expected, t.next);
    }
  }

  /** The device table only ever grows and moves on, but for the authority region of a load. */
  lemma DevicesOnlyAdvance(w: World, e: Event)
    requires Inv(w) && !e.RestoringAuthority? && !e.Restarting?
    ensures DevicesAdvance(w.state.devices, Step(w, e).state.devices)
  {
    hide Step, DevicesAdvance, Inv;
    SameDevices(w.state.devices);
    if e.OfMutation() {
      MutationLeavesDevices(w, e);
    } else if e.OfBinding() {
      BindingAdvancesDevices(w, e);
    } else if e.OfSave() {
      SaveLeavesState(w, e);
    } else if e.OfLoad() {
      LoadLeavesDevices(w, e);
    } else {
      EnvironmentAdvancesDevices(w, e);
    }
  }

  lemma MutationLeavesDevices(w: World, e: Event)
    requires e.OfMutation()
    ensures Step(w, e).state.devices == w.state.devices
  {
    hide BindingStep, SaveStep, LoadStep, RestartStep, EnvironmentStep, SnapshotToken, ScreenToken, ResolveToken, PlanToken;
    hide ApplyToken, GateToken, CaptureExpected, Uncertain, ValidIdentifier, Consistent;
  }

  lemma BindingAdvancesDevices(w: World, e: Event)
    requires Inv(w) && e.OfBinding()
    ensures DevicesAdvance(w.state.devices, Step(w, e).state.devices)
  {
    hide MutationStep, SaveStep, LoadStep, RestartStep, EnvironmentStep, ClearToken, InsertPort, AttachDevice, BoundRecord;
    hide SafeState, GoodTokens, AllSpent, GoodImage, GoodSaves, GoodLoads, DevicesAdvance, Forward, ValidIdentifier, Consistent;
    SameDevices(w.state.devices);
    match e
    case BindingPort(_, _) =>
    case InsertingPort(id, provider) =>
      if id in w.binds && w.binds[id].Cleared? {
        InsertPortIsSafe(w.state, w.binds[id].b, provider);
      }
    case AttachingDevice(id) =>
      if id in w.binds && w.binds[id].Inserted? {
        assert GoodBind(w.binds[id]);
        AttachDeviceIsSafe(w.state, w.binds[id].b);
      }
  }

  lemma LoadLeavesDevices(w: World, e: Event)
    requires e.OfLoad() && !e.RestoringAuthority?
    ensures Step(w, e).state.devices == w.state.devices
  {
    hide MutationStep, BindingStep, SaveStep, EnvironmentStep, RestartStep, DefineAll, Sort, Refill;
    hide RecoverTables, OpenToken, ValidIdentifier, Consistent;
  }

  lemma EnvironmentAdvancesDevices(w: World, e: Event)
    requires Inv(w) && e.OfEnvironment()
    ensures DevicesAdvance(w.state.devices, Step(w, e).state.devices)
  {
    hide MutationStep, BindingStep, SaveStep, LoadStep, RestartStep, RegisterDevice, DevicesAdvance, DefineIn, Inv;
    hide ReleasedByFence, ReleasedByEpoch, SafeState, ValidIdentifier, Consistent;
    SameDevices(w.state.devices);
    if e.RecordingDevice? {
      InvIsSafe(w);
      RegisterDeviceIsSafe(w.state, e.device, e.generation, e.source);
    }
  }

  /** A port leaves the records exactly when its own binding is withdrawn, and otherwise its
      record changes in one of three ways. */
  lemma StepEffect(w: World, e: Event, port: Id)
    requires Inv(w) && port in w.state.records && !e.Recovers()
    ensures port in Step(w, e).state.records <==> !Withdraws(w, e, port)
    ensures !Withdraws(w, e, port) ==> Effect(w, e, Step(w, e), port)
  {
    hide Inv, Step, OwnerReleased, Doubted, CommittedBy, ValidIdentifier, Consistent;
    if e.OfMutation() {
      MutationEffect(w, e, port);
    } else if e.BeginningEpoch? {
      EpochEffect(w, port);
    } else if e.Fencing? {
      FenceEffect(w, e.publisher, e.boot, port);
    } else if e.OfBinding() {
      BindEffect(w, e, port);
    } else if e.OfLoad() {
      LoadLeavesRecords(w, e);
    } else {
      EnvironmentEffect(w, e, port);
    }
  }

  // -------------------------------------------------------------------------
  // Lifecycle safety
  // -------------------------------------------------------------------------

  /** What a step may do to the standing of a port. */
  ghost predicate KeepsStanding(w: World, e: Event, r: PortRecord, after: PortRecord) {
    && (IsLive(after.lifecycle) && !IsLive(r.lifecycle) ==>
          && e.Committing? && e.id in w.tokens
          && (w.tokens[e.id].q.operation.Reconcile?
              || (w.tokens[e.id].q.operation.Configure? && r.lifecycle.Unconfigured?)))
    && (r.lifecycle.Retired? ==>
          after.lifecycle.Retired? && after.ownership.None? && after.configuration == r.configuration)
  }

  lemma EffectKeepsStanding(w: World, e: Event, v: World, port: Id)
    requires Inv(w) && Effect(w, e, v, port)
    ensures KeepsStanding(w, e, w.state.records[port], v.state.records[port])
  {
    hide Inv, ValidIdentifier, Consistent, Uncertain, CaptureExpected, HeldWhereOwned, PortRecord.Valid, Doubted;
    hide CountersAdvance, ConfigurationAgrees, CapabilityAgrees, EvidenceIsTrue, LiveIsSupported;
    var r, after := w.state.records[port], v.state.records[port];
    PortOfRecord(w, port);
    if e.RecordingDoubt? && after != r {
      DoubtedKeepsStanding(r, after);
    }
  }

  lemma DoubtedKeepsStanding(r: PortRecord, after: PortRecord)
    requires Doubted(r, after)
    ensures !IsLive(after.lifecycle) && (r.lifecycle.Retired? ==> after.lifecycle.Retired?)
    ensures after.ownership == r.ownership && after.configuration == r.configuration
    ensures CountersAdvance(r.generations, after.generations)
  {
    hide ValidIdentifier, UnknownReason;
  }

  // -------------------------------------------------------------------------
  // Recovery decides what is there
  // -------------------------------------------------------------------------

  /** A recovery that replaces the records: the records region of a load, or a restart whose load
      succeeds. */
  predicate Effective(w: World, e: Event) {
    || (e.RestoringRecords? && e.id in w.loads && w.loads[e.id].AuthorityRestored?)
    || (e.Restarting? && e.loads && w.disk.Some? && Recover(FreshEngine(e.config), w.disk.value).1 == Ok)
  }

  function RecoveredImage(w: World, e: Event): PersistedState
    requires Effective(w, e)
  {
    if e.RestoringRecords? then w.loads[e.id].image else w.disk.value
  }

  lemma EffectiveRecords(w: World, e: Event)
    requires Inv(w) && Effective(w, e)
    ensures GoodImage(RecoveredImage(w, e)) && Step(w, e).state.records == Refill(RecoveredImage(w, e).records).0
  {
    hide Inv, GoodImage, Refill, MutationStep, BindingStep, SaveStep, EnvironmentStep, LoadStep, DefineAll, Sort;
    hide RefillDevices, RefillPublishers, ValidIdentifier, Consistent;
    if e.RestoringRecords? {
      hide Step;
      RecordsRegionState(w, e.id);
    } else {
      DiskIsGood(w);
    }
  }

  /** After it, a port is there exactly when the container has it, and stands as it was saved, but
      for life and ownership: a port retired since the save is retired no longer. */
  ghost predicate StandsAsSaved(image: PersistedState, port: Id, records: map<Id, PortRecord>) {
    && (port in records <==> exists saved :: saved in image.records && saved.port == port)
    && forall saved :: saved in image.records && saved.port == port ==>
         var r := records[port];
         && !IsLive(r.lifecycle) && r.ownership.None? && r.lastMutation == NO_MUTATION
         && (r.lifecycle.Retired? <==> saved.lifecycle.Retired?)
         && (r.lifecycle.Unconfigured? <==> saved.lifecycle.Unconfigured?)
         && r.configuration == saved.configuration
  }

  lemma RefillStandsAsSaved(image: PersistedState, port: Id)
    requires GoodImage(image)
    ensures StandsAsSaved(image, port, Refill(image.records).0)
  {
    hide ValidIdentifier, Sound, PortRecord.Valid, Rewritten, Refill, DeviceBinding.Valid, PublisherRecord.Valid, IsLive;
    RefillIsTotal(image.records);
    RefillIsComplete(image.records);
    forall saved | saved in image.records && saved.port == port
      ensures Restores(Refill(image.records).0, saved)
      ensures !IsLive(Rewritten(saved).lifecycle)
      ensures Rewritten(saved).lifecycle.Retired? <==> saved.lifecycle.Retired?
      ensures Rewritten(saved).lifecycle.Unconfigured? <==> saved.lifecycle.Unconfigured?
    {
      RewriteStripsAuthority(saved);
      RewrittenIsNotLive(saved);
      RewrittenStanding(saved);
    }
    forall saved | saved in image.records && saved.port == port
      ensures Rewritten(saved).ownership.None? && Rewritten(saved).lastMutation == NO_MUTATION
      ensures Rewritten(saved).configuration == saved.configuration
    {
      RewriteStripsAuthority(saved);
    }
  }

  lemma RewrittenStanding(r: PortRecord)
    requires Sound(r)
    ensures Rewritten(r).lifecycle.Retired? <==> r.lifecycle.Retired?
    ensures Rewritten(r).lifecycle.Unconfigured? <==> r.lifecycle.Unconfigured?
  {
    hide RecoveryReason, RecoveredReason, RecoveryDetail, RecoveredDetail, ValidIdentifier, PortRecord.Valid, Stranded;
    hide CapabilityAgrees, EvidenceIsTrue, LiveIsSupported;
  }

  /** In every run, whatever the step. Outside recovery: a port leaves the records only when its own
      binding is taken back, one out of service comes back only by a committed reconciliation, an
      unconfigured one only by its committed first configuration, and a retired one stays retired,
      unowned and with its configuration frozen, late adapter results included. Recovery brings
      nothing back into service, and the container alone decides which ports are retired. */
  lemma LifecycleIsSafe(config: EngineConfig, events: seq<Event>, w: World, e: Event, port: Id)
    requires Reached(config, events, w) && port in w.state.records
    ensures !e.Recovers() ==> (port in Step(w, e).state.records <==> !Withdraws(w, e, port))
    ensures !e.Recovers() && !Withdraws(w, e, port) ==>
              KeepsStanding(w, e, w.state.records[port], Step(w, e).state.records[port])
    ensures Effective(w, e) ==> StandsAsSaved(RecoveredImage(w, e), port, Step(w, e).state.records)
  {
    hide Inv, Reached, Step, KeepsStanding, OwnerReleased, Doubted, CommittedBy, Withdraws, StandsAsSaved, Refill, GoodImage;
    ReachedIsGood(config, events, w);
    if !e.Recovers() {
      StepEffect(w, e, port);
      if !Withdraws(w, e, port) {
        EffectKeepsStanding(w, e, Step(w, e), port);
      }
    } else if Effective(w, e) {
      EffectiveRecords(w, e);
      RefillStandsAsSaved(RecoveredImage(w, e), port);
    }
  }

  /** No recovery in between, and no withdrawal of the port's own binding. */
  ghost predicate Stays(w: World, events: seq<Event>, port: Id)
    decreases |events|
  {
    hide Step, Withdraws;
    events != [] ==>
      !events[0].Recovers() && !Withdraws(w, events[0], port) && Stays(Step(w, events[0]), events[1..], port)
  }

  predicate HasRetired(image: PersistedState, port: Id, c: Option<PortConfiguration>) {
    exists i :: 0 <= i < |image.records| && image.records[i].port == port
                && image.records[i].lifecycle.Retired? && image.records[i].configuration == c
  }

  /** A step that neither withdraws the port nor recovers from a container in which it is not
      retired. */
  predicate SparesRetired(w: World, e: Event, port: Id, c: Option<PortConfiguration>) {
    && !Withdraws(w, e, port)
    && (e.Restarting? ==> Effective(w, e))
    && (Effective(w, e) ==> HasRetired(RecoveredImage(w, e), port, c))
  }

  ghost predicate StaysRetired(w: World, events: seq<Event>, port: Id, c: Option<PortConfiguration>)
    decreases |events|
  {
    hide Step, SparesRetired;
    events != [] ==>
      SparesRetired(w, events[0], port, c) && StaysRetired(Step(w, events[0]), events[1..], port, c)
  }

  /** Retirement lasts over loads and restarts, as long as every container recovered from has the
      port retired, and unless the port's own binding is still pending and is taken back. */
  lemma {:induction false} RetiredForever(w: World, events: seq<Event>, port: Id, c: Option<PortConfiguration>)
    requires Inv(w) && LawfulRun(w, events) && StaysRetired(w, events, port, c)
    requires port in w.state.records && w.state.records[port].lifecycle.Retired? && w.state.records[port].configuration == c
    ensures port in Exec(w, events).state.records
    ensures var r := Exec(w, events).state.records[port];
            r.lifecycle.Retired? && r.ownership.None? && r.configuration == c
    decreases |events|
  {
    hide Inv, Step, Lawful, SparesRetired, ValidIdentifier, Consistent;
    if events == [] {
      RetiredUnowned(w, port);
    } else {
      RetiredStays(w, events[0], port, c);
      StepKeepsInv(w, events[0]);
      RetiredForever(Step(w, events[0]), events[1..], port, c);
    }
  }

  lemma RetiredStays(w: World, e: Event, port: Id, c: Option<PortConfiguration>)
    requires Inv(w) && SparesRetired(w, e, port, c)
    requires port in w.state.records && w.state.records[port].lifecycle.Retired? && w.state.records[port].configuration == c
    ensures port in Step(w, e).state.records
    ensures var r := Step(w, e).state.records[port]; r.lifecycle.Retired? && r.configuration == c
  {
    hide Inv, Step, OwnerReleased, Doubted, CommittedBy, Withdraws, ValidIdentifier, Consistent, Refill, GoodImage;
    if Effective(w, e) {
      var image := RecoveredImage(w, e);
      EffectiveRecords(w, e);
      RefillStandsAsSaved(image, port);
      var i :| 0 <= i < |image.records| && image.records[i].port == port
               && image.records[i].lifecycle.Retired? && image.records[i].configuration == c;
      assert image.records[i] in image.records;
    } else if e.RestoringRecords? {
      RecordsRegionState(w, e.id);
    } else {
      StepEffect(w, e, port);
      EffectKeepsStanding(w, e, Step(w, e), port);
    }
  }

  lemma RetiredUnowned(w: World, port: Id)
    requires Inv(w) && port in w.state.records
    ensures RetiredIsUnowned(w.state.records[port])
  {
    hide Inv, ValidIdentifier, Consistent, PortRecord.Valid;
    PortOfRecord(w, port);
  }

  /** And recovery brings no port back into service, whatever was saved: every record it leaves is a
      saved one, rewritten. */
  lemma RecoveryLeavesNothingLive(config: EngineConfig, events: seq<Event>, w: World, e: Event, port: Id)
    requires Reached(config, events, w) && Effective(w, e) && port in Step(w, e).state.records
    ensures var r := Step(w, e).state.records[port];
            !IsLive(r.lifecycle) && r.ownership.None? && r.lastMutation == NO_MUTATION
    ensures exists saved :: (saved in RecoveredImage(w, e).records && saved.port == port
                             && Step(w, e).state.records[port] == Rewritten(saved))
  {
    hide Reached, Step, Inv, GoodImage, Refill, Rewritten, Effective, RecoveredImage, ValidIdentifier, Consistent;
    ReachedIsGood(config, events, w);
    EffectiveRecords(w, e);
    RefilledIsDead(RecoveredImage(w, e), port);
  }

  // -------------------------------------------------------------------------
  // Counters
  // -------------------------------------------------------------------------

  lemma EffectAdvances(w: World, e: Event, v: World, port: Id)
    requires Effect(w, e, v, port)
    ensures CountersAdvance(w.state.records[port].generations, v.state.records[port].generations)
  {
    hide Inv, Doubted, ValidIdentifier, Consistent, HeldWhereOwned, PortRecord.Valid, Sound;
    var r, after := w.state.records[port], v.state.records[port];
    if Doubted(r, after) {
      DoubtedKeepsStanding(r, after);
    }
  }

  /** Over any stretch of a run in which the port stays, the configuration, administrative,
      lifecycle, ownership and capability counters of a port never go back. */
  lemma {:induction false} CountersOnlyAdvance(w: World, events: seq<Event>, port: Id)
    requires Inv(w) && LawfulRun(w, events) && port in w.state.records && Stays(w, events, port)
    ensures port in Exec(w, events).state.records
    ensures CountersAdvance(w.state.records[port].generations, Exec(w, events).state.records[port].generations)
    decreases |events|
  {
    hide Inv, Step, Lawful, OwnerReleased, Doubted, CommittedBy, Withdraws, ValidIdentifier, Consistent;
    if events != [] {
      StepEffect(w, events[0], port);
      EffectAdvances(w, events[0], Step(w, events[0]), port);
      StepKeepsInv(w, events[0]);
      CountersOnlyAdvance(Step(w, events[0]), events[1..], port);
    }
  }

  // -------------------------------------------------------------------------
  // Records at rest
  // -------------------------------------------------------------------------

  /** Every record a run can reach validates, or is the one shape that only superseding and
      retiring can move on; a committed configuration carries the record's generation; evidence
      of a completed apply names it; and a live port is supported by its bound evidence. */
  lemma RecordsAreSound(config: EngineConfig, events: seq<Event>, w: World, port: Id)
    requires Reached(config, events, w) && port in w.state.records
    ensures var r := w.state.records[port];
            && (r.Valid() || Stranded(r))
            && (r.configuration.Some? ==> r.configuration.value.generation == r.generations.configuration)
            && (r.applied.outcome.Applied? || r.applied.outcome.Verified? ==>
                  r.configuration.Some? && r.applied.generation == r.configuration.value.generation)
            && (IsLive(r.lifecycle) ==>
                  && r.configuration.Some?
                  && (r.capability.present ==> Supports(r.capability, r.configuration.value)))
  {
    hide Inv, Reached, PortRecord.Valid, Stranded, Supports, CapabilityAgrees, ValidIdentifier, Consistent;
    ReachedIsGood(config, events, w);
    PortOfRecord(w, port);
  }

  /** From a stranded record only Supersede and Retire are ever accepted. */
  lemma StrandedPortsOnlyFence(config: EngineConfig, events: seq<Event>, w: World, id: nat)
    requires Reached(config, events, w) && WouldCommit(w, id)
    requires w.tokens[id].q.Port() in w.state.records && Stranded(w.state.records[w.tokens[id].q.Port()])
    ensures w.tokens[id].q.operation.Supersede? || w.tokens[id].q.operation.Retire?
  {
    hide Inv, Reached, Stranded, Sound, SafeRecord, Evolves, PortRecord.Valid, WouldCommit, Step;
    ReachedIsGood(config, events, w);
    CommitReplacesBase(w, id);
  }

  // -------------------------------------------------------------------------
  // Applies that do not settle
  // -------------------------------------------------------------------------

  /** Recording an unknown or mismatched apply leaves the committed configuration of every port
      as it is, and the port concerned out of service. */
  lemma UncertainApplyOnlyFences(config: EngineConfig, events: seq<Event>, w: World, id: nat)
    requires Reached(config, events, w) && id in w.tokens && w.tokens[id].Doubting?
    ensures var v, port := Step(w, RecordingDoubt(id)), w.tokens[id].q.Port();
            && v.state.records.Keys == w.state.records.Keys
            && (port in w.state.records ==>
                  && v.state.records[port].configuration == w.state.records[port].configuration
                  && !IsLive(v.state.records[port].lifecycle)
                  && v.state.records[port].drift.RevalidationRequired?)
            && forall other :: other in w.state.records && other != port ==> v.state.records[other] == w.state.records[other]
  {
    hide BindingStep, SaveStep, LoadStep, RestartStep, EnvironmentStep;
    hide Inv, Reached, ValidIdentifier, Consistent, Sound, UnknownReason, Spent, Tracks;
    ReachedIsGood(config, events, w);
    GoodTokenAt(w, id);
  }

  /** A definite failure ends the mutation: the state is untouched, and whatever follows in this
      process life the mutation neither commits nor records anything. */
  lemma FailedApplyChangesNothing(w: World, id: nat, reply: AdapterReply, after: seq<Event>)
    requires id in w.tokens && w.tokens[id].Planned? && w.tokens[id].plan.apply.Some?
    requires !w.state.config.policy.DesiredStateOnly? && reply.present && reply.status.Failed?
    requires forall i :: 0 <= i < |after| ==> !after[i].Restarting?
    ensures Step(w, Applying(id, reply)).state == w.state
    ensures var v := Exec(Step(w, Applying(id, reply)), after);
            && TokenAt(v, id) == Some(Finished(w.tokens[id].q, OutcomeCode.ApplyFailed))
            && Step(v, Committing(id)) == v && Step(v, RecordingDoubt(id)) == v
  {
    hide Step, Exec;
    FailureEnds(w, id, reply);
    EndedStays(Step(w, Applying(id, reply)), after, id);
    EndedIsInert(Exec(Step(w, Applying(id, reply)), after), id);
  }

  lemma FailureEnds(w: World, id: nat, reply: AdapterReply)
    requires id in w.tokens && w.tokens[id].Planned? && w.tokens[id].plan.apply.Some?
    requires !w.state.config.policy.DesiredStateOnly? && reply.present && reply.status.Failed?
    ensures Step(w, Applying(id, reply)) == With(w, id, Finished(w.tokens[id].q, OutcomeCode.ApplyFailed))
  {
    hide BindingStep, SaveStep, LoadStep, RestartStep, EnvironmentStep;
    hide ValidIdentifier, Consistent, SettledRecord;
  }

  lemma EndedIsInert(w: World, id: nat)
    requires id in w.tokens && w.tokens[id].Finished?
    ensures Step(w, Committing(id)) == w && Step(w, RecordingDoubt(id)) == w
  {
    hide BindingStep, SaveStep, LoadStep, RestartStep, EnvironmentStep;
    hide Commit, RecordUncertainty;
  }

  // -------------------------------------------------------------------------
  // Applies that lose the race
  // -------------------------------------------------------------------------

  /** The code a commit is refused with once its snapshot has been overtaken. */
  function RaceCode(s: State, q: Request): OutcomeCode {
    if q.Port() !in s.records then UnknownPort
    else if s.records[q.Port()].lastMutation.attempt == q.Attempt() then Idempotent
    else StaleConfigurationGeneration
  }

  /** The adapter reports success, and the record moves on before the commit. */
  ghost predicate LosesRace(w: World, id: nat, q: Request, base: PortRecord, plan: MutationPlan, reply: AdapterReply,
                            between: seq<Event>, u: World)
  {
    && TokenAt(w, id) == Some(Planned(q, base, plan)) && PlainReply(Applying(id, reply))
    && Settle(plan, w.state.config.policy, reply).Settled?
    && (var outcome := Settle(plan, w.state.config.policy, reply).next.applied.outcome; outcome.Applied? || outcome.Verified?)
    && LawfulRun(Step(w, Applying(id, reply)), between)
    && (forall i :: 0 <= i < |between| ==> !between[i].Restarting? && !(between[i].OfMutation() && between[i].id == id))
    && u == Exec(Step(w, Applying(id, reply)), between)
    && (q.Port() in u.state.records ==> Moved(u.state.records[q.Port()], base))
  }

  /** In every run: a mutation whose apply succeeded, and whose record has moved before its commit,
      ends with the code of the refusal and an unchanged state, and over any continuation of the
      process life it records nothing. The device holds a configuration the engine knows nothing of. */
  lemma LostRaceRecordsNothing(config: EngineConfig, before: seq<Event>, w: World, id: nat, q: Request, base: PortRecord,
                               plan: MutationPlan, reply: AdapterReply, between: seq<Event>, u: World, after: seq<Event>)
    requires Reached(config, before, w) && LosesRace(w, id, q, base, plan, reply, between, u)
    requires forall i :: 0 <= i < |after| ==> !after[i].Restarting?
    ensures Step(u, Committing(id)) == With(u, id, Finished(q, RaceCode(u.state, q)))
    ensures var v := Exec(Step(u, Committing(id)), after);
            && TokenAt(v, id) == Some(Finished(q, RaceCode(u.state, q)))
            && Step(v, Committing(id)) == v && Step(v, RecordingDoubt(id)) == v
  {
    hide Step, Exec, LawfulRun, Inv, Settle, Moved, ValidIdentifier, Consistent;
    ReachedIsGood(config, before, w);
    ApplyingSettles(w, id, q, base, plan, reply);
    var applied := Step(w, Applying(id, reply));
    ApplyingIsLawful(w, id, reply);
    StepKeepsInv(w, Applying(id, reply));
    RunKeepsInv(applied, between);
    TokenStaysUntouched(applied, between, id);
    OvertakenIsRefused(u, id);
    EndedStays(Step(u, Committing(id)), after, id);
    EndedIsInert(Exec(Step(u, Committing(id)), after), id);
  }

  lemma ApplyingIsLawful(w: World, id: nat, reply: AdapterReply)
    requires PlainReply(Applying(id, reply))
    ensures Lawful(w, Applying(id, reply))
  {
    hide FencePublisher, BeginEpoch, InsertPort, Commit, ValidIdentifier, Consistent, Refill, Tracks;
  }

  lemma ApplyingSettles(w: World, id: nat, q: Request, base: PortRecord, plan: MutationPlan, reply: AdapterReply)
    requires TokenAt(w, id) == Some(Planned(q, base, plan)) && Settle(plan, w.state.config.policy, reply).Settled?
    ensures Step(w, Applying(id, reply))
            == With(w, id, Ready(q, base, plan.expected, Settle(plan, w.state.config.policy, reply).next))
  {
    hide BindingStep, SaveStep, LoadStep, RestartStep, EnvironmentStep, Settle, ValidIdentifier, Consistent;
  }

  lemma {:induction false} TokenStaysUntouched(w: World, events: seq<Event>, id: nat)
    requires id in w.tokens
    requires forall i :: 0 <= i < |events| ==> !events[i].Restarting? && !(events[i].OfMutation() && events[i].id == id)
    ensures TokenAt(Exec(w, events), id) == Some(w.tokens[id])
    decreases |events|
  {
    hide Step;
    if events != [] {
      TokenUntouched(w, events[0], id);
      TokenStaysUntouched(Step(w, events[0]), events[1..], id);
    }
  }

  lemma OvertakenIsRefused(u: World, id: nat)
    requires Inv(u) && TokenAt(u, id).Some? && u.tokens[id].Ready?
    requires var t := u.tokens[id]; t.q.Port() in u.state.records ==> Moved(u.state.records[t.q.Port()], t.base)
    ensures Step(u, Committing(id)) == With(u, id, Finished(u.tokens[id].q, RaceCode(u.state, u.tokens[id].q)))
  {
    hide BindingStep, SaveStep, LoadStep, RestartStep, EnvironmentStep, PlanToken, ScreenToken, ApplyToken, GateToken;
    hide GateState, SnapshotToken, ResolveToken, DoubtStep, Inv, Moved, ValidIdentifier, Consistent, Commit;
    GoodTokenAt(u, id);
    RefusalCode(u, id);
  }

  lemma RefusalCode(u: World, id: nat)
    requires TokenAt(u, id).Some? && u.tokens[id].Ready? && GoodToken(u, u.tokens[id])
    requires var t := u.tokens[id]; t.q.Port() in u.state.records ==> Moved(u.state.records[t.q.Port()], t.base)
    ensures var t := u.tokens[id];
            Commit(u.state, t.q.Port(), t.expected, t.next) == (u.state, RaceCode(u.state, t.q))
  {
    hide ValidIdentifier, Consistent, Sound, PortRecord.Valid, Evolves, CaptureExpected, HeldWhereOwned, Stranded, GoodBase;
    hide Moved;
    var t := u.tokens[id];
    if t.q.Port() in u.state.records {
      MovedMismatches(u.state.records[t.q.Port()], t.base);
    }
  }

  /** A mutation that has ended stays as it ended. */
  lemma {:induction false} EndedStays(w: World, events: seq<Event>, id: nat)
    requires id in w.tokens && w.tokens[id].Finished?
    requires forall i :: 0 <= i < |events| ==> !events[i].Restarting?
    ensures TokenAt(Exec(w, events), id) == Some(w.tokens[id])
    decreases |events|
  {
    hide Step;
    if events != [] {
      EndedStep(w, events[0], id);
      EndedStays(Step(w, events[0]), events[1..], id);
    }
  }

  lemma EndedStep(w: World, e: Event, id: nat)
    requires id in w.tokens && w.tokens[id].Finished? && !e.Restarting?
    ensures TokenAt(Step(w, e), id) == Some(w.tokens[id])
  {
    hide Step;
    if e.OfMutation() && e.id == id {
      EndedRegion(w, e);
    } else {
      TokenUntouched(w, e, id);
    }
  }

  lemma EndedRegion(w: World, e: Event)
    requires e.OfMutation() && e.id in w.tokens && w.tokens[e.id].Finished?
    ensures Step(w, e) == w
  {
    hide BindingStep, SaveStep, LoadStep, RestartStep, EnvironmentStep, PlanToken, ApplyToken, ScreenToken, ResolveToken;
    hide SnapshotToken, GateToken, GateState, Commit, RecordUncertainty, ValidIdentifier, Consistent;
  }

  // -------------------------------------------------------------------------
  // The boundary of revocation
  // -------------------------------------------------------------------------

  lemma RevocationOnRecord(s: State, e: Event, port: Id)
    requires SafeState(s) && port in s.records && Revokes(s, e)
    ensures var t := Revoked(s, e);
            && port in t.records && t.generation <= Advance(s.generation)
            && (if Takes(s, e, s.records[port]) then t.records[port].ownership.None? else t.records[port] == s.records[port])
  {
    hide ValidIdentifier, Consistent, Sound, SafeRecords, SafePublishers, SafeDevices;
    hide FencedReason, FencedDetail, RestartReason, RestartDetail;
    if e.BeginningEpoch? {
      BeginEpochFencesAll(s);
      BeginEpochIsSafe(s);
    } else {
      KnownPublisher(s, e.publisher);
    }
  }

  /** A mutation that could commit just before a revocation can commit just after it exactly
      when its record is not one the revocation takes. A claim in flight on an unowned port is
      such a mutation, so it can still install an incarnation that has just been fenced. */
  lemma RevocationStopsExactlyHolders(config: EngineConfig, events: seq<Event>, w: World, e: Event, id: nat)
    requires Reached(config, events, w) && WouldCommit(w, id) && Lawful(w, e) && Revokes(w.state, e)
    requires w.state.generation < MAX_U64 - 1
    ensures WouldCommit(Step(w, e), id) <==> !Takes(w.state, e, w.tokens[id].base)
  {
    hide Step, Inv, Reached, ValidIdentifier, Consistent, Sound, SafeRecord, Evolves, PortRecord.Valid, Proposal, Revoked;
    hide CaptureExpected, Takes, Lawful;
    ReachedIsGood(config, events, w);
    RevokingStep(w, e);
    CommitReplacesBase(w, id);
    InvIsSafe(w);
    RevocationOnRecord(w.state, e, w.tokens[id].q.Port());
    if Takes(w.state, e, w.tokens[id].base) {
      TakenWasOwned(w.state, e, w.tokens[id].base);
      RevokedNow(w, e, id);
    }
  }

  lemma TakenWasOwned(s: State, e: Event, r: PortRecord)
    requires (e.Fencing? || e.BeginningEpoch?) && Takes(s, e, r)
    ensures r.ownership.Some?
  {
  }

  lemma RevokedNow(w: World, e: Event, id: nat)
    requires Inv(w) && WouldCommit(w, id) && Lawful(w, e) && (e.Fencing? || e.BeginningEpoch?)
    requires w.tokens[id].q.Port() in w.state.records && w.tokens[id].q.Port() in Step(w, e).state.records
    requires Step(w, e).state.records[w.tokens[id].q.Port()] != w.state.records[w.tokens[id].q.Port()]
    ensures !WouldCommit(Step(w, e), id)
  {
    hide Step, Lawful, SafeState, ValidIdentifier, Consistent, GoodImage, Forward, AllSpent, GoodTokens, Revoked;
    hide Proposal, GoodRequest, Moved, RecordStep, Sound, Spent, RecordsStep, CaptureExpected, GoodBinds, GoodSaves, GoodLoads;
    var t := w.tokens[id];
    RevokingStep(w, e);
    GoodTokenAt(w, id);
    StepKeepsInv(w, e);
    BaseOvertaken(w, Step(w, e), id);
    MovedMismatches(Step(w, e).state.records[t.q.Port()], t.base);
  }
}
