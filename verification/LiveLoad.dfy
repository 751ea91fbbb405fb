/** Loading a container into a running engine while mutations hold snapshots: exactly which of them
    it fails to overtake, and what becomes of those that need a parent device. */
module LiveLoad {
  import opened Basics
  import opened Records
  import opened Lifecycle
  import opened Profiles
  import opened Planning
  import opened PlanningLaws
  import opened Engine
  import opened Recovery
  import opened Safety
  import opened Runs
  import opened RunLaws
  import opened RunTheorems
  import opened Parents
  import opened Wording

  // -------------------------------------------------------------------------
  // Snapshots that a load does not overtake
  // -------------------------------------------------------------------------

  /** The snapshot was taken of a record not mutated since an earlier recovery, and its counters are
      those the loaded record has once recovery has moved the ones it moves. */
  predicate Exposed(base: PortRecord, saved: PortRecord) {
    var b, g := base.generations, saved.generations;
    && !Named(base.lastMutation.attempt)
    && b.configuration == g.configuration && b.administrative == g.administrative
    && b.lifecycle == (if saved.configuration.Some? && !saved.lifecycle.Retired? then Advance(g.lifecycle) else g.lifecycle)
    && b.ownership == (if saved.ownership.Some? then Advance(g.ownership) else g.ownership)
    && b.evidence == (if saved.applied.outcome.Applied? || saved.applied.outcome.Verified? then Advance(g.evidence)
                      else g.evidence)
  }

  /** A loaded record passes for a snapshot exactly when the snapshot is exposed to it. A snapshot
      that carries an attempt never is, since recovery forgets attempts. */
  lemma LoadedMatches(base: PortRecord, saved: PortRecord)
    ensures CaptureExpected(base).Matches(Rewritten(saved)) <==> Exposed(base, saved)
  {
    hide RecoveryReason, RecoveredReason, RecoveryDetail, RecoveredDetail, ValidIdentifier;
  }

  lemma LoadedRecord(w: World, lid: nat, image: PersistedState, saved: PortRecord)
    requires Inv(w) && LoadAt(w, lid) == Some(AuthorityRestored(image)) && saved in image.records
    ensures var s := Step(w, RestoringRecords(lid)).state;
            saved.port in s.records && s.records[saved.port] == Rewritten(saved)
  {
    hide Step, Inv, Sound, PortRecord.Valid, Refill, Rewritten, ValidIdentifier, Consistent;
    RecordsRegionState(w, lid);
    RefillIsComplete(image.records);
    assert Restores(Refill(image.records).0, saved);
  }

  /** In every run: of the mutations that are ready when the records region of a load runs, exactly
      those commit afterwards whose snapshot is exposed to the loaded record. Such a commit hides an
      update exactly when that record is not the snapshot itself. */
  lemma LiveLoadBoundary(config: EngineConfig, events: seq<Event>, w: World, lid: nat, image: PersistedState, id: nat,
                         saved: PortRecord)
    requires Reached(config, events, w) && TokenAt(w, id).Some? && w.tokens[id].Ready?
    requires LoadAt(w, lid) == Some(AuthorityRestored(image))
    requires saved in image.records && saved.port == w.tokens[id].q.Port()
    ensures CommitsAfterLoad(Step(w, RestoringRecords(lid)), id, w.tokens[id], saved)
  {
    hide Inv, Reached, Step, Rewritten, CaptureExpected, Exposed, ValidIdentifier, Consistent, Sound, PortRecord.Valid;
    hide Evolves, GoodBase;
    ReachedIsGood(config, events, w);
    LoadedRecord(w, lid, image, saved);
    LoadedMatches(w.tokens[id].base, saved);
    RewrittenBookkeeping(saved);
    GoodTokenAt(w, id);
    TokenUntouched(w, RestoringRecords(lid), id);
  }

  ghost predicate CommitsAfterLoad(v: World, id: nat, t: Token, saved: PortRecord)
    requires t.Ready?
  {
    && saved.port in v.state.records
    && (WouldCommit(v, id) <==>
          && Exposed(t.base, saved) && !Exhaustible(v.state.generation)
          && (saved.lifecycle.Retired? ==> t.next.lifecycle.Retired?))
    && (v.state.records[saved.port] == t.base <==> Rewritten(saved) == t.base)
  }

  lemma RewrittenBookkeeping(r: PortRecord)
    ensures Rewritten(r).lastMutation == NO_MUTATION
    ensures Rewritten(r).lifecycle.Retired? <==> r.lifecycle.Retired?
  {
    hide RecoveryReason, RecoveredReason, RecoveryDetail, RecoveredDetail, ValidIdentifier;
  }

  /** A mutation on a port that the container does not have ends as unknown. */
  lemma LiveLoadOfAnotherPort(config: EngineConfig, events: seq<Event>, w: World, lid: nat, image: PersistedState, id: nat)
    requires Reached(config, events, w) && id in w.tokens && LoadAt(w, lid) == Some(AuthorityRestored(image))
    requires forall r :: r in image.records ==> r.port != w.tokens[id].q.Port()
    ensures !WouldCommit(Step(w, RestoringRecords(lid)), id)
  {
    hide Inv, Reached, Step, Refill, CaptureExpected, ValidIdentifier, Consistent, Sound, PortRecord.Valid;
    ReachedIsGood(config, events, w);
    RecordsRegionState(w, lid);
    RefillIsTotal(image.records);
    TokenUntouched(w, RestoringRecords(lid), id);
  }

  /** Snapshots of configured ports that are not retired are not exposed to a version of the port
      that is not older, since recovery advances its lifecycle counter. */
  lemma LiveLoadOvertakesConfigured(base: PortRecord, saved: PortRecord)
    requires saved.configuration.Some? && !saved.lifecycle.Retired?
    requires base.generations.lifecycle <= saved.generations.lifecycle < MAX_U64
    ensures !Exposed(base, saved)
  {
    hide ValidIdentifier;
  }

  // -------------------------------------------------------------------------
  // Parents that a load drops
  // -------------------------------------------------------------------------

  /** In every run: a mutation that is past its screening when the authority region of a load runs uses
      a device generation that is not there exactly when the container lacks the parent of its
      snapshot, that is live and configured, evidence is found, and its kind is one of those that
      use the generation unchecked. */
  lemma LiveLoadCrashes(w: World, lid: nat, image: PersistedState, id: nat, q: Request, base: PortRecord,
                        provider: Provider, looksIdentical: bool, sameEvidence: bool, note: Text)
    requires TokenAt(w, id) == Some(Screened(q, base))
    requires LoadAt(w, lid) == Some(ProfilesRestored(image)) && RecoverTables(w.state, image).1 == Ok
    ensures var v := Step(w, RestoringAuthority(lid));
            var u := Step(Step(v, Resolving(id)), Event.Planning(id, provider, looksIdentical, sameEvidence, note));
            && id in u.tokens
            && (u.tokens[id].Crashed? <==>
                  && (forall d :: d in image.devices ==> d.device != base.parentDevice)
                  && IsLive(base.lifecycle) && base.configuration.Some?
                  && ResolveCapabilities(base, provider).0 == Ok && Dereferences(q, base, v.state.profiles))
  {
    hide Step, RecoverTables, RefillDevices, PlanToken, Dereferences, ResolveCapabilities, ValidIdentifier, Consistent;
    AuthorityRegionState(w, lid);
    DevicesAreFromImage(image.devices);
    var v := Step(w, RestoringAuthority(lid));
    ResolvingStep(v, id, q, base);
    var t := ResolveToken(v.state, q, base);
    PlanningStep(Step(v, Resolving(id)), id, t, provider, looksIdentical, sameEvidence, note);
    CrashesExactly(v.state, t, provider, looksIdentical, sameEvidence, note);
  }

  lemma ResolvingStep(w: World, id: nat, q: Request, base: PortRecord)
    requires TokenAt(w, id) == Some(Screened(q, base))
    ensures Step(w, Resolving(id)) == With(w, id, ResolveToken(w.state, q, base))
  {
    hide BindingStep, SaveStep, LoadStep, RestartStep, EnvironmentStep, PlanToken, ApplyToken, ScreenToken, ResolveToken;
    hide GateToken, GateState, SnapshotToken, CommitStep, DoubtStep, ValidIdentifier, Consistent;
  }

  lemma PlanningStep(w: World, id: nat, t: Token, provider: Provider, looksIdentical: bool, sameEvidence: bool, note: Text)
    requires TokenAt(w, id) == Some(t) && t.Resolved?
    ensures Step(w, Event.Planning(id, provider, looksIdentical, sameEvidence, note))
            == With(w, id, PlanToken(w.state, t, provider, looksIdentical, sameEvidence, note))
  {
    hide BindingStep, SaveStep, LoadStep, RestartStep, EnvironmentStep, PlanToken, ApplyToken, ScreenToken, ResolveToken;
    hide GateToken, GateState, SnapshotToken, CommitStep, DoubtStep, ValidIdentifier, Consistent;
  }
}
