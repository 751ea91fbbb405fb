/** Fenced incarnations: who is turned away at the gate, and for how long. */
module Incarnations {
  import opened Basics
  import opened Records
  import opened Profiles
  import opened Planning
  import opened Engine
  import opened Recovery
  import opened Safety
  import opened Runs
  import opened RunLaws
  import opened RunTheorems

  predicate Fenced(s: State, publisher: Id) { publisher in s.publishers && s.publishers[publisher].fenced }

  /** While the entry of a publisher is fenced, no incarnation of it passes the gate. */
  lemma FencedIsRejected(s: State, a: AuthorityContext)
    requires Fenced(s, a.publisher)
    ensures CheckAuthority(s, a).1 != Ok && CheckAuthority(s, a).0 == s
  {
    hide ValidIdentifier, Consistent;
  }

  /** What can end that: a registration under another boot, or a recovery whose container does not
      know the publisher. */
  ghost predicate Readmits(w: World, e: Event, publisher: Id) {
    || (e.Registering? && e.publisher == publisher && RegisterPublisher(w.state, publisher, e.boot, e.epoch).1 == Ok)
    || (e.RestoresTables() && publisher !in Step(w, e).state.publishers)
  }

  lemma FencedStays(w: World, e: Event, publisher: Id)
    requires Fenced(w.state, publisher) && !Readmits(w, e, publisher)
    ensures Fenced(Step(w, e).state, publisher)
  {
    hide Step, Fenced, Inv;
    if e.OfMutation() {
      MutationLeavesFenced(w, e, publisher);
    } else if e.RestoresTables() {
      RecoveredIsFenced(w, e, publisher);
    } else {
      OthersLeaveFenced(w, e, publisher);
    }
  }

  lemma MutationLeavesFenced(w: World, e: Event, publisher: Id)
    requires e.OfMutation() && Fenced(w.state, publisher)
    ensures Fenced(Step(w, e).state, publisher)
  {
    hide BindingStep, SaveStep, LoadStep, RestartStep, EnvironmentStep, ValidIdentifier, Consistent, Commit, RecordUncertainty;
    hide SnapshotToken, ScreenToken, ResolveToken, PlanToken, ApplyToken, GateToken, CheckAuthority, Fenced;
    if e.Committing? {
      if e.id in w.tokens && w.tokens[e.id].Ready? {
        CommitLeavesPublishers(w.state, w.tokens[e.id].q.Port(), w.tokens[e.id].expected, w.tokens[e.id].next);
      }
    } else if e.RecordingDoubt? {
      if e.id in w.tokens && w.tokens[e.id].Doubting? {
        var t := w.tokens[e.id];
        DoubtLeavesPublishers(w.state, t.q.Port(), t.q.Authority(), t.generation, t.detail, t.source);
      }
    } else if e.Submit? {
      CheckLeavesFenced(w.state, e.request.Authority(), publisher);
    }
    SameTable(w.state, Step(w, e).state, publisher);
  }

  lemma OthersLeaveFenced(w: World, e: Event, publisher: Id)
    requires !e.OfMutation() && !e.RestoresTables() && Fenced(w.state, publisher) && !Readmits(w, e, publisher)
    ensures Fenced(Step(w, e).state, publisher)
  {
    hide Step, Fenced;
    if e.OfBinding() {
      BindingLeavesPublishers(w, e);
    } else if e.OfLoad() {
      LoadLeavesPublishers(w, e);
    } else if e.OfSave() {
      SaveLeavesState(w, e);
    } else {
      EnvironmentLeavesFenced(w, e, publisher);
    }
    SameTable(w.state, Step(w, e).state, publisher);
  }

  lemma BindingLeavesPublishers(w: World, e: Event)
    requires e.OfBinding()
    ensures Step(w, e).state.publishers == w.state.publishers
  {
    hide MutationStep, SaveStep, LoadStep, RestartStep, EnvironmentStep, InsertPort, AttachDevice, ClearToken, BoundRecord;
    hide ValidIdentifier, Consistent;
    if e.InsertingPort? && e.id in w.binds && w.binds[e.id].Cleared? {
      InsertLeavesPublishers(w.state, w.binds[e.id].b, e.provider);
    } else if e.AttachingDevice? && e.id in w.binds && w.binds[e.id].Inserted? {
      AttachLeavesPublishers(w.state, w.binds[e.id].b);
    }
  }

  lemma LoadLeavesPublishers(w: World, e: Event)
    requires e.OfLoad() && !e.RestoringAuthority?
    ensures Step(w, e).state.publishers == w.state.publishers
  {
    hide MutationStep, BindingStep, SaveStep, EnvironmentStep, RestartStep, DefineAll, Sort, Refill, RecoverTables, OpenToken;
    hide ValidIdentifier, Consistent;
  }

  lemma EnvironmentLeavesFenced(w: World, e: Event, publisher: Id)
    requires e.OfEnvironment() && Fenced(w.state, publisher) && !Readmits(w, e, publisher)
    ensures Fenced(Step(w, e).state, publisher)
  {
    hide MutationStep, BindingStep, SaveStep, LoadStep, RestartStep, ValidIdentifier, Consistent, RegisterDevice;
    hide DefineProfile, SetTopology, Fenced, BeginEpoch, FencePublisher, RegisterPublisher;
    OtherTablesStay(w.state, e);
    AuthorityLeavesFenced(w, e, publisher);
    SameTable(w.state, Step(w, e).state, publisher);
  }

  lemma SameTable(s: State, t: State, publisher: Id)
    requires Fenced(s, publisher)
    ensures t.publishers == s.publishers ==> Fenced(t, publisher)
  {
    hide ValidIdentifier, Consistent;
  }

  lemma CommitLeavesPublishers(s: State, port: Id, expected: ExpectedState, next: PortRecord)
    ensures Commit(s, port, expected, next).0.publishers == s.publishers
  {
    hide ValidIdentifier, Consistent, CaptureExpected;
  }

  lemma DoubtLeavesPublishers(s: State, port: Id, a: AuthorityContext, g: Generation, detail: Text, source: Text)
    ensures RecordUncertainty(s, port, a, g, detail, source).publishers == s.publishers
  {
    hide ValidIdentifier, Consistent, Uncertain;
  }

  lemma CheckLeavesFenced(s: State, a: AuthorityContext, publisher: Id)
    requires Fenced(s, publisher)
    ensures Fenced(CheckAuthority(s, a).0, publisher)
  {
    hide ValidIdentifier, Consistent;
  }

  /** Registering readmits only under a different boot; fencing and epochs never readmit. */
  lemma AuthorityLeavesFenced(w: World, e: Event, publisher: Id)
    requires Fenced(w.state, publisher) && !Readmits(w, e, publisher)
    ensures e.Registering? ==> Fenced(RegisterPublisher(w.state, e.publisher, e.boot, e.epoch).0, publisher)
    ensures e.Fencing? ==> Fenced(FencePublisher(w.state, e.publisher, e.boot).0, publisher)
    ensures e.BeginningEpoch? ==> Fenced(BeginEpoch(w.state).0, publisher)
  {
    hide ValidIdentifier, Consistent, ReleasedByFence, ReleasedByEpoch, Step;
  }

  lemma InsertLeavesPublishers(s: State, b: Binding, provider: Provider)
    ensures InsertPort(s, b, provider).0.publishers == s.publishers
  {
    hide ValidIdentifier, Consistent, BoundRecord, PortRecord.Valid, LastMutation.Valid;
  }

  lemma AttachLeavesPublishers(s: State, b: Binding)
    ensures AttachDevice(s, b).0.publishers == s.publishers
  {
    hide ValidIdentifier, Consistent;
  }

  /** The steps that have nothing to do with publishers leave them alone. */
  lemma OtherTablesStay(s: State, e: Event)
    ensures e.RecordingDevice? ==> RegisterDevice(s, e.device, e.generation, e.source).0.publishers == s.publishers
    ensures e.SettingTopology? ==> SetTopology(s, e.generation).0.publishers == s.publishers
    ensures e.DefiningProfile? ==> DefineProfile(s, e.profile).0.publishers == s.publishers
  {
    hide ValidIdentifier, Consistent, DefineIn;
  }

  // -------------------------------------------------------------------------
  // Recovery
  // -------------------------------------------------------------------------

  /** Recovery either leaves the publishers alone or fences every one of the container. */
  lemma RecoveryFences(s: State, image: PersistedState)
    ensures var t := Recover(s, image).0;
            || t.publishers == s.publishers
            || (t.publishers == RefillPublishers(image.publishers)
                && forall id :: id in t.publishers ==> t.publishers[id].fenced)
    ensures Recover(s, image).1 == Ok ==>
              var t := Recover(s, image).0;
              && t.publishers == RefillPublishers(image.publishers)
              && forall p :: p in image.publishers ==> Fenced(t, p.publisher)
  {
    hide ValidIdentifier, Consistent, DefineAll, Sort, Refill, RefillDevices, RefillPublishers;
    PublishersAreFenced(image.publishers);
  }

  /** The same of the authority region of a live load. */
  lemma TablesFence(s: State, image: PersistedState)
    ensures var t := RecoverTables(s, image).0;
            || t.publishers == s.publishers
            || (t.publishers == RefillPublishers(image.publishers)
                && forall id :: id in t.publishers ==> t.publishers[id].fenced)
    ensures RecoverTables(s, image).1 == Ok ==>
              forall p :: p in image.publishers ==> Fenced(RecoverTables(s, image).0, p.publisher)
  {
    hide ValidIdentifier, Consistent, RefillDevices, RefillPublishers;
    PublishersAreFenced(image.publishers);
  }

  /** What a step that replaces the authority tables makes of the publishers. */
  lemma RestoredTables(w: World, e: Event)
    requires e.RestoresTables()
    ensures if e.Restarting? then
              Step(w, e).state == (if e.loads && w.disk.Some? then Recover(FreshEngine(e.config), w.disk.value).0
                                   else FreshEngine(e.config))
            else if e.id in w.loads && w.loads[e.id].ProfilesRestored? then
              Step(w, e).state == RecoverTables(w.state, w.loads[e.id].image).0
            else Step(w, e).state == w.state
  {
    hide MutationStep, BindingStep, SaveStep, EnvironmentStep, Recover, RecoverTables, RecoverProfiles, RecoverRecords, OpenToken;
    hide ValidIdentifier, Consistent;
  }

  lemma RecoveredIsFenced(w: World, e: Event, publisher: Id)
    requires Fenced(w.state, publisher) && e.RestoresTables() && !Readmits(w, e, publisher)
    ensures Fenced(Step(w, e).state, publisher)
  {
    hide Step, Recover, RecoverTables, ValidIdentifier, Consistent;
    RestoredTables(w, e);
    if e.Restarting? {
      if w.disk.Some? {
        RecoveryFences(FreshEngine(e.config), w.disk.value);
      }
    } else if e.id in w.loads && w.loads[e.id].ProfilesRestored? {
      TablesFence(w.state, w.loads[e.id].image);
    }
  }

  // -------------------------------------------------------------------------
  // Over runs
  // -------------------------------------------------------------------------

  ghost predicate NeverReadmitted(w: World, events: seq<Event>, publisher: Id)
    decreases |events|
  {
    hide Step;
    events != [] ==>
      !Readmits(w, events[0], publisher) && NeverReadmitted(Step(w, events[0]), events[1..], publisher)
  }

  /** A fenced publisher is turned away over any continuation, restarts included, that neither
      registers it afresh nor recovers from a container that does not know it. */
  lemma {:induction false} FencedForever(w: World, events: seq<Event>, a: AuthorityContext)
    requires Inv(w) && LawfulRun(w, events) && Fenced(w.state, a.publisher)
    requires NeverReadmitted(w, events, a.publisher)
    ensures CheckAuthority(Exec(w, events).state, a).1 != Ok
    decreases |events|
  {
    hide Inv, Step, Lawful, Fenced, CheckAuthority, Readmits;
    if events == [] {
      FencedIsRejected(w.state, a);
    } else {
      FencedStays(w, events[0], a.publisher);
      StepKeepsInv(w, events[0]);
      FencedForever(Step(w, events[0]), events[1..], a);
    }
  }

  /** After an epoch advance every publisher known before is turned away at the gate, whatever
      boot it presents, until it registers afresh. */
  lemma EpochFencesEveryone(config: EngineConfig, before: seq<Event>, w: World, after: seq<Event>, a: AuthorityContext)
    requires Reached(config, before, w) && BeginEpoch(w.state).1 == Ok && Lawful(w, BeginningEpoch)
    requires a.publisher in w.state.publishers
    requires LawfulRun(Step(w, BeginningEpoch), after) && NeverReadmitted(Step(w, BeginningEpoch), after, a.publisher)
    ensures CheckAuthority(Exec(Step(w, BeginningEpoch), after).state, a).1 != Ok
  {
    hide Inv, Reached, Step, Exec, LawfulRun, CheckAuthority, BeginEpoch, Lawful, NeverReadmitted, SafeState, ValidIdentifier;
    hide Consistent;
    ReachedIsGood(config, before, w);
    InvIsSafe(w);
    BeginEpochFencesAll(w.state);
    StepKeepsInv(w, BeginningEpoch);
    EpochState(w);
    FencedForever(Step(w, BeginningEpoch), after, a);
  }

  lemma EpochState(w: World)
    ensures Step(w, BeginningEpoch).state == BeginEpoch(w.state).0
  {
    hide MutationStep, BindingStep, SaveStep, LoadStep, RestartStep, BeginEpoch;
  }

  /** A recovery that replaces the authority tables by those of the container. */
  predicate Restores(w: World, e: Event, image: PersistedState) {
    || (e.Restarting? && e.loads && w.disk == Some(image) && Recover(FreshEngine(e.config), image).1 == Ok)
    || (e.RestoringAuthority? && LoadAt(w, e.id) == Some(ProfilesRestored(image)) && RecoverTables(w.state, image).1 == Ok)
  }

  /** And after a successful recovery, into a new process or a running one, so is every publisher
      the container knows. */
  lemma RecoveryFencesEveryone(config: EngineConfig, before: seq<Event>, w: World, e: Event, image: PersistedState,
                               after: seq<Event>, p: PublisherRecord, a: AuthorityContext)
    requires Reached(config, before, w) && Lawful(w, e) && Restores(w, e, image) && p in image.publishers
    requires LawfulRun(Step(w, e), after) && NeverReadmitted(Step(w, e), after, p.publisher)
    requires a.publisher == p.publisher
    ensures CheckAuthority(Exec(Step(w, e), after).state, a).1 != Ok
  {
    hide Inv, Step, Reached, Exec, LawfulRun, CheckAuthority, Recover, RecoverTables, Lawful, NeverReadmitted, ValidIdentifier;
    hide Consistent;
    ReachedIsGood(config, before, w);
    RestoredTables(w, e);
    if e.Restarting? {
      RecoveryFences(FreshEngine(e.config), image);
    } else {
      TablesFence(w.state, image);
    }
    StepKeepsInv(w, e);
    FencedForever(Step(w, e), after, a);
  }

  lemma UnfencedIsCurrent(config: EngineConfig, events: seq<Event>, w: World, id: Id)
    requires Reached(config, events, w) && id in w.state.publishers && !w.state.publishers[id].fenced
    ensures w.state.publishers[id].epoch == w.state.epoch
  {
    hide Inv, Reached, ValidIdentifier, Consistent;
    ReachedIsGood(config, events, w);
    InvIsSafe(w);
    KnownPublisher(w.state, id);
  }

  /** The boundary of that: an epoch advance is not written down by itself, so the epoch a new
      process recovers to can be the one the crashed process was in. An incarnation of the crashed
      process passes the gate again exactly when that is so, the container does not know its
      publisher, and publishers register themselves. */
  lemma UnsavedIncarnationReturns(w: World, config: EngineConfig, a: AuthorityContext)
    requires w.disk.Some? && Recover(FreshEngine(config), w.disk.value).1 == Ok
    requires CheckAuthority(w.state, a).1 == Ok
    ensures CheckAuthority(Step(w, Restarting(config, true)).state, a).1 == Ok
            <==> && (if w.disk.value.epoch >= config.epoch then w.state.epoch == w.disk.value.epoch + 1
                     else w.state.epoch == config.epoch)
                 && (forall p :: p in w.disk.value.publishers ==> p.publisher != a.publisher)
                 && config.registration.Automatic?
                 && |RefillPublishers(w.disk.value.publishers)| < MAX_PUBLISHERS
  {
    hide Step, ValidIdentifier, Consistent, DefineAll, Sort, Refill, RefillDevices, RefillPublishers;
    var image := w.disk.value;
    RestoredTables(w, Restarting(config, true));
    RecoveryFences(FreshEngine(config), image);
    PublishersAreFenced(image.publishers);
    var t := Recover(FreshEngine(config), image).0;
    if a.publisher in t.publishers {
      var i :| 0 <= i < |image.publishers| && t.publishers[a.publisher] == image.publishers[i].(fenced := true);
      assert image.publishers[i] in image.publishers;
    }
  }
}
