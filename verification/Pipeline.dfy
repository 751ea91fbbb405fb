/** One mutation from end to end with nothing in between: the pipeline over the engine object
    is exactly the passage of one token through the run model. */
module Pipeline {
  import opened Basics
  import opened Records
  import opened Profiles
  import opened Planning
  import opened PlanningLaws
  import opened Engine
  import opened EngineObject
  import opened Recovery
  import opened Safety
  import opened Runs
  import opened RunLaws
  import Utf8

  /** Everything outside the engine that one mutation hears. */
  datatype Answers = Answers(
    provider: Provider, looksIdentical: bool, sameEvidence: bool, note: Text, reply: AdapterReply)

  /** The regions one mutation passes through, in order. */
  function Passage(id: nat, q: Request, a: Answers): seq<Event> {
    [Submit(id, q), Snapshot(id), Screening(id), Resolving(id),
     Event.Planning(id, a.provider, a.looksIdentical, a.sameEvidence, a.note), Applying(id, a.reply), Committing(id),
     RecordingDoubt(id)]
  }

  /** From the gates before planning to the adapter's answer. */
  function PlanAndApply(s: State, q: Request, base: PortRecord, a: Answers): Token {
    match PlanToken(s, ResolveToken(s, q, base), a.provider, a.looksIdentical, a.sameEvidence, a.note)
    case Planned(_, _, plan) => ApplyToken(s, Planned(q, base, plan), a.reply)
    case t => t
  }

  function FromBase(s: State, q: Request, base: PortRecord, a: Answers): Token {
    match ScreenToken(s, q, base)
    case Screened(_, _) => PlanAndApply(s, q, base, a)
    case t => t
  }

  /** The token once it is ready to end, all on one state. */
  function Prepared(s: State, q: Request, a: Answers): Token {
    match SnapshotToken(s, q)
    case Snapped(_, base) =>
      FromBase(s, q, base, a)
    case t => t
  }

  /** The last region: commit, or record the doubt. */
  function Ended(s: State, t: Token): (State, Token) {
    match t
    case Ready(q, base, expected, next) =>
      var (after, code) := Commit(s, q.Port(), expected, next);
      (after, Finished(q, code))
    case Doubting(q, base, generation, detail, code, source) =>
      (RecordUncertainty(s, q.Port(), q.Authority(), generation, detail, source), Finished(q, code))
    case _ => (s, t)
  }

  /** A whole mutation with nothing else running. */
  function Uninterrupted(s: State, q: Request, a: Answers): (State, Token) {
    var t := GateToken(s, q);
    var gated := GateState(s, q);
    if t.Gated? then Ended(gated, Prepared(gated, q, a)) else (gated, t)
  }

  predicate Over(w: World, id: nat) { id in w.tokens && (w.tokens[id].Finished? || w.tokens[id].Crashed?) }

  predicate LaterRegion(e: Event, id: nat) {
    && (e.Snapshot? || e.Screening? || e.Resolving? || e.Planning? || e.Applying? || e.Committing? || e.RecordingDoubt?)
    && e.id == id
  }

  lemma PassageRegions(id: nat, q: Request, a: Answers)
    ensures |Passage(id, q, a)| == 8 && Passage(id, q, a)[0] == Submit(id, q)
    ensures forall i :: 1 <= i < 8 ==> LaterRegion(Passage(id, q, a)[i], id)
  {
  }

  /** The later regions of a mutation that has ended do nothing. */
  lemma {:induction false} OverStays(w: World, id: nat, events: seq<Event>)
    requires Over(w, id)
    requires forall i :: 0 <= i < |events| ==> LaterRegion(events[i], id)
    ensures Exec(w, events) == w
    decreases |events|
  {
    if events != [] {
      OverStep(w, events[0]);
      OverStays(w, id, events[1..]);
    }
  }

  lemma OverStep(w: World, e: Event)
    requires e.Snapshot? || e.Screening? || e.Resolving? || e.Planning? || e.Applying? || e.Committing? || e.RecordingDoubt?
    requires Over(w, e.id)
    ensures Step(w, e) == w
  {
    hide BindingStep, SaveStep, LoadStep, RestartStep, EnvironmentStep;
    hide SnapshotToken, ScreenToken, ResolveToken, PlanToken, ApplyToken, CommitStep, DoubtStep;
  }

  /** The pipeline as a method over the engine object. Under the invariant of its state it
      never uses a device generation that is not there. */
  method ExecuteMutation(impl: EngineImpl, q: Request, a: Answers) returns (code: OutcomeCode)
    requires impl.Valid() && SafeState(impl.View()) && LiveHaveParents(impl.View())
    modifies impl
    ensures impl.Valid()
    ensures (impl.View(), Finished(q, code)) == Uninterrupted(old(impl.View()), q, a)
  {
    hide EngineImpl.Valid, SafeState, Engine.CheckAuthority, Screen, PlanAndApply, ValidIdentifier, Consistent;
    if !Named(q.Port()) {
      return MalformedRequest;
    }
    CheckAuthorityIsSafe(impl.View(), q.Authority());
    code := impl.CheckAuthority(q.Authority());
    if code != Ok {
      return code;
    }
    if q.Port() !in impl.records {
      return UnknownPort;
    }
    var snapshot := impl.records[q.Port()];
    var screened := Screen(snapshot, q, impl.topology);
    if screened.Some? {
      return screened.value;
    }
    code := Conclude(impl, q, a, snapshot);
  }

  /** Everything after the screening: gates, planning, the adapter, and the last region. */
  method Conclude(impl: EngineImpl, q: Request, a: Answers, snapshot: PortRecord) returns (code: OutcomeCode)
    requires impl.Valid() && SafeState(impl.View()) && LiveHaveParents(impl.View())
    requires q.Port() in impl.records && impl.records[q.Port()] == snapshot
    requires Screen(snapshot, q, impl.topology).None?
    modifies impl
    ensures impl.Valid()
    ensures (impl.View(), Finished(q, code)) == Ended(old(impl.View()), PlanAndApply(old(impl.View()), q, snapshot, a))
  {
    hide EngineImpl.Valid, SafeState, Screen, DeviceGate, ResolveCapabilities, Build, Prepare, Settle, Consults;
    hide ValidIdentifier, Consistent, ApplyToken, Ended;
    EndedEarly(impl.View(), q);
    var device := if snapshot.parentDevice in impl.devices then Some(impl.devices[snapshot.parentDevice].generation) else None;
    var gate := DeviceGate(snapshot, q, device);
    if gate.Some? {
      return gate.value;
    }
    var resolved, capability := Ok, NO_BINDING;
    if q.operation.AppliesToDevice() {
      var answer := ResolveCapabilities(snapshot, a.provider);
      resolved, capability := answer.0, answer.1;
    }
    if resolved != Ok {
      return resolved;
    }
    var input := BuildInput(impl.topology, device, capability, impl.profiles.profiles, a.looksIdentical, a.sameEvidence, a.note);
    ResolvedIsConsulted(snapshot, q, a.provider);
    SafeToPlan(impl.View(), q, input, a);
    var planned := Prepare(Build(snapshot, input, q), q);
    if planned.Rejected? {
      return planned.code;
    }
    code := Finish(impl, q, planned.plan, a.reply, snapshot);
  }

  /** The adapter has answered: commit, record the doubt, or give up. */
  method Finish(impl: EngineImpl, q: Request, plan: MutationPlan, reply: AdapterReply, ghost base: PortRecord)
    returns (code: OutcomeCode)
    requires impl.Valid()
    requires Settle(plan, impl.config.policy, reply).Settled? ==>
               Settle(plan, impl.config.policy, reply).next.port == q.Port()
    modifies impl
    ensures impl.Valid()
    ensures (impl.View(), Finished(q, code))
            == Ended(old(impl.View()), ApplyToken(old(impl.View()), Planned(q, base, plan), reply))
  {
    hide EngineImpl.Valid, Settle, Engine.Commit, Engine.RecordUncertainty, ValidIdentifier, Consistent;
    var settlement := Settle(plan, impl.config.policy, reply);
    match settlement
    case Settled(next) => code := impl.Commit(q.Port(), plan.expected, next);
    case Doubtful(generation, detail, uncertain) =>
      impl.RecordUncertainty(q.Port(), q.Authority(), generation, detail, reply.source);
      code := uncertain;
    case Abandoned(refusal) => code := refusal;
  }

  lemma EndedEarly(s: State, q: Request)
    ensures forall code: OutcomeCode :: Ended(s, Finished(q, code)) == (s, Finished(q, code))
  {
  }

  lemma ResolvedIsConsulted(r: PortRecord, q: Request, provider: Provider)
    ensures q.operation.AppliesToDevice() ==> Consults(r, q, ResolveCapabilities(r, provider).1)
    ensures !q.operation.AppliesToDevice() ==> Consults(r, q, NO_BINDING)
  {
    hide ValidIdentifier;
  }

  /** What a safe record is planned into exists, and keeps its identity. */
  lemma SafeToPlan(s: State, q: Request, input: BuildInput, a: Answers)
    requires SafeState(s) && LiveHaveParents(s) && q.Port() in s.records && Screen(s.records[q.Port()], q, s.topology).None?
    requires var r := s.records[q.Port()];
             && input.device == (if r.parentDevice in s.devices then Some(s.devices[r.parentDevice].generation) else None)
             && Consults(r, q, input.capability)
    ensures var planned := Prepare(Build(s.records[q.Port()], input, q), q);
            && planned != Undefined
            && (planned.Prepared? && Settle(planned.plan, s.config.policy, a.reply).Settled? ==>
                  Settle(planned.plan, s.config.policy, a.reply).next.port == q.Port())
  {
    hide Build, Prepare, Settle, ValidIdentifier, Consistent, Sound, SafePublishers, SafeDevices, PortRecord.Valid;
    var r := s.records[q.Port()];
    assert SafeRecord(r, q.Port(), s.epoch);
    NeverUndefined(r, input, q);
    PrepareKeepsDefined(Build(r, input, q), q);
    ScreenedIsNotRetired(r, q, s.topology);
    if Prepare(Build(r, input, q), q).Prepared? {
      PreparedProposes(r, input, q);
      SettledKeepsOwner(Prepare(Build(r, input, q), q).plan, s.config.policy, a.reply);
      EvolvesKeepsPlace(q.operation, r, Prepare(Build(r, input, q), q).plan.next);
    }
  }

  lemma ScreenedIsNotRetired(r: PortRecord, q: Request, topology: Generation)
    requires Screen(r, q, topology).None?
    ensures !r.lifecycle.Retired?
  {
    hide OwnershipGate, ValidIdentifier;
  }

  // -------------------------------------------------------------------------
  // The pipeline is a run
  // -------------------------------------------------------------------------

  lemma ExecOne(w: World, events: seq<Event>)
    requires events != []
    ensures Exec(w, events) == Exec(Step(w, events[0]), events[1..])
  {
    hide Step;
  }

  /** Running the eight regions of one fresh mutation back to back, with nothing in between,
      leads to the state and the outcome of the uninterrupted mutation. */
  lemma PassageIsUninterrupted(w: World, id: nat, q: Request, a: Answers)
    requires id !in w.tokens
    ensures var v := Exec(w, Passage(id, q, a));
            var (state, t) := Uninterrupted(w.state, q, a);
            v.state == state && TokenAt(v, id) == Some(t)
  {
    hide Step, Uninterrupted, Over, Passage, LaterRegion;
    PassageRegions(id, q, a);
    var events := Passage(id, q, a);
    var v := Step(w, events[0]);
    ExecOne(w, events);
    Gating(w, id, q, a);
    if v.tokens[id].Gated? {
      PassageFromGate(v, id, q, a);
    } else {
      OverStays(v, id, events[1..]);
    }
  }

  lemma Gating(w: World, id: nat, q: Request, a: Answers)
    requires id !in w.tokens
    ensures var v := Step(w, Submit(id, q));
            && v.state == GateState(w.state, q) && TokenAt(v, id) == Some(GateToken(w.state, q))
            && (v.tokens[id].Gated? ==> v.tokens[id] == Gated(q))
            && (v.tokens[id].Gated? ==> Uninterrupted(w.state, q, a) == Ended(v.state, Prepared(v.state, q, a)))
            && (!v.tokens[id].Gated? ==> Over(v, id) && Uninterrupted(w.state, q, a) == (v.state, v.tokens[id]))
  {
    hide BindingStep, SaveStep, LoadStep, RestartStep, EnvironmentStep;
    hide CheckAuthority, Prepared, Ended;
  }

  lemma PassageFromGate(w: World, id: nat, q: Request, a: Answers)
    requires TokenAt(w, id) == Some(Gated(q))
    ensures var v := Exec(w, Passage(id, q, a)[1..]);
            var (state, t) := Ended(w.state, Prepared(w.state, q, a));
            v.state == state && TokenAt(v, id) == Some(t)
  {
    hide Step, Over, Ended, PlanAndApply, ScreenToken, SnapshotToken;
    var events := Passage(id, q, a)[1..];
    ExecOne(w, events);
    Snapping(w, id, q, a);
    var v := Step(w, events[0]);
    if v.tokens[id].Snapped? {
      var u := Step(v, events[1..][0]);
      ExecOne(v, events[1..]);
      ScreeningOf(v, id, q, v.tokens[id].base, a);
      if u.tokens[id].Screened? {
        PassageFromScreen(u, id, q, v.tokens[id].base, a);
        assert events[1..][1..] == Passage(id, q, a)[3..];
      } else {
        OverEnds(u, id);
        OverStays(u, id, events[1..][1..]);
      }
    } else {
      OverEnds(v, id);
      OverStays(v, id, events[1..]);
    }
  }

  lemma OverEnds(w: World, id: nat)
    requires Over(w, id)
    ensures Ended(w.state, w.tokens[id]) == (w.state, w.tokens[id])
  {
    hide Commit, RecordUncertainty;
  }

  lemma Snapping(w: World, id: nat, q: Request, a: Answers)
    requires TokenAt(w, id) == Some(Gated(q))
    ensures var v := Step(w, Snapshot(id));
            && v.state == w.state && TokenAt(v, id) == Some(SnapshotToken(w.state, q))
            && (v.tokens[id].Snapped? ==> v.tokens[id].q == q)
            && (!v.tokens[id].Snapped? ==> Over(v, id) && Prepared(w.state, q, a) == v.tokens[id])
            && (v.tokens[id].Snapped? ==> Prepared(w.state, q, a) == FromBase(w.state, q, v.tokens[id].base, a))
  {
    hide BindingStep, SaveStep, LoadStep, RestartStep, EnvironmentStep;
    hide PlanAndApply, Screen, ValidIdentifier;
  }

  lemma ScreeningOf(w: World, id: nat, q: Request, base: PortRecord, a: Answers)
    requires TokenAt(w, id) == Some(Snapped(q, base))
    ensures var v := Step(w, Screening(id));
            && v.state == w.state && TokenAt(v, id) == Some(ScreenToken(w.state, q, base))
            && (v.tokens[id].Screened? ==> v.tokens[id] == Screened(q, base))
            && (!v.tokens[id].Screened? ==> Over(v, id))
  {
    hide BindingStep, SaveStep, LoadStep, RestartStep, EnvironmentStep;
    hide Screen, ValidIdentifier;
  }

  lemma PassageFromScreen(w: World, id: nat, q: Request, base: PortRecord, a: Answers)
    requires TokenAt(w, id) == Some(Screened(q, base))
    ensures var v := Exec(w, Passage(id, q, a)[3..]);
            var (state, t) := Ended(w.state, PlanAndApply(w.state, q, base, a));
            v.state == state && TokenAt(v, id) == Some(t)
  {
    hide Step, Over, Ended, PlanToken, ApplyToken, ResolveToken;
    var events := Passage(id, q, a)[3..];
    ExecOne(w, events);
    ResolvingOf(w, id, q, base);
    var v := Step(w, events[0]);
    ExecOne(v, events[1..]);
    PlanningOf(v, id, ResolveToken(w.state, q, base), a);
    var u := Step(v, events[1..][0]);
    if u.tokens[id].Planned? {
      var plan := u.tokens[id].plan;
      ExecOne(u, events[1..][1..]);
      ApplyingOf(u, id, q, base, plan, a);
      assert events[1..][1..][1..] == Passage(id, q, a)[6..];
      PassageEnds(Step(u, events[1..][1..][0]), id, q, a);
    } else {
      OverEnds(u, id);
      OverStays(u, id, events[1..][1..]);
    }
  }

  lemma ResolvingOf(w: World, id: nat, q: Request, base: PortRecord)
    requires TokenAt(w, id) == Some(Screened(q, base))
    ensures var v := Step(w, Resolving(id));
            v.state == w.state && TokenAt(v, id) == Some(ResolveToken(w.state, q, base))
    ensures ResolveToken(w.state, q, base).Resolved? && ResolveToken(w.state, q, base).q == q
    ensures ResolveToken(w.state, q, base).base == base
  {
    hide BindingStep, SaveStep, LoadStep, RestartStep, EnvironmentStep;
    hide ValidIdentifier;
  }

  lemma PlanningOf(w: World, id: nat, t: Token, a: Answers)
    requires TokenAt(w, id) == Some(t) && t.Resolved?
    ensures var v := Step(w, Event.Planning(id, a.provider, a.looksIdentical, a.sameEvidence, a.note));
            && v.state == w.state
            && TokenAt(v, id) == Some(PlanToken(w.state, t, a.provider, a.looksIdentical, a.sameEvidence, a.note))
            && (v.tokens[id].Planned? ==> v.tokens[id].q == t.q && v.tokens[id].base == t.base)
            && (!v.tokens[id].Planned? ==> Over(v, id))
  {
    hide BindingStep, SaveStep, LoadStep, RestartStep, EnvironmentStep;
    hide Build, Prepare, ResolveCapabilities, DeviceGate, ValidIdentifier;
  }

  lemma ApplyingOf(w: World, id: nat, q: Request, base: PortRecord, plan: MutationPlan, a: Answers)
    requires TokenAt(w, id) == Some(Planned(q, base, plan))
    ensures var v := Step(w, Applying(id, a.reply));
            && v.state == w.state && TokenAt(v, id) == Some(ApplyToken(w.state, Planned(q, base, plan), a.reply))
            && (v.tokens[id].Ready? || v.tokens[id].Doubting? || Over(v, id))
  {
    hide BindingStep, SaveStep, LoadStep, RestartStep, EnvironmentStep;
    hide Settle, ValidIdentifier;
  }

  lemma PassageEnds(w: World, id: nat, q: Request, a: Answers)
    requires id in w.tokens && (w.tokens[id].Ready? || w.tokens[id].Doubting? || Over(w, id))
    ensures var v := Exec(w, Passage(id, q, a)[6..]);
            var (state, t) := Ended(w.state, w.tokens[id]);
            v.state == state && TokenAt(v, id) == Some(t)
  {
    hide Step, Commit, RecordUncertainty;
    var events := Passage(id, q, a)[6..];
    assert events == [Committing(id), RecordingDoubt(id)];
    ExecOne(w, events);
    LastRegions(w, id);
    var v := Step(w, Committing(id));
    assert events[1..] == [RecordingDoubt(id)];
    ExecOne(v, events[1..]);
    assert events[1..][1..] == [];
    if Over(v, id) {
      OverStep(v, RecordingDoubt(id));
    }
  }

  lemma LastRegions(w: World, id: nat)
    requires id in w.tokens
    ensures w.tokens[id].Ready? ==>
              var v := Step(w, Committing(id));
              Over(v, id) && (v.state, v.tokens[id]) == Ended(w.state, w.tokens[id])
    ensures !w.tokens[id].Ready? ==> Step(w, Committing(id)) == w
    ensures w.tokens[id].Doubting? ==>
              var v := Step(w, RecordingDoubt(id));
              Over(v, id) && (v.state, v.tokens[id]) == Ended(w.state, w.tokens[id])
  {
    hide BindingStep, SaveStep, LoadStep, RestartStep, EnvironmentStep;
    hide Commit, RecordUncertainty;
  }

  // -------------------------------------------------------------------------
  // A binding is a run
  // -------------------------------------------------------------------------

  /** The three regions of a fresh binding back to back are the uninterrupted binding. */
  lemma BindingIsUninterrupted(w: World, id: nat, b: Binding, provider: Provider)
    requires id !in w.binds
    ensures var v := Exec(w, [BindingPort(id, b), InsertingPort(id, provider), AttachingDevice(id)]);
            var (state, code) := BindPort(w.state, b, provider);
            v.state == state && BindAt(v, id) == Some(Concluded(b, code))
  {
    hide Step, InsertPort, AttachDevice;
    var events := [BindingPort(id, b), InsertingPort(id, provider), AttachingDevice(id)];
    var cleared := Step(w, events[0]);
    var inserted := Step(cleared, events[1]);
    assert events[1..] == [InsertingPort(id, provider), AttachingDevice(id)];
    assert events[1..][1..] == [AttachingDevice(id)] && events[1..][1..][1..] == [];
    InsertionRefused(w.state, b, provider);
    ExecOne(w, events);
    ExecOne(cleared, events[1..]);
    ExecOne(inserted, events[1..][1..]);
    ClearingOf(w, id, b);
    InsertingOf(cleared, id, provider);
    AttachingOf(inserted, id);
  }

  lemma ClearingOf(w: World, id: nat, b: Binding)
    requires id !in w.binds
    ensures var v := Step(w, BindingPort(id, b)); v.state == w.state && BindAt(v, id) == Some(ClearToken(w.state, b))
  {
    hide MutationStep, SaveStep, LoadStep, RestartStep, EnvironmentStep, ClearToken;
  }

  lemma InsertingOf(w: World, id: nat, provider: Provider)
    requires id in w.binds
    ensures var v := Step(w, InsertingPort(id, provider));
            if w.binds[id].Cleared? then
              var b := w.binds[id].b;
              var (state, code) := InsertPort(w.state, b, provider);
              if code == Ok then v.state == state && BindAt(v, id) == Some(Inserted(b, BoundRecord(b, provider)))
              else v.state == w.state && BindAt(v, id) == Some(Concluded(b, code))
            else v == w
  {
    hide MutationStep, SaveStep, LoadStep, RestartStep, EnvironmentStep, InsertPort, BoundRecord, ClearToken, AttachStep;
    hide ValidIdentifier, Consistent;
  }

  lemma AttachingOf(w: World, id: nat)
    requires id in w.binds
    ensures var v := Step(w, AttachingDevice(id));
            if w.binds[id].Inserted? then
              var (state, code) := AttachDevice(w.state, w.binds[id].b);
              v.state == state && BindAt(v, id) == Some(Concluded(w.binds[id].b, code))
            else v == w
  {
    hide MutationStep, SaveStep, LoadStep, RestartStep, EnvironmentStep, AttachDevice;
  }

  lemma InsertionRefused(s: State, b: Binding, provider: Provider)
    ensures InsertPort(s, b, provider).1 != Ok ==> InsertPort(s, b, provider).0 == s
  {
    hide BoundRecord, PortRecord.Valid, ValidIdentifier, Consistent;
  }

  // -------------------------------------------------------------------------
  // A load is a run
  // -------------------------------------------------------------------------

  /** The four regions of a fresh load back to back recover the engine as the uninterrupted recovery
      does. */
  lemma LoadIsUninterrupted(w: World, id: nat)
    requires id !in w.loads && w.disk.Some?
    ensures var v := Exec(w, [OpeningContainer(id), RestoringProfiles(id), RestoringAuthority(id), RestoringRecords(id)]);
            var (state, code) := Recover(w.state, w.disk.value);
            v.state == state && LoadAt(v, id) == Some(Loaded(code))
  {
    hide Step, RecoverProfiles, RecoverTables, RecoverRecords, RecoveryRefusal, ValidIdentifier, Consistent;
    var events := [OpeningContainer(id), RestoringProfiles(id), RestoringAuthority(id), RestoringRecords(id)];
    var a := Step(w, events[0]);
    var b := Step(a, events[1]);
    var c := Step(b, events[2]);
    FourSteps(w, events);
    OpeningOf(w, id);
    RestoringOf(a, id);
    RestoringOf(b, id);
    RestoringOf(c, id);
  }

  lemma FourSteps(w: World, events: seq<Event>)
    requires |events| == 4
    ensures Exec(w, events) == Step(Step(Step(Step(w, events[0]), events[1]), events[2]), events[3])
  {
    hide Step;
    var a := Step(w, events[0]);
    var b := Step(a, events[1]);
    var c := Step(b, events[2]);
    ExecOne(w, events);
    ExecOne(a, events[1..]);
    ExecOne(b, events[1..][1..]);
    ExecOne(c, events[1..][1..][1..]);
  }

  lemma OpeningOf(w: World, id: nat)
    requires id !in w.loads
    ensures Step(w, OpeningContainer(id)) == w.(loads := w.loads[id := OpenToken(w.state, w.disk)])
  {
    hide MutationStep, BindingStep, SaveStep, EnvironmentStep, RestartStep, OpenToken, RestoreProfilesStep;
    hide RestoreAuthorityStep, RestoreRecordsStep;
  }

  lemma RestoringOf(w: World, id: nat)
    requires id in w.loads
    ensures Step(w, RestoringProfiles(id))
            == if w.loads[id].Opened? then RestoreProfilesStep(w, id, w.loads[id].image) else w
    ensures Step(w, RestoringAuthority(id))
            == if w.loads[id].ProfilesRestored? then RestoreAuthorityStep(w, id, w.loads[id].image) else w
    ensures Step(w, RestoringRecords(id))
            == if w.loads[id].AuthorityRestored? then RestoreRecordsStep(w, id, w.loads[id].image) else w
  {
    hide MutationStep, BindingStep, SaveStep, EnvironmentStep, RestartStep, OpenToken, RestoreProfilesStep;
    hide RestoreAuthorityStep, RestoreRecordsStep;
  }
}
