/** The order of saves: what the disk holds, and when a write takes it back to an older state. */
module SaveOrder {
  import opened Basics
  import opened Records
  import opened Profiles
  import opened Planning
  import opened Engine
  import opened Recovery
  import opened Safety
  import opened Runs
  import opened RunLaws
  import opened RunTheorems
  import opened Durability

  // -------------------------------------------------------------------------
  // Where an image comes from
  // -------------------------------------------------------------------------

  /** The world before the event at position `i` of a run. */
  ghost function At(w: World, events: seq<Event>, i: nat): World
    requires i <= |events|
  {
    Exec(w, events[..i])
  }

  /** The save `id` read its records at position `j`, at the generation its image carries. */
  ghost predicate ReadAt(w: World, events: seq<Event>, j: nat, id: nat, image: PersistedState) {
    && j < |events| && events[j].ReadingRecords? && events[j].id == id
    && image.engineGeneration == At(w, events, j).state.generation
  }

  /** The save wrote its image at position `k`, and nothing was written since. */
  ghost predicate WrittenAt(w: World, events: seq<Event>, k: nat, id: nat, image: PersistedState) {
    && k < |events| && events[k] == Writing(id, true)
    && SaveAt(At(w, events, k), id) == Some(Gathered(image))
    && forall i :: k < i <= |events| ==> At(w, events, i).disk == Some(image)
  }

  ghost predicate Gatherings(w: World, events: seq<Event>, id: nat, image: PersistedState) {
    exists j :: ReadAt(w, events, j, id, image)
  }

  ghost predicate LastWrite(w: World, events: seq<Event>, image: PersistedState) {
    exists j, k, id :: j < k && ReadAt(w, events, j, id, image) && WrittenAt(w, events, k, id, image)
  }

  lemma AtLast(w: World, events: seq<Event>, e: Event)
    ensures forall i :: 0 <= i <= |events| ==> At(w, events + [e], i) == At(w, events, i)
    ensures At(w, events, |events|) == Exec(w, events)
    ensures At(w, events + [e], |events| + 1) == Exec(w, events + [e]) == Step(Exec(w, events), e)
  {
    hide Step, Exec;
    forall i | 0 <= i <= |events| ensures At(w, events + [e], i) == At(w, events, i) {
      assert (events + [e])[..i] == events[..i];
    }
    assert events[..|events|] == events && (events + [e])[..|events| + 1] == events + [e];
    ExecOn(w, events, e);
  }

  lemma ReadStays(w: World, events: seq<Event>, e: Event, j: nat, id: nat, image: PersistedState)
    requires ReadAt(w, events, j, id, image)
    ensures ReadAt(w, events + [e], j, id, image)
  {
    hide At, Step, Exec;
    AtLast(w, events, e);
  }

  lemma ReadLast(w: World, events: seq<Event>, e: Event, image: PersistedState)
    requires e.ReadingRecords? && image.engineGeneration == Exec(w, events).state.generation
    ensures ReadAt(w, events + [e], |events|, e.id, image)
  {
    hide At, Step, Exec;
    AtLast(w, events, e);
  }

  lemma WriteStays(w: World, events: seq<Event>, e: Event, k: nat, id: nat, image: PersistedState)
    requires WrittenAt(w, events, k, id, image) && Step(Exec(w, events), e).disk == Exec(w, events).disk
    ensures WrittenAt(w, events + [e], k, id, image)
  {
    hide At, Step, Exec;
    AtLast(w, events, e);
    assert At(w, events, |events|).disk == Some(image);
    forall i | k < i <= |events| + 1 ensures At(w, events + [e], i).disk == Some(image) {
    }
  }

  lemma WriteLast(w: World, events: seq<Event>, id: nat, image: PersistedState)
    requires SaveAt(Exec(w, events), id) == Some(Gathered(image))
    requires Step(Exec(w, events), Writing(id, true)).disk == Some(image)
    ensures WrittenAt(w, events + [Writing(id, true)], |events|, id, image)
  {
    hide At, Step, Exec;
    AtLast(w, events, Writing(id, true));
  }

  lemma {:induction false} ExecOn(w: World, events: seq<Event>, e: Event)
    ensures Exec(w, events + [e]) == Step(Exec(w, events), e)
    decreases |events|
  {
    hide Step;
    if events == [] {
      assert events + [e] == [e] && [e][1..] == [];
    } else {
      assert (events + [e])[0] == events[0] && (events + [e])[1..] == events[1..] + [e];
      ExecOn(Step(w, events[0]), events[1..], e);
    }
  }

  /** A save that has gathered its image has read its records somewhere in the run. */
  lemma {:induction false} GatheredWasRead(w: World, events: seq<Event>, id: nat, image: PersistedState)
    requires w.saves == map[] && SaveAt(Exec(w, events), id) == Some(Gathered(image))
    ensures Gatherings(w, events, id, image)
    decreases |events|
  {
    hide Step, Exec, ReadAt;
    if events == [] {
      ExecNone(w);
    } else {
      var front, e := events[..|events| - 1], events[|events| - 1];
      assert events == front + [e];
      ExecOn(w, front, e);
      GatheringStep(Exec(w, front), e, id);
      if SaveAt(Exec(w, front), id) == SaveAt(Exec(w, events), id) {
        GatheredWasRead(w, front, id, image);
        var j :| ReadAt(w, front, j, id, image);
        ReadStays(w, front, e, j, id, image);
      } else {
        ReadLast(w, front, e, image);
      }
    }
  }

  lemma ExecNone(w: World)
    ensures Exec(w, []) == w
  {
    hide Step;
  }

  /** Only its record read gathers a save, at the generation it finds. */
  lemma GatheringStep(w: World, e: Event, id: nat)
    requires id in Step(w, e).saves && Step(w, e).saves[id].Gathered?
    ensures SaveAt(w, id) == SaveAt(Step(w, e), id)
            || (e.ReadingRecords? && e.id == id && Step(w, e).saves[id].image.engineGeneration == w.state.generation)
  {
    hide Step;
    if e.Restarting? {
      RestartForgetsSaves(w, e.config, e.loads);
    } else if e.OfSave() && e.id == id {
      OwnSaveStep(w, e);
    } else if id in w.saves {
      SaveUntouched(w, e, id);
    } else if e.OfSave() {
      OtherSaveSpares(w, e, id);
    } else {
      OtherStepsSpareSaves(w, e);
    }
  }

  lemma RestartForgetsSaves(w: World, config: EngineConfig, loads: bool)
    ensures Step(w, Restarting(config, loads)).saves == map[] && Step(w, Restarting(config, loads)).disk == w.disk
  {
    hide MutationStep, BindingStep, SaveStep, LoadStep, EnvironmentStep, Recover;
  }

  lemma OwnSaveStep(w: World, e: Event)
    requires e.OfSave() && e.id in Step(w, e).saves && Step(w, e).saves[e.id].Gathered?
    ensures SaveAt(w, e.id) == SaveAt(Step(w, e), e.id)
            || (e.ReadingRecords? && Step(w, e).saves[e.id].image.engineGeneration == w.state.generation)
  {
    hide MutationStep, BindingStep, LoadStep, RestartStep, EnvironmentStep, WalksRecords, WalksDevices, WalksPublishers, Lists;
    hide ValidIdentifier, Consistent, AllValid;
  }

  /** Only a successful write of what a save has gathered changes the disk. */
  lemma DiskStep(w: World, e: Event)
    ensures Step(w, e).disk == w.disk
            || (e.Writing? && e.succeeds && e.id in w.saves && w.saves[e.id].Gathered?
                && Step(w, e).disk == Some(w.saves[e.id].image))
  {
    hide Step;
    if e.Restarting? {
      RestartForgetsSaves(w, e.config, e.loads);
    } else if e.OfSave() {
      SaveStepDisk(w, e);
    } else {
      OtherStepsSpareSaves(w, e);
    }
  }

  lemma SaveStepDisk(w: World, e: Event)
    requires e.OfSave()
    ensures if e.Writing? && e.succeeds && e.id in w.saves && w.saves[e.id].Gathered? && AllValid(w.saves[e.id].image.records)
            then Step(w, e).disk == Some(w.saves[e.id].image)
            else Step(w, e).disk == w.disk
  {
    hide MutationStep, BindingStep, LoadStep, RestartStep, EnvironmentStep, WalksRecords, WalksDevices, WalksPublishers, Lists;
    hide ValidIdentifier, Consistent, AllValid;
  }

  /** Whatever is on disk was gathered and written by one save of the run, and not overwritten since. */
  lemma {:induction false} DiskIsLastWrite(w: World, events: seq<Event>, image: PersistedState)
    requires w.saves == map[] && w.disk == None && Exec(w, events).disk == Some(image)
    ensures LastWrite(w, events, image)
    decreases |events|
  {
    hide Step, Exec, ReadAt, WrittenAt;
    if events == [] {
      ExecNone(w);
    } else {
      var front, e := events[..|events| - 1], events[|events| - 1];
      assert events == front + [e];
      ExecOn(w, front, e);
      DiskStep(Exec(w, front), e);
      if Exec(w, events).disk == Exec(w, front).disk {
        DiskIsLastWrite(w, front, image);
        var j, k, id :| j < k && ReadAt(w, front, j, id, image) && WrittenAt(w, front, k, id, image);
        ReadStays(w, front, e, j, id, image);
        WriteStays(w, front, e, k, id, image);
      } else {
        GatheredWasRead(w, front, e.id, image);
        var j :| ReadAt(w, front, j, e.id, image);
        ReadIsInside(w, front, j, e.id, image);
        ReadStays(w, front, e, j, e.id, image);
        WriteLast(w, front, e.id, image);
      }
    }
  }

  lemma ReadIsInside(w: World, events: seq<Event>, j: nat, id: nat, image: PersistedState)
    requires ReadAt(w, events, j, id, image)
    ensures j < |events|
  {
    hide At;
  }

  // -------------------------------------------------------------------------
  // When a write goes back
  // -------------------------------------------------------------------------

  /** In every run: a successful write takes the engine generation on disk back exactly when the save
      whose image is there had read its records at a later generation than the one that writes. */
  lemma WriteGoesBackExactly(config: EngineConfig, events: seq<Event>, w: World, id: nat) returns (mine: nat, theirs: nat)
    requires Reached(config, events, w) && w.disk.Some?
    requires id in w.saves && w.saves[id].Gathered? && AllValid(w.saves[id].image.records)
    ensures ReadAt(Start(config), events, mine, id, w.saves[id].image)
    ensures exists k, other :: theirs < k && ReadAt(Start(config), events, theirs, other, w.disk.value)
                               && WrittenAt(Start(config), events, k, other, w.disk.value)
    ensures var v := Step(w, Writing(id, true));
            && v.disk == Some(w.saves[id].image)
            && (v.disk.value.engineGeneration < w.disk.value.engineGeneration
                <==> At(Start(config), events, mine).state.generation < At(Start(config), events, theirs).state.generation)
    ensures (forall i :: 0 <= i < |events| ==> !events[i].Recovers())
            && w.saves[id].image.engineGeneration < w.disk.value.engineGeneration ==>
              mine < theirs
  {
    hide Step, Exec, LawfulRun, At, AllValid;
    var image := w.saves[id].image;
    GatheredWasRead(Start(config), events, id, image);
    mine :| ReadAt(Start(config), events, mine, id, image);
    DiskIsLastWrite(Start(config), events, w.disk.value);
    var k, other: nat;
    theirs, k, other :| theirs < k && ReadAt(Start(config), events, theirs, other, w.disk.value)
                        && WrittenAt(Start(config), events, k, other, w.disk.value);
    SaveStepDisk(w, Writing(id, true));
    if (forall i :: 0 <= i < |events| ==> !events[i].Recovers()) && theirs <= mine {
      StartIsGood(config);
      GenerationsInOrder(Start(config), events, theirs, mine);
    }
  }

  /** Without recovery the engine generation never goes back, so the save on disk read later. */
  lemma {:induction false} GenerationOnlyAdvances(w: World, events: seq<Event>)
    requires Inv(w) && LawfulRun(w, events) && forall i :: 0 <= i < |events| ==> !events[i].Recovers()
    ensures w.state.generation <= Exec(w, events).state.generation
    decreases |events|
  {
    hide Inv, Step, Lawful;
    if events != [] {
      StepKeepsInv(w, events[0]);
      GenerationOnlyAdvances(Step(w, events[0]), events[1..]);
    }
  }

  lemma {:induction false} GenerationsInOrder(w: World, events: seq<Event>, i: nat, j: nat)
    requires i <= j <= |events| && forall k :: 0 <= k < |events| ==> !events[k].Recovers()
    requires Inv(w) && LawfulRun(w, events)
    ensures At(w, events, i).state.generation <= At(w, events, j).state.generation
    decreases i
  {
    hide Inv, Step, Lawful, Exec;
    if i == 0 {
      ExecNone(w);
      LawfulPrefix(w, events, j);
      GenerationOnlyAdvances(w, events[..j]);
    } else {
      var next := Step(w, events[0]);
      StepKeepsInv(w, events[0]);
      GenerationsInOrder(next, events[1..], i - 1, j - 1);
      AtLater(w, events, i);
      AtLater(w, events, j);
    }
  }

  lemma AtLater(w: World, events: seq<Event>, i: nat)
    requires 0 < i <= |events|
    ensures At(w, events, i) == At(Step(w, events[0]), events[1..], i - 1)
  {
    hide Step;
    assert events[..i][1..] == events[1..][..i - 1];
  }

  lemma {:induction false} LawfulPrefix(w: World, events: seq<Event>, j: nat)
    requires LawfulRun(w, events) && j <= |events|
    ensures LawfulRun(w, events[..j])
    decreases j
  {
    hide Step, Lawful;
    if j > 0 {
      assert events[..j][1..] == events[1..][..j - 1];
      LawfulPrefix(Step(w, events[0]), events[1..], j - 1);
    }
  }

  // -------------------------------------------------------------------------
  // When no write does
  // -------------------------------------------------------------------------

  /** The disk is behind the engine and behind the one save that has gathered, if any. */
  predicate DiskBehind(w: World) {
    && (w.disk.Some? ==> w.disk.value.engineGeneration <= w.state.generation)
    && (forall id :: id in w.saves && w.saves[id].Gathered? ==>
          && w.saves[id].image.engineGeneration <= w.state.generation
          && (w.disk.Some? ==> w.disk.value.engineGeneration <= w.saves[id].image.engineGeneration))
    && (forall a, b :: a in w.saves && b in w.saves && w.saves[a].Gathered? && w.saves[b].Gathered? ==> a == b)
  }

  /** What is on disk is not replaced by an older state. */
  predicate DiskKept(w: World, v: World) {
    w.disk.Some? ==> v.disk.Some? && w.disk.value.engineGeneration <= v.disk.value.engineGeneration
  }

  /** No save reads its records while another is between its record read and its write. */
  predicate Alone(w: World, e: Event) {
    e.ReadingRecords? ==> forall id :: id in w.saves && w.saves[id].Gathered? ==> id == e.id
  }

  ghost predicate AloneRun(w: World, events: seq<Event>)
    decreases |events|
  {
    hide Step, Alone;
    events != [] ==> Alone(w, events[0]) && AloneRun(Step(w, events[0]), events[1..])
  }

  lemma DiskStaysBehind(w: World, e: Event)
    requires Inv(w) && Lawful(w, e) && !e.Recovers() && Alone(w, e) && DiskBehind(w)
    ensures DiskBehind(Step(w, e)) && DiskKept(w, Step(w, e))
  {
    hide Inv, Step, Lawful, RunLaws.RecordsStep, AllValid;
    StepKeepsInv(w, e);
    DiskStep(w, e);
    forall id | id in Step(w, e).saves && Step(w, e).saves[id].Gathered?
      ensures SaveAt(w, id) == SaveAt(Step(w, e), id)
              || (e.ReadingRecords? && e.id == id && Step(w, e).saves[id].image.engineGeneration == w.state.generation)
    {
      GatheringStep(w, e, id);
    }
    if e.OfSave() {
      SaveLeavesState(w, e);
    }
    if e.Writing? && e.id in w.saves && w.saves[e.id].Gathered? {
      WritingEnds(w, e);
    }
    StaysBehind(w, e, Step(w, e));
  }

  lemma StaysBehind(w: World, e: Event, v: World)
    requires DiskBehind(w) && Alone(w, e) && w.state.generation <= v.state.generation
    requires e.ReadingRecords? ==> v.state == w.state
    requires v.disk == w.disk
             || (e.Writing? && e.id in w.saves && w.saves[e.id].Gathered? && v.disk == Some(w.saves[e.id].image)
                 && SaveAt(v, e.id) == Some(SaveToken.Ended))
    requires forall id :: id in v.saves && v.saves[id].Gathered? ==>
               SaveAt(w, id) == SaveAt(v, id)
               || (e.ReadingRecords? && e.id == id && v.saves[id].image.engineGeneration == w.state.generation)
    ensures DiskBehind(v) && DiskKept(w, v)
  {
    hide ValidIdentifier, Consistent;
    forall id | id in v.saves && v.saves[id].Gathered? && SaveAt(w, id) == SaveAt(v, id)
      ensures id in w.saves && w.saves[id] == v.saves[id]
    {
    }
  }

  lemma WritingEnds(w: World, e: Event)
    requires e.Writing? && e.id in w.saves && w.saves[e.id].Gathered?
    ensures SaveAt(Step(w, e), e.id) == Some(SaveToken.Ended)
  {
    hide MutationStep, BindingStep, LoadStep, RestartStep, EnvironmentStep, AllValid, ValidIdentifier, Consistent;
  }

  /** Within one process life, if no save reads its records between the record read and the write of
      another, the engine generation on disk never goes back. */
  lemma {:induction false} DiskNeverGoesBack(w: World, events: seq<Event>)
    requires Inv(w) && DiskBehind(w) && LawfulRun(w, events) && AloneRun(w, events)
    requires forall i :: 0 <= i < |events| ==> !events[i].Recovers()
    ensures DiskBehind(Exec(w, events)) && DiskKept(w, Exec(w, events))
    decreases |events|
  {
    hide Inv, Step, Lawful, DiskBehind, Alone;
    if events != [] {
      DiskStaysBehind(w, events[0]);
      StepKeepsInv(w, events[0]);
      DiskNeverGoesBack(Step(w, events[0]), events[1..]);
    }
  }

  /** A process life begins so: a fresh engine, or one that recovered what is on disk. */
  lemma BeginsBehind(w: World, config: EngineConfig)
    ensures DiskBehind(Start(config))
    ensures w.disk.Some? && Recover(FreshEngine(config), w.disk.value).1 == Ok ==> DiskBehind(Step(w, Restarting(config, true)))
  {
    hide MutationStep, BindingStep, SaveStep, LoadStep, EnvironmentStep, DefineAll, Sort, Refill, RefillDevices;
    hide RefillPublishers, ValidIdentifier, Consistent;
  }
}
