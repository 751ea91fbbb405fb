# Port Fabric: a verified model

Port Fabric governs the configuration of network ports. Many clients mutate per-port records
through an optimistic pipeline: an authority gate, a snapshot, planning, an adapter call and a
compare-and-commit, with no lock held across the phases. Coordinator epochs, publisher fences
and uncertain adapter results interleave with it, and a checksummed container carries the state
across crashes. This project models that engine, the container and the algorithms they rest on,
and proves what holds of every run and every input.

## How the model is laid out

* `Basics`, `Utf8`, `Wording`, `Rates`, `Characteristics`, `Records`, `Lifecycle`,
  `Identifiers`: bytes, counters, text, rates, the structural dimensions of a port, the entities
  and their validation.
* `Crc32`, `Sha256Spec`, `Sha256`, `Profiles` (with `Ordering`): the self-contained algorithms,
  each a loop or a class proved against a definition.
* `Planning`, `PlanningLaws`: the request kinds, the planner of each, the gates around planning
  and the settling of an adapter's answer, and what every planned record keeps.
* `Engine`, `Recovery`, `Safety`: the state of the runtime, what each region under its locks
  does to it, recovery, and the invariant all of them keep.
* `Runs`, `RunLaws`, `RunTheorems`: whole runs. Any number of mutations, bindings, saves and loads are
  in flight as tokens; each region of the pipeline, of a binding, of a save and of a load, and each
  epoch advance, fence, registration and restart, is one step. The theorems quantify over every run
  from a fresh engine. `Incarnations` holds those about fenced publishers, `Replacement` those about
  ports whose parent device was replaced, `Parents` those about live ports and the devices they stand
  on, `LiveLoad` those about loading into a running engine, `SaveOrder` those about the order of saves.
* `Witnesses`, `LoadSteps`, `LoadRuns`, `ParentRuns`: concrete runs, step by step, that show each
  failure the theorems leave room for.
* `Indexes`, `EngineObject`, `Pipeline`: the runtime as an object with its tables and eight
  indexes. Every method is proved to do what the corresponding function of `Engine` or `Recovery`
  says and to keep the indexes equal to a recomputation; the pipeline over the object is proved
  to be one token's passage through the run model.
* `Codec`, `Codes`, `Wire`, `Container`, `Frames`: encodings as functions. A `Put` function
  prepends an encoding to what follows and a `Get` function takes one off, so that the laws of
  nested records compose. `WireIO` and `ContainerIO` hold the bounded writer and reader calls,
  each proved against those functions.
* `Durability`: save, crash and load for every state a run can reach.

## Assumptions

* Attempt identities: one attempt is accepted for one port at most once in a process life, as a
  mutation or as a binding, as the engine remembers only the last. `FreshAttempt` states it of
  accepted commits and insertions only; replays that are refused are part of every run.
  `RunTheorems.ReuseHidesAnUpdate` and `RunTheorems.ReboundHidesAnUpdate` show what happens without it.
* Counters: an ownership counter that a revocation must advance, and the evidence counter an uncertain
  apply must advance, are below their last value at that step (`Headroom`); the successor of the last
  value is itself.
* Adapters answer with a bounded single line of detail (`PlainReply`), as their interface promises.
* The records that a load brings into a running engine overtake the snapshots in flight at that moment,
  or are the very records those were taken of (`LoadOvertakes`). It restricts no snapshot that carries an
  attempt and no mutation that starts later; `LiveLoad` says which mutations a load fails to overtake
  otherwise.
* For `Parents.NothingCrashes` and `Parents.ParentsAreRecorded` only: no load drops the parent device that
  a mutation in flight needs, and no mutation takes its snapshot of a live port whose parent a load has
  dropped (`KeepsParents`). `Parents.CrashesExactly` says what happens otherwise.
* A use of a device generation that is not there is undefined in the source. The model only ends the
  mutation with it (`Crashed`).
* Ownership is required, the default of the configuration.
* Locks are not modelled: each locked region is one step. `begin_epoch` and `fence_publisher`
  hold the authority lock throughout while they take the records lock inside it, and so does the last
  region of `bind_port`.

## What the proofs turned up

* A retirement accepted between the two regions of the port's own binding is erased when the binding is
  taken back: the port can be bound again as an unconfigured one, and the lifecycle index keeps a phantom
  (`Witnesses.RetirementErased`). Outside recovery ports leave the records in no other way (`RunTheorems.LifecycleIsSafe`),
  and the indexes suffer exactly when the port taken back is not unconfigured and unowned
  (`EngineObject.PhantomsExactly`).
* A retirement accepted since the last save is undone by a load into the running engine, even with nothing
  in flight: the port is back, unconfigured (`LoadRuns.RetirementUndone`). After a recovery a port is retired
  exactly when the container has it retired, and gone when the container lacks it
  (`RunTheorems.LifecycleIsSafe`), so retirement lasts over recoveries from containers that know of it
  (`RunTheorems.RetiredForever`).
* A claim that passed its gate before a fence or an epoch advance can commit after it, leaving the
  port owned by a fenced incarnation (`RunTheorems.RevocationStopsExactlyHolders`,
  `Witnesses.ClaimOutlivesFence`).
* A successful apply that loses the commit race records nothing, against README.md:148 of the
  repository (`RunTheorems.LostRaceRecordsNothing`, `Witnesses.RaceLost`).
* Reconciling does not update the device generation a port is bound under, so once the parent device is
  replaced every kind but Reconcile, Supersede and Retire stays refused (`Replacement.ReplacedDeviceGates`),
  and a configured port that is also unowned is out of reach of every request
  (`Replacement.ReplacedAndUnownedIsStuck`), unless a claim had passed the device gate before
  (`Witnesses.ClaimRevivesOrphan`). After a restart a claim passes that gate again exactly when the
  container still has the parent under the generation the port is bound under, or lacks the parent
  (`Replacement.RestartDoesNotHeal`).
* Loading a container into a running engine can hide an update from a mutation in flight
  (`LoadRuns.LiveLoadHidesAnUpdate`). It does so exactly for snapshots of records not mutated since an
  earlier recovery whose counters are those of the loaded record (`LiveLoad.LiveLoadBoundary`).
* Between the authority region and the records region of such a load the old live records stand over the
  devices of the container (`Parents.BetweenTheRegions`). A mutation in flight, or one that starts there,
  then uses a device generation that is not there, for exactly the kinds and records of
  `Parents.CrashesExactly` (`LiveLoad.LiveLoadCrashes`, `ParentRuns.CrashBetweenRegions`); and a mutation
  ready before the load can leave a live port on no recorded device after it (`ParentRuns.LiveOnNoDevice`).
* An epoch advance is not written down by itself, so an incarnation of a crashed process can pass the gate
  of the recovered one (`Incarnations.UnsavedIncarnationReturns`, `ParentRuns.UnsavedAgentReturns`).
* Nothing orders the writes of two saves: a save that read its records before a commit can overwrite one
  that read them after it (`SaveOrder.WriteGoesBackExactly`, `LoadRuns.SaveGoesBack`). It cannot happen while
  no save reads its records between another's record read and write (`SaveOrder.DiskNeverGoesBack`).
* A profile that does not specify an MTU may carry one: it is accepted and saved, and the load that
  follows fails (`Durability.SavedStateReadsBack`, `Witnesses.HiddenMtuIsLost`).
* A port stranded by an uncertain first apply makes every save fail until it is superseded or
  retired (`Durability.StrandedPortBlocksSaving`, `Witnesses.FirstApplyStrands`).
* Evidence that does not know the duplex accepts every duplex, where every other dimension must be
  positively supported (`Records.AcceptedMeansSupported`).
* Decoding admits payloads up to 512 MiB, encoding only 256 MiB (`Container.DecodeThenEncode`).
* The last branch of `register_publisher` is only ever taken for a new publisher
  (`Safety.RegisterPublisherIsSafe`).

## Model
| member | source | states |
|---|---|---|
| RunTheorems.NoLostUpdate | src/engine_support.cpp:307-365 | In every run, a commit that is accepted replaces a record equal in every field to the snapshot its plan was built from, by a record evolved from it under the request's kind, and moves the engine generation on. |
| RunTheorems.OneOfManyCommits | src/engine_support.cpp:307-338 | In every run, of any number of mutations that hold a snapshot of one port at most one ever commits, over any continuation of the process life, also when two of them carry the same attempt, and also over loads for every snapshot that carries an attempt or an owner. |
| RunTheorems.ReplayIsAnswered | src/engine_support.cpp:312-327 | A replay in flight while its attempt commits is told so at its own commit; one still without a snapshot is answered from the record, as idempotent or as a conflict by its payload, or, once the port is retired, as already current or retired by its kind. |
| RunTheorems.ReuseHidesAnUpdate | src/engine_mutation.cpp:864-890 | Why the attempt assumption is needed: two drift observations, the second under the attempt the record already carried, restore all six compared fields and not the record. |
| RunTheorems.ReboundHidesAnUpdate | src/engine_mutation.cpp:1384-1426 | And for bindings: a port bound again under the attempt of a binding taken back has the fingerprint of its first record under another device generation. |
| LoadRuns.LiveLoadHidesAnUpdate | src/engine_persistence.cpp:135-180 | A run: a claim holds a snapshot of a recovered port, a drift is observed, saved and loaded into the running engine, and the claim then replaces a record that is not its snapshot. |
| LiveLoad.LoadedMatches | src/engine_persistence.cpp:139-173 | A loaded record passes for a snapshot if and only if the snapshot carries no attempt and its five counters are those recovery gives the saved record. |
| LiveLoad.LiveLoadBoundary | src/engine_persistence.cpp:135-191 | In every run, of the mutations ready when the records region of a load runs exactly those whose snapshot is so exposed commit afterwards; the commit hides an update exactly when the loaded record is not the snapshot. |
| LiveLoad.LiveLoadOfAnotherPort | src/engine_persistence.cpp:135-191 | A mutation ready on a port that the container lacks cannot commit right after the load. |
| Parents.CrashesExactly | src/engine_mutation.cpp:218-425 | For every kind, every provider and every device: planning uses a device generation that is not there (lines 248 and 393) if and only if the device is not recorded, the port is live and configured, evidence is found, and the request reconfigures the port itself, assigns a defined profile or releases a bound one. |
| LiveLoad.LiveLoadCrashes | src/engine_mutation.cpp:218-425 | A mutation past its screening when the authority region of a load runs ends so if and only if the container lacks the parent device of its snapshot and the conditions above hold, for every kind. |
| Parents.BetweenTheRegions | src/engine_persistence.cpp:107-135 | Between the authority and records regions of a load the records are as before, and the parent of a port is recorded if and only if the container has it. |
| ParentRuns.CrashBetweenRegions | src/engine_mutation.cpp:236-250 | A run: a load stands between those regions and nothing holds a snapshot; a publisher that registers itself under the new epoch has claimed the live port, and its reconfiguration uses a device generation that is not there. |
| ParentRuns.LiveOnNoDevice | src/engine_persistence.cpp:107-191 | A run: a first configuration is ready when a container without the parent device is loaded to the end; its commit is accepted and leaves a live port whose parent is not recorded. |
| LiveLoad.LiveLoadOvertakesConfigured | src/engine_persistence.cpp:158-168 | Loading a version of a configured, not retired port whose lifecycle counter is not behind a snapshot's always overtakes that snapshot. |
| RunTheorems.LostRaceRecordsNothing | src/engine_support.cpp:322-355 | In every run, a mutation whose adapter reported success and whose record moved before its commit ends refused, as idempotent if its attempt is there, as unknown if the port is gone and as stale otherwise, with an unchanged state, and over any continuation of the process life records nothing; the documentation (README.md:148) promises uncertainty evidence. |
| Witnesses.RaceLost | src/engine_support.cpp:307-338 | A run: two first configurations of one port are applied with success, one commits, and the other is refused as stale without a trace. |
| RunTheorems.CommitterHoldsThePort | src/engine_mutation.cpp:955-1010 | In every run, an accepted commit that is no claim acts on an unowned record or on one held, at that moment, by exactly the publisher, boot and epoch of the request. |
| RunTheorems.RevokedInFlight | src/engine.cpp:310-332 | Once an effective fence of its incarnation, or an epoch advance, has happened after its snapshot, a non-claim mutation on an owned port can never be committed, after any continuation of the process life, loads included. |
| RunTheorems.RevocationStopsExactlyHolders | src/engine_support.cpp:88-138 | A mutation that could commit just before a revocation still can just after it if and only if its record is not one the revocation takes from an owner; so a claim in flight can install an incarnation that was just fenced. |
| RunTheorems.LifecycleIsSafe | src/engine_mutation.cpp:125-777 | In every run and step. Outside recovery: a port leaves the records if and only if its own binding is taken back; otherwise it enters the live states only by a committed Reconcile, or from Unconfigured by a committed Configure, and a retired port stays retired, unowned and with its configuration frozen. After a recovery, by load or restart: a port is there if and only if the container has it, retired if and only if it was saved retired, unconfigured if and only if it was saved so, with the saved configuration, neither live nor owned. |
| LoadRuns.RetirementUndone | src/engine_persistence.cpp:135-180 | A run: a port is bound, saved and retired, and a load with nothing in flight brings it back as unconfigured. |
| Witnesses.RetirementErased | src/engine_mutation.cpp:1422-1456 | A run: a retirement is accepted between the two regions of the binding, the binding is taken back, the port is gone with its index entry stale, and is bound again as unconfigured. |
| RunTheorems.RetiredForever | src/engine_support.cpp:339-348 | Retirement, no owner and the frozen configuration last through any number of steps, loads, restarts and late adapter results included, as long as the binding of the port is not taken back and every container recovered from has the port retired under that configuration. |
| RunTheorems.RecoveryLeavesNothingLive | src/engine_persistence.cpp:135-180 | After a restart that loads, or the records region of a load, every record is one that was saved, rewritten: none is live, none is owned and none remembers an attempt. |
| RunTheorems.CountersOnlyAdvance | src/engine_mutation.cpp:63-91 | Over any stretch of a run without recovery in which the binding of the port is not taken back, its configuration, administrative, lifecycle, ownership and capability counters never decrease, and its device and topology counters never change. |
| RunTheorems.RecordsAreSound | src/record.cpp:164-224 | Every reachable record, between the regions of a load too, validates or is the one stranded shape; a committed configuration carries the record's generation; Applied and Verified evidence names it; a live port is supported by its bound evidence. |
| Parents.ParentsAreRecorded | src/engine_mutation.cpp:1012-1065 | In every run that keeps parents, the parent device of every live port is recorded, but between the authority and records regions of a load. |
| Parents.StepKeepsParents | src/engine_mutation.cpp:1012-1065 | Every kind of step, regions of loads included, keeps the invariant behind both: mutations that are live, or will make their port so, have their parent recorded. |
| RunTheorems.StrandedPortsOnlyFence | src/engine_support.cpp:240-251 | From a never-configured port fenced by an uncertain first apply, only Supersede and Retire are ever accepted. |
| Parents.NothingCrashes | src/engine_mutation.cpp:218-425 | In every run that keeps parents, the unchecked dereferences of the parent device generation (lines 248 and 393) are never reached without one. |
| RunTheorems.UncertainApplyOnlyFences | src/engine_support.cpp:218-271 | Recording an unknown or mismatched apply changes no committed configuration, takes the port out of service and touches no other port. |
| RunTheorems.FailedApplyChangesNothing | src/engine_mutation.cpp:1180-1192 | A definite adapter failure ends the mutation with ApplyFailed and an unchanged state, and over any continuation of the process life it neither commits nor records anything. |
| Incarnations.EpochFencesEveryone | src/engine.cpp:237-260 | After an epoch advance every publisher known before is refused by the authority gate, whatever boot it presents, through any continuation, restarts included, that neither registers it afresh nor recovers from a container without it. |
| Incarnations.RecoveryFencesEveryone | src/engine_persistence.cpp:107-132 | After a successful recovery of the authority tables, into a new process or a running one, so is every publisher the container knows. |
| Incarnations.UnsavedIncarnationReturns | src/engine_support.cpp:15-41 | An incarnation that passed the gate before a crash passes it after recovery if and only if the recovered epoch is the one it was in, the container does not know its publisher, and publishers register automatically with room left. |
| ParentRuns.UnsavedAgentReturns | src/engine_support.cpp:15-41 | A run: the engine is saved, its epoch advances, an agent registers itself by a request and passes the gate, the process crashes, and the recovered one, in the same epoch, lets the same agent pass. |
| Witnesses.ClaimOutlivesFence | src/engine_support.cpp:322-363 | A run: a claim past its gate when its incarnation is fenced commits, and the port is owned by a fenced incarnation. |
| Incarnations.FencedForever | src/engine_support.cpp:9-54 | While a publisher entry is fenced no incarnation of it passes the gate; only a registration under a different boot, or a recovery that does not know it, ends that. |
| Incarnations.UnfencedIsCurrent | src/engine.cpp:262-308 | In every run, an unfenced publisher entry carries the current coordinator epoch. |
| Replacement.ReplacedDeviceGates | src/engine_mutation.cpp:1029-1065 | In every run, once the parent device is recorded under a newer generation than the port is bound under, then over any continuation in which the port stays and no load replaces the device table it remains so, and a mutation that resolves its device passes the device gate exactly when it is Reconcile, Supersede or Retire. |
| Replacement.ReplacedAndUnownedIsStuck | src/engine_mutation.cpp:955-1065 | In every run, a configured, unowned port whose parent device was replaced, with no mutation past the device gate on a standing snapshot, stays so over any continuation in which it stays and no load replaces the device table, and nothing is ever committed to it. |
| Replacement.ReplacementOvertakesNothing | src/engine_mutation.cpp:1012-1065 | A mutation that has resolved its device takes each remaining region with the same outcome whether or not a device is replaced meanwhile. |
| Replacement.RestartDoesNotHeal | src/engine_persistence.cpp:107-180 | Recovered from a container, a configured port is so out of reach from the start if and only if the container has its parent under a newer generation; a claim passes the device gate if and only if the container lacks the parent or has it under the generation the port is bound under. |
| Witnesses.ClaimRevivesOrphan | src/engine_mutation.cpp:1029-1065 | A run: a claim is past the device gate when the parent of a configured, unowned port is replaced, and still gives the orphaned port an owner. |
| RunLaws.RunKeepsInv | src/engine_internal.hpp:80-160 | The invariant of state, mutations, bindings, saves and loads in flight, spent attempts and the saved container holds after every lawful run. |
| RunLaws.StepKeepsInv | src/engine_mutation.cpp:781-1280 | Each of the twenty-six kinds of step keeps that invariant, and all but restarts and the records region of a load move the fingerprint of every record they change, withdraw or introduce, and never the engine generation back. |
| RunLaws.MovedStays | src/engine_internal.hpp:23-41 | An overtaken snapshot stays overtaken by every later step, and any change of the record overtakes it. |
| RunLaws.PlanIsGood | src/engine_mutation.cpp:1066-1154 | Whatever evidence and answers planning hears, its outcome is a rejection, a sound proposal held by the requester, or the use of a generation that is not there. |
| RunLaws.ApplyIsGood | src/engine_mutation.cpp:1156-1257 | Whatever the adapter answers, what reaches commit is still a sound proposal from the same snapshot. |
| RunLaws.RecoverIsSafe | src/engine_persistence.cpp:58-193 | Recovery of any container a run wrote, into a fresh or a running engine, leaves a safe state, wherever it stops. |
| RunLaws.RecordsRegionKeepsInv | src/engine_persistence.cpp:135-191 | The records region of a load keeps the invariant of the run with any mutations in flight, if what it brings overtakes their snapshots or equals them. |
| RunLaws.LoadKeepsInv | src/engine_persistence.cpp:58-193 | Each region of a load into a running engine keeps the invariant of the run, and all but the last carry every mutation in flight along. |
| Pipeline.ExecuteMutation | src/engine_mutation.cpp:781-1280 | The pipeline over the engine object ends in exactly the state and outcome of the uninterrupted mutation, and, from a state in which live ports have their parents recorded, never uses a generation that is not there. |
| Pipeline.PassageIsUninterrupted | src/engine_mutation.cpp:781-1280 | The uninterrupted mutation is the run model's eight regions executed back to back. |
| Pipeline.BindingIsUninterrupted | src/engine_mutation.cpp:1282-1471 | The three regions of a binding executed back to back are the uninterrupted binding. |
| Pipeline.LoadIsUninterrupted | src/engine_persistence.cpp:58-193 | The four regions of a load executed back to back are the uninterrupted recovery, with its state and its code. |
| PlanningLaws.BuildPromises | src/engine_mutation.cpp:125-777 | Every planner, given a sound record, proposes a record that only evolves as its kind may, keeps evidence truthful, and applies exactly the configuration it commits. |
| PlanningLaws.PreparedProposes | src/engine_mutation.cpp:1081-1154 | A plan that passes validation and the capability check is a sound, valid record carrying the request's attempt and the snapshot's fingerprint. |
| PlanningLaws.SettledProposes | src/engine_mutation.cpp:1156-1257 | Settling an apply keeps soundness: fresh evidence always names the configuration being committed. |
| PlanningLaws.NeverUndefined | src/engine_mutation.cpp:239-250 | Planning is defined for every record that is not live without a recorded parent device. |
| PlanningLaws.StrandedOnlyFences | src/record.cpp:210-214 | On a stranded record every plan but Supersede and Retire fails validation. |
| PlanningLaws.OwnedMeansHeld | src/engine_mutation.cpp:592-646 | A request that passes the ownership gate and is planned on an owned port comes from its holder, unless it is a claim. |
| Records.VerdictIgnoresBookkeeping | src/configuration.cpp:343-497 | The capability verdict depends on the technical dimensions alone. |
| Records.AcceptedMeansSupported | src/configuration.cpp:343-497 | Exactly when a configuration is accepted: evidence is present, known and legal, every named dimension is positively supported, MTU within bounds, logical mode and transceiver included; a duplex the evidence does not know is the one exception. |
| Lifecycle.NoWayBack | src/lifecycle.cpp:59-145 | No sequence of transitions leaves retirement or returns to Unconfigured. |
| Lifecycle.LiveOnlyByConfigureOrReconcile | src/lifecycle.cpp:59-145 | Every path of transitions into the live states contains Configure or Reconcile. |
| Identifiers.ComposedIsValid | src/engine.cpp:38-70 | Identifiers the engine composes satisfy the identifier grammar for every identity and generation, also when the identity is cut and hashed. |
| Safety.BeginEpochFencesAll | src/engine.cpp:237-260 | An epoch advance fences every publisher, changes no boot and leaves no port owned. |
| Safety.BeginEpochIsSafe | src/engine.cpp:237-260 | An epoch advance keeps the invariant and raises the epoch. |
| Safety.RegisterPublisherIsSafe | src/engine.cpp:262-308 | Registration keeps the invariant; whichever of its three branches succeeds, the entry is the fresh incarnation under the current epoch, and a known publisher only changes boot. |
| Safety.FencePublisherIsSafe | src/engine.cpp:310-332 | Fencing and the releases it makes keep the invariant. |
| Safety.CheckAuthorityIsSafe | src/engine_support.cpp:9-54 | The gate, automatic registration included, keeps the invariant and admits only the current epoch. |
| Safety.RegisterDeviceIsSafe | src/engine.cpp:352-391 | Recording a device forgets none and leaves the records alone. |
| Safety.CommitIsSafe | src/engine_support.cpp:289-365 | Committing a safe record keeps the invariant, replaces only that record and increases the engine generation. |
| Safety.UncertainIsSafe | src/engine_support.cpp:225-263 | A record marked uncertain is still sound, stranded at worst. |
| Safety.UncertaintyFencesOnly | src/engine_support.cpp:230-260 | Uncertainty leaves configuration and ownership alone, never claims an apply and ends outside the live states. |
| Safety.UncertaintyStrandsExactly | src/engine_support.cpp:240-251 | An uncertain apply strands a valid port if and only if it has no configuration and is neither retired nor superseded. |
| Witnesses.FirstApplyStrands | src/engine_mutation.cpp:1194-1204 | A run: the outcome of a first apply is unknown, the port is stranded, and nothing gathered from then on can be saved. |
| Safety.InsertPortIsSafe | src/engine_mutation.cpp:1344-1427 | The insertion adds one record to a port that has none, or changes nothing, and keeps the invariant. |
| Safety.AttachDeviceIsSafe | src/engine_mutation.cpp:1429-1457 | The device bookkeeping keeps the invariant whatever ran since the insertion, takes the port back if and only if its parent was replaced, and touches no other record. |
| Safety.BindPortIsSafe | src/engine_mutation.cpp:1282-1471 | The regions back to back add one record or none; a binding taken back leaves the records as they were. |
| EngineObject.EngineImpl.IndexAdd | src/engine.cpp:102-123 | All eight indexes that agreed with the records agree with them and the new record. |
| EngineObject.EngineImpl.IndexRemove | src/engine.cpp:125-154 | Erasing under the keys of a record leaves all eight indexes in agreement, with no empty bucket, if and only if the record filed has no other keys. |
| EngineObject.EngineImpl.IndexUpdate | src/engine.cpp:156-159 | Replacing a record keeps all eight indexes equal to a recomputation. |
| EngineObject.EngineImpl.ReindexAll | src/engine.cpp:161-174 | Rebuilding from nothing yields the recomputation. |
| EngineObject.EngineImpl.CheckAuthority | src/engine_support.cpp:9-54 | The method refines the gate function and keeps the indexes. |
| EngineObject.EngineImpl.ReleaseOwnershipOf | src/engine_support.cpp:88-112 | The walk releases exactly the records of one incarnation and advances the generation if and only if there was one. |
| EngineObject.EngineImpl.ReleaseOwnershipBefore | src/engine_support.cpp:114-138 | The walk releases exactly the records granted before an epoch. |
| EngineObject.EngineImpl.BeginEpoch | src/engine.cpp:237-260 | The loops over publishers and records refine the epoch advance. |
| EngineObject.EngineImpl.RegisterPublisher | src/engine.cpp:262-308 | The branches refine the registration function. |
| EngineObject.EngineImpl.FencePublisher | src/engine.cpp:310-332 | The method refines the fence with its releases. |
| EngineObject.EngineImpl.RegisterDevice | src/engine.cpp:352-391 | The method refines device registration, text validation included. |
| EngineObject.EngineImpl.SetTopology | src/engine.cpp:393-407 | The method refines the topology update. |
| EngineObject.EngineImpl.Commit | src/engine_support.cpp:289-365 | Compare-and-commit refines its function, and the indexes still agree. |
| EngineObject.EngineImpl.RecordUncertainty | src/engine_support.cpp:218-264 | Recording uncertainty refines its function, and the indexes still agree. |
| EngineObject.EngineImpl.AttachDevice | src/engine_mutation.cpp:1429-1457 | The last region refines its function whatever ran since the insertion, and the indexes still agree if and only if a port taken back is still filed as it was inserted. |
| EngineObject.PhantomsExactly | src/engine_mutation.cpp:1446-1449 | A sound port is still filed as it was inserted if and only if it is unconfigured and unowned. |
| EngineObject.EngineImpl.BindPort | src/engine_mutation.cpp:1282-1460 | The regions with nothing in between refine the uninterrupted binding, rollback included, and the indexes still agree. |
| EngineObject.EngineImpl.Load | src/engine_persistence.cpp:58-193 | Recovery refines its function, and leaves agreeing indexes unless a record stops it halfway, which valid records never do. |
| EngineObject.EngineImpl.PortsOfDevice | src/engine_queries.cpp:104-107 | Returns, in order and once each, exactly the ports a full scan would find. |
| EngineObject.EngineImpl.PortsWithLifecycle | src/engine_queries.cpp:109-112 | The same for a lifecycle state. |
| EngineObject.EngineImpl.PortsWithAdministrativeState | src/engine_queries.cpp:114-118 | The same for an administrative state. |
| EngineObject.EngineImpl.PortsOfOwner | src/engine_queries.cpp:135-138 | The same for an owner. |
| EngineObject.EngineImpl.PortsByProfile | src/engine_queries.cpp:140-143 | The same for a bound profile. |
| EngineObject.EngineImpl.PortsOfAggregate | src/engine_queries.cpp:145-148 | The same for an aggregate. |
| EngineObject.EngineImpl.DerivedPorts | src/engine_queries.cpp:150-153 | The same for the parent of derived ports. |
| EngineObject.EngineImpl.PortsRequiringRevalidation | src/engine_queries.cpp:120-133 | The index merged with the drift walk is exactly the ports whose lifecycle or drift asks for revalidation, in order and once each. |
| Indexes.InsertKeepsAgreement | src/engine.cpp:102-123 | Inserting under a key keeps one index equal to the recomputation. |
| Indexes.EraseKeepsAgreement | src/engine.cpp:125-136 | Erasing with dropping of emptied buckets keeps one index equal to the recomputation. |
| Indexes.StaleEraseAgrees | src/engine.cpp:125-154 | Erasing a port under a key of some other version of its record keeps agreement if and only if the record that goes has no key or that one. |
| Indexes.AgreementIsUnique | src/engine.cpp:161-174 | The records determine the index: incremental upkeep and a rebuild cannot differ. |
| Durability.SaveCrashLoad | src/engine_persistence.cpp:8-193 | Save, crash, load, the three parts of the save read at different moments of a run: what can be read back is recovered by a process that admits it, with every profile, device and configuration back as it was read and every authority gone. |
| Durability.SaveGathers | src/engine_persistence.cpp:8-39 | A save with anything between its three reads gathers what each read found. |
| SaveOrder.WriteGoesBackExactly | src/engine_persistence.cpp:8-55 | In every run, each save that writes, and the one whose image is on disk, has read its records at a definite step of the run, and the write takes the engine generation on disk back if and only if the latter read them at a later generation; without recovery in between, that read came later in the run. |
| SaveOrder.DiskIsLastWrite | src/engine_persistence.cpp:45-55 | Whatever is on disk was gathered and written by one save of the run, and nothing was written since. |
| SaveOrder.DiskNeverGoesBack | src/engine_persistence.cpp:8-55 | Over any stretch of a process life in which no save reads its records between another's record read and its write, the engine generation on disk never goes back. |
| SaveOrder.BeginsBehind | src/engine_persistence.cpp:182-191 | A process life begins so: neither a fresh engine nor one that recovered what is on disk is behind the disk. |
| LoadRuns.SaveGoesBack | src/engine_persistence.cpp:8-55 | A run: a save reads its records, a retirement is accepted, a later save reads and writes it, and the first then writes the port back to what it was. |
| Durability.SavedStateReadsBack | src/wire.cpp:735-743 | What a run saves decodes to itself if no profile carries an MTU it does not specify, and is refused as corrupt if one does; defining and saving such a profile are accepted. |
| Witnesses.HiddenMtuIsLost | src/wire.cpp:735-743 | A concrete profile that is valid, defined, gathered and encoded, and whose container is refused. |
| Durability.StrandedPortBlocksSaving | src/persistence.cpp:70-77 | A gathered state is refused for its records if and only if some port is stranded: one uncertain first apply stops every later save. |
| Recovery.RewriteKeepsValid | src/engine_persistence.cpp:138-178 | A record that validates still validates after the rewrite, so recovery cannot stop halfway. |
| Recovery.RewriteStripsAuthority | src/engine_persistence.cpp:139-173 | The rewrite leaves no owner, no Applied or Verified outcome and no remembered attempt, keeps the configuration, and fences every configured port that is not retired. |
| Recovery.RecoveryIsConservative | src/engine_persistence.cpp:110-192 | After any successful recovery of consistent records the epoch exceeds the saved one, every publisher is fenced, and every record is there as rewritten. |
| Recovery.NoRecordStopsRecovery | src/engine_persistence.cpp:72-192 | With consistent records only bounds, foreign domains, profiles and exhausted counters can make recovery fail. |
| Container.EncodeThenDecode | src/persistence.cpp:55-301 | A state that encodes decodes to itself if and only if its keys are unique, its evidence, devices and publishers are legal and no profile hides an MTU. |
| Container.DecodeThenEncode | src/persistence.cpp:138-301 | Bytes that decode are the encoding of what they decode to, if and only if the payload is within the 256 MiB the writer allows. |
| Container.TableLaw | src/persistence.cpp:211-231 | A table reads back when its entries are legal and distinct, and only tables that were written so are accepted. |
| Container.HiddenMtuStopsDecoding | src/persistence.cpp:233-250 | A container with a profile that hides an MTU is refused as corrupt, wherever the profile stands. |
| ContainerIO.EncodePersistedState | src/persistence.cpp:55-136 | The writer calls, bounds and checks in order produce the encoding function's result. |
| ContainerIO.DecodePersistedState | src/persistence.cpp:138-301 | The reader calls, loops and duplicate scans produce the decoding function's result, code for code. |
| Wire.RecordLaw | src/wire.cpp:563-676 | A record decodes from its encoding, and every record accepted is legal and re-encodes to the bytes read. |
| Wire.ConfigurationLaw | src/wire.cpp:248-431 | The same for the twenty-six fields of a configuration. |
| Wire.CapabilitiesLaw | src/wire.cpp:84-242 | The same for capabilities with their six lists. |
| Wire.BindingLaw | src/wire.cpp:481-513 | The same for a capability binding. |
| Wire.OwnershipLaw | src/wire.cpp:437-479 | The same for ownership. |
| Wire.GenerationsLaw | src/wire.cpp:515-561 | The same for the generation vector. |
| Wire.ProvenanceLaw | src/wire.cpp:42-78 | The same for provenance. |
| Wire.DimensionsLaw | src/wire.cpp:682-807 | The same for the dimensions of a profile, for exactly those that hide no MTU. |
| Wire.ProfileLaw | src/wire.cpp:809-841 | The same for a profile. |
| Wire.TableLaws | src/wire.cpp:847-891 | The same for devices and publishers. |
| WireIO.WriteRecord | src/wire.cpp:563-589 | The writer emits the record's encoding, and stays unpoisoned by its fields exactly when its texts fit their bounds. |
| WireIO.ReadRecord | src/wire.cpp:591-676 | The reader takes off exactly what the decoding function does, and fails when it does. |
| WireIO.ReadConfiguration | src/wire.cpp:284-431 | The same for a configuration. |
| WireIO.ReadCapabilities | src/wire.cpp:122-242 | The same for capabilities. |
| WireIO.ReadProfile | src/wire.cpp:818-841 | The same for a profile. |
| Codec.ListLaw | src/wire.cpp:21-35 | Counted lists decode from their encoding under the count check, and only encodings are accepted. |
| Codec.IdLaw | src/wire.hpp:21-40 | Identifier fields round trip. |
| Codec.ByteWriter.TextField | src/codec.cpp:84-91 | Text within its bound is written whole; text past it poisons the writer for good. |
| Codec.ByteWriter.Raw | src/codec.cpp:28-82 | The output is the whole document while it fits the limit, and once it does not the writer is never ok again. |
| Codec.ByteReader.U64 | src/codec.cpp:135-147 | Eight bytes read as a little-endian value, or a poisoned reader. |
| Codec.ByteReader.TextField | src/codec.cpp:170-179 | A bounded length and that many bytes, or a poisoned reader. |
| Codes.EnumLaw | src/wire.cpp:51-59 | An enumeration reads back from its code and a byte that is no code is refused. |
| Frames.FrameThere | src/protocol.cpp:154-264 | A frame is sealed if and only if it is legal, and then opens to itself. |
| Frames.FrameBack | src/protocol.cpp:189-264 | Bytes that open are exactly the encoding of the frame they open to. |
| Frames.SealFrame | src/protocol.cpp:154-187 | The header writer refines the sealing function. |
| Frames.OpenFrame | src/protocol.cpp:241-264 | The header checks and the payload checks refine the opening function. |
| Crc32.Crc | src/codec.cpp:183-190 | The table-driven loop computes the bit-serial checksum of every byte string. |
| Crc32.CrcTable | src/codec.cpp:8-24 | Every slot of the table is eight steps of the shift register. |
| Crc32.LookUpIsEightShifts | src/codec.cpp:186-188 | One table look-up equals shifting in the eight bits of a byte. |
| Sha256.DigestOfParts | src/sha256.cpp:89-137 | Any split of a message into updates gives the one-shot digest of section 5.1.1 and 6.2 of FIPS 180-4. |
| Sha256.Hasher.Update | src/sha256.cpp:89-106 | An update extends the message, compressing exactly its whole blocks. |
| Sha256.Hasher.FeedZeros | src/sha256.cpp:117-120 | The padding loop terminates with exactly the zeros of the standard, although the buffer wraps at 64. |
| Sha256.Hasher.Finish | src/sha256.cpp:112-137 | Finishing pads once and returns the digest of the padded message. |
| Sha256.Compress | src/sha256.cpp:46-87 | The schedule and round loops compute the compression function. |
| Sha256Spec.LengthFieldIsExact | src/sha256.cpp:121-126 | The length field is the true bit length for every message the standard admits. |
| Rates.Parse | src/characteristics.cpp:361-438 | Accepts exactly the in-range texts of the grammar and returns their exact decimal value, without overflow or rounding. |
| Rates.ToString | src/characteristics.cpp:440-483 | The text printed denotes the rate exactly. |
| Rates.PrintThenParse | src/characteristics.cpp:361-483 | Parsing a printed rate gives the rate back, for every representable rate. |
| Rates.CheckedMultiply | src/text.cpp:133-139 | The product when it fits 64 bits, and a refusal exactly when it does not. |
| Rates.CheckedAdd | src/text.cpp:141-148 | The sum when it fits 64 bits, and a refusal exactly when it does not. |
| Characteristics.LanesForTotalIsExact | src/characteristics.cpp:500-529 | Splitting a rate over lanes realises it exactly or is refused, and is refused only if no legal lane configuration realises it. |
| Characteristics.BreakoutForChildren | src/characteristics.cpp:31-44 | The inverse of the fan-out of a breakout mode. |
| Utf8.IsValidUtf8 | src/text.cpp:29-74 | Accepts exactly the byte sequences of the grammar in section 4 of RFC 3629. |
| Utf8.CodePointMeetsGrammar | src/text.cpp:52-70 | The arithmetic test on the decoded code point says what the grammar says byte by byte. |
| Utf8.ValidateText | src/text.cpp:76-94 | Bounded, well formed and without control characters. |
| Profiles.DefinitionsAreImmutable | src/profile.cpp:167-208 | Definitions only append: no sequence of later calls alters or drops a defined generation. |
| Profiles.DefinedGenerationsStay | src/profile.cpp:210-222 | A generation once readable stays readable with the same content. |
| Profiles.ListingRebuilds | src/engine_persistence.cpp:85-105 | Re-defining the sorted listing into an empty registry always succeeds and rebuilds the registry. |
| Profiles.ProfileRegistry.Define | src/profile.cpp:167-208 | The method refines the definition function and keeps every history increasing from generation 1. |
| Profiles.ProfileRegistry.List | src/profile.cpp:236-245 | The listing is in order and holds the registry's generations and nothing else. |
| Profiles.ProfileRegistry.Restore | src/engine_persistence.cpp:88-105 | The restoring loop refines definition in order up to the first refusal. |
| Profiles.ListThenRestore | src/engine_persistence.cpp:85-105 | Whatever a registry holds, listing it and restoring the list yields it again. |
| Basics.Advance | include/portfabric/generation.hpp:36-41 | A counter starts at one, never goes back and moves strictly unless it is exhausted. |

## Left out
- Planners: modelled as functions from a record to a proposed record. In the source each fills a local plan field by field and nothing else sees it before it is complete.
- Rendered text: whether two configurations or two capability readings render identically, and the wording of a rejection by new evidence, are free inputs of planning, so every theorem holds for any answer.
- Payload digests: an arbitrary non-zero number per request; a profile digest is equality of everything but provenance.
- Outcome messages, explanations, enumeration names, diff rendering and canonical field lists.
- A restart that loads is one step: nothing else runs in the new process before its load ends. The four regions of a load into a running engine are steps of their own.
- Automatic persistence: a save that a commit starts is a save like any other in the run model, where any save may fail to write; that the commit then reports the failure is not an outcome of the model.
- `shutdown`, the optional policy without required ownership, and `mark_revalidation`, which nothing calls.
- EngineObject.EngineImpl.Load: the order in which duplicate keys of a table overwrite each other follows the source, but the file system operations around it are not modelled.
- Profiles.ProfileRegistry.List: `latest`, `contains` and `ports_with_stale_profile_binding` are not modelled.
- Sockets, sessions, threads, the client, message bodies of the control protocol, platform code, file replacement, applications, examples and benchmarks.
- Collision resistance of the hash functions.
