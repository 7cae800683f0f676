# Verified models of Rotom's stateful cores

Rotom deploys native configuration for coding agents and maintains running instances. This project
models its stateful protocols and a few algorithmic cores in Dafny and proves what they promise.
`dafny verify dfyconfig.toml` checks everything.

Each part has a specification on values (datatypes, functions, lemmas) and, where the source works in
place, a class or loop method proved equal to it.

**The deployer.** `NativeDocument` and `DocumentLaws` hold the nested documents and the lens, frame and
pruning laws of reading, writing and removing a field. `Restoration` proves when undoing a list of field
changes gives back the original document, container for container. `Deployment`, `DeploymentWrites` and
`DeploymentPlan` give the three-way plan, the write pass, the journal, recovery, transactions, apply and
rollback, each as the list of durable states it passes through. On top stand `DeploymentCrash` (a crash
at any durable state, then any schedule of interrupted recoveries, ends wholly before or wholly after),
`PlanLaws`, `PlanLayers` (how the changes of a plan may overlap), `ForwardWrites` (a plan's write pass
always completes), `PlanEffects` (exactly which places it moves, and which it makes unreadable),
`Convergence`, `Rollback`, `Refusals` (what a refused call leaves behind), `Overlaps` (what overlapping
changes cost), `DeploymentSafety` (what survives over whole histories of edits, applies, rollbacks and
crashes) and `PlanTakeover` (which files a plan may take over, and the three-way table);
`PlanExamples` are small plans at which less holds than one might hope. `DocumentEditor` and `Deployer` are
the same steps in place: an instance with a budget of durable steps, dying wherever the budget ends.

**The maintenance protocol.** `MaintenanceBatch` transcribes the cross-field rules of a batch;
`MaintenanceDomain` the coordination domain with every durable step and its guard. `MaintenanceSteps`
proves the guards sufficient and the rules inductive. `MaintenanceRun` adds processes that fork and die,
single-use reviews and permits held in memory, lost and failed commits, and the stages of one execution;
`MaintenanceSafety` proves at-most-once setup and earned success over every run, `MaintenanceCompletion`
that every setup not in doubt can still be completed. `MaintenanceOutcomes` says of each durable step exactly
when it commits and what it changes, `MaintenanceEvidence` what stands behind every result and fact of a
batch, `MaintenanceGates` behind every stage and ticket. `MaintenanceService` and `MaintenanceTickets` are
the mutable coordinator, tickets and execution.

**Stopping.** `StopProtocol` and `StopRegistry` model fence, snapshot, stop requests and close records of
one run registry, with crashes between the durable writes. `StopPlan` is the canonical stop plan of both
protocols, `StopPlanShape` what its lists look like. `ReleaseWait` is the wait under one shared deadline.

**Algorithms.** `LayeredMerge` is the layer merge with its in-place provenance table. `ShellLexer`,
`ShellOracle` and `ShellParser` are the tokenizer, the two versions of the shell oracle and their loops;
`ShellWords` reads tokens and words off their characters, and `ShellReading` a parse off the visible tokens,
both without the loops. `Compaction` is the scenario compaction against its consumer's checks,
`CompactionOutput` what its records say of their scenes, `CompactionExamples` candidates the two disagree on. `CordisRows` loads, edits and dumps
the row list of the native user layer.

## What turned out not to hold as hoped

- A candidate's selectors are checked against each other, not against the recorded ones, so changes of one
  plan may overlap, in two ways (`PlanLayers.OverlapShapes`): a recorded field is removed and a new one set
  below it, as in `PlanExamples.PlanOverlaps`; or a new field is set and then its recorded whole file removed,
  as in `PlanExamples.FieldIsLostWithFile`, since a whole file sorts after its fields. The apply completes all
  the same, and a change ends at its after value if and only if no later one overlaps it
  (`PlanEffects.EndsAtAfter`). The others are lost although they are recorded as done: the next apply writes
  none of them and reports as drift exactly those the manager owns (`Convergence.ApplyConverges`).
- An immediate rollback succeeds, and every crash point is recoverable, if and only if no two field changes
  overlap (`Overlaps.RollbackNeedsDisjointFields`, `Overlaps.RecoveryNeedsDisjointFields`); a field overlapping
  its whole file does no harm there. Otherwise the rollback refuses although nobody edited anything, and a
  crash between write and commit leaves a journal no recovery ever clears (`Overlaps.OverlapStrandsRecovery`).
  Values nobody recorded survive in every case (`DeploymentSafety.UserValuesSurvive`).
- Applies converge if and only if no value the plan sets, save in a file it also removes, lies above a place it
  keeps recorded and cannot be read there (`Convergence.ApplyConverges`). A scalar wanted above a recorded
  initialize field does that, and then no candidate can be planned any more
  (`PlanExamples.OverlapHidesInitialized`, `PlanExamples.HiddenFieldStopsPlanning`).
- A recorded initialize field has no change of its own any more, yet a commit can move it: exactly when its plan
  sets something below the field, or takes away or replaces above it the value it stands in
  (`DeploymentSafety.CommitMovesExactly`, `DeploymentSafety.InitializedMovesExactly`). A plan can even record a
  field as given and remove its value at once (`PlanExamples.OverlapRemovesInitialized`).
- With a prepare hook the third apply does write: an empty transaction runs for the hook, which leaves the
  instance as it was (`Convergence.ThirdApply`).
- Undoing restores a document exactly if and only if no empty object the user already had is recorded as a
  created parent by the last change below it (`Restoration.UndoRestoresDocumentExactly`). Recorded parents
  are inherited over generations, so such records do arise: `PlanExamples.InheritedParentIsPruned`.
- Re-validation refuses an admitted maintenance step exactly when the revision is at its last value, or
  when a setup returns an exit code outside the schema's range (`MaintenanceSteps.GuardsSuffice`); the
  batch then stays running. The second is a guard that is never hit: a setup returns 0 or 4.
- A doubtful intent admits one further step: being marked doubtful again, which moves its revision on
  (`MaintenanceSteps.DoubtEndsProgress`).
- A record whose answer is lost ends the wait with its run still pending although its exit may be saved; the
  durable revision is then one ahead of the one returned (`ReleaseWait.WaitForBatchRelease`).
- Once a close record is written a retry waits for the selected runs: it succeeds if and only if they qualify
  at that moment, whatever happened in between (`StopSafety.ClosingGetsThrough`).
- The compaction's consumer asks for more than its producer checks: counters JavaScript holds exactly, and
  no more dynamic commands skipped than commands skipped (`CompactionExamples.SkippedMoreThanSkipped`).
  `Compaction.ConsumerTakesReadable` is the equivalence wherever the occurrences sum within the last safe
  integer. Beyond it the consumer's sums round, and it refuses an input whose every number is exact
  (`CompactionExamples.RoundingRefuses`).

## Model

| member | source | states |
|---|---|---|
| `DocumentLaws.PutThenField` | src/agentcfg/deployment.py:55-81 | a field can be written exactly where it can be read, and then holds what was written |
| `DocumentLaws.PutSameIsIdentity` | src/agentcfg/deployment.py:55-81 | writing back what a field holds changes nothing, also when it holds nothing |
| `DocumentLaws.PutFrame` | src/agentcfg/deployment.py:67-81 | writing one field leaves every unrelated selector as it was |
| `DocumentLaws.OverlapRuleIsExact` | src/agentcfg/deployment.py:168-174 | two selectors are independent for all documents and values if and only if neither is a prefix of the other |
| `DocumentLaws.PruneIsRemoval` | src/agentcfg/deployment.py:98-107 | pruning a selector removes an empty object there and nothing else |
| `DocumentLaws.DeepestFirstSorts` | src/agentcfg/deployment.py:99-99 | recorded parents are pruned deepest first, none added or lost |
| `DocumentLaws.PruneCreatedLeavesNoneEmpty` | src/agentcfg/deployment.py:98-107 | after pruning no recorded parent is an empty object, however they nest |
| `DocumentLaws.PruneCreatedFrame` | src/agentcfg/deployment.py:98-107 | pruning leaves every selector that is no prefix of a recorded parent |
| `DocumentLaws.MissingParentsAreExact` | src/agentcfg/deployment.py:84-95 | the recorded parents are exactly the proper ancestors not in the document, and recording fails exactly where reading would |
| `DocumentEditor.NativeFile.GetField` | src/agentcfg/deployment.py:55-64 | the walk down the document finds what the selector names, or refuses at a scalar |
| `DocumentEditor.NativeFile.FindMissingParents` | src/agentcfg/deployment.py:84-95 | the loop collects the missing ancestors in order |
| `DocumentEditor.NativeFile.PutField` | src/agentcfg/deployment.py:67-81 | the in-place descent leaves the document the write is specified to leave |
| `DocumentEditor.NativeFile.PruneCreatedParents` | src/agentcfg/deployment.py:98-107 | the in-place pruning leaves the document the pruning is specified to leave |
| `Restoration.RewriteSettles` | src/agentcfg/deployment.py:328-343 | from any mixture of done and not done, a rewrite with disjoint fields completes with every field at its after value |
| `Restoration.RewriteFrame` | src/agentcfg/deployment.py:328-343 | a selector apart from all changed fields reads the same after the rewrite |
| `Restoration.OnlyBeforeIsOverwritten` | src/agentcfg/deployment.py:334-338 | a completed rewrite moves a place only where a related field held its recorded before value |
| `Restoration.UndoRestoresDocumentExactly` | src/agentcfg/native_projection.py:116-125 | undoing a planned list of changes gives back the original document if and only if no empty object the user had is pruned |
| `Restoration.UndoRestoresEveryValue` | src/agentcfg/native_projection.py:116-125 | undoing always gives back every scalar at its place, and no other |
| `DeploymentWrites.DraftIsRewrite` | src/agentcfg/deployment.py:328-343 | the loop over one file's changes is the document rewrite, refuses with it, and reports every change |
| `DeploymentWrites.WholeLastWrites` | src/agentcfg/deployment.py:322-350 | from any files: a written group that ends with its whole file found that file at one of its two values, leaves it at the new one, and leaves it alone if it was there already |
| `DeploymentWrites.GroupSettles` | src/agentcfg/deployment.py:322-350 | one file replaced settles all its changes, a field changed with its whole file reading nothing, and touches no other file |
| `DeploymentWrites.WriteRunSettles` | src/agentcfg/deployment.py:313-350 | a write pass always completes from any mixture, and each durable state on the way is a mixture |
| `DeploymentWrites.WriteRunFrame` | src/agentcfg/deployment.py:313-350 | at every durable state fields that no change overlaps read as before |
| `DeploymentWrites.UnrecordedSurvives` | src/agentcfg/deployment.py:328-350 | from any files and up to any crash, also with overlapping changes of both kinds, a place moves only if an overlapping change found its before value there |
| `DeploymentWrites.WrittenFilesAreGiven` | src/agentcfg/deployment.py:313-350 | at every durable state of a write pass each file is as it was, or has mode 0600, or is what a change of the whole file says, mode included |
| `DeploymentCrash.RecoveryStep` | src/agentcfg/deployment.py:353-380 | recovery is refused only by the hook, passes only recoverable states, and ends before or after as the saved state says |
| `DeploymentCrash.TransactionStep` | src/agentcfg/deployment.py:404-421 | every state of a transaction is recoverable or resolved, and a finished one has committed |
| `Refusals.RefusalReverts` | src/agentcfg/deployment.py:404-421 | from a ready state a transaction is refused if and only if the hook refuses the new launch; it ends with the old saved state and every change at its before value, the journal gone if and only if the hook accepts the old launch or there is none |
| `DeploymentCrash.RestartsKeep` | src/agentcfg/deployment.py:353-380 | any schedule of interrupted recoveries keeps the state recoverable or resolved the same way |
| `DeploymentCrash.CrashAtomicity` | src/agentcfg/deployment.py:353-421 | after a crash anywhere and any interrupted recoveries, a recovery that finishes has all changes after with the new state or all undone with the old one (a field changed with its whole file reads nothing in either), with the hook run for the surviving launch; one that is refused keeps the journal |
| `DeploymentCrash.RecoveryPrepares` | src/agentcfg/deployment.py:374-380 | the journal is removed only after the hook ran for the surviving launch |
| `DeploymentCrash.CrashFrame` | src/agentcfg/deployment.py:313-421 | through crash and recoveries every untouched field keeps its value |
| `PlanLaws.ChangeIsDue` | src/agentcfg/deployment.py:257-309 | a planned change goes from the current value, which is the recorded baseline, to the wanted one, and records every missing parent |
| `PlanLaws.TallyAt` | src/agentcfg/deployment.py:257-309 | each key decides alone what it contributes to items, drift and conflicts |
| `PlanLaws.TallyChanges` | src/agentcfg/deployment.py:257-309 | the changes are verdicts of listed keys, one a key |
| `PlanLaws.TallyMissesNoChange` | src/agentcfg/deployment.py:257-309 | every key whose verdict is a change has it in the plan |
| `PlanLaws.PlanIsReady` | src/agentcfg/deployment.py:246-310 | the changes of any plan are at their before values, record their missing parents and know whether their file is there; none overlap when recorded and wanted selectors together are disjoint |
| `PlanLayers.OverlapShapes` | src/agentcfg/deployment.py:257-310 | overlapping changes of a plan are a removal above and, after it, a new value below, or a new field and, after it, the removal of its whole file |
| `PlanLayers.PlanIsLayered` | src/agentcfg/deployment.py:257-310 | the changes of any plan nest, and they are compatible, so that any mixture of done and not done can be recovered, if and only if no two field changes overlap |
| `PlanLayers.LiveStaysDisjoint` | src/agentcfg/deployment.py:257-310 | after any plan no two recorded values the manager may take back overlap |
| `ForwardWrites.StagedTransactionCompletes` | src/agentcfg/deployment.py:404-421 | the transaction of any plan completes, also where its changes overlap in either way, if the hook accepts the launch |
| `ForwardWrites.StagedRunCompletes` | src/agentcfg/deployment.py:313-350 | the write pass of any plan completes, whatever mixture of done and not done it starts from |
| `PlanEffects.EndsAtAfter` | src/agentcfg/deployment.py:313-350 | a change of a plan ends at its after value if and only if no later change overlaps it: the plan sets nothing below it and does not remove its whole file |
| `PlanEffects.MovesExactly` | src/agentcfg/deployment.py:313-350 | a completed write pass of a plan moves a place if and only if some change, not lost with its file, is set below it or reads differently there before and after |
| `PlanEffects.HidesExactly` | src/agentcfg/deployment.py:55-64 | a place that could be read can still be read after the pass if and only if no change, not lost with its file, leaves a value above it in which it cannot be read |
| `PlanEffects.RunMoves` | src/agentcfg/deployment.py:313-350 | from any files and at any durable state, a place has moved only if a change disturbs it |
| `PlanLaws.CommitTestIsSound` | src/agentcfg/deployment.py:455-487 | the state an apply commits equals the old one exactly when there is nothing to commit, and a rollback's never does |
| `PlanTakeover.UnclaimedIsConflict` | src/agentcfg/deployment.py:273-286 | a key not recorded, over a file with text in it, is a conflict without a change or record: a whole file always, a field if no field of the file is recorded and the owner does not share it |
| `PlanTakeover.ClaimedFieldIsTaken` | src/agentcfg/deployment.py:273-286 | in a file with a recorded field or shared by the owner an absent wanted field becomes a change, a present one a conflict, and a present initialize one is recorded without a baseline and left alone |
| `PlanTakeover.EmptyFileIsTaken` | src/agentcfg/deployment.py:273-301 | over a file that is missing or empty a first field is always set and recorded, a first whole file is a conflict if an empty one with another value is there |
| `PlanTakeover.ThreeWay` | src/agentcfg/deployment.py:257-309 | for a recorded key base, disk and wish decide: conflict if and only if all three differ, drift if and only if only the disk does, change from base to wish if only the wish does; another codec or ownership is a conflict, an initialize item stays as it is |
| `PlanTakeover.TakeoverIsRefused` | src/agentcfg/deployment.py:439-452 | over any history a commit that would take such a file over changes nothing at all |
| `PlanTakeover.UntakenFileStays` | src/agentcfg/deployment.py:439-466 | over any history a commit, dying anywhere, leaves a file of which nothing is recorded or shared as it was, mode included |
| `PlanTakeover.OwnerAfterCommit` | src/agentcfg/deployment.py:452-464 | a commit that gets through leaves the owner with exactly the files it had, or at first those its launch declares, and those with a recorded field |
| `PlanTakeover.PlanIsMade` | src/agentcfg/deployment.py:246-310 | a plan is made if and only if neither owner nor deployment is bound elsewhere, no wanted selector lies above another, and every recorded or wanted key can be read; it carries the generation, binding and launch asked for |
| `PlanTakeover.WhatIsReadable` | src/agentcfg/deployment.py:55-64 | a field can be read if and only if its file is absent, or an object that holds no scalar above it, or decodes to nothing |
| `PlanTakeover.OwnershipLasts` | src/agentcfg/deployment.py:246-255 | over any history an instance with an owner takes no plan of another binding, and a file once shared stays claimed |
| `Convergence.FirstApply` | src/agentcfg/deployment.py:439-466 | a conflict-free plan always executes fully; exactly the changes no later one overlaps end at their after values, so all do when none overlap; every key is left settled if and only if no value the plan sets hides a place it keeps recorded |
| `Convergence.SecondApply` | src/agentcfg/deployment.py:439-466 | the next apply changes no file, drops exactly the tombstones and reports exactly the owned keys whose place differs from what is wanted |
| `Convergence.ThirdApply` | src/agentcfg/deployment.py:439-466 | the third apply writes nothing without a hook, and with one runs an empty transaction that changes only the prepared launches |
| `Convergence.ApplyConverges` | src/agentcfg/deployment.py:439-466 | the three together, with or without a hook; the second is planned if and only if no value the first plan sets hides a place it keeps recorded, and of the keys changed it reports as drift exactly the owned ones overwritten by the same plan; the backup survives it |
| `Rollback.RollbackRestoresFields` | src/agentcfg/deployment.py:469-489 | rollback of an undoable state succeeds with every changed field back and the backed-up manifest current |
| `Rollback.RollbackKeepsOthers` | src/agentcfg/deployment.py:469-489 | rollback leaves fields no backed-up change overlaps |
| `Rollback.RollbackInvertsApply` | src/agentcfg/deployment.py:439-489 | for plans without overlapping field changes: apply, outside edits elsewhere, rollback: manifest and managed places are what they were and the edits stay |
| `Rollback.RollbackRestoresDocument` | src/agentcfg/deployment.py:439-489 | for plans without overlapping field changes: apply then rollback gives back a file if and only if it was there, and its document if and only if no empty object of the user is pruned |
| `Refusals.ApplyRefusal` | src/agentcfg/deployment.py:404-466 | a conflict-free apply is refused only by its hook, with every file as it was; the journal is gone, or the first recovery whose hook accepts the launch in use removes it |
| `Refusals.RollbackOutcome` | src/agentcfg/deployment.py:469-489 | a rollback finishes if and only if there is a backup of this binding, every backed-up place holds one of its two values and the hook accepts the backed-up launch; where the check fails nothing is written, and once it holds the write pass is never refused |
| `Refusals.RollbackRefusal` | src/agentcfg/deployment.py:404-489 | a rollback refused by its hook keeps the saved state, does every change again where no field changes overlap, and leaves no journal if and only if the hook accepts the launch in use |
| `DeploymentSafety.SoundStays` | src/agentcfg/deployment.py:404-489 | edits, commits, rollbacks and recoveries dying anywhere keep the durable state sound |
| `DeploymentSafety.UserValuesSurvive` | src/agentcfg/deployment.py:257-350 | over any history, overlapping selectors included, nothing but the user moves a managed place, unless it held a value recorded for an overlapping change and a change disturbs it; a commit expects the baseline |
| `DeploymentSafety.MoveIsDisturbed` | src/agentcfg/deployment.py:313-489 | a commit, rollback or recovery, dying anywhere, moves a place only if one of its changes disturbs it |
| `DeploymentSafety.CommitMovesExactly` | src/agentcfg/deployment.py:257-350 | a commit that gets through moves a place, recorded, just given or neither, exactly if one of its changes disturbs it |
| `DeploymentSafety.InitializedMovesExactly` | src/agentcfg/deployment.py:286-288 | over any history without rollbacks a recorded initialize item stays recorded and gets no change of its own; a call moves its place only if another change disturbs it, and a commit that gets through exactly then |
| `Overlaps.RollbackNeedsDisjointFields` | src/agentcfg/deployment.py:439-489 | a conflict-free apply finishes, and an immediate rollback does if and only if no two field changes overlap |
| `Overlaps.RecoveryNeedsDisjointFields` | src/agentcfg/deployment.py:353-421 | every crash point of an apply is recoverable if and only if no two field changes of its plan overlap |
| `Overlaps.OverlapStrandsRecovery` | src/agentcfg/deployment.py:353-380 | for every plan with overlapping field changes, dying between write and commit leaves a journal that every recovery after any schedule of recoveries refuses |
| `PlanExamples.PlanOverlaps` | src/agentcfg/deployment.py:147-175 | a plan without conflicts whose field changes overlap |
| `PlanExamples.FieldIsLostWithFile` | src/agentcfg/deployment.py:147-175 | a plan without conflicts that records a field as set and ends with its file deleted; an immediate rollback gets through |
| `PlanExamples.OverlapRemovesInitialized` | src/agentcfg/deployment.py:274-310 | a plan that records an initialize field as given and removes its value |
| `PlanExamples.OverlapHidesInitialized` | src/agentcfg/deployment.py:274-310 | a plan without conflicts that sets a scalar above a recorded initialize field, which cannot be read afterwards |
| `PlanExamples.HiddenFieldStopsPlanning` | src/agentcfg/deployment.py:55-64 | with that scalar in place no candidate can be planned |
| `PlanExamples.InheritedParentIsPruned` | src/agentcfg/deployment.py:257-310 | two generations after which undoing removes an empty object of the user |
| `Deployer.Instance.WriteChanges` | src/agentcfg/deployment.py:313-350 | the grouping and replacing loops walk the specified write run up to where the process dies |
| `Deployer.Instance.Recover` | src/agentcfg/deployment.py:353-380 | recovery in place walks the specified run |
| `Deployer.Instance.Transact` | src/agentcfg/deployment.py:404-421 | journal, hook, write, commit and the recovery after success or failure walk the specified run |
| `Deployer.Instance.MakePlan` | src/agentcfg/deployment.py:246-310 | the loop over the keys computes the specified plan or refuses |
| `Deployer.Instance.Apply` | src/agentcfg/deployment.py:439-466 | recovery, plan, refusal and commit walk the specified run |
| `Deployer.Instance.Rollback` | src/agentcfg/deployment.py:469-489 | recovery, the check of every backed-up item, and the undoing transaction walk the specified run |
| `MaintenanceSteps.ShapedIsValid` | src/agentcfg/maintenance.py:245-358 | a batch of the shape its phase prescribes satisfies every cross-field rule of the codec |
| `MaintenanceSteps.SoundIsValid` | src/agentcfg/resource_protocol.py:119-152 | a sound domain passes the coordination codec for every intent |
| `MaintenanceSteps.AcceptIsSound` | src/agentcfg/maintenance_store.py:100-124 | accepting a snapshot adds a sound intent and disturbs none |
| `MaintenanceSteps.GuardsSuffice` | src/agentcfg/maintenance_progress.py:48-69 | an admitted step is committed if and only if the revision has room and an exit code is in range, and the domain stays sound |
| `MaintenanceSteps.StepGrows` | src/agentcfg/maintenance_store.py:92-96 | plan and accepted runs stay frozen, facts only become true, the revision never falls, dispatch ids, digests and results stay |
| `MaintenanceSteps.StepLands` | src/agentcfg/maintenance_progress.py:48-69 | each step moves the revision on by one, save those on the intent alone |
| `MaintenanceSteps.DoubtEndsProgress` | src/agentcfg/maintenance_progress.py:52-55 | unknown and partial batches and terminal intents admit nothing but being doubted again |
| `MaintenanceOutcomes.AcceptOutcome` | src/agentcfg/maintenance_store.py:100-134 | a batch is accepted if and only if it is new and untouched at the seen revision, its plan is ready and by hand, each run has its manager, and no intent that is not over fences its resources |
| `MaintenanceOutcomes.StopOutcome` | src/agentcfg/maintenance_progress.py:79-87 | a stop request commits if and only if the batch is being stopped at the seen revision and the run was not asked before; it marks this run and moves the phase to stopping |
| `MaintenanceOutcomes.ExitOutcome` | src/agentcfg/maintenance_progress.py:90-100 | an exit commits if and only if the proof is complete, all processes are gone, it is of the run's own manager and the exit is new; nothing but that fact and the revision changes |
| `MaintenanceOutcomes.UnknownOutcome` | src/agentcfg/maintenance_progress.py:103-108 | losing sight of an accepted run puts the item, the batch and the intent in doubt, for review |
| `MaintenanceOutcomes.ReleaseOutcome` | src/agentcfg/maintenance_release.py:197-222 | release commits if and only if every exit is confirmed, every reservation released and no other intent fences a resource; each item is then stopped and free, and nothing else changes |
| `MaintenanceOutcomes.DispatchOutcome` | src/agentcfg/maintenance_dispatch.py:51-86 | a dispatch commits if and only if the setup is stopped, all is held and no batch ever carried the dispatch id |
| `MaintenanceOutcomes.SyncOutcome` | src/agentcfg/maintenance_execution.py:138-164 | the sync begins if and only if the coordination holds exactly the dispatched batch the execution has seen, for its setup, with all held |
| `MaintenanceOutcomes.FinishOutcome` | src/agentcfg/maintenance_execution.py:223-254 | a running setup's end commits if and only if the batch is the one seen and the exit code is in range |
| `MaintenanceOutcomes.HandoverOutcome` | src/agentcfg/maintenance_handoff.py:61-97 | a setup is completed by hand if and only if it succeeded as seen and all is held; every run is then left to be restored by hand |
| `MaintenanceOutcomes.IntentOutcome` | src/agentcfg/resource_coordination.py:297-361 | an intent is sent only while active, doubted until it is over, cancelled only while nothing was done, and nothing else of it changes |
| `MaintenanceSafety.DispatchEventKeepsGood` | src/agentcfg/maintenance_dispatch.py:51-86 | review use, commit and permit issue keep the invariants under every delivery of the commit |
| `MaintenanceSafety.SyncEventKeepsGood` | src/agentcfg/maintenance_execution.py:138-164 | permit use and the start of the sync keep them, also when the commit is lost or fails |
| `MaintenanceSafety.CheckKeepsGood` | src/agentcfg/maintenance_execution.py:90-120 | approval, scope checks, end of sync and end of apply only follow one another |
| `MaintenanceSafety.EndEventKeepsGood` | src/agentcfg/maintenance_execution.py:223-254 | one result is recorded at most, a success only after the verified apply |
| `MaintenanceSafety.ForkKeepsGood` | src/agentcfg/maintenance_permit.py:140-157 | copies a fork makes can neither act nor be used |
| `MaintenanceSafety.SetupRunsAtMostOnce` | src/agentcfg/maintenance_dispatch.py:51-86 | over every run a batch gets at most one dispatch and one sync, no ticket is used twice, and a sync follows its saved dispatch, a used review and permit, with every run exited and released |
| `MaintenanceSafety.SuccessIsEarned` | src/agentcfg/maintenance_execution.py:138-254 | a recorded success or completed intent names one execution that passed all stages once and in order before it, and that began its sync after the digest it deployed was saved for this batch |
| `MaintenanceEvidence.FinishIsRecorded` | src/agentcfg/maintenance_execution.py:223-254 | a finished setup is recorded as a success if and only if it returned 0, as partial with exactly that exit code and digest if and only if it returned another code, as unknown without either if and only if it raised |
| `MaintenanceEvidence.ResultIsWhatHappened` | src/agentcfg/maintenance_execution.py:223-254 | over every run a batch's result was written by one event, the end of its own started execution, and says exactly what that returned or raised |
| `MaintenanceEvidence.ResultIsFinal` | src/agentcfg/maintenance_execution.py:223-254 | over every run a result once recorded never changes |
| `MaintenanceEvidence.FactsAreWitnessed` | src/agentcfg/maintenance_progress.py:79-100 | over every run a confirmed exit came with a complete all-exited proof of the run's own manager, a release with every exit confirmed and every reservation released under the locks, a stop request from a request for that run; no session is ever sealed |
| `MaintenanceEvidence.DispatchIdsDiffer` | src/agentcfg/maintenance_dispatch.py:42-48 | over every run no two batches carry the same dispatch id |
| `MaintenanceGates.EntriesAreEarned` | src/agentcfg/maintenance_execution.py:90-254 | over every run each stage passed, ticket used, dispatch, sync and success saved was entered by one event whose gate was open: own process, right stage, the batch still as seen, locks held where the stage asks for them, the deployed digest the saved one |
| `MaintenanceGates.TicketsAreMade` | src/agentcfg/maintenance_permit.py:114-157 | over every run each review, also a forked copy, comes from an approval of a stopped and released setup, each permit from a delivered dispatch of exactly the batch it is bound to |
| `MaintenanceGates.ExecutionsAreBegun` | src/agentcfg/maintenance_execution.py:45-60 | over every run each execution, also a forked copy, was begun at its first stage with an issued permit of its own process for a dispatched setup |
| `MaintenanceGates.RevisionsRise` | src/agentcfg/resource_coordination.py:172-199 | over every run whatever changes the domain raises its revision, and a released reservation stays released |
| `MaintenanceSafety.ReachableBatchesAreValid` | src/agentcfg/maintenance.py:245-358 | every reachable domain satisfies all batch rules |
| `MaintenanceCompletion.ReachedIsApart` | src/agentcfg/maintenance_store.py:100-124 | over every run no two open batches share a resource |
| `MaintenanceCompletion.SetupGetsStopped` | src/agentcfg/maintenance_release.py:197-222 | an open setup can have every exit recorded and its release confirmed, at one revision a step |
| `MaintenanceCompletion.ExecutionGetsThrough` | src/agentcfg/maintenance_execution.py:90-254 | an execution that sees its planned batch under its locks can pass all stages and have its success recorded and handed over |
| `MaintenanceCompletion.SetupCanComplete` | src/agentcfg/maintenance_dispatch.py:51-86 | from every reachable world an open setup not yet dispatched can be completed while a dispatch id is free and the revision has room |
| `MaintenanceService.Coordinator.Commit` | src/agentcfg/resource_coordination.py:172-199 | a transaction replaces the domain exactly when the whole edited domain is valid |
| `MaintenanceService.Coordinator.AcceptSnapshot` | src/agentcfg/maintenance_store.py:100-134 | acceptance at the seen revision over unfenced resources |
| `MaintenanceService.Coordinator.WriteItem` | src/agentcfg/maintenance_progress.py:48-108 | editing one item in place and settling the phase over all is the specified step |
| `MaintenanceService.Coordinator.ConfirmSetupRelease` | src/agentcfg/maintenance_release.py:197-222 | the loop freeing every item is the specified step |
| `MaintenanceService.Coordinator.CompleteSetupManual` | src/agentcfg/maintenance_handoff.py:61-97 | the loop handing every item over is the specified step |
| `MaintenanceService.Coordinator.MoveIntent` | src/agentcfg/resource_coordination.py:297-361 | sending, doubting and cancelling an intent are the specified steps |
| `MaintenanceTickets.Slip.Consume` | src/agentcfg/maintenance_permit.py:140-157 | a ticket is used at most once, for its own batch and process; a refusal uses nothing |
| `MaintenanceTickets.RecordSetupDispatch` | src/agentcfg/maintenance_dispatch.py:51-86 | the order of guard, review, commit and permit is that of the run model |
| `MaintenanceTickets.Execution.Check` | src/agentcfg/maintenance_execution.py:90-120 | one stage to the next, or no move |
| `MaintenanceTickets.Execution.BeginSync` | src/agentcfg/maintenance_execution.py:138-164 | stage, permit, commit and delivery are those of the run model |
| `MaintenanceTickets.Execution.EnterApply` | src/agentcfg/maintenance_execution.py:173-202 | entering apply holds the stage back unless batch and locks still agree |
| `MaintenanceTickets.Execution.Finish` | src/agentcfg/maintenance_execution.py:223-254 | the recorded result is that of the run model and ends the execution |
| `StopSafety.NextKeepsGood` | src/agentcfg/dsh_stop_completion.py:92-160 | fences, closes and requests stay consistent whatever call dies where |
| `StopSafety.InstallOutcome` | src/agentcfg/run_stop_fence.py:106-169 | a fence goes up if and only if the registry is the reviewed one with a run and no fence and its snapshot is new and holds the chosen runs as they stand; the snapshot is there before the fence |
| `StopSafety.PublishOutcome` | src/agentcfg/dsh_stop_client.py:52-76 | a request is posted if and only if its batch has no close, its own linked fence is up over a stop-only snapshot, the run's record is the snapshot's and the expected one, active, never asked, and the endpoint is ready; nothing but the request is written |
| `StopSafety.FencedRunCanBeAsked` | src/agentcfg/dsh_stop_client.py:52-76 | once its fence is up every active run of the snapshot can be asked to stop while it stands as chosen |
| `StopSafety.OnlyActiveRunsAreAsked` | src/agentcfg/dsh_stop_client.py:61-66 | over every run a request names a run its batch's snapshot holds as active |
| `StopSafety.FenceKeepsOut` | src/agentcfg/run_owners.py:530-541 | over every run no run is forgotten, and while a fence is up none is added |
| `StopSafety.NoRequestAfterClose` | src/agentcfg/dsh_stop_client.py:52-76 | once a close is durable it stays and its batch gets no further request |
| `StopSafety.CancelNeverCoversPostedRun` | src/agentcfg/dsh_stop_completion.py:85-140 | over every run a run closed while active never gets a request of that batch, and each run that got one was idle at the close |
| `StopSafety.OtherFenceStays` | src/agentcfg/dsh_stop_completion.py:109-160 | no point of close_stop removes another batch's fence |
| `StopSafety.CloseOutcome` | src/agentcfg/dsh_stop_completion.py:92-160 | from any consistent store closing succeeds if and only if it is finished or its own linked fence is up and each selected run is unchanged and idle, or to cancel active and never asked |
| `StopSafety.ClosingGetsThrough` | src/agentcfg/dsh_stop_completion.py:92-160 | wherever calls died, with requests posted and runs moving on around it, closing again succeeds if and only if it is finished or the selected runs qualify, and ends with the close present and the fence gone |
| `StopSafety.InterruptedCloseRetries` | src/agentcfg/dsh_stop_completion.py:109-137 | after the close record is written a retry succeeds if and only if the selected runs still qualify |
| `StopRegistry.Registry.InstallFence` | src/agentcfg/run_stop_fence.py:106-169 | snapshot, then fence, one durable write at a time |
| `StopRegistry.Registry.PublishRequest` | src/agentcfg/dsh_stop_client.py:52-76 | a request is posted only under its own linked fence with no close and an untouched active run |
| `StopRegistry.Registry.Collect` | src/agentcfg/dsh_stop_completion.py:127-135 | the loop over the selection accepts exactly the qualifying selections |
| `StopRegistry.Registry.CloseStop` | src/agentcfg/dsh_stop_completion.py:92-160 | close record, then fence removal, one durable write at a time |
| `LayeredMerge.MergedAt` | src/agentcfg/merge.py:50-70 | a merged value is at each path what the newer layer says if it decides the path, else what the older one says |
| `LayeredMerge.LastLayerDecides` | src/agentcfg/merge.py:41-78 | the last layer that decides a path determines it; a path no layer decides is absent |
| `LayeredMerge.KindsDetermine` | src/agentcfg/merge.py:41-78 | merged data is determined by what it holds at each path |
| `LayeredMerge.Merging.Discard` | src/agentcfg/merge.py:45-48 | exactly the entries at or below a path go |
| `LayeredMerge.Merging.Merge` | src/agentcfg/merge.py:50-70 | the recursion computes the merge and keeps the table's keys the leaves, crediting the layer with what it mentions |
| `LayeredMerge.MergeLayers` | src/agentcfg/merge.py:41-78 | the table names exactly the leaf paths, each with the last layer mentioning it; bad layers are refused |
| `LayeredMerge.RemergeChangesNothing` | src/agentcfg/merge.py:41-78 | merging the last layer again changes neither data nor table |
| `ShellLexer.Tokens` | scripts/omp-shell-test-oracle.py:56-97 | the scanning loops produce the specified tokens |
| `ShellLexer.TokenIsSlice` | scripts/omp-shell-test-oracle.py:56-97 | each token is a non-empty slice of its text, line ends normalised |
| `ShellLexer.TokensTile` | scripts/omp-shell-test-oracle.py:56-97 | tokens are in order and disjoint with only blanks between and around them |
| `ShellWords.LongestOperator` | scripts/omp-shell-test-oracle.py:6-6 | the operator at a place is the longest of the list that stands there |
| `ShellWords.TokensAreRead` | scripts/omp-shell-test-oracle.py:56-97 | each token is a line end, a comment to the end of its line, the longest operator, or a word to the first unquoted blank, line end, operator or leading hash |
| `ShellLexer.Rebuild` | scripts/rebuild-omp-test-corpus.py:77-80 | splicing right to left equals rewriting left to right |
| `ShellLexer.RewriteKeepsOperators` | scripts/rebuild-omp-test-corpus.py:44-80 | a rewrite of words and comments keeps every operator and every blank |
| `ShellOracle.WordsExtend` | scripts/omp-shell-review-oracle.py:26-64 | the second word decoder agrees with the first wherever that succeeds, and the first with it wherever there is no home mark |
| `ShellOracle.SecondExtendsFirst` | scripts/omp-shell-review-oracle.py:67-157 | a complete first parse is the second's too; a complete second parse without home marks and control heads is the first's |
| `ShellOracle.CompleteIsSound` | scripts/omp-shell-test-oracle.py:150-229 | a complete parse passes the fixture loader's checks, starts with start, and the text does not dangle |
| `ShellReading.ParseIsReading` | scripts/omp-shell-test-oracle.py:150-229 | in either version a text parses to a list of commands if and only if it is readable and its visible tokens can be cut into spans between separators such that each command has the separator before it as its connector (a line end reading as a semicolon, further ones skipped), the decoded words of its span as argv, exactly the places of unquoted globs and home marks, and each redirection with the descriptor written before it, else 0 for < and 1 for >; nothing dangles, and each command may be run |
| `ShellWords.WordDecodes` | scripts/omp-shell-test-oracle.py:100-147 | a word decodes if and only if nothing in it is dynamic, open or cut short, character by character; what is split is the word without continuations, and it has a glob if and only if a pattern character is unquoted |
| `ShellWords.HomeWordDecodes` | scripts/omp-shell-review-oracle.py:26-64 | the second version decodes as the first once each unquoted home mark is escaped, and fails on one that neither leads the word nor lies in a path below it |
| `ShellWords.VisibleKeeps` | scripts/omp-shell-test-oracle.py:155-155 | exactly comments and words of nothing but continuations are hidden, and the other tokens stay in order |
| `ShellParser.DecodeWord` | scripts/omp-shell-test-oracle.py:100-147 | scanning, cleaning and splitting loops are the first decoder |
| `ShellParser.DecodeHomeWord` | scripts/omp-shell-review-oracle.py:26-64 | the escaping loop is the second decoder |
| `ShellParser.CommandList.Flush` | scripts/omp-shell-review-oracle.py:81-116 | flush checks and empties the accumulators, or leaves them |
| `ShellParser.CommandList.Turn` | scripts/omp-shell-test-oracle.py:185-224 | one turn of the loop over the tokens |
| `ShellParser.ExpectedParse` | scripts/omp-shell-review-oracle.py:67-157 | the whole parse of either version |
| `Compaction.CompactionConserves` | scripts/omp-history-scenarios.py:268-317 | occurrences and members over the output sum to the input's |
| `Compaction.OneRepresentative` | scripts/omp-history-scenarios.py:297-303 | a scene's least command does not depend on the order of the records |
| `CompactionOutput.RecordsSpeakForScenes` | scripts/omp-history-scenarios.py:286-317 | each output record has its scene's shortest command, in bytes and then code points, with nothing to redact in it, the first category of its features and exactly the sources that have it, in order; categories are counted as often as they come |
| `Compaction.CompactionIgnoresOrder` | scripts/omp-history-scenarios.py:268-317 | permuting the input changes no scene, representative, source list or count |
| `Compaction.RepresentativesDiffer` | scripts/check-omp-command-history.ts:145-152 | no two output records share command, id or scene |
| `Compaction.ConsumerTakesReadable` | scripts/check-omp-command-history.ts:112-194 | the consumer accepts an output only if counters and scene counts are safe; where the occurrences sum within the last safe integer, it accepts if and only if counters are readable |
| `CompactionExamples.SkippedMoreThanSkipped` | scripts/check-omp-command-history.ts:125-131 | an accepted input whose skip counters the consumer refuses |
| `CompactionExamples.RoundingRefuses` | scripts/check-omp-command-history.ts:131-184 | an accepted input with readable counters whose rounded sums disagree |
| `Compaction.SortGroups` | scripts/omp-history-scenarios.py:308-308 | all groups, ascending by scene |
| `Compaction.Compact` | scripts/omp-history-scenarios.py:268-317 | the loop accepts exactly valid input and produces its compaction |
| `ReleaseWait.ControlDeadline.Remaining` | src/agentcfg/control_deadline.py:41-51 | the remaining budget never grows; a failed reading changes nothing |
| `ReleaseWait.ControlDeadline.Expired` | src/agentcfg/control_deadline.py:53-54 | an expired deadline stays expired |
| `ReleaseWait.Visit` | src/agentcfg/maintenance_wait.py:64-89 | the run is observed once if the clock allows; a matching proof is recorded and, if the record is kept, counts as saved, otherwise nothing is recorded; each reason for stopping is what happened |
| `ReleaseWait.Round` | src/agentcfg/maintenance_wait.py:62-89 | a round that goes on has observed every pending run exactly once; it confirms exactly the recorded ones |
| `ReleaseWait.AtMostOnceDurable` | src/agentcfg/maintenance_wait.py:74-81 | however the wait ends no run is recorded twice, each confirmed one is recorded, and at most one more |
| `ReleaseWait.WaitForRelease` | src/agentcfg/maintenance_wait.py:38-98 | the wait ends, splits the targets, records each confirmed run exactly once and, where the last answer was lost, at most that one pending run too; it exits 0 only with nothing pending |
| `ReleaseWait.WaitForBatchRelease` | src/agentcfg/maintenance_progress.py:111-144 | runs already saved count as confirmed and are not recorded again; the revision returned moves by the number newly confirmed, and the durable one is one ahead only after a lost answer |
| `StopPlan.SortIsCanonical` | src/agentcfg/maintenance.py:134-161 | sorting a list of unique ids depends on its elements alone and is idempotent |
| `StopPlan.ContentDecides` | src/agentcfg/maintenance.py:128-193 | in either protocol, plans with the same content have the same canonical form |
| `StopPlan.CheckedIsItself` | src/agentcfg/maintenance.py:361-386 | a built plan passes verification and decodes to itself |
| `StopPlan.BuildIgnoresOrder` | src/agentcfg/dsh_stop_plan.py:93-131 | in either protocol, any order of selection, runs, resources and id lists builds the same plan with the same id |
| `StopPlan.ReadyMeansUnblocked` | src/agentcfg/maintenance.py:140-184 | ready exactly without blockers; in a ready setup plan a resource is referenced by exactly the selected runs listing it |
| `StopPlan.BlockersHaveCauses` | src/agentcfg/maintenance.py:140-182 | each blocker of a plan is there if and only if a run or resource of it gives cause: an unseen process, an automatic restore not supported or not sealed, a resource not fully seen, a reference by an unselected run, no stop capability |
| `StopPlan.StopOnlyNeedsItsRuns` | src/agentcfg/dsh_stop_plan.py:46-78 | a stop-only plan under a registry is ready if and only if the coordinator can stop runs and each selected run's processes are known; no resource blocks it |
| `StopPlan.SetupReadinessAgrees` | src/agentcfg/dsh_stop_plan.py:46-85 | for a setup both protocols are ready for the same contents, save for the coordinator's capability |
| `StopPlan.CollectBlockers` | src/agentcfg/maintenance.py:140-182 | the loops over runs and resources find exactly the blockers |
| `StopPlanShape.PlanListsAscend` | src/agentcfg/maintenance.py:134-181 | a plan's runs are exactly the selected ones, and all its lists ascend |
| `StopPlanShape.RunStands` | src/agentcfg/maintenance.py:140-170 | every run of a plan was digested as observed, lies in scope and lists resources of the plan with one instance, one native home and a runtime |
| `StopPlanShape.ResourceStands` | src/agentcfg/maintenance.py:170-179 | every resource of a plan is some run's, refers of the selected runs to exactly those listing it, shares no physical object, and in the first protocol lies in the one domain |
| `CordisRows.LoadedHolds` | src/agentcfg/native.py:148-168 | a row list loads if and only if every row has one of the two forms and no id comes twice; the document then holds each row under its id and every place |
| `CordisRows.FileLoads` | src/agentcfg/native.py:148-168 | a file loads if and only if it is empty, or a list in which each row names a field of its own by a text, without an insert, or is one insert of mappings |
| `CordisRows.LoadThenDump` | src/agentcfg/native.py:148-188 | a file that loads is dumped row for row as it was |
| `CordisRows.DumpSucceeds` | src/agentcfg/native.py:171-194 | an edited document is written if and only if every value is a row the loader takes under its id |
| `CordisRows.DumpThenLoad` | src/agentcfg/native.py:148-194 | a dumped document loads again with its ids and places, and with the same rows if and only if none carries an id field of its own |
| `CordisRows.EditsKeepPlaces` | src/agentcfg/native.py:171-188 | after any edits that stay writable the file keeps every insert row and the places of surviving rows, drops exactly the removed ids and ends with the new ones |
| `CordisRows.SurvivorsKeepOrder` | src/agentcfg/native.py:171-180 | two surviving places keep their order |
| `CordisRows.DumpIsStable` | src/agentcfg/native.py:148-188 | a written file, loaded and dumped again, is the same file |
| `CordisRows.LoadCordis` | src/agentcfg/native.py:148-168 | the loop over the rows builds the specified document or refuses |
| `CordisRows.DumpCordis` | src/agentcfg/native.py:171-188 | the two emitting loops and the final reload are the specified dump |

## Left out

- JSON and YAML text, key escapes of selectors, base64 and digests: documents, key paths and injective or uninterpreted values stand for them; lists inside documents are opaque scalars.
- Guards on credential fields, safe_projection and validate_reference_targets: they only refuse further, before any write.
- Insert rows inside the deployment proofs: there a document is its fields, which is also all write_changes looks at when it decides to delete a file.
- YAML text of the row list: a value without empty field names is taken to parse back to itself, and the order of fields inside one row is not kept.
- Compare-and-swap of single files inside one call: nobody edits an instance file between the read and the replace of one group; between calls any edit is allowed.
- The file mode of a field-managed file: it becomes 0600 with the first change and a rollback does not restore it; the theorems speak of documents.
- Aliasing of nested dictionaries: documents are values held in one mutable field.
- shared_files of the deployment owner is a set, and the sorted keys are any listing, which within one path is in the order of the sort (`PlanLayers.SortedKeys`).
- KeyboardInterrupt and other exceptions inside a transaction behave as a refusal or as the death of the process.
- All deployer theorems assume one codec per file, over recorded and wanted items together.
- Maintenance lists sorted by unique run id are maps and sets; size limits other than the number of runs are not modelled.
- Physical locks, owner records, deployments and workspaces enter the maintenance steps as one verdict (`held`); reservations only as a set of released runs.
- Reuse of a process id by a later process: a forked copy of an unused ticket held by a grandchild with the same id is not excluded by the source and not modelled.
- Intents without progress, and restore steps of later protocols, which no step of the modelled modules takes.
- The thread check of an execution: an execution is bound to its process only.
- Stop dispatch by the manager and the endpoint checks of the inbox: one flag per run, and one verdict when posting.
- Floating point: deadlines are real numbers, so the remaining budget is exact.
- shlex, byte lengths, SHA-256 and the regular expressions over one argv are function parameters; the status oracle and the classifier's token scan are not modelled.
- Which record a compacted scene takes its features from (the first seen): only that some member has them.
- Size limits of stop plans and the physical check of resource keys beyond their uniqueness.
