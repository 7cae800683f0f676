/** The coordination domain: intents with their batches, and every durable step the maintenance
    modules take on them. A step checks its own guard, edits a copy, and commits the copy only if the
    whole domain still passes its codec. */
module MaintenanceDomain {
  import opened Wrappers
  import opened MaintenanceBatch

  datatype IntentPhase = Active | Sent | Doubtful | Cancelled | Completed

  // The immutable acceptance snapshot, the manager each run was accepted with, and the progress.
  datatype Intent = Intent(phase: IntentPhase, generation: nat, accepted: Batch, managers: map<Id, string>,
    batch: Batch)

  // released: runs whose reservation is durably released; a reservation never leaves that phase.
  datatype Domain = Domain(revision: nat, intents: map<Id, Intent>, released: set<Id>)

  predicate IsOpen(i: Intent) {
    i.phase.Active? || i.phase.Sent?
  }

  predicate IsTerminal(i: Intent) {
    i.phase.Cancelled? || i.phase.Completed?
  }

  predicate IsStopping(b: Batch) {
    b.phase.Accepted? || b.phase.Stopping?
  }

  predicate AllByHand(p: Plan) {
    forall run | run in p.byHand.Keys :: p.byHand[run]
  }

  // A stop acceptance holds a ready plan restored by hand and the batch exactly as it begins.
  predicate ValidAcceptance(accepted: Batch, managers: map<Id, string>) {
    ValidBatch(accepted) && AllByHand(accepted.plan) && accepted == Initial(accepted.id, accepted.plan) &&
    managers.Keys == accepted.accepted
  }

  predicate IsFrozen(i: Intent) {
    i.batch.id == i.accepted.id && i.batch.plan == i.accepted.plan && i.batch.operation == i.accepted.operation &&
    i.batch.accepted == i.accepted.accepted
  }

  predicate IsFinished(b: Batch) {
    && b.operation.Setup? && b.phase.Succeeded? && !b.review && b.dispatch.state.Confirmed?
    && b.dispatch.setupDigest.Some? && b.dispatch.targetDigest.Some?
    && b.result.Some? && b.result.value.status.Success? && b.result.value.exitCode == Some(0) &&
      b.result.value.digest.Some?
    && AllByHand(b.plan)
  }

  predicate IsSettled(item: Item) {
    item.stop.StopConfirmed? && IsFree(item.facts) && item.launch.state.NotDispatched?
  }

  // The domain codec: each progress is a valid batch bound to its intent.
  predicate ValidIntent(d: Domain, i: Intent) {
    && ValidBatch(i.batch)
    && (i.phase.Doubtful? <==> IsOpenEnded(i.batch.phase))
    && (i.phase.Cancelled? ==> i.batch == Initial(i.batch.id, i.batch.plan))
    && (i.phase.Completed? ==>
          IsFinished(i.batch) && i.batch.accepted <= d.released &&
          forall run | run in i.batch.items.Keys :: IsSettled(i.batch.items[run]) && i.batch.items[run].restore.Manual?)
  }

  predicate ValidDomain(d: Domain) {
    forall id | id in d.intents.Keys :: d.intents[id].batch.id == id && ValidIntent(d, d.intents[id])
  }

  // Loading a batch also compares it with its published acceptance.
  predicate IsLoadable(d: Domain, id: Id) {
    id in d.intents && ValidAcceptance(d.intents[id].accepted, d.intents[id].managers) && IsFrozen(d.intents[id]) &&
    d.intents[id].accepted.id == id
  }

  // ---- Steps ----

  datatype Proof = Proof(run: Id, manager: string, complete: bool, allExited: bool)
  datatype Outcome = Raised | Returned(code: int, digest: Digest)

  datatype Step =
    | RecordStop(expected: nat, run: Id)
    | RecordExit(expected: nat, proof: Proof)
    | MarkUnknown(expected: nat, run: Id)
    | ConfirmRelease(expected: nat)
    | RecordDispatch(expected: nat, dispatchId: Id, setup: Digest)
    | BeginSync(seen: Batch, generation: nat, setup: Digest, target: Digest)
    | Finish(seen: Batch, generation: nat, outcome: Outcome)
    | CompleteByHand(seen: Batch, generation: nat)
    | SendIntent
    | DoubtIntent
    | CancelIntent

  // Physical locks, owner records and deployments are observed elsewhere; held is their verdict.
  predicate IsHeld(d: Domain, id: Id, held: bool)
    requires id in d.intents
  {
    && held
    && d.intents[id].batch.accepted <= d.released
    && forall other | other in d.intents.Keys && other != id && !IsTerminal(d.intents[other]) ::
         d.intents[other].batch.plan.resources !! d.intents[id].batch.plan.resources
  }

  predicate IsUnused(d: Domain, dispatchId: Id) {
    forall other | other in d.intents.Keys ::
      d.intents[other].batch.dispatch.id != Some(dispatchId) &&
      forall run | run in d.intents[other].batch.items.Keys ::
        d.intents[other].batch.items[run].launch.id != Some(dispatchId)
  }

  // A batch a setup may be reviewed for (issued false), or for which a permit may be issued and used.
  predicate IsReviewable(b: Batch, setup: Digest, issued: bool) {
    && b.operation.Setup? && !b.review && b.result.None? && AllByHand(b.plan)
    && (if issued then b.phase.Planned? && b.dispatch.state.Intended? && b.dispatch.id.Some? &&
      b.dispatch.setupDigest == Some(setup)
        else b.phase.Stopped? && b.dispatch.state.NotDispatched? && b.dispatch.id.None? && b.dispatch.setupDigest.None?)
    && forall run | run in b.items.Keys ::
      IsSettled(b.items[run]) && (b.items[run].restore.NotRequested? || b.items[run].restore.Manual?)
  }

  // The guard each step checks under the domain lock.
  predicate Admits(d: Domain, id: Id, s: Step, held: bool)
    requires id in d.intents
  {
    var i := d.intents[id];
    var b := i.batch;
    match s
    case RecordStop(expected, run) =>
      IsOpen(i) && IsStopping(b) && b.revision == expected && run in b.items && b.items[run].stop.StopAccepted? &&
        !b.items[run].facts.stopRequested
    case RecordExit(expected, proof) =>
      IsOpen(i) && IsStopping(b) && b.revision == expected && proof.run in b.items &&
        !b.items[proof.run].facts.exitConfirmed &&
      proof.complete && proof.allExited && proof.run in i.managers && proof.manager == i.managers[proof.run]
    case MarkUnknown(expected, run) =>
      IsOpen(i) && IsStopping(b) && b.revision == expected && run in b.items
    case ConfirmRelease(expected) =>
      && b.revision == expected && IsOpen(i) && b.operation.Setup? && IsStopping(b) && IsHeld(d, id, held)
      && forall run | run in b.items.Keys ::
           b.items[run].facts.exitConfirmed && !b.items[run].facts.resourcesReleased &&
             (b.items[run].stop.StopAccepted? || b.items[run].stop.StopAsked?)
    case RecordDispatch(expected, dispatchId, setup) =>
      b.revision == expected && IsOpen(i) && IsReviewable(b, setup, false) && IsHeld(d, id, held) &&
        IsUnused(d, dispatchId)
    case BeginSync(seen, generation, setup, target) =>
      IsOpen(i) && i.generation == generation && b == seen && IsHeld(d, id, held) && IsReviewable(b, setup, true)
    case Finish(seen, generation, outcome) =>
      IsOpen(i) && i.generation == generation && b == seen
    case CompleteByHand(seen, generation) =>
      && IsOpen(i) && i.generation == generation && b == seen && IsHeld(d, id, held) && IsFinished(b)
      && forall run | run in b.items.Keys ::
        IsSettled(b.items[run]) && (b.items[run].restore.NotRequested? || b.items[run].restore.Manual?)
    case SendIntent => i.phase.Active? && held
    case DoubtIntent => i.phase.Active? || i.phase.Sent? || i.phase.Doubtful?
    case CancelIntent => i.phase.Active? && b == Initial(b.id, b.plan)
  }

  // After an edit of one item the phase follows from all of them.
  function Settle(i: Intent): Intent {
    var b := i.batch;
    if exists run :: run in b.items.Keys && b.items[run].stop.StopUnknown? then
      i.(phase := Doubtful, batch := b.(phase := Unknown, review := true, revision := b.revision + 1))
    else if exists run :: run in b.items.Keys && b.items[run].facts.stopRequested then
      i.(batch := b.(phase := Stopping, revision := b.revision + 1))
    else i.(batch := b.(phase := Accepted, revision := b.revision + 1))
  }

  function Freed(items: map<Id, Item>): map<Id, Item> {
    map run | run in items.Keys :: items[run].(stop := StopConfirmed,
      facts := items[run].facts.(resourcesReleased := true))
  }

  function HandedOver(items: map<Id, Item>): map<Id, Item> {
    map run | run in items.Keys :: items[run].(restore := Manual)
  }

  function Ended(b: Batch, outcome: Outcome): Batch {
    match outcome
    case Raised =>
      b.(revision := b.revision + 1, phase := Unknown, review := true,
         dispatch := b.dispatch.(state := DispatchUnknown), result := Some(OperationResult(Uncertain, None, None)))
    case Returned(code, digest) =>
      b.(revision := b.revision + 1, phase := if code == 0 then Succeeded else Partial, review := code != 0,
         dispatch := b.dispatch.(state := Confirmed),
         result := Some(OperationResult(if code == 0 then Success else Incomplete, Some(code), Some(digest))))
  }

  // What the step makes of its intent.
  function Edited(d: Domain, id: Id, s: Step, held: bool): Intent
    requires id in d.intents && Admits(d, id, s, held)
  {
    var i := d.intents[id];
    var b := i.batch;
    match s
    case RecordStop(_, run) =>
      var item := b.items[run];
      Settle(i.(batch := b.(items := b.items[run :=
        item.(facts := item.facts.(stopRequested := true), stop := StopAsked)])))
    case RecordExit(_, proof) =>
      var item := b.items[proof.run];
      Settle(i.(batch := b.(items := b.items[proof.run := item.(facts := item.facts.(exitConfirmed := true))])))
    case MarkUnknown(_, run) => Settle(i.(batch := b.(items := b.items[run := b.items[run].(stop := StopUnknown)])))
    case ConfirmRelease(_) => i.(batch := b.(items := Freed(b.items), phase := Stopped, revision := b.revision + 1))
    case RecordDispatch(_, dispatchId, setup) =>
      i.(batch := b.(revision := b.revision + 1, phase := Planned,
        dispatch := Dispatch(Intended, Some(dispatchId), Some(setup), None)))
    case BeginSync(_, _, _, target) =>
      i.(batch := b.(revision := b.revision + 1, phase := Running,
        dispatch := b.dispatch.(state := Dispatched, targetDigest := Some(target))))
    case Finish(_, _, outcome) =>
      var ended := Ended(b, outcome);
      i.(batch := ended, phase := if IsOpenEnded(ended.phase) then Doubtful else i.phase)
    case CompleteByHand(_, _) => i.(batch := b.(revision := b.revision + 1, items := HandedOver(b.items)),
      phase := Completed)
    case SendIntent => i.(phase := Sent)
    case DoubtIntent => i.(phase := Doubtful, batch := b.(revision := b.revision + 1, phase := Unknown, review := true))
    case CancelIntent => i.(phase := Cancelled)
  }

  function Drafted(d: Domain, id: Id, s: Step, held: bool): Domain
    requires id in d.intents && Admits(d, id, s, held)
  {
    d.(revision := d.revision + 1, intents := d.intents[id := Edited(d, id, s, held)])
  }

  // One transaction: load, check the guard, edit, validate everything, replace the file.
  function Attempt(d: Domain, id: Id, s: Step, held: bool): Result<Domain> {
    if IsLoadable(d, id) && Admits(d, id, s, held) && ValidDomain(Drafted(d, id, s, held)) then
      Ok(Drafted(d, id, s, held))
    else Conflict
  }

  // Acceptance: a new intent over resources no open intent fences, at exactly the seen revision.
  predicate IsUnfenced(d: Domain, resources: set<Id>) {
    forall id | id in d.intents.Keys && !IsTerminal(d.intents[id]) :: d.intents[id].batch.plan.resources !! resources
  }

  function Accept(d: Domain, expected: nat, accepted: Batch, managers: map<Id, string>, matches: bool): Result<Domain> {
    if !matches || !ValidAcceptance(accepted, managers) || d.revision != expected || expected >= MAX_REVISION ||
      accepted.id in d.intents ||
       !IsUnfenced(d, accepted.plan.resources) then Conflict
    else Ok(d.(revision := d.revision + 1, intents :=
      d.intents[accepted.id := Intent(Active, expected + 1, accepted, managers, accepted)]))
  }

  function Release(d: Domain, run: Id): Domain {
    d.(revision := d.revision + 1, released := d.released + {run})
  }
}
