/** The durable maintenance batch of maintenance.py and the cross-field rules its codec enforces. */
module MaintenanceBatch {
  import opened Wrappers

  type Id = string
  type Digest = string

  datatype Operation = StopOnly | Setup
  datatype StopPhase = StopAccepted | StopAsked | StopConfirmed | StopFailed | StopUnknown
  datatype RestorePhase = NotRequested | Manual | RestorePending | RestoreLaunched | Restored | RestoreFailed
                        | RestoreUnknown
  datatype DispatchState = NotDispatched | Intended | Dispatched | Confirmed | DispatchUnknown
  datatype Phase = Accepted | Stopping | Stopped | Planned | Running | Succeeded
                 | Restoring | Launched | BackUp | Failed | Partial | Unknown

  datatype Facts = Facts(stopRequested: bool, exitConfirmed: bool, resourcesReleased: bool, sessionSealed: bool)
  datatype Launch = Launch(state: DispatchState, id: Option<Id>, newRun: Option<Id>)
  datatype Item = Item(stop: StopPhase, restore: RestorePhase, facts: Facts, launch: Launch)
  datatype Dispatch = Dispatch(state: DispatchState, id: Option<Id>, setupDigest: Option<Digest>,
    targetDigest: Option<Digest>)
  datatype Status = Success | Failure | Incomplete | Uncertain
  datatype OperationResult = OperationResult(status: Status, exitCode: Option<int>, digest: Option<Digest>)

  // A canonical stop plan, reduced to what a batch looks at. restore says which runs are restored by hand.
  datatype Plan = Plan(id: Digest, operation: Operation, ready: bool, byHand: map<Id, bool>, resources: set<Id>)

  // Lists sorted by unique run id are maps and sets.
  datatype Batch = Batch(id: Id, revision: nat, plan: Plan, operation: Operation, accepted: set<Id>, phase: Phase,
                         items: map<Id, Item>, dispatch: Dispatch, result: Option<OperationResult>, review: bool)

  const MAX_REVISION: nat := 0xFFFF_FFFF_FFFF_FFFF
  const MAX_RUNS: nat := 1024

  const NO_FACTS := Facts(false, false, false, false)
  const NOT_LAUNCHED := Launch(NotDispatched, None, None)
  const NEVER := Dispatch(NotDispatched, None, None, None)

  function Initial(id: Id, plan: Plan): Batch {
    Batch(id, 0, plan, plan.operation, plan.byHand.Keys, Accepted,
          map run | run in plan.byHand.Keys :: Item(StopAccepted, NotRequested, NO_FACTS, NOT_LAUNCHED), NEVER, None,
            false)
  }

  predicate IsFree(f: Facts) {
    f.exitConfirmed && f.resourcesReleased
  }

  // What the schema bounds.
  predicate InSchema(b: Batch) {
    && b.revision <= MAX_REVISION
    && 1 <= |b.accepted| <= MAX_RUNS
    && (b.result.Some? && b.result.value.exitCode.Some? ==> -255 <= b.result.value.exitCode.value <= 255)
  }

  predicate ValidItem(b: Batch, run: Id)
    requires run in b.items && run in b.plan.byHand
  {
    var item := b.items[run];
    var launch := item.launch;
    && !(item.stop.StopAccepted? && item.facts.stopRequested)
    && !(item.stop.StopAsked? && !item.facts.stopRequested)
    && !(item.stop.StopConfirmed? && !IsFree(item.facts))
    && (launch.state.NotDispatched? <==> launch.id.None?)
    && (if launch.state.NotDispatched? then launch.newRun.None? && !item.restore.RestoreLaunched? &&
      !item.restore.Restored?
        else
          && launch.newRun.Some? && launch.newRun.value !in b.accepted && launch.id != b.dispatch.id
          && (item.stop.StopConfirmed? || item.stop.StopUnknown?) && IsFree(item.facts) && item.facts.sessionSealed &&
            !b.plan.byHand[run]
          && item.restore == match launch.state
                             case Intended => RestorePending
                             case Dispatched => RestoreLaunched
                             case Confirmed => Restored
                             case _ => RestoreUnknown)
    && (item.restore.Manual? ==> b.plan.byHand[run])
  }

  predicate IsUncertain(item: Item) {
    item.stop.StopUnknown? || item.restore.RestoreUnknown? || item.launch.state.DispatchUnknown?
  }

  predicate SomeUncertain(b: Batch) {
    b.dispatch.state.DispatchUnknown? || (exists run :: run in b.items.Keys && IsUncertain(b.items[run])) ||
    (b.dispatch.state.Confirmed? && b.result.None?) ||
      (b.result.Some? && (b.result.value.status.Uncertain? || b.result.value.status.Incomplete?))
  }

  predicate SomeFailed(b: Batch) {
    (exists run :: run in b.items.Keys && (b.items[run].stop.StopFailed? || b.items[run].restore.RestoreFailed?)) ||
    (b.result.Some? && b.result.value.status.Failure?)
  }

  predicate ValidDispatch(d: Dispatch) {
    && (d.state.NotDispatched? <==> d.id.None?)
    && (d.setupDigest.Some? ==> !d.state.NotDispatched?)
    && (d.targetDigest.Some? ==>
      (d.state.Dispatched? || d.state.Confirmed? || d.state.DispatchUnknown?) && d.setupDigest.Some?)
  }

  predicate ValidResult(b: Batch)
    requires b.result.Some?
  {
    var result := b.result.value;
    && (b.dispatch.state.Confirmed? || b.dispatch.state.DispatchUnknown?)
    && (result.status.Uncertain? || (result.exitCode.Some? && result.digest.Some?))
    && (result.status.Success? ==> result.exitCode == Some(0) && b.dispatch.state.Confirmed?)
    && (result.status.Failure? ==> result.exitCode != Some(0))
  }

  predicate IsOpenEnded(p: Phase) {
    p.Unknown? || p.Partial?
  }

  predicate ValidPhase(b: Batch) {
    var allStopped := forall run | run in b.items.Keys :: b.items[run].stop.StopConfirmed?;
    && (SomeUncertain(b) ==> IsOpenEnded(b.phase) && b.review)
    && (b.phase.Failed? || IsOpenEnded(b.phase) ==> b.review)
    && (SomeFailed(b) ==> b.phase.Failed? || IsOpenEnded(b.phase))
    && (b.phase.Accepted? ==>
          b.dispatch.state.NotDispatched? && forall run | run in b.items.Keys ::
            b.items[run].stop.StopAccepted? && b.items[run].restore.NotRequested?)
    && (b.phase.Stopping? ==>
          b.dispatch.state.NotDispatched? && exists run ::
            run in b.items.Keys && (b.items[run].stop.StopAsked? || b.items[run].stop.StopConfirmed?))
    && (b.phase.Stopped? ==>
          b.dispatch.state.NotDispatched? && forall run | run in b.items.Keys ::
            b.items[run].launch.state.NotDispatched?)
    && (b.phase.Stopped? || b.phase.Restoring? || b.phase.Launched? || b.phase.BackUp? ==> allStopped)
    && (b.phase.Planned? ==> allStopped && b.dispatch.state.Intended?)
    && (b.phase.Running? ==> allStopped && b.dispatch.state.Dispatched?)
    && (b.phase.Succeeded? ==>
      allStopped && b.dispatch.state.Confirmed? && b.result.Some? && b.result.value.status.Success?)
    && (b.phase.Restoring? ==> exists run :: run in b.items.Keys && b.items[run].restore.RestorePending?)
    && (b.phase.Launched? ==> exists run :: run in b.items.Keys && b.items[run].launch.state.Dispatched?)
    && (b.phase.BackUp? ==> forall run | run in b.items.Keys :: b.items[run].restore.Restored?)
  }

  predicate IsRestoring(item: Item) {
    item.restore.RestorePending? || item.restore.RestoreLaunched? || item.restore.Restored? ||
      !item.launch.state.NotDispatched?
  }

  predicate ValidOperation(b: Batch) {
    && (if b.operation.StopOnly? then b.dispatch.state.NotDispatched? && b.result.None? && !b.phase.Planned? &&
      !b.phase.Running? && !b.phase.Succeeded?
        else !b.dispatch.state.NotDispatched? ==> forall run | run in b.items.Keys :: IsFree(b.items[run].facts))
    && (b.dispatch.state.NotDispatched? ==> b.result.None?)
    && (b.dispatch.state.Intended? ==> b.result.None? && (b.phase.Planned? || IsOpenEnded(b.phase)))
    && (b.dispatch.state.Dispatched? ==> b.result.None? && (b.phase.Running? || IsOpenEnded(b.phase)))
    && (b.dispatch.state.Confirmed? && b.result.None? ==> b.phase.Unknown? && b.review)
    && (b.operation.Setup? && (exists run :: run in b.items.Keys && IsRestoring(b.items[run])) ==>
          (b.dispatch.state.NotDispatched? && b.result.None?) ||
          (b.dispatch.state.Confirmed? && b.result.Some? && b.result.value.status.Success?))
  }

  // Everything the batch codec checks on every load and on every write.
  predicate ValidBatch(b: Batch) {
    && InSchema(b)
    && b.plan.ready && b.operation == b.plan.operation && b.accepted == b.plan.byHand.Keys && b.items.Keys == b.accepted
    && ValidDispatch(b.dispatch)
    && (forall run | run in b.items.Keys :: ValidItem(b, run))
    && (forall r, s | r in b.items.Keys && s in b.items.Keys && r != s && b.items[r].launch.id.Some? ::
          b.items[r].launch.id != b.items[s].launch.id && b.items[r].launch.newRun != b.items[s].launch.newRun)
    && ValidOperation(b)
    && (b.result.Some? ==> ValidResult(b))
    && ValidPhase(b)
  }
}
