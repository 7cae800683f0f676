/** Reviews, permits and the execution of one setup as mutable objects of a process. Each method is
    proved to make exactly the move the run model makes, seen through the few objects it touches. */
module MaintenanceTickets {
  import opened Wrappers
  import opened MaintenanceBatch
  import opened MaintenanceDomain
  import opened MaintenanceService
  import R = MaintenanceRun

  // SetupReview (not issued) and BatchPermit (issued): everything but the one-shot flag is fixed.
  class Slip {
    const pid: nat
    const issued: bool
    const seen: Batch
    const generation: nat
    const setup: Digest
    var used: bool

    function View(): R.Ticket
      reads this
    {
      R.Ticket(pid, issued, seen, generation, setup, used)
    }

    constructor (pid: nat, issued: bool, seen: Batch, generation: nat, setup: Digest)
      ensures View() == R.Ticket(pid, issued, seen, generation, setup, false)
    {
      this.pid, this.issued, this.seen, this.generation, this.setup, used := pid, issued, seen, generation, setup,
        false;
    }

    // Checked and used in one step, by its own process only; a refusal uses nothing.
    method Consume(caller: nat, kind: bool, batch: Batch, now: nat, digest: Digest) returns (ok: bool)
      modifies this`used
      ensures ok == R.Takes(old(View()), caller, kind, batch, now, digest)
      ensures View() == old(View()).(used := old(used) || ok)
    {
      if issued != kind || !IsReviewable(batch, digest, kind) {
        return false;
      }
      if used || pid != caller || seen != batch || generation != now || setup != digest {
        return false;
      }
      used := true;
      ok := true;
    }
  }

  function Desk(d: Domain, review: R.Ticket, caller: nat): R.World {
    var h := R.Handle(caller, 0);
    R.World(d, map[h := review], map[], {h}, {caller}, [])
  }

  // record_setup_dispatch: use the review, commit the intent, and only then issue the permit.
  method RecordSetupDispatch(c: Coordinator, review: Slip, caller: nat, id: Id, expected: nat, dispatchId: Id,
      setup: Digest,
                             held: bool, delivery: R.Delivery) returns (permit: Slip?)
    modifies c, review`used
    ensures permit != null ==> fresh(permit)
    ensures var event := R.Dispatching(R.Handle(caller, 0), R.Handle(caller, 1), id, expected, dispatchId, setup, held,
      delivery);
            var after := R.DispatchSetup(old(Desk(c.State(), review.View(), caller)), event);
            c.State() == after.domain &&
            after.tickets == (if permit == null then map[R.Handle(caller, 0) := review.View()]
                              else map[R.Handle(caller, 0) := review.View(), R.Handle(caller, 1) := permit.View()])
  {
    hide ValidDomain, ValidAcceptance, IsHeld, IsUnused;
    permit := null;
    var s := RecordDispatch(expected, dispatchId, setup);
    if !IsLoadable(c.State(), id) || !Admits(c.State(), id, s, held) {
      return;
    }
    var i := c.intents[id];
    var ok := review.Consume(caller, false, i.batch, i.generation, setup);
    if !ok {
      return;
    }
    if delivery.Unwritten? {
      return;
    }
    i := i.(batch := i.batch.(revision := i.batch.revision + 1, phase := Planned,
      dispatch := Dispatch(Intended, Some(dispatchId), Some(setup), None)));
    ok := c.Commit(id, i);
    if !ok || delivery.Lost? {
      return;
    }
    permit := new Slip(caller, true, i.batch, i.generation, setup);
  }

  class Execution {
    const pid: nat
    const permit: Slip
    const generation: nat
    const setup: Digest
    var seen: Batch
    var active: bool
    var started: bool
    var stage: R.Stage

    function View(caller: nat): R.Exec
      reads this
    {
      R.Exec(pid, R.Handle(caller, 0), seen, generation, setup, active, started, stage)
    }

    constructor (pid: nat, permit: Slip, batch: Batch, setup: Digest)
      ensures this.pid == pid && this.permit == permit && generation == permit.generation && this.setup == setup
      ensures seen == batch && active && !started && stage == R.New
    {
      this.pid, this.permit, this.generation, this.setup := pid, permit, permit.generation, setup;
      seen, active, started, stage := batch, true, false, R.New;
    }

    // What the caller's process sees of itself: the domain, the permit and this execution.
    function Scene(d: Domain, caller: nat): R.World
      reads this, permit
    {
      R.World(d, map[R.Handle(caller, 0) := permit.View()], map[R.Handle(caller, 1) := View(caller)],
              {R.Handle(caller, 0), R.Handle(caller, 1)}, {caller}, [])
    }

    // approve, check_scope, finish_sync and the end of apply_guard: one stage to the next, or no move.
    method Check(c: Coordinator, caller: nat, mark: R.Mark, held: bool) returns (ok: bool)
      modifies this
      ensures Scene(c.State(), caller) == R.Check(old(Scene(c.State(), caller)),
        R.Checking(R.Handle(caller, 1), mark, held)).(log := [])
      ensures ok <==> stage != old(stage)
    {
      hide R.Sees, IsHeld;
      ok := false;
      if pid != caller || !active {
        return;
      }
      SeesIsKnown(c.State(), View(caller));
      match mark {
        case Approval => if stage.New? && held && R.Sees(c.State(), View(caller)) { stage, ok := R.Approved, true; }
        case PreflightCheck => if stage.Approved? && held &&
          R.Sees(c.State(), View(caller)) { stage, ok := R.Preflight, true; }
        case PrepareCheck => if stage.Preflight? && held &&
          R.Sees(c.State(), View(caller)) { stage, ok := R.Prepared, true; }
        case SyncEnd => if stage.SyncRunning? { stage, ok := R.SyncDone, true; }
        case ApplyCheck => if stage.SyncDone? && held &&
          R.Sees(c.State(), View(caller)) { stage, ok := R.ApplyReady, true; }
        case ApplyEnd(deployed) =>
          if stage.ApplyRunning? && R.Sees(c.State(), View(caller)) && IsHeld(c.State(), seen.id, held) &&
            seen.dispatch.targetDigest == Some(deployed) {
            stage, ok := R.ApplyDone, true;
          }
        case _ =>
      }
    }

    method BeginSync(c: Coordinator, caller: nat, target: Digest, held: bool, delivery: R.Delivery) returns (ok: bool)
      modifies this, c, permit`used
      ensures var begun := R.Syncing(R.Handle(caller, 1), target, held, delivery);
              var after := R.Sync(old(Scene(c.State(), caller)), begun);
              R.Handle(caller, 0) in after.tickets && R.Handle(caller, 1) in after.execs && c.State() == after.domain &&
              permit.View() == after.tickets[R.Handle(caller, 0)] && View(caller) == after.execs[R.Handle(caller, 1)]
      ensures ok ==> started && stage == R.SyncRunning
    {
      hide Attempt, Edited, IsLoadable, Admits, R.Takes;
      ok := false;
      if pid != caller || !active || !stage.Prepared? {
        return;
      }
      stage := R.SyncEntering;
      var s := Step.BeginSync(seen, generation, setup, target);
      LoadableIsKnown(c.State(), seen.id);
      if !IsLoadable(c.State(), seen.id) || !Admits(c.State(), seen.id, s, held) {
        return;
      }
      var used := permit.Consume(caller, true, seen, generation, setup);
      if !used || delivery.Unwritten? {
        return;
      }
      ok := StartSync(c, s, held, delivery);
    }

    // The commit inside begin_sync; only a delivered one starts the execution.
    method StartSync(c: Coordinator, s: Step, held: bool, delivery: R.Delivery) returns (ok: bool)
      requires s.BeginSync? && IsLoadable(c.State(), seen.id) && seen.id in c.intents &&
        Admits(c.State(), seen.id, s, held)
      modifies this, c
      ensures var committed := Attempt(old(c.State()), old(seen).id, s, held);
              && c.State() == (if committed.Ok? then committed.value else old(c.State()))
              && (ok <==> committed.Ok? && delivery.Delivered?)
              && (if ok then old(seen).id in committed.value.intents &&
                seen == committed.value.intents[old(seen).id].batch && started && stage == R.SyncRunning
                  else !delivery.Delivered? || committed.Conflict?)
              && (!ok ==> seen == old(seen) && started == old(started) && stage == old(stage))
      ensures active == old(active)
    {
      hide ValidDomain, ValidAcceptance, IsHeld, Attempt, Edited, IsReviewable;
      ok := false;
      var i := c.intents[seen.id];
      i := i.(batch := i.batch.(revision := i.batch.revision + 1, phase := Running));
      i := i.(batch := i.batch.(dispatch := i.batch.dispatch.(state := Dispatched)));
      i := i.(batch := i.batch.(dispatch := i.batch.dispatch.(targetDigest := Some(s.target))));
      SyncDraft(c.State(), seen.id, s, held, i);
      var committed := c.CommitStep(seen.id, s, held, i);
      if !committed || !delivery.Delivered? {
        return;
      }
      seen := i.batch;
      started, stage := true, R.SyncRunning;
      ok := true;
    }

    method EnterApply(c: Coordinator, caller: nat, held: bool) returns (ok: bool)
      modifies this
      ensures Scene(c.State(), caller) == R.Apply(old(Scene(c.State(), caller)),
        R.Applying(R.Handle(caller, 1), held)).(log := [])
      ensures ok <==> stage.ApplyRunning? && !old(stage).ApplyRunning?
    {
      hide IsFrozen, ValidAcceptance, IsHeld;
      ok := false;
      if pid != caller || !active || !stage.ApplyReady? {
        return;
      }
      stage := R.ApplyEntering;
      if R.Sees(c.State(), View(caller)) && IsHeld(c.State(), seen.id, held) {
        stage, ok := R.ApplyRunning, true;
      }
    }

    // finish, and execute_setup's own end: whatever happens, nothing more follows.
    method Finish(c: Coordinator, caller: nat, outcome: Outcome, delivery: R.Delivery)
      modifies this, c
      ensures var after := R.End(old(Scene(c.State(), caller)), R.Ending(R.Handle(caller, 1), outcome, delivery));
              R.Handle(caller, 1) in after.execs && c.State() == after.domain &&
                View(caller) == after.execs[R.Handle(caller, 1)]
      ensures pid == caller && old(active) ==> !active
    {
      hide ValidDomain, ValidAcceptance, Attempt, Edited;
      if pid != caller || !active {
        return;
      }
      active := false;
      if !started || (outcome.Returned? && outcome.code == 0 && !stage.ApplyDone?) || delivery.Unwritten? {
        return;
      }
      var s := Step.Finish(seen, generation, outcome);
      if !IsLoadable(c.State(), seen.id) || !Admits(c.State(), seen.id, s, true) {
        return;
      }
      var i := c.intents[seen.id];
      i := i.(batch := i.batch.(revision := i.batch.revision + 1));
      match outcome {
        case Raised =>
          i := i.(phase := Doubtful,
                  batch := i.batch.(phase := Unknown, review := true,
                    dispatch := i.batch.dispatch.(state := DispatchUnknown),
                                    result := Some(OperationResult(Uncertain, None, None))));
        case Returned(code, digest) =>
          i := i.(batch := i.batch.(dispatch := i.batch.dispatch.(state := Confirmed), review := code != 0));
          if code == 0 {
            i := i.(batch := i.batch.(phase := Succeeded, result :=
              Some(OperationResult(Success, Some(code), Some(digest)))));
          } else {
            i := i.(phase := Doubtful, batch := i.batch.(phase := Partial,
              result := Some(OperationResult(Incomplete, Some(code), Some(digest)))));
          }
      }
      FinishDraft(c.State(), seen.id, s, i);
      var _ := c.CommitStep(seen.id, s, true, i);
    }
  }

  lemma SeesIsKnown(d: Domain, x: R.Exec)
    ensures R.Sees(d, x) ==> x.seen.id in d.intents
  {
  }

  lemma LoadableIsKnown(d: Domain, id: Id)
    ensures IsLoadable(d, id) ==> id in d.intents
  {
  }

  lemma SyncDraft(d: Domain, id: Id, s: Step, held: bool, i: Intent)
    requires id in d.intents && s.BeginSync? && Admits(d, id, s, held)
    requires var b := d.intents[id].batch;
             i == d.intents[id].(batch := b.(revision := b.revision + 1, phase := Running,
               dispatch := b.dispatch.(state := Dispatched, targetDigest := Some(s.target))))
    ensures i == Edited(d, id, s, held)
  {
  }

  lemma FinishDraft(d: Domain, id: Id, s: Step, i: Intent)
    requires id in d.intents && s.Finish? && Admits(d, id, s, true)
    requires var ended := Ended(d.intents[id].batch, s.outcome);
             i == d.intents[id].(batch := ended, phase := if IsOpenEnded(ended.phase) then Doubtful
               else d.intents[id].phase)
    ensures i == Edited(d, id, s, true)
  {
  }
}
