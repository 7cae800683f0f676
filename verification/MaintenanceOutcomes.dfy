/** Each durable maintenance step by itself: in a sound domain, exactly when it commits, and exactly what
    it changes. Nothing here mentions the codec or the edit a step makes. */
module MaintenanceOutcomes {
  import opened Wrappers
  import opened MaintenanceBatch
  import opened MaintenanceDomain
  import opened MaintenanceSteps

  // The step committed: one intent changed, the domain moved on by one revision.
  ghost predicate Leaves(d: Domain, id: Id, s: Step, held: bool, after: Intent) {
    Attempt(d, id, s, held) == Ok(d.(revision := d.revision + 1, intents := d.intents[id := after]))
  }

  // Locks are held, all accepted runs' reservations are released, and no other intent that is not over
  // fences any of the resources.
  ghost predicate HoldsAll(d: Domain, id: Id, held: bool)
    requires id in d.intents
  {
    var b := d.intents[id].batch;
    && held && (forall run | run in b.accepted :: run in d.released)
    && forall other | other in d.intents && other != id ::
         d.intents[other].phase.Cancelled? || d.intents[other].phase.Completed? ||
         d.intents[other].batch.plan.resources !! b.plan.resources
  }

  // Runs are being stopped, at the revision the caller has seen, which is not the last one.
  predicate IsStoppingAt(i: Intent, expected: nat) {
    && (i.phase.Active? || i.phase.Sent?) && (i.batch.phase.Accepted? || i.batch.phase.Stopping?)
    && i.batch.revision == expected && expected < MAX_REVISION
  }

  // The intent is open and holds exactly the batch the caller has seen, which is not at the last revision.
  predicate StillHolds(i: Intent, seen: Batch, generation: nat) {
    (i.phase.Active? || i.phase.Sent?) && i.generation == generation && i.batch == seen && seen.revision < MAX_REVISION
  }

  lemma CommitsWhenAdmitted(d: Domain, id: Id, s: Step, held: bool)
    requires Sound(d) && id in d.intents && (s.Finish? ==> d.intents[id].batch.phase.Running?)
    ensures Attempt(d, id, s, held).Ok? <==> Admits(d, id, s, held) && Fits(d.intents[id].batch, s)
    ensures Attempt(d, id, s, held).Ok? ==> Leaves(d, id, s, held, Edited(d, id, s, held))
  {
    hide Admits, Edited, ValidDomain, IsLoadable, Fits;
    assert Tracked(d, id);
    hide Sound;
    if Admits(d, id, s, held) {
      GuardsSuffice(d, id, s, held);
    }
  }

  lemma TrackedIsShaped(d: Domain, id: Id)
    requires Sound(d) && id in d.intents
    ensures Shaped(d.intents[id].batch) && IsLoadable(d, id)
  {
    hide Shaped, ValidAcceptance;
    assert Tracked(d, id);
  }

  lemma HeldIsHoldsAll(d: Domain, id: Id, held: bool)
    requires id in d.intents
    ensures IsHeld(d, id, held) <==> HoldsAll(d, id, held)
  {
    assert HoldsAll(d, id, held) ==> forall other | other in d.intents.Keys && other != id &&
      !IsTerminal(d.intents[other]) :: other in d.intents;
    assert IsHeld(d, id, held) ==> forall other | other in d.intents && other != id :: other in d.intents.Keys;
  }

  // A run is asked to stop once.
  lemma StopOutcome(d: Domain, id: Id, expected: nat, run: Id, held: bool)
    requires Sound(d) && id in d.intents
    ensures var i, s := d.intents[id], RecordStop(expected, run);
            && (Attempt(d, id, s, held).Ok? <==>
                  IsStoppingAt(i, expected) && run in i.batch.items && !i.batch.items[run].facts.stopRequested)
            && (Attempt(d, id, s, held).Ok? ==>
                  var item := i.batch.items[run];
                  Leaves(d, id, s, held, i.(batch := i.batch.(revision := expected + 1, phase := Stopping, items :=
                    i.batch.items[run := item.(stop := StopAsked, facts := item.facts.(stopRequested := true))]))))
  {
    hide Leaves, ValidDomain, IsLoadable, Attempt, Sound;
    CommitsWhenAdmitted(d, id, RecordStop(expected, run), held);
    TrackedIsShaped(d, id);
    var b := d.intents[id].batch;
    if IsStopping(b) {
      StoppingItems(b);
      hide Shaped;
      if run in b.items && !b.items[run].facts.stopRequested {
        var items := b.items[run := b.items[run].(facts := b.items[run].facts.(stopRequested := true),
          stop := StopAsked)];
        assert run in items.Keys && items[run].facts.stopRequested;
        assert forall r | r in items.Keys :: !items[r].stop.StopUnknown?;
      }
    }
  }

  // An exit is confirmed once, by a complete proof of the run's own manager that all its processes are gone.
  lemma ExitOutcome(d: Domain, id: Id, expected: nat, proof: Proof, held: bool)
    requires Sound(d) && id in d.intents
    ensures var i, s := d.intents[id], RecordExit(expected, proof);
            && (Attempt(d, id, s, held).Ok? <==>
                  && IsStoppingAt(i, expected) && proof.run in i.batch.items
                  && !i.batch.items[proof.run].facts.exitConfirmed && proof.complete && proof.allExited
                  && proof.run in i.managers && i.managers[proof.run] == proof.manager)
            && (Attempt(d, id, s, held).Ok? ==>
                  var item := i.batch.items[proof.run];
                  Leaves(d, id, s, held, i.(batch := i.batch.(revision := expected + 1, items :=
                    i.batch.items[proof.run := item.(facts := item.facts.(exitConfirmed := true))]))))
  {
    hide Leaves, ValidDomain, IsLoadable, Attempt, Sound;
    CommitsWhenAdmitted(d, id, RecordExit(expected, proof), held);
    TrackedIsShaped(d, id);
    hide Shaped;
    if IsStopping(d.intents[id].batch) && proof.run in d.intents[id].batch.items {
      ExitKeepsPhase(d.intents[id], proof.run);
      hide Settle;
    }
  }

  lemma StoppingIsRequested(b: Batch)
    requires Shaped(b) && IsStopping(b)
    ensures b.phase.Stopping? <==> SomeRequested(b)
    ensures forall run | run in b.items.Keys :: !b.items[run].stop.StopUnknown?
  {
    StoppingItems(b);
  }

  // Confirming an exit asks nobody to stop, so the phase stays.
  lemma ExitKeepsPhase(i: Intent, run: Id)
    requires Shaped(i.batch) && IsStopping(i.batch) && run in i.batch.items
    ensures var b, item := i.batch, i.batch.items[run];
            var items := b.items[run := item.(facts := item.facts.(exitConfirmed := true))];
            Settle(i.(batch := b.(items := items))) == i.(batch := b.(revision := b.revision + 1, items := items))
  {
    hide Shaped;
    var b, item := i.batch, i.batch.items[run];
    StoppingIsRequested(b);
    var items := b.items[run := item.(facts := item.facts.(exitConfirmed := true))];
    assert forall r | r in items.Keys :: !items[r].stop.StopUnknown?;
    assert forall r | r in items.Keys :: items[r].facts.stopRequested == b.items[r].facts.stopRequested;
    assert items.Keys == b.items.Keys;
  }

  // Losing sight of a run puts the whole batch in doubt.
  lemma UnknownOutcome(d: Domain, id: Id, expected: nat, run: Id, held: bool)
    requires Sound(d) && id in d.intents
    ensures var i, s := d.intents[id], MarkUnknown(expected, run);
            && (Attempt(d, id, s, held).Ok? <==> IsStoppingAt(i, expected) && run in i.batch.items)
            && (Attempt(d, id, s, held).Ok? ==>
                  Leaves(d, id, s, held, i.(phase := Doubtful, batch :=
                    i.batch.(revision := expected + 1, phase := Unknown,
                    review := true, items := i.batch.items[run := i.batch.items[run].(stop := StopUnknown)]))))
  {
    hide Leaves, ValidDomain, IsLoadable, Attempt, Sound;
    CommitsWhenAdmitted(d, id, MarkUnknown(expected, run), held);
    var b := d.intents[id].batch;
    if run in b.items {
      var items := b.items[run := b.items[run].(stop := StopUnknown)];
      assert run in items.Keys && items[run].stop.StopUnknown?;
    }
  }

  // A setup's resources are confirmed free once every run's exit is.
  lemma ReleaseOutcome(d: Domain, id: Id, expected: nat, held: bool, after: Intent)
    requires Sound(d) && id in d.intents
    ensures var i, s := d.intents[id], ConfirmRelease(expected);
            && (Attempt(d, id, s, held).Ok? <==>
                  && IsStoppingAt(i, expected) && i.batch.operation.Setup? && HoldsAll(d, id, held)
                  && forall run | run in i.batch.items :: i.batch.items[run].facts.exitConfirmed)
            && (Leaves(d, id, s, held, after) ==>
                  && after == i.(batch := i.batch.(revision := expected + 1, phase := Stopped,
                    items := after.batch.items))
                  && (forall run :: run in after.batch.items <==> run in i.batch.items)
                  && forall run | run in i.batch.items ::
                    var item := i.batch.items[run];
                    after.batch.items[run] ==
                      item.(stop := StopConfirmed, facts := item.facts.(resourcesReleased := true)))
  {
    hide ValidDomain, IsLoadable, Sound, HoldsAll;
    CommitsWhenAdmitted(d, id, ConfirmRelease(expected), held);
    HeldIsHoldsAll(d, id, held);
    TrackedIsShaped(d, id);
    var b := d.intents[id].batch;
    if IsStopping(b) {
      StoppingItems(b);
    }
    hide Shaped;
    if Leaves(d, id, ConfirmRelease(expected), held, after) {
      LeavesOne(d, id, ConfirmRelease(expected), held, after, Edited(d, id, ConfirmRelease(expected), held));
    }
  }

  lemma LeavesOne(d: Domain, id: Id, s: Step, held: bool, a: Intent, b: Intent)
    requires Leaves(d, id, s, held, a) && Leaves(d, id, s, held, b)
    ensures a == b
  {
    assert d.intents[id := a][id] == d.intents[id := b][id];
  }

  // A stopped setup is dispatched under an id that no batch has carried.
  lemma DispatchOutcome(d: Domain, id: Id, expected: nat, dispatchId: Id, setup: Digest, held: bool)
    requires Sound(d) && id in d.intents
    ensures var i, s := d.intents[id], RecordDispatch(expected, dispatchId, setup);
            && (Attempt(d, id, s, held).Ok? <==>
                  && (i.phase.Active? || i.phase.Sent?) && i.batch.phase.Stopped?
                  && i.batch.revision == expected && expected < MAX_REVISION && HoldsAll(d, id, held)
                  && forall other | other in d.intents :: d.intents[other].batch.dispatch.id != Some(dispatchId))
            && (Attempt(d, id, s, held).Ok? ==>
                  Leaves(d, id, s, held, i.(batch := i.batch.(revision := expected + 1, phase := Planned,
                    dispatch := Dispatch(Intended, Some(dispatchId), Some(setup), None)))))
  {
    hide Sound, ValidDomain, IsLoadable, HoldsAll, Leaves, Attempt, IsUnused, IsHeld;
    CommitsWhenAdmitted(d, id, RecordDispatch(expected, dispatchId, setup), held);
    HeldIsHoldsAll(d, id, held);
    UnusedIsFresh(d, dispatchId);
    var i := d.intents[id];
    if IsOpen(i) {
      OpenIsReviewable(d, id, setup);
    }
    hide IsSettled, AllByHand;
  }

  lemma UnusedIsFresh(d: Domain, dispatchId: Id)
    requires Sound(d)
    ensures IsUnused(d, dispatchId) <==>
      forall other | other in d.intents :: d.intents[other].batch.dispatch.id != Some(dispatchId)
  {
    hide Sound, Shaped, IsLoadable;
    forall other | other in d.intents
      ensures forall run | run in d.intents[other].batch.items.Keys :: d.intents[other].batch.items[run].launch.id.None?
    {
      TrackedIsShaped(d, other);
      ItemsAreValid(d.intents[other].batch);
    }
  }

  lemma NotCompleted(d: Domain, id: Id)
    requires Sound(d) && id in d.intents && IsOpen(d.intents[id])
    ensures forall run | run in d.intents[id].batch.items.Keys :: d.intents[id].batch.items[run].restore.NotRequested?
  {
    hide Shaped;
    assert Tracked(d, id);
  }

  lemma ShapedIsReviewable(b: Batch, setup: Digest)
    requires Shaped(b) && forall run | run in b.items.Keys :: b.items[run].restore.NotRequested?
    ensures b.phase.Stopped? ==> IsReviewable(b, setup, false)
    ensures b.phase.Planned? ==> (IsReviewable(b, setup, true) <==> b.dispatch.setupDigest == Some(setup))
  {
  }

  lemma OpenIsReviewable(d: Domain, id: Id, setup: Digest)
    requires Sound(d) && id in d.intents && IsOpen(d.intents[id])
    ensures var b := d.intents[id].batch;
            (b.phase.Stopped? ==> IsReviewable(b, setup, false)) &&
            (b.phase.Planned? ==> (IsReviewable(b, setup, true) <==> b.dispatch.setupDigest == Some(setup)))
  {
    hide Sound, Shaped, IsLoadable, IsReviewable;
    NotCompleted(d, id);
    TrackedIsShaped(d, id);
    ShapedIsReviewable(d.intents[id].batch, setup);
  }

  // The sync begins from the dispatched batch the execution holds, for the setup that was dispatched.
  lemma SyncOutcome(d: Domain, id: Id, seen: Batch, generation: nat, setup: Digest, target: Digest, held: bool)
    requires Sound(d) && id in d.intents
    ensures var i, s := d.intents[id], BeginSync(seen, generation, setup, target);
            && (Attempt(d, id, s, held).Ok? <==>
                  && StillHolds(i, seen, generation) && seen.phase.Planned? && seen.dispatch.setupDigest == Some(setup)
                  && HoldsAll(d, id, held))
            && (Attempt(d, id, s, held).Ok? ==>
                  Leaves(d, id, s, held, i.(batch := seen.(revision := seen.revision + 1, phase := Running,
                    dispatch := seen.dispatch.(state := Dispatched, targetDigest := Some(target))))))
  {
    hide Sound, ValidDomain, IsLoadable, HoldsAll, Leaves, Attempt, IsHeld;
    CommitsWhenAdmitted(d, id, BeginSync(seen, generation, setup, target), held);
    HeldIsHoldsAll(d, id, held);
    var i := d.intents[id];
    if IsOpen(i) {
      OpenIsReviewable(d, id, setup);
    }
    hide IsSettled, AllByHand;
  }

  // Ending a running setup commits for every exit code the schema holds.
  lemma FinishOutcome(d: Domain, id: Id, seen: Batch, generation: nat, outcome: Outcome, held: bool)
    requires Sound(d) && id in d.intents && d.intents[id].batch.phase.Running?
    ensures Attempt(d, id, Finish(seen, generation, outcome), held).Ok? <==>
            StillHolds(d.intents[id], seen, generation) && (outcome.Returned? ==> -255 <= outcome.code <= 255)
  {
    hide Sound, ValidDomain, IsLoadable, Leaves, Attempt;
    CommitsWhenAdmitted(d, id, Finish(seen, generation, outcome), held);
  }

  // A successful setup is handed over once, with every run left to be restored by hand.
  lemma HandoverOutcome(d: Domain, id: Id, seen: Batch, generation: nat, held: bool, after: Intent)
    requires Sound(d) && id in d.intents
    ensures var i, s := d.intents[id], CompleteByHand(seen, generation);
            && (Attempt(d, id, s, held).Ok? <==>
                  StillHolds(i, seen, generation) && seen.phase.Succeeded? && HoldsAll(d, id, held))
            && (Leaves(d, id, s, held, after) ==>
                  && after == i.(phase := Completed, batch :=
                    seen.(revision := seen.revision + 1, items := after.batch.items))
                  && (forall run :: run in after.batch.items <==> run in seen.items)
                  && forall run | run in seen.items :: after.batch.items[run] == seen.items[run].(restore := Manual))
  {
    hide Sound, ValidDomain, IsLoadable, HoldsAll, IsHeld;
    CommitsWhenAdmitted(d, id, CompleteByHand(seen, generation), held);
    HeldIsHoldsAll(d, id, held);
    var i := d.intents[id];
    if i.batch.phase.Succeeded? && IsOpen(i) {
      SucceededIsFinished(d, id);
    }
    hide IsFinished, IsSettled;
    if Leaves(d, id, CompleteByHand(seen, generation), held, after) {
      LeavesOne(d, id, CompleteByHand(seen, generation), held, after,
        Edited(d, id, CompleteByHand(seen, generation), held));
    }
  }

  lemma SucceededIsFinished(d: Domain, id: Id)
    requires Sound(d) && id in d.intents && IsOpen(d.intents[id]) && d.intents[id].batch.phase.Succeeded?
    ensures IsFinished(d.intents[id].batch)
    ensures forall run | run in d.intents[id].batch.items.Keys ::
              IsSettled(d.intents[id].batch.items[run]) && d.intents[id].batch.items[run].restore.NotRequested?
  {
    hide Sound, IsLoadable;
    NotCompleted(d, id);
    TrackedIsShaped(d, id);
    FinishedIsSettled(d.intents[id].batch);
  }

  // An intent is sent once, doubted until it is over, and cancelled only while nothing was done.
  lemma IntentOutcome(d: Domain, id: Id, held: bool)
    requires Sound(d) && id in d.intents
    ensures var i, b := d.intents[id], d.intents[id].batch;
            && (Attempt(d, id, SendIntent, held).Ok? <==> i.phase.Active? && held)
            && (Attempt(d, id, SendIntent, held).Ok? ==> Leaves(d, id, SendIntent, held, i.(phase := Sent)))
            && (Attempt(d, id, DoubtIntent, held).Ok? <==>
                  !i.phase.Cancelled? && !i.phase.Completed? && b.revision < MAX_REVISION)
            && (Attempt(d, id, DoubtIntent, held).Ok? ==>
                  Leaves(d, id, DoubtIntent, held,
                    i.(phase := Doubtful, batch := b.(revision := b.revision + 1, phase := Unknown, review := true))))
            && (Attempt(d, id, CancelIntent, held).Ok? <==>
                  i.phase.Active? && b == Initial(b.id, b.plan))
            && (Attempt(d, id, CancelIntent, held).Ok? ==> Leaves(d, id, CancelIntent, held, i.(phase := Cancelled)))
  {
    hide ValidDomain, IsLoadable, Leaves, Attempt, Sound, Initial;
    CommitsWhenAdmitted(d, id, SendIntent, held);
    CommitsWhenAdmitted(d, id, DoubtIntent, held);
    CommitsWhenAdmitted(d, id, CancelIntent, held);
  }

  // A batch is accepted at the revision the caller has seen, under an id that was never used, over
  // resources no intent that is not over fences, when the plan is ready, left to be restored by hand and
  // has between one run and the most a batch may hold, each with its manager; it begins untouched.
  lemma AcceptOutcome(d: Domain, expected: nat, accepted: Batch, managers: map<Id, string>, matches: bool)
    ensures Accept(d, expected, accepted, managers, matches).Ok? <==>
            && matches && d.revision == expected && expected < MAX_REVISION && accepted.id !in d.intents
            && accepted == Initial(accepted.id, accepted.plan) && managers.Keys == accepted.plan.byHand.Keys
            && accepted.plan.ready && 1 <= |accepted.plan.byHand.Keys| <= MAX_RUNS
            && (forall run | run in accepted.plan.byHand :: accepted.plan.byHand[run])
            && forall other | other in d.intents ::
                 d.intents[other].phase.Cancelled? || d.intents[other].phase.Completed? ||
                 d.intents[other].batch.plan.resources !! accepted.plan.resources
    ensures Accept(d, expected, accepted, managers, matches).Ok? ==>
            Accept(d, expected, accepted, managers, matches).value == d.(revision := expected + 1,
              intents := d.intents[accepted.id := Intent(Active, expected + 1, accepted, managers, accepted)])
  {
    InitialIsValid(accepted.id, accepted.plan);
    UnfencedAre(d, accepted.plan.resources);
    assert accepted == Initial(accepted.id, accepted.plan) ==> accepted.accepted == accepted.plan.byHand.Keys;
    hide ValidBatch, Initial, IsUnfenced;
    assert AllByHand(accepted.plan) <==> forall run | run in accepted.plan.byHand :: accepted.plan.byHand[run];
  }

  lemma UnfencedAre(d: Domain, resources: set<Id>)
    ensures IsUnfenced(d, resources) <==> forall other | other in d.intents ::
              d.intents[other].phase.Cancelled? || d.intents[other].phase.Completed? ||
              d.intents[other].batch.plan.resources !! resources
  {
    assert IsUnfenced(d, resources) ==> forall other | other in d.intents :: other in d.intents.Keys;
  }

  lemma InitialIsValid(id: Id, plan: Plan)
    ensures ValidBatch(Initial(id, plan)) <==> plan.ready && 1 <= |plan.byHand.Keys| <= MAX_RUNS
  {
    var b := Initial(id, plan);
    assert b.items.Keys == plan.byHand.Keys;
  }
}
