/** What every durable maintenance step keeps: the cross-field rules hold after each of them without
    being checked again, plans stay frozen, facts only become true, and doubt ends all progress. */
module MaintenanceSteps {
  import opened Wrappers
  import opened MaintenanceBatch
  import opened MaintenanceDomain

  // ---- The shape of a batch that only these steps have touched ----

  // No run was launched again or restored, and none failed.
  predicate IsPlain(item: Item) {
    && item.launch == NOT_LAUNCHED && (item.restore.NotRequested? || item.restore.Manual?)
    && (item.stop.StopConfirmed? ==> IsFree(item.facts))
    && !item.stop.StopFailed?
    && (item.stop.StopAccepted? ==> !item.facts.stopRequested) && (item.stop.StopAsked? ==> item.facts.stopRequested)
  }

  predicate IsUnfinished(item: Item) {
    !item.facts.resourcesReleased && item.restore.NotRequested? && (item.stop.StopAccepted? || item.stop.StopAsked?)
  }

  ghost predicate AllSettled(b: Batch) {
    forall run | run in b.items.Keys :: IsSettled(b.items[run])
  }

  ghost predicate AllFree(b: Batch) {
    forall run | run in b.items.Keys :: IsFree(b.items[run].facts)
  }

  ghost predicate SomeRequested(b: Batch) {
    exists run :: run in b.items.Keys && b.items[run].facts.stopRequested
  }

  ghost predicate Underway(b: Batch) {
    b.dispatch == NEVER && b.result.None? && !b.review && forall run | run in b.items.Keys :: IsUnfinished(b.items[run])
  }

  // What a batch looks like in each phase. Later protocols' phases do not occur.
  ghost predicate InPhase(b: Batch) {
    match b.phase
    case Accepted => Underway(b) && !SomeRequested(b)
    case Stopping => Underway(b) && SomeRequested(b)
    case Stopped => b.dispatch == NEVER && b.result.None? && !b.review && AllSettled(b) && b.operation.Setup?
    case Planned =>
      b.dispatch.state.Intended? && b.dispatch.setupDigest.Some? && b.result.None? && !b.review && AllSettled(b) &&
        b.operation.Setup?
    case Running =>
      b.dispatch.state.Dispatched? && b.dispatch.setupDigest.Some? && b.dispatch.targetDigest.Some? && b.result.None? &&
        !b.review &&
      AllSettled(b) && b.operation.Setup?
    case Succeeded => IsFinished(b) && AllSettled(b)
    case Partial => InDoubt(b)
    case Unknown => InDoubt(b)
    case _ => false
  }

  ghost predicate InDoubt(b: Batch) {
    b.review &&
    match b.dispatch.state
    case NotDispatched => b.result.None?
    case Intended => b.operation.Setup? && b.result.None? && AllFree(b)
    case Dispatched => b.operation.Setup? && b.result.None? && AllFree(b)
    case _ => b.operation.Setup? && b.result.Some? && ValidResult(b) && AllFree(b) && !b.result.value.status.Failure?
  }

  ghost predicate Shaped(b: Batch) {
    && InSchema(b)
    && b.plan.ready && AllByHand(b.plan) && b.operation == b.plan.operation && b.accepted == b.plan.byHand.Keys &&
      b.items.Keys == b.accepted
    && ValidDispatch(b.dispatch)
    && (forall run | run in b.items.Keys :: IsPlain(b.items[run]))
    && InPhase(b)
  }

  // The rules that look at the phase, the operation and the result.
  ghost predicate FollowsRules(b: Batch) {
    ValidOperation(b) && (b.result.Some? ==> ValidResult(b)) && ValidPhase(b)
  }

  lemma ItemsAreValid(b: Batch)
    requires Shaped(b)
    ensures forall run | run in b.items.Keys :: ValidItem(b, run) && b.items[run].launch.id.None?
  {
    hide InPhase;
    forall run | run in b.items.Keys ensures ValidItem(b, run) && b.items[run].launch.id.None? {
      assert IsPlain(b.items[run]);
    }
  }

  lemma UnderwayFollows(b: Batch)
    requires Shaped(b) && (b.phase.Accepted? || b.phase.Stopping?)
    ensures FollowsRules(b)
  {
  }

  lemma StoppedFollows(b: Batch)
    requires Shaped(b) && (b.phase.Stopped? || b.phase.Planned? || b.phase.Running?)
    ensures FollowsRules(b)
  {
  }

  lemma SucceededFollows(b: Batch)
    requires Shaped(b) && b.phase.Succeeded?
    ensures FollowsRules(b)
  {
  }

  lemma DoubtFollows(b: Batch)
    requires Shaped(b) && IsOpenEnded(b.phase)
    ensures FollowsRules(b)
  {
  }

  // The shape is enough for the whole codec.
  lemma ShapedIsValid(b: Batch)
    requires Shaped(b)
    ensures ValidBatch(b)
  {
    ItemsAreValid(b);
    if b.phase.Accepted? || b.phase.Stopping? {
      UnderwayFollows(b);
    } else if b.phase.Succeeded? {
      SucceededFollows(b);
    } else if IsOpenEnded(b.phase) {
      DoubtFollows(b);
    } else {
      StoppedFollows(b);
    }
    hide IsPlain, InPhase, ValidOperation, ValidResult, ValidPhase;
  }

  // ---- The invariant ----

  // Valid acceptance, frozen identity, a shaped batch, and the intent phase its batch calls for.
  ghost predicate Tracked(d: Domain, id: Id)
    requires id in d.intents
  {
    IsLoadable(d, id) && Follows(d, d.intents[id])
  }

  ghost predicate Follows(d: Domain, i: Intent) {
    && Shaped(i.batch)
    && (i.phase.Doubtful? <==> IsOpenEnded(i.batch.phase))
    && (i.phase.Cancelled? ==> i.batch == Initial(i.batch.id, i.batch.plan))
    && (i.phase.Completed? ==>
          IsFinished(i.batch) && i.batch.accepted <= d.released &&
            forall run | run in i.batch.items.Keys :: i.batch.items[run].restore.Manual?)
    && (!i.phase.Completed? ==> forall run | run in i.batch.items.Keys :: i.batch.items[run].restore.NotRequested?)
  }

  ghost predicate Sound(d: Domain) {
    forall id | id in d.intents.Keys :: Tracked(d, id)
  }

  lemma SoundIsValid(d: Domain)
    requires Sound(d)
    ensures ValidDomain(d)
  {
    hide ValidBatch, Shaped;
    forall id | id in d.intents.Keys ensures d.intents[id].batch.id == id && ValidIntent(d, d.intents[id]) {
      assert Tracked(d, id);
      ShapedIsValid(d.intents[id].batch);
      if d.intents[id].phase.Completed? {
        FinishedIsSettled(d.intents[id].batch);
      }
    }
  }

  lemma FinishedIsSettled(b: Batch)
    requires Shaped(b) && b.phase.Succeeded?
    ensures AllSettled(b)
  {
  }

  lemma InitialIsShaped(b: Batch, managers: map<Id, string>)
    requires ValidAcceptance(b, managers)
    ensures Shaped(b) && b.phase.Accepted? && forall run | run in b.items.Keys :: b.items[run].restore.NotRequested?
  {
    assert forall run | run in b.items.Keys :: b.items[run] == Item(StopAccepted, NotRequested, NO_FACTS, NOT_LAUNCHED);
  }

  lemma AcceptIsSound(d: Domain, expected: nat, accepted: Batch, managers: map<Id, string>, matches: bool)
    requires Sound(d) && Accept(d, expected, accepted, managers, matches).Ok?
    ensures Sound(Accept(d, expected, accepted, managers, matches).value)
  {
    hide ValidBatch, Shaped;
    var next := Accept(d, expected, accepted, managers, matches).value;
    InitialIsShaped(accepted, managers);
    forall id | id in next.intents.Keys ensures Tracked(next, id) {
      if id != accepted.id {
        assert Tracked(d, id);
      }
    }
  }

  lemma ReleaseIsSound(d: Domain, run: Id)
    requires Sound(d)
    ensures Sound(Release(d, run))
  {
    hide ValidBatch, Shaped;
    forall id | id in Release(d, run).intents.Keys ensures Tracked(Release(d, run), id) {
      assert Tracked(d, id);
    }
  }

  // ---- One step ----

  predicate Advances(s: Step) {
    !s.SendIntent? && !s.CancelIntent?
  }

  // What a caller can see before the step: the revision has room, and the exit code is in range.
  predicate Fits(b: Batch, s: Step) {
    (Advances(s) ==> b.revision < MAX_REVISION) && (s.Finish? && s.outcome.Returned? ==> -255 <= s.outcome.code <= 255)
  }

  // The guard holds, and only a running batch is finished: the execution that began it holds that
  // batch; see MaintenanceRun.
  ghost predicate Due(d: Domain, id: Id, s: Step, held: bool) {
    id in d.intents && Tracked(d, id) && Admits(d, id, s, held) && (s.Finish? ==> d.intents[id].batch.phase.Running?)
  }

  // One item edited, the rest untouched.
  ghost predicate Replaces(b: Batch, run: Id, item: Item, items: map<Id, Item>) {
    run in b.items && items.Keys == b.items.Keys && items[run] == item && forall r | r in b.items.Keys &&
      r != run :: items[r] == b.items[r]
  }

  lemma ItemEditIsShaped(b: Batch, run: Id, item: Item, i: Intent)
    requires Shaped(b) && IsStopping(b) && Replaces(b, run, item, i.batch.items) &&
      i.batch == b.(items := i.batch.items)
    requires IsPlain(item) && (IsUnfinished(item) || item.stop.StopUnknown?) && item.restore.NotRequested?
    requires b.revision < MAX_REVISION
    ensures Shaped(Settle(i).batch)
  {
    hide Shaped, IsPlain;
    var items := i.batch.items;
    if item.stop.StopUnknown? {
      GiveUpIsShaped(b, run, item, b.(items := items, phase := Unknown, review := true, revision := b.revision + 1));
    } else {
      StillStopping(b, run, item, items);
      var after := b.(items := items, revision := b.revision + 1);
      EditIsShaped(b, run, item, after.(phase := if SomeRequested(after) then Stopping else Accepted));
    }
  }

  lemma StillStopping(b: Batch, run: Id, item: Item, items: map<Id, Item>)
    requires Shaped(b) && IsStopping(b) && Replaces(b, run, item, items) && IsUnfinished(item)
    ensures forall r | r in items.Keys :: IsUnfinished(items[r])
  {
  }

  lemma GiveUpIsShaped(b: Batch, run: Id, item: Item, after: Batch)
    requires Shaped(b) && IsStopping(b) && Replaces(b, run, item, after.items) && IsPlain(item) &&
      b.revision < MAX_REVISION
    requires after == b.(items := after.items, phase := Unknown, review := true, revision := b.revision + 1)
    ensures Shaped(after)
  {
    hide IsPlain;
    assert Underway(b);
    NeverIsInDoubt(after);
  }

  lemma EditIsShaped(b: Batch, run: Id, item: Item, after: Batch)
    requires Shaped(b) && IsStopping(b) && Replaces(b, run, item, after.items) && IsPlain(item) && IsUnfinished(item) &&
      b.revision < MAX_REVISION
    requires after == b.(items := after.items, phase := if SomeRequested(after) then Stopping
      else Accepted, revision := b.revision + 1)
    ensures Shaped(after)
  {
    hide IsPlain;
    assert Underway(b);
    StillStopping(b, run, item, after.items);
    assert Underway(after);
  }

  lemma NeverIsInDoubt(b: Batch)
    requires b.dispatch == NEVER && b.result.None? && b.review
    ensures InDoubt(b)
  {
  }

  lemma ReleasedIsShaped(b: Batch, after: Batch)
    requires Shaped(b) && IsStopping(b) && b.operation.Setup? && b.revision < MAX_REVISION
    requires forall run | run in b.items.Keys :: b.items[run].facts.exitConfirmed && IsUnfinished(b.items[run])
    requires after == b.(items := Freed(b.items), phase := Stopped, revision := b.revision + 1)
    ensures Shaped(after)
  {
    assert after.items.Keys == b.items.Keys;
  }

  lemma HandedOverIsShaped(b: Batch, after: Batch)
    requires Shaped(b) && b.phase.Succeeded? && b.revision < MAX_REVISION
    requires after == b.(items := HandedOver(b.items), revision := b.revision + 1)
    ensures Shaped(after) && IsFinished(after) && forall run | run in after.items.Keys ::
      after.items[run].restore.Manual?
  {
    assert after.items.Keys == b.items.Keys;
  }

  lemma DispatchIsShaped(b: Batch, after: Batch, s: Step)
    requires Shaped(b) && b.revision < MAX_REVISION
    requires match s
             case RecordDispatch(_, dispatchId, setup) =>
               b.phase.Stopped? && after == b.(revision := b.revision + 1, phase := Planned,
                 dispatch := Dispatch(Intended, Some(dispatchId), Some(setup), None))
             case BeginSync(_, _, _, target) =>
               b.phase.Planned? && after == b.(revision := b.revision + 1, phase := Running,
                 dispatch := b.dispatch.(state := Dispatched, targetDigest := Some(target)))
             case Finish(_, _, outcome) => b.phase.Running? && after == Ended(b, outcome) && Fits(b, s)
             case DoubtIntent => after == b.(revision := b.revision + 1, phase := Unknown, review := true)
             case _ => false
    ensures Shaped(after)
  {
  }

  ghost predicate Lands(d: Domain, id: Id, s: Step, held: bool)
    requires id in d.intents && Admits(d, id, s, held)
  {
    var i := d.intents[id];
    var after := Edited(d, id, s, held);
    && after == i.(phase := after.phase, batch := after.batch)
    && IsFrozen(after)
    && after.batch.revision == i.batch.revision + (if Advances(s) then 1 else 0)
    && (Fits(i.batch, s) ==> Follows(d, after))
  }

  lemma SettleLands(d: Domain, i: Intent, run: Id, item: Item, edited: Intent)
    requires Follows(d, i) && IsOpen(i) && IsStopping(i.batch) && IsFrozen(i)
    requires edited == i.(batch := i.batch.(items := edited.batch.items)) &&
      Replaces(i.batch, run, item, edited.batch.items)
    requires IsPlain(item) && (IsUnfinished(item) || item.stop.StopUnknown?) && item.restore.NotRequested?
    ensures var after := Settle(edited);
            after == i.(phase := after.phase, batch := after.batch) && IsFrozen(after) &&
              after.batch.revision == i.batch.revision + 1 &&
            (i.batch.revision < MAX_REVISION ==> Follows(d, after))
  {
    hide Shaped, IsPlain, IsUnfinished, IsFinished, ValidBatch;
    if i.batch.revision < MAX_REVISION {
      ItemEditIsShaped(i.batch, run, item, edited);
    }
  }

  lemma StoppingItems(b: Batch)
    requires Shaped(b) && IsStopping(b)
    ensures forall run | run in b.items.Keys :: IsPlain(b.items[run]) && IsUnfinished(b.items[run])
  {
    assert Underway(b);
  }

  lemma ItemStepLands(d: Domain, id: Id, s: Step, held: bool)
    requires Due(d, id, s, held) && (s.RecordStop? || s.RecordExit? || s.MarkUnknown?)
    ensures Lands(d, id, s, held)
  {
    hide ValidBatch, Shaped, Follows, Settle, ValidAcceptance;
    var i := d.intents[id];
    var b := i.batch;
    assert Shaped(b) by {
      assert Follows(d, i);
      FollowsIsShaped(d, i);
    }
    StoppingItems(b);
    var run := if s.RecordExit? then s.proof.run else s.run;
    var item := b.items[run];
    item := if s.RecordStop? then item.(facts := item.facts.(stopRequested := true), stop := StopAsked)
            else if s.RecordExit? then item.(facts := item.facts.(exitConfirmed := true))
            else item.(stop := StopUnknown);
    var edited := i.(batch := b.(items := b.items[run := item]));
    assert Replaces(b, run, item, edited.batch.items) && Edited(d, id, s, held) == Settle(edited);
    SettleLands(d, i, run, item, edited);
  }

  lemma FollowsIsShaped(d: Domain, i: Intent)
    ensures Follows(d, i) ==> Shaped(i.batch)
  {
  }

  lemma ReleaseStepLands(d: Domain, id: Id, s: Step, held: bool)
    requires Due(d, id, s, held) && s.ConfirmRelease?
    ensures Lands(d, id, s, held)
  {
    hide ValidBatch, InSchema, ValidDispatch, InDoubt, AllSettled;
    var b := d.intents[id].batch;
    assert Underway(b);
    if Fits(b, s) {
      hide Shaped;
      ReleasedIsShaped(b, Edited(d, id, s, held).batch);
    }
  }

  lemma DispatchLands(d: Domain, id: Id, s: Step, held: bool)
    requires Due(d, id, s, held) && (s.RecordDispatch? || s.BeginSync? || s.Finish? || s.DoubtIntent?)
    ensures Lands(d, id, s, held)
  {
    hide ValidBatch, Shaped;
    var b := d.intents[id].batch;
    if Fits(b, s) {
      DispatchIsShaped(b, Edited(d, id, s, held).batch, s);
    }
  }

  lemma LastStepLands(d: Domain, id: Id, s: Step, held: bool)
    requires Due(d, id, s, held) && (s.CompleteByHand? || s.SendIntent? || s.CancelIntent?)
    ensures Lands(d, id, s, held)
  {
    hide ValidBatch, Shaped;
    var b := d.intents[id].batch;
    if s.CompleteByHand? && Fits(b, s) {
      HandedOverIsShaped(b, Edited(d, id, s, held).batch);
    }
  }

  lemma StepLands(d: Domain, id: Id, s: Step, held: bool)
    requires Due(d, id, s, held)
    ensures Lands(d, id, s, held)
  {
    hide Admits, Lands, Due;
    match s {
      case RecordStop(_, _) => ItemStepLands(d, id, s, held);
      case RecordExit(_, _) => ItemStepLands(d, id, s, held);
      case MarkUnknown(_, _) => ItemStepLands(d, id, s, held);
      case ConfirmRelease(_) => ReleaseStepLands(d, id, s, held);
      case CompleteByHand(_, _) => LastStepLands(d, id, s, held);
      case SendIntent => LastStepLands(d, id, s, held);
      case CancelIntent => LastStepLands(d, id, s, held);
      case _ => DispatchLands(d, id, s, held);
    }
  }

  // The guards suffice: a step whose guard holds is refused by the codec exactly when the revision
  // is at its last value or the exit code is out of range, and what it commits is sound again.
  lemma GuardsSuffice(d: Domain, id: Id, s: Step, held: bool)
    requires Sound(d) && Due(d, id, s, held)
    ensures Attempt(d, id, s, held).Ok? <==> Fits(d.intents[id].batch, s)
    ensures Attempt(d, id, s, held).Ok? ==> Sound(Attempt(d, id, s, held).value)
  {
    hide Edited, Admits, Shaped, Follows, ValidDomain, ValidAcceptance, IsFrozen;
    StepLands(d, id, s, held);
    var next := Drafted(d, id, s, held);
    if Fits(d.intents[id].batch, s) {
      forall other | other in next.intents.Keys ensures Tracked(next, other) {
        assert Tracked(d, other);
        FollowsInNext(d, next, next.intents[other]);
      }
      SoundIsValid(next);
    } else {
      MisfitIsInvalid(d, id, s, held);
    }
  }

  lemma FollowsInNext(d: Domain, next: Domain, i: Intent)
    requires d.released <= next.released
    ensures Follows(d, i) ==> Follows(next, i)
  {
    hide Shaped;
  }

  lemma MisfitIsInvalid(d: Domain, id: Id, s: Step, held: bool)
    requires Due(d, id, s, held) && Lands(d, id, s, held) && !Fits(d.intents[id].batch, s)
    ensures !ValidDomain(Drafted(d, id, s, held))
  {
    hide Shaped, Follows;
    assert !InSchema(Edited(d, id, s, held).batch);
    assert !ValidBatch(Edited(d, id, s, held).batch);
    assert id in Drafted(d, id, s, held).intents.Keys;
  }

  // ---- What no step takes back ----

  predicate FactsGrow(b: Facts, after: Facts) {
    (b.stopRequested ==> after.stopRequested) && (b.exitConfirmed ==> after.exitConfirmed) &&
    (b.resourcesReleased ==> after.resourcesReleased) && (b.sessionSealed ==> after.sessionSealed)
  }

  ghost predicate AllFactsGrow(b: Batch, after: Batch) {
    after.items.Keys == b.items.Keys && forall run | run in b.items.Keys ::
      FactsGrow(b.items[run].facts, after.items[run].facts)
  }

  // A recorded dispatch keeps its id, its setup digest and, once there, its target digest; a
  // recorded result stays.
  predicate DispatchStays(b: Batch, after: Batch) {
    && (!b.dispatch.state.NotDispatched? ==>
          !after.dispatch.state.NotDispatched? && after.dispatch.id == b.dispatch.id &&
            after.dispatch.setupDigest == b.dispatch.setupDigest)
    && (!b.dispatch.state.NotDispatched? && !b.dispatch.state.Intended? ==> !after.dispatch.state.Intended?)
    && (b.dispatch.targetDigest.Some? ==> after.dispatch.targetDigest == b.dispatch.targetDigest)
    && (b.result.Some? ==> after.result == b.result)
  }

  // Plan, identity and accepted runs stay as well, and the revision never falls.
  ghost predicate Grows(i: Intent, after: Intent) {
    && after.accepted == i.accepted && after.managers == i.managers && after.generation == i.generation
    && IsFrozen(after) && i.batch.revision <= after.batch.revision
    && AllFactsGrow(i.batch, after.batch) && DispatchStays(i.batch, after.batch)
  }

  lemma StepGrows(d: Domain, id: Id, s: Step, held: bool)
    requires Due(d, id, s, held)
    ensures Grows(d.intents[id], Edited(d, id, s, held))
  {
    hide Admits, Edited, Lands, AllFactsGrow, DispatchStays, IsFrozen, Tracked;
    StepLands(d, id, s, held);
    GrowsFrozen(d, id, s, held);
    StepFactsGrow(d, id, s, held);
    StepDispatchStays(d, id, s, held);
  }

  lemma StepFactsGrow(d: Domain, id: Id, s: Step, held: bool)
    requires id in d.intents && Admits(d, id, s, held)
    ensures AllFactsGrow(d.intents[id].batch, Edited(d, id, s, held).batch)
  {
    hide IsReviewable, IsFinished, IsHeld, Initial, AllFactsGrow;
    var b, after := d.intents[id].batch, Edited(d, id, s, held).batch;
    if s.RecordStop? || s.RecordExit? || s.MarkUnknown? {
      ItemFactsGrow(b, after, if s.RecordExit? then s.proof.run else s.run);
    } else if s.ConfirmRelease? || s.CompleteByHand? {
      AllItemsGrow(b, after);
    } else {
      SameItemsGrow(b, after);
    }
  }

  lemma ItemFactsGrow(b: Batch, after: Batch, run: Id)
    requires run in b.items && after.items.Keys == b.items.Keys && FactsGrow(b.items[run].facts, after.items[run].facts)
    requires forall r | r in b.items.Keys && r != run :: after.items[r] == b.items[r]
    ensures AllFactsGrow(b, after)
  {
  }

  lemma AllItemsGrow(b: Batch, after: Batch)
    requires after.items == Freed(b.items) || after.items == HandedOver(b.items)
    ensures AllFactsGrow(b, after)
  {
  }

  lemma SameItemsGrow(b: Batch, after: Batch)
    requires after.items == b.items
    ensures AllFactsGrow(b, after)
  {
  }

  lemma StepDispatchStays(d: Domain, id: Id, s: Step, held: bool)
    requires Due(d, id, s, held)
    ensures DispatchStays(d.intents[id].batch, Edited(d, id, s, held).batch)
  {
    hide ValidBatch, Shaped, ValidAcceptance, IsFinished, IsHeld, Initial;
    NothingEndedYet(d.intents[id].batch);
  }

  lemma GrowsFrozen(d: Domain, id: Id, s: Step, held: bool)
    requires Due(d, id, s, held) && Lands(d, id, s, held)
    ensures var i, after := d.intents[id], Edited(d, id, s, held);
            IsFrozen(after) && i.batch.revision <= after.batch.revision &&
            after.accepted == i.accepted && after.managers == i.managers && after.generation == i.generation
  {
    hide Admits, Edited, Follows;
  }

  lemma NothingEndedYet(b: Batch)
    requires Shaped(b)
    ensures b.dispatch.state.NotDispatched? || b.dispatch.state.Intended? ==> b.dispatch.targetDigest.None?
    ensures b.phase.Running? || b.phase.Planned? || b.phase.Stopped? || IsStopping(b) ==> b.result.None?
  {
  }

  // Unknown and partial batches, cancelled and completed intents admit nothing, but for saying
  // again that an intent is in doubt.
  lemma DoubtEndsProgress(d: Domain, id: Id, s: Step, held: bool)
    requires Sound(d) && id in d.intents && Admits(d, id, s, held)
    requires IsOpenEnded(d.intents[id].batch.phase) || IsTerminal(d.intents[id])
    ensures s.DoubtIntent? && IsOpenEnded(d.intents[id].batch.phase)
  {
    hide ValidBatch, Shaped;
    assert Tracked(d, id);
  }
}
