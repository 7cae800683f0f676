/** The maintenance protocol can always get through: from every reachable world an accepted setup that
    is not in doubt has a continuation in which it is dispatched, executed and handed over. */
module MaintenanceCompletion {
  import opened Wrappers
  import opened MaintenanceBatch
  import opened MaintenanceDomain
  import opened MaintenanceSteps
  import opened MaintenanceRun
  import opened MaintenanceSafety

  ghost predicate Leads(w: World, v: World) {
    exists es :: Reached(w, es) == v
  }

  lemma LeadsToItself(w: World)
    ensures Leads(w, w)
  {
    assert Reached(w, []) == w;
  }

  lemma LeadsOn(w: World, v: World, e: Event)
    requires Leads(w, v)
    ensures Leads(w, Next(v, e))
  {
    hide Next;
    var es :| Reached(w, es) == v;
    assert (es + [e])[..|es|] == es;
    assert Reached(w, es + [e]) == Next(v, e);
  }

  // ---- No two open batches share a resource ----

  ghost predicate Apart(d: Domain) {
    forall a, b | a in d.intents.Keys && b in d.intents.Keys && a != b && !IsTerminal(d.intents[a]) &&
      !IsTerminal(d.intents[b]) ::
      d.intents[a].batch.plan.resources !! d.intents[b].batch.plan.resources
  }

  lemma StepKeepsPlan(d: Domain, id: Id, s: Step, held: bool)
    requires id in d.intents && Admits(d, id, s, held)
    ensures Edited(d, id, s, held).batch.plan == d.intents[id].batch.plan && !IsTerminal(d.intents[id])
  {
    hide IsReviewable, IsFinished, IsHeld, IsUnused, Initial;
  }

  lemma AttemptKeepsApart(d: Domain, id: Id, s: Step, held: bool)
    requires Apart(d) && Attempt(d, id, s, held).Ok?
    ensures Apart(Attempt(d, id, s, held).value)
  {
    hide Edited, Admits, ValidDomain, ValidAcceptance, IsFrozen;
    StepKeepsPlan(d, id, s, held);
  }

  lemma AcceptKeepsApart(d: Domain, expected: nat, accepted: Batch, managers: map<Id, string>, matches: bool)
    requires Apart(d) && Accept(d, expected, accepted, managers, matches).Ok?
    ensures Apart(Accept(d, expected, accepted, managers, matches).value)
  {
    hide ValidAcceptance;
  }

  lemma NextKeepsApart(w: World, e: Event)
    requires Apart(w.domain)
    ensures Apart(Next(w, e).domain)
  {
    hide Apart, Attempt, Accept, Takes, IsLoadable, Admits, IsReviewable, ValidBatch, Sees, IsHeld;
    match e {
      case Accepting(expected, accepted, managers, matches) =>
        if Accept(w.domain, expected, accepted, managers, matches).Ok? {
          AcceptKeepsApart(w.domain, expected, accepted, managers, matches);
        }
      case Releasing(run) => ReleaseKeepsApart(w.domain, run);
      case Stepping(id, s, held) => MaybeApart(w.domain, id, s, held);
      case Dispatching(_, _, id, expected, dispatchId, setup, held, _) => MaybeApart(w.domain, id,
        RecordDispatch(expected, dispatchId, setup), held);
      case Syncing(exec, target, held, _) =>
        if exec in w.execs {
          var x := w.execs[exec];
          MaybeApart(w.domain, x.seen.id, BeginSync(x.seen, x.generation, x.setup, target), held);
        }
      case Ending(exec, outcome, _) =>
        if exec in w.execs {
          MaybeApart(w.domain, w.execs[exec].seen.id, Finish(w.execs[exec].seen, w.execs[exec].generation, outcome),
            true);
        }
      case _ =>
    }
  }

  lemma MaybeApart(d: Domain, id: Id, s: Step, held: bool)
    requires Apart(d)
    ensures Attempt(d, id, s, held).Ok? ==> Apart(Attempt(d, id, s, held).value)
  {
    hide Apart, Attempt;
    if Attempt(d, id, s, held).Ok? {
      AttemptKeepsApart(d, id, s, held);
    }
  }

  lemma ReleaseKeepsApart(d: Domain, run: Id)
    requires Apart(d)
    ensures Apart(Release(d, run))
  {
  }

  lemma {:induction false} ReachedIsApart(pids: set<nat>, es: seq<Event>)
    ensures Apart(Reached(Start(pids), es).domain)
    decreases |es|
  {
    hide Next;
    if es != [] {
      ReachedIsApart(pids, es[..|es| - 1]);
      NextKeepsApart(Reached(Start(pids), es[..|es| - 1]), es[|es| - 1]);
    }
  }

  // ---- A durable step that fits goes through ----

  // Everything outside the domain stays; the intent is replaced and nothing else.
  lemma StepGoes(w: World, id: Id, s: Step)
    requires Sound(w.domain) && Due(w.domain, id, s, true) && Fits(w.domain.intents[id].batch, s)
    ensures var d := Drafted(w.domain, id, s, true); Attempt(w.domain, id, s, true) == Ok(d) && Sound(d)
  {
    hide Edited, Admits, Tracked, ValidDomain, Sound;
    GuardsSuffice(w.domain, id, s, true);
  }

  // ---- Recording exits ----

  function Running(b: Batch): set<Id> {
    set run | run in b.items.Keys && !b.items[run].facts.exitConfirmed
  }

  // An open setup batch that is still being stopped.
  ghost predicate IsStoppingSetup(d: Domain, id: Id) {
    Sound(d) && id in d.intents && IsOpen(d.intents[id]) && d.intents[id].batch.operation.Setup? &&
      IsStopping(d.intents[id].batch)
  }

  lemma StoppingIsDue(d: Domain, id: Id, run: Id)
    requires IsStoppingSetup(d, id) && run in Running(d.intents[id].batch)
    ensures run in d.intents[id].managers
    ensures Due(d, id, RecordExit(d.intents[id].batch.revision, Proof(run, d.intents[id].managers[run], true, true)),
      true)
  {
    hide ValidBatch, Shaped, Follows;
    assert Tracked(d, id);
    StoppingIsPlain(d, id);
  }

  lemma StoppingIsPlain(d: Domain, id: Id)
    requires IsStoppingSetup(d, id)
    ensures var b := d.intents[id].batch;
      b.items.Keys == b.accepted && forall run | run in b.items.Keys :: IsUnfinished(b.items[run])
  {
    hide ValidBatch, IsLoadable;
    assert Tracked(d, id);
    StoppingItems(d.intents[id].batch);
  }

  lemma SettledStops(i: Intent)
    requires forall run | run in i.batch.items.Keys :: IsUnfinished(i.batch.items[run])
    ensures var after := Settle(i);
            after == i.(batch := i.batch.(phase := after.batch.phase, revision := i.batch.revision + 1)) &&
              IsStopping(after.batch)
  {
  }

  lemma ExitEdit(d: Domain, id: Id, run: Id, s: Step)
    requires IsStoppingSetup(d, id) && run in Running(d.intents[id].batch) && s.RecordExit? && s.proof.run == run &&
      Admits(d, id, s, true)
    ensures var i, after := d.intents[id], Edited(d, id, s, true);
            IsOpen(after) && after.batch.operation == i.batch.operation && IsStopping(after.batch) &&
              after.batch.revision == i.batch.revision + 1 &&
            after.batch.accepted == i.batch.accepted && Running(after.batch) == Running(i.batch) - {run}
  {
    hide Sound, Settle, IsStopping, IsUnfinished;
    var i := d.intents[id];
    StoppingIsPlain(d, id);
    var item := i.batch.items[run].(facts := i.batch.items[run].facts.(exitConfirmed := true));
    var items := i.batch.items[run := item];
    StillUnfinished(i.batch.items[run], item);
    var edited := i.(batch := i.batch.(items := items));
    assert Edited(d, id, s, true) == Settle(edited);
    SettledStops(edited);
    assert items.Keys == i.batch.items.Keys;
    assert Running(edited.batch) == Running(i.batch) - {run};
  }

  lemma StillUnfinished(item: Item, after: Item)
    requires IsUnfinished(item) && after == item.(facts := item.facts.(exitConfirmed := true))
    ensures IsUnfinished(after)
  {
  }

  lemma ExitGetsRecorded(w: World, v: World, id: Id, run: Id) returns (u: World)
    requires Leads(w, v) && IsStoppingSetup(v.domain, id) && Apart(v.domain) &&
      run in Running(v.domain.intents[id].batch)
    requires v.domain.intents[id].batch.revision < MAX_REVISION
    ensures Leads(w, u) && u == v.(domain := u.domain) && IsStoppingSetup(u.domain, id) && Apart(u.domain)
    ensures var b, after := v.domain.intents[id].batch, u.domain.intents[id].batch;
            Running(after) == Running(b) - {run} && after.accepted == b.accepted && after.revision == b.revision + 1
    ensures u.domain.released == v.domain.released && SameDispatches(v.domain, u.domain)
  {
    hide Sound, Apart, Edited, Admits, Tracked, Leads, SameDispatches, IsStopping, IsOpen, Attempt, Running;
    var b := v.domain.intents[id].batch;
    StoppingIsDue(v.domain, id, run);
    var s := RecordExit(b.revision, Proof(run, v.domain.intents[id].managers[run], true, true));
    StepGoes(v, id, s);
    ExitEdit(v.domain, id, run, s);
    MaybeApart(v.domain, id, s, true);
    LeadsOn(w, v, Stepping(id, s, true));
    EditKeepsDispatch(v.domain, id, s);
    u := v.(domain := Drafted(v.domain, id, s, true));
    assert u == Next(v, Stepping(id, s, true));
  }

  lemma {:induction false} ExitsGetRecorded(w: World, v: World, id: Id, left: set<Id>) returns (u: World)
    requires Leads(w, v) && IsStoppingSetup(v.domain, id) && Apart(v.domain)
    requires left == Running(v.domain.intents[id].batch) && v.domain.intents[id].batch.revision + |left| <= MAX_REVISION
    ensures Leads(w, u) && u == v.(domain := u.domain) && IsStoppingSetup(u.domain, id) && Apart(u.domain)
    ensures var b, after := v.domain.intents[id].batch, u.domain.intents[id].batch;
            Running(after) == {} && after.accepted == b.accepted && after.revision == b.revision + |left|
    ensures u.domain.released == v.domain.released && SameDispatches(v.domain, u.domain)
    decreases |left|
  {
    hide IsStoppingSetup, Apart, Leads, SameDispatches, Running;
    if left == {} {
      SameIsSame(v.domain);
      u := v;
    } else {
      var run :| run in left;
      var next := ExitGetsRecorded(w, v, id, run);
      u := ExitsGetRecorded(w, next, id, left - {run});
      SameTwice(v.domain, next.domain, u.domain);
    }
  }

  // No dispatch id appeared, no launch id, and no intent.
  ghost predicate SameDispatches(d: Domain, after: Domain) {
    after.intents.Keys == d.intents.Keys &&
    forall id | id in d.intents.Keys ::
      after.intents[id].batch.dispatch == d.intents[id].batch.dispatch &&
        after.intents[id].batch.items.Keys == d.intents[id].batch.items.Keys &&
      forall run | run in d.intents[id].batch.items.Keys ::
        after.intents[id].batch.items[run].launch == d.intents[id].batch.items[run].launch
  }

  lemma SameIsSame(d: Domain)
    ensures SameDispatches(d, d)
  {
  }

  lemma SameTwice(d: Domain, between: Domain, after: Domain)
    requires SameDispatches(d, between) && SameDispatches(between, after)
    ensures SameDispatches(d, after)
  {
    forall id | id in d.intents.Keys
      ensures after.intents[id].batch.dispatch == d.intents[id].batch.dispatch &&
        after.intents[id].batch.items.Keys == d.intents[id].batch.items.Keys
      ensures forall run | run in d.intents[id].batch.items.Keys ::
        after.intents[id].batch.items[run].launch == d.intents[id].batch.items[run].launch
    {
      assert id in between.intents.Keys;
    }
  }

  lemma EditKeepsDispatch(d: Domain, id: Id, s: Step)
    requires id in d.intents && Admits(d, id, s, true) && (s.RecordExit? || s.ConfirmRelease?)
    ensures SameDispatches(d, Drafted(d, id, s, true))
  {
    hide Admits, Edited;
    EditKeepsLaunches(d, id, s);
  }

  lemma EditKeepsLaunches(d: Domain, id: Id, s: Step)
    requires id in d.intents && Admits(d, id, s, true) && (s.RecordExit? || s.ConfirmRelease?)
    ensures var b, after := d.intents[id].batch, Edited(d, id, s, true).batch;
            after.dispatch == b.dispatch && after.items.Keys == b.items.Keys &&
            forall run | run in b.items.Keys :: after.items[run].launch == b.items[run].launch
  {
    hide IsHeld;
  }

  lemma UnusedStays(d: Domain, after: Domain, dispatchId: Id)
    requires SameDispatches(d, after) && IsUnused(d, dispatchId)
    ensures IsUnused(after, dispatchId)
  {
    forall id | id in after.intents.Keys
      ensures after.intents[id].batch.dispatch.id != Some(dispatchId)
      ensures forall run | run in after.intents[id].batch.items.Keys ::
        after.intents[id].batch.items[run].launch.id != Some(dispatchId)
    {
      assert id in d.intents.Keys;
    }
  }

  // ---- Releasing ----

  lemma {:induction false} RunsGetReleased(w: World, v: World, runs: set<Id>) returns (u: World)
    requires Leads(w, v) && Sound(v.domain)
    ensures Leads(w, u) && u == v.(domain := u.domain) && Sound(u.domain)
    ensures u.domain.intents == v.domain.intents && u.domain.released == v.domain.released + runs
    decreases runs
  {
    hide Sound, Leads;
    if runs == {} {
      u := v;
    } else {
      var run :| run in runs;
      ReleaseIsSound(v.domain, run);
      LeadsOn(w, v, Releasing(run));
      u := RunsGetReleased(w, Next(v, Releasing(run)), runs - {run});
    }
  }

  lemma AloneIsHeld(d: Domain, id: Id)
    requires Apart(d) && id in d.intents && !IsTerminal(d.intents[id]) && d.intents[id].batch.accepted <= d.released
    ensures IsHeld(d, id, true)
  {
  }

  // A stopped setup, nothing of it dispatched.
  ghost predicate IsStoppedSetup(d: Domain, id: Id) {
    Sound(d) && id in d.intents && IsOpen(d.intents[id]) && d.intents[id].batch.phase.Stopped? && IsHeld(d, id, true)
  }

  lemma ReleaseIsDue(d: Domain, id: Id)
    requires IsStoppingSetup(d, id) && Running(d.intents[id].batch) == {} && IsHeld(d, id, true)
    ensures Due(d, id, ConfirmRelease(d.intents[id].batch.revision), true)
  {
    hide ValidBatch, IsLoadable, IsHeld, Shaped, Follows;
    var b := d.intents[id].batch;
    assert Tracked(d, id);
    StoppingIsPlain(d, id);
    forall run | run in b.items.Keys ensures b.items[run].facts.exitConfirmed {
      assert run !in Running(b);
    }
  }

  lemma ReleaseEdit(d: Domain, id: Id, s: Step)
    requires id in d.intents && s.ConfirmRelease? && Admits(d, id, s, true)
    ensures var i, after := d.intents[id], Edited(d, id, s, true);
            after == i.(batch := after.batch) && after.batch.phase.Stopped? &&
              after.batch.revision == i.batch.revision + 1 &&
            after.batch.accepted == i.batch.accepted
  {
    hide IsHeld;
  }

  lemma ReleaseGetsConfirmed(w: World, t: World, id: Id) returns (u: World)
    requires Leads(w, t) && IsStoppingSetup(t.domain, id) && Apart(t.domain) &&
      Running(t.domain.intents[id].batch) == {}
    requires t.domain.intents[id].batch.revision < MAX_REVISION &&
      t.domain.intents[id].batch.accepted <= t.domain.released
    ensures Leads(w, u) && u == t.(domain := u.domain) && IsStoppedSetup(u.domain, id)
    ensures u.domain.intents[id].batch.revision == t.domain.intents[id].batch.revision + 1 &&
      SameDispatches(t.domain, u.domain)
  {
    hide Sound, Apart, Edited, Admits, Tracked, Leads, SameDispatches, IsStopping, Attempt, Running, IsHeld;
    AloneIsHeld(t.domain, id);
    ReleaseIsDue(t.domain, id);
    var s := ConfirmRelease(t.domain.intents[id].batch.revision);
    StepGoes(t, id, s);
    ReleaseEdit(t.domain, id, s);
    MaybeApart(t.domain, id, s, true);
    LeadsOn(w, t, Stepping(id, s, true));
    EditKeepsDispatch(t.domain, id, s);
    u := t.(domain := Drafted(t.domain, id, s, true));
    assert u == Next(t, Stepping(id, s, true));
    AloneIsHeld(u.domain, id);
  }

  // An accepted setup not in doubt can be stopped: every exit recorded, every run released.
  lemma SetupGetsStopped(w: World, v: World, id: Id) returns (u: World)
    requires Leads(w, v) && IsStoppingSetup(v.domain, id) && Apart(v.domain)
    requires v.domain.intents[id].batch.revision + |Running(v.domain.intents[id].batch)| < MAX_REVISION
    ensures Leads(w, u) && u == v.(domain := u.domain) && IsStoppedSetup(u.domain, id) &&
      SameDispatches(v.domain, u.domain)
    ensures u.domain.intents[id].batch.revision ==
      v.domain.intents[id].batch.revision + |Running(v.domain.intents[id].batch)| + 1
  {
    hide Apart, Leads, SameDispatches, Running, IsStoppedSetup, Sound;
    var s := ExitsGetRecorded(w, v, id, Running(v.domain.intents[id].batch));
    var t := RunsGetReleased(w, s, s.domain.intents[id].batch.accepted);
    SameApart(s.domain, t.domain);
    u := ReleaseGetsConfirmed(w, t, id);
    SameIntentsSameDispatches(s.domain, t.domain);
    SameTwice(v.domain, s.domain, t.domain);
    SameTwice(v.domain, t.domain, u.domain);
  }

  lemma SameApart(d: Domain, after: Domain)
    requires Apart(d) && after.intents == d.intents
    ensures Apart(after)
  {
  }

  lemma SameIntentsSameDispatches(d: Domain, after: Domain)
    requires after.intents == d.intents
    ensures SameDispatches(d, after)
  {
  }

  // ---- Dispatching ----

  // What a step leaves of the other intents is enough to keep the locks.
  lemma EditStaysHeld(d: Domain, id: Id, s: Step)
    requires id in d.intents && Admits(d, id, s, true) && IsHeld(d, id, true)
    ensures Edited(d, id, s, true).batch.accepted == d.intents[id].batch.accepted ==>
      IsHeld(Drafted(d, id, s, true), id, true)
  {
    hide Admits, Edited;
    StepKeepsPlan(d, id, s, true);
  }

  // The intent of a sound domain is loadable and holds its batch under its own id.
  lemma SoundLoads(d: Domain, id: Id)
    requires Sound(d) && id in d.intents
    ensures IsLoadable(d, id) && d.intents[id].batch.id == id && ValidBatch(d.intents[id].batch)
    ensures IsOpen(d.intents[id]) ==> forall run | run in d.intents[id].batch.items.Keys ::
      d.intents[id].batch.items[run].restore.NotRequested?
  {
    hide Shaped, ValidBatch, ValidAcceptance;
    assert Tracked(d, id);
    ShapedIsValid(d.intents[id].batch);
  }

  lemma StoppedIsReviewable(d: Domain, id: Id, setup: Digest)
    requires IsStoppedSetup(d, id)
    ensures IsReviewable(d.intents[id].batch, setup, false)
  {
    hide IsLoadable, ValidDispatch;
    assert Tracked(d, id);
  }

  // The setup is planned, its permit waits unused.
  ghost predicate IsPlannedSetup(w: World, id: Id, permit: Handle, setup: Digest) {
    && Sound(w.domain) && id in w.domain.intents && IsOpen(w.domain.intents[id]) && IsHeld(w.domain, id, true)
    && IsReviewable(w.domain.intents[id].batch, setup, true)
    && permit in w.tickets && w.tickets[permit] ==
      Ticket(permit.holder, true, w.domain.intents[id].batch, w.domain.intents[id].generation, setup, false)
  }

  lemma DispatchEffect(d: Domain, id: Id, s: Step)
    requires id in d.intents && s.RecordDispatch? && Admits(d, id, s, true)
    ensures var i, after := d.intents[id], Edited(d, id, s, true);
            after == i.(batch := after.batch) && IsReviewable(after.batch, s.setup, true) &&
              after.batch.accepted == i.batch.accepted &&
            after.batch.revision == i.batch.revision + 1
  {
    hide IsHeld, IsUnused;
  }

  lemma ReviewGetsGranted(w: World, v: World, id: Id, review: Handle, setup: Digest) returns (u: World)
    requires Leads(w, v) && IsStoppedSetup(v.domain, id) && review !in v.minted && review.holder in v.pids
    ensures var i := v.domain.intents[id];
            Leads(w, u) && u == Mint(v, review, Ticket(review.holder, false, i.batch, i.generation, setup, false))
  {
    hide Leads, IsReviewable, ValidBatch, IsLoadable;
    var i := v.domain.intents[id];
    SoundLoads(v.domain, id);
    StoppedIsReviewable(v.domain, id, setup);
    u := Next(v, Reviewing(review, i.batch, i.generation, setup, true));
    LeadsOn(w, v, Reviewing(review, i.batch, i.generation, setup, true));
  }

  lemma DispatchIsDue(d: Domain, id: Id, dispatchId: Id, setup: Digest)
    requires IsStoppedSetup(d, id) && IsUnused(d, dispatchId)
    ensures Due(d, id, RecordDispatch(d.intents[id].batch.revision, dispatchId, setup), true)
  {
    hide IsReviewable, IsHeld, IsUnused, Tracked;
    StoppedIsReviewable(d, id, setup);
  }

  lemma SetupGetsDispatched(w: World, v: World, id: Id, review: Handle, permit: Handle, dispatchId: Id, setup: Digest)
      returns (u: World)
    requires Leads(w, v) && IsStoppedSetup(v.domain, id) && IsUnused(v.domain, dispatchId) &&
      v.domain.intents[id].batch.revision < MAX_REVISION
    requires review in v.tickets && permit !in v.minted && permit.holder == review.holder
    requires v.tickets[review] == Ticket(review.holder, false, v.domain.intents[id].batch,
      v.domain.intents[id].generation, setup, false)
    ensures Leads(w, u) && IsPlannedSetup(u, id, permit, setup)
    ensures u.domain.intents[id].batch.revision == v.domain.intents[id].batch.revision + 1
    ensures u.pids == v.pids && u.minted == v.minted + {permit} && u.execs == v.execs
  {
    hide Sound, Leads, Edited, Admits, Tracked, IsUnused, IsHeld, IsReviewable, Attempt, IsOpen, IsLoadable;
    var b := v.domain.intents[id].batch;
    var s := RecordDispatch(b.revision, dispatchId, setup);
    DispatchIsDue(v.domain, id, dispatchId, setup);
    StepGoes(v, id, s);
    DispatchEffect(v.domain, id, s);
    HeldWhereStopped(v.domain, id);
    EditStaysHeld(v.domain, id, s);
    SoundLoads(v.domain, id);
    StoppedIsReviewable(v.domain, id, setup);
    var e := Dispatching(review, permit, id, b.revision, dispatchId, setup, true, Delivered);
    LeadsOn(w, v, e);
    u := Next(v, e);
    OpenStays(v.domain.intents[id], u.domain.intents[id]);
  }

  lemma HeldWhereStopped(d: Domain, id: Id)
    requires IsStoppedSetup(d, id)
    ensures IsHeld(d, id, true) && IsOpen(d.intents[id])
  {
  }

  lemma OpenStays(i: Intent, after: Intent)
    requires IsOpen(i) && after.phase == i.phase
    ensures IsOpen(after)
  {
  }

  // ---- Executing ----

  // An acting execution that sees the intent as it is.
  ghost predicate IsExecuting(w: World, id: Id, h: Handle, x: Exec) {
    && Sound(w.domain) && id in w.domain.intents && IsOpen(w.domain.intents[id]) && IsHeld(w.domain, id, true)
    && x.seen == w.domain.intents[id].batch && x.generation == w.domain.intents[id].generation && x.seen.id == id
    && h in w.execs && w.execs[h] == x && x.active && x.pid == h.holder
  }

  lemma ExecutingSees(w: World, id: Id, h: Handle, x: Exec)
    requires IsExecuting(w, id, h, x)
    ensures Acts(w, h) && Sees(w.domain, x)
  {
    hide Sound, IsHeld;
    SoundLoads(w.domain, id);
  }

  lemma ExecutionGetsStarted(w: World, v: World, id: Id, permit: Handle, exec: Handle, setup: Digest) returns (u: World)
    requires Leads(w, v) && IsPlannedSetup(v, id, permit, setup)
    requires exec !in v.minted && exec.holder in v.pids && permit.holder == exec.holder
    ensures var i := v.domain.intents[id]; var x :=
      Exec(exec.holder, permit, i.batch, i.generation, setup, true, false, New);
            Leads(w, u) && u == v.(execs := v.execs[exec := x], minted := v.minted + {exec}) &&
              IsExecuting(u, id, exec, x)
  {
    hide Sound, Leads, IsReviewable, ValidBatch, IsHeld, IsLoadable;
    SoundLoads(v.domain, id);
    var e := Executing(exec, permit, v.domain.intents[id].batch, setup);
    LeadsOn(w, v, e);
    u := Next(v, e);
  }

  // The stage each mark leads to, for an execution that sees its batch under its locks.
  function Passes(x: Exec, mark: Mark): Option<Stage> {
    match mark
    case Approval => if x.stage.New? then Some(Approved) else None
    case PreflightCheck => if x.stage.Approved? then Some(Preflight) else None
    case PrepareCheck => if x.stage.Preflight? then Some(Prepared) else None
    case SyncEnd => if x.stage.SyncRunning? then Some(SyncDone) else None
    case ApplyCheck => if x.stage.SyncDone? then Some(ApplyReady) else None
    case ApplyStart => if x.stage.ApplyReady? then Some(ApplyRunning) else None
    case ApplyEnd(deployed) => if x.stage.ApplyRunning? &&
      x.seen.dispatch.targetDigest == Some(deployed) then Some(ApplyDone) else None
    case SyncStart => None
  }

  lemma StageGetsPassed(w: World, v: World, id: Id, h: Handle, x: Exec, mark: Mark) returns (u: World)
    requires Leads(w, v) && IsExecuting(v, id, h, x) && Passes(x, mark).Some?
    ensures var y := x.(stage := Passes(x, mark).value);
            Leads(w, u) && IsExecuting(u, id, h, y) && u == v.(execs := v.execs[h := y], log := u.log)
  {
    hide Sound, Leads, IsHeld, Sees, IsOpen, Acts;
    ExecutingSees(v, id, h, x);
    var e := if mark.ApplyStart? then Applying(h, true) else Checking(h, mark, true);
    LeadsOn(w, v, e);
    u := Next(v, e);
  }

  lemma SyncEffect(d: Domain, id: Id, s: Step)
    requires id in d.intents && s.BeginSync? && Admits(d, id, s, true)
    ensures var i, after := d.intents[id], Edited(d, id, s, true);
            after == i.(batch := after.batch) && after.batch.accepted == i.batch.accepted &&
              after.batch.revision == i.batch.revision + 1 &&
            after.batch.id == i.batch.id && after.batch.dispatch.targetDigest == Some(s.target) &&
              after.batch.phase.Running?
  {
    hide IsHeld, IsReviewable;
  }

  lemma SyncIsDue(w: World, id: Id, h: Handle, x: Exec, setup: Digest, target: Digest)
    requires IsExecuting(w, id, h, x) && IsReviewable(x.seen, setup, true)
    ensures Due(w.domain, id, BeginSync(x.seen, x.generation, setup, target), true)
  {
    hide IsReviewable, IsHeld, Tracked;
  }

  lemma SyncGetsStarted(w: World, v: World, id: Id, h: Handle, x: Exec, target: Digest) returns (u: World)
    requires Leads(w, v) && IsExecuting(v, id, h, x) && x.stage.Prepared? && IsReviewable(x.seen, x.setup, true) &&
      x.seen.revision < MAX_REVISION
    requires x.permit in v.tickets && v.tickets[x.permit] ==
      Ticket(h.holder, true, x.seen, x.generation, x.setup, false)
    ensures Leads(w, u) && id in u.domain.intents
    ensures var y := x.(seen := u.domain.intents[id].batch, started := true, stage := SyncRunning);
            IsExecuting(u, id, h, y) && y.seen.revision == x.seen.revision + 1 &&
              y.seen.dispatch.targetDigest == Some(target) && y.seen.phase.Running?
  {
    hide Sound, Leads, Edited, Admits, Tracked, IsHeld, IsReviewable, Attempt, IsOpen, IsLoadable;
    var s := BeginSync(x.seen, x.generation, x.setup, target);
    SyncIsDue(v, id, h, x, x.setup, target);
    StepGoes(v, id, s);
    SyncEffect(v.domain, id, s);
    EditStaysHeld(v.domain, id, s);
    SoundLoads(v.domain, id);
    var e := Syncing(h, target, true, Delivered);
    LeadsOn(w, v, e);
    u := Next(v, e);
    OpenStays(v.domain.intents[id], u.domain.intents[id]);
  }

  // ---- Ending ----

  lemma FinishEffect(d: Domain, id: Id, s: Step)
    requires id in d.intents && s.Finish? && Admits(d, id, s, true) && s.outcome.Returned? && s.outcome.code == 0
    ensures var i, after := d.intents[id], Edited(d, id, s, true);
            after == i.(batch := after.batch) && after.batch.accepted == i.batch.accepted &&
              after.batch.revision == i.batch.revision + 1 &&
            after.batch.phase.Succeeded?
  {
  }

  lemma FinishIsDue(w: World, id: Id, h: Handle, x: Exec, outcome: Outcome)
    requires IsExecuting(w, id, h, x) && x.seen.phase.Running?
    ensures Due(w.domain, id, Finish(x.seen, x.generation, outcome), true)
  {
    hide IsHeld, Tracked;
  }

  lemma ResultGetsRecorded(w: World, v: World, id: Id, h: Handle, x: Exec, digest: Digest) returns (u: World)
    requires Leads(w, v) && IsExecuting(v, id, h, x) && x.stage.ApplyDone? && x.started && x.seen.phase.Running? &&
      x.seen.revision < MAX_REVISION
    ensures Leads(w, u) && Sound(u.domain) && id in u.domain.intents && IsOpen(u.domain.intents[id]) &&
      IsHeld(u.domain, id, true)
    ensures u.domain.intents[id].batch.phase.Succeeded? && u.domain.intents[id].batch.revision == x.seen.revision + 1
  {
    hide Sound, Leads, Edited, Tracked, IsHeld, Attempt, IsLoadable;
    var s := Finish(x.seen, x.generation, Returned(0, digest));
    FinishIsDue(v, id, h, x, Returned(0, digest));
    StepGoes(v, id, s);
    FinishEffect(v.domain, id, s);
    EditStaysHeld(v.domain, id, s);
    SoundLoads(v.domain, id);
    var e := Ending(h, Returned(0, digest), Delivered);
    LeadsOn(w, v, e);
    u := Next(v, e);
  }

  lemma SucceededIsFinished(d: Domain, id: Id)
    requires Sound(d) && id in d.intents && IsOpen(d.intents[id]) && d.intents[id].batch.phase.Succeeded? &&
      IsHeld(d, id, true)
    ensures Due(d, id, CompleteByHand(d.intents[id].batch, d.intents[id].generation), true)
  {
    hide ValidBatch, IsLoadable, IsHeld;
    assert Tracked(d, id);
    FinishedIsSettled(d.intents[id].batch);
  }

  lemma SetupGetsHandedOver(w: World, v: World, id: Id) returns (u: World)
    requires Leads(w, v) && Sound(v.domain) && id in v.domain.intents && IsOpen(v.domain.intents[id]) &&
      IsHeld(v.domain, id, true)
    requires v.domain.intents[id].batch.phase.Succeeded? && v.domain.intents[id].batch.revision < MAX_REVISION
    ensures Leads(w, u) && id in u.domain.intents && u.domain.intents[id].phase.Completed?
  {
    hide Sound, Leads, Admits, Tracked, IsHeld, Attempt, IsOpen;
    var s := CompleteByHand(v.domain.intents[id].batch, v.domain.intents[id].generation);
    SucceededIsFinished(v.domain, id);
    StepGoes(v, id, s);
    LeadsOn(w, v, Stepping(id, s, true));
    u := Next(v, Stepping(id, s, true));
  }

  // ---- The theorem ----

  lemma ExecutionGetsThrough(w: World, v: World, id: Id, h: Handle, x: Exec, target: Digest, digest: Digest)
      returns (u: World)
    requires Leads(w, v) && IsExecuting(v, id, h, x) && x.stage.New? && IsReviewable(x.seen, x.setup, true) &&
      x.seen.revision + 3 <= MAX_REVISION
    requires x.permit in v.tickets && v.tickets[x.permit] ==
      Ticket(h.holder, true, x.seen, x.generation, x.setup, false)
    ensures Leads(w, u) && id in u.domain.intents && u.domain.intents[id].phase.Completed?
  {
    hide Leads, IsExecuting, IsReviewable, Sound, IsHeld, IsOpen;
    u := StageGetsPassed(w, v, id, h, x, Approval);
    u := StageGetsPassed(w, u, id, h, x.(stage := Approved), PreflightCheck);
    u := StageGetsPassed(w, u, id, h, x.(stage := Preflight), PrepareCheck);
    u := SyncGetsStarted(w, u, id, h, x.(stage := Prepared), target);
    var y := x.(seen := u.domain.intents[id].batch, started := true, stage := SyncRunning);
    u := StageGetsPassed(w, u, id, h, y, SyncEnd);
    u := StageGetsPassed(w, u, id, h, y.(stage := SyncDone), ApplyCheck);
    u := StageGetsPassed(w, u, id, h, y.(stage := ApplyReady), ApplyStart);
    u := StageGetsPassed(w, u, id, h, y.(stage := ApplyRunning), ApplyEnd(target));
    u := ResultGetsRecorded(w, u, id, h, y.(stage := ApplyDone), digest);
    u := SetupGetsHandedOver(w, u, id);
  }

  lemma StoppedSetupCompletes(w: World, v: World, id: Id, p: nat, serial: nat, dispatchId: Id) returns (u: World)
    requires Leads(w, v) && IsStoppedSetup(v.domain, id) && IsUnused(v.domain, dispatchId) && p in v.pids
    requires v.domain.intents[id].batch.revision + 4 <= MAX_REVISION
    requires forall h | h in v.minted :: h.serial < serial
    ensures Leads(w, u) && id in u.domain.intents && u.domain.intents[id].phase.Completed?
  {
    hide Leads, IsStoppedSetup, IsReviewable, Sound, IsHeld, IsUnused, IsOpen, IsExecuting;
    var review, permit, exec := Handle(p, serial), Handle(p, serial + 1), Handle(p, serial + 2);
    u := ReviewGetsGranted(w, v, id, review, "");
    u := SetupGetsDispatched(w, u, id, review, permit, dispatchId, "");
    var i := u.domain.intents[id];
    u := ExecutionGetsStarted(w, u, id, permit, exec, "");
    u := ExecutionGetsThrough(w, u, id, exec, Exec(p, permit, i.batch, i.generation, "", true, false, New), "", "");
  }

  lemma {:induction false} FreshSerial(handles: set<Handle>) returns (serial: nat)
    ensures forall h | h in handles :: h.serial < serial
    decreases handles
  {
    if handles == {} {
      serial := 0;
    } else {
      var h :| h in handles;
      serial := FreshSerial(handles - {h});
      if serial <= h.serial {
        serial := h.serial + 1;
      }
    }
  }

  // From every reachable world, whatever crashed, forked or was lost before: an open setup batch that
  // is still being stopped, or stopped and not yet dispatched under its locks, can be completed by any
  // process, so long as a dispatch id is free and the revision has room for the steps to come.
  lemma SetupCanComplete(pids: set<nat>, es: seq<Event>, id: Id, p: nat, dispatchId: Id)
    requires var w := Reached(Start(pids), es);
             && id in w.domain.intents && IsOpen(w.domain.intents[id]) && w.domain.intents[id].batch.operation.Setup?
             && (IsStopping(w.domain.intents[id].batch) ||
               (w.domain.intents[id].batch.phase.Stopped? && w.domain.intents[id].batch.accepted <= w.domain.released))
             && p in w.pids && IsUnused(w.domain, dispatchId)
             && w.domain.intents[id].batch.revision + |Running(w.domain.intents[id].batch)| + 5 <= MAX_REVISION
    ensures exists more :: id in Reached(Reached(Start(pids), es), more).domain.intents &&
                           Reached(Reached(Start(pids), es), more).domain.intents[id].phase.Completed?
  {
    hide Sound, TicketsGood, SavesGood, MarksGood, IsHeld, Apart, IsUnused, Next;
    var w := Reached(Start(pids), es);
    ReachedIsGood(pids, es);
    ReachedIsApart(pids, es);
    LeadsToItself(w);
    var serial := FreshSerial(w.minted);
    var v := w;
    if IsStopping(w.domain.intents[id].batch) {
      v := SetupGetsStopped(w, w, id);
      UnusedStays(w.domain, v.domain, dispatchId);
    } else {
      AloneIsHeld(w.domain, id);
    }
    var u := StoppedSetupCompletes(w, v, id, p, serial, dispatchId);
  }
}
