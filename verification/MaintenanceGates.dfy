/** What lets an execution pass: every entry of the log, and every ticket a process holds, was put there by
    one event whose gate was open, over every run. */
module MaintenanceGates {
  import opened Wrappers
  import opened MaintenanceBatch
  import opened MaintenanceDomain
  import opened MaintenanceRun
  import opened MaintenanceOutcomes

  // ---- One entry ----

  // The coordination still holds exactly the batch of the execution, and its intent is open.
  ghost predicate StillThere(w: World, x: Exec) {
    && x.seen.id in w.domain.intents && w.domain.intents[x.seen.id].batch == x.seen
    && w.domain.intents[x.seen.id].generation == x.generation
    && (w.domain.intents[x.seen.id].phase.Active? || w.domain.intents[x.seen.id].phase.Sent?)
  }

  // The execution acts in the process that made it, at this stage.
  ghost predicate Stands(w: World, h: Handle, stage: Stage) {
    h in w.execs && w.execs[h].active && w.execs[h].pid == h.holder && w.execs[h].stage == stage
  }

  // An unused ticket of the calling process itself, for the batch the coordination holds.
  ghost predicate Grants(w: World, h: Handle, caller: nat, issued: bool, id: Id, setup: Digest) {
    && h in w.tickets && !w.tickets[h].used && w.tickets[h].pid == caller && w.tickets[h].issued == issued
    && w.tickets[h].setup == setup && id in w.domain.intents && w.tickets[h].seen == w.domain.intents[id].batch
    && w.tickets[h].generation == w.domain.intents[id].generation
  }

  // The gate of each stage.
  ghost predicate MayPass(w: World, e: Event, h: Handle, mark: Mark) {
    h in w.execs && var x := w.execs[h];
    match mark
    case Approval => e == Checking(h, mark, true) && Stands(w, h, New) && StillThere(w, x)
    case PreflightCheck => e == Checking(h, mark, true) && Stands(w, h, Approved) && StillThere(w, x)
    case PrepareCheck => e == Checking(h, mark, true) && Stands(w, h, Preflight) && StillThere(w, x)
    case SyncStart =>
      e.Syncing? && e.exec == h && e.delivery.Delivered? && Stands(w, h, Prepared) && StillThere(w, x) &&
      HoldsAll(w.domain, x.seen.id, e.held) && Grants(w, x.permit, h.holder, true, x.seen.id, x.setup)
    case SyncEnd => e.Checking? && e.exec == h && e.mark == mark && Stands(w, h, SyncRunning)
    case ApplyCheck => e == Checking(h, mark, true) && Stands(w, h, SyncDone) && StillThere(w, x)
    case ApplyStart =>
      e == Applying(h, true) && Stands(w, h, ApplyReady) && StillThere(w, x) && HoldsAll(w.domain, x.seen.id, true)
    case ApplyEnd(deployed) =>
      e == Checking(h, mark, true) && Stands(w, h, ApplyRunning) && StillThere(w, x) &&
      HoldsAll(w.domain, x.seen.id, true) && x.seen.dispatch.targetDigest == Some(deployed)
  }

  // What each entry takes.
  ghost predicate IsEarned(w: World, e: Event, entry: Entry) {
    match entry
    case Marked(h, mark) => MayPass(w, e, h, mark)
    case TicketUsed(t, issued, id, setup) =>
      id in w.domain.intents && HoldsAll(w.domain, id, true) &&
      if issued then
        e.Syncing? && Stands(w, e.exec, Prepared) && w.execs[e.exec].permit == t &&
        Grants(w, t, e.exec.holder, true, id, setup)
      else e.Dispatching? && e.review == t && e.id == id && Grants(w, t, t.holder, false, id, setup)
    case DispatchSaved(id, dispatchId, setup) =>
      e.Dispatching? && e.id == id && e.dispatchId == dispatchId && e.held && !e.delivery.Unwritten? &&
      Grants(w, e.review, e.review.holder, false, id, setup) && HoldsAll(w.domain, id, true)
    case SyncSaved(id, target) =>
      e.Syncing? && e.target == target && e.held && !e.delivery.Unwritten? && Stands(w, e.exec, Prepared) &&
      w.execs[e.exec].seen.id == id && StillThere(w, w.execs[e.exec]) && HoldsAll(w.domain, id, true) &&
      Grants(w, w.execs[e.exec].permit, e.exec.holder, true, id, w.execs[e.exec].setup)
    case SuccessSaved(id, h) =>
      e.Ending? && e.exec == h && !e.delivery.Unwritten? && Stands(w, h, ApplyDone) && w.execs[h].started &&
      w.execs[h].seen.id == id && StillThere(w, w.execs[h]) && e.outcome.Returned? && e.outcome.code == 0
  }

  ghost predicate AllEarned(w: World, e: Event, more: seq<Entry>) {
    forall n | 0 <= n < |more| :: IsEarned(w, e, more[n])
  }

  // Nothing in the log is rewritten, and whatever an event adds is earned.
  ghost predicate AddsEarned(w: World, e: Event) {
    |w.log| <= |Next(w, e).log| && Next(w, e).log[..|w.log|] == w.log && AllEarned(w, e, Next(w, e).log[|w.log|..])
  }

  lemma OneMore(w: World, e: Event, entry: Entry)
    requires Next(w, e).log == w.log + [entry] && IsEarned(w, e, entry)
    ensures AddsEarned(w, e)
  {
    hide IsEarned, Next;
    assert Next(w, e).log[|w.log|..] == [entry];
  }

  lemma NoneMore(w: World, e: Event)
    requires Next(w, e).log == w.log
    ensures AddsEarned(w, e)
  {
    hide IsEarned, Next;
    assert Next(w, e).log[|w.log|..] == [];
  }

  lemma SeesIsStillThere(w: World, x: Exec)
    ensures Sees(w.domain, x) ==> StillThere(w, x)
  {
    hide ValidAcceptance;
  }

  lemma CheckEarns(w: World, e: Event)
    requires e.Checking? || e.Applying?
    ensures AddsEarned(w, e)
  {
    hide Sees, IsHeld, HoldsAll, StillThere, AddsEarned;
    if e.exec in w.execs {
      var x := w.execs[e.exec];
      SeesIsStillThere(w, x);
      if x.seen.id in w.domain.intents {
        HeldIsHoldsAll(w.domain, x.seen.id, e.held);
        HeldMeans(w.domain, x.seen.id, e.held);
      }
      SeesIsLoaded(w, x);
    }
    if Next(w, e).log == w.log {
      NoneMore(w, e);
    } else {
      OneMore(w, e, Marked(e.exec, if e.Applying? then ApplyStart else e.mark));
    }
  }

  lemma SeesIsLoaded(w: World, x: Exec)
    ensures Sees(w.domain, x) ==> x.seen.id in w.domain.intents
  {
    hide ValidAcceptance;
  }

  lemma HeldMeans(d: Domain, id: Id, held: bool)
    requires id in d.intents
    ensures IsHeld(d, id, held) ==> held && HoldsAll(d, id, true)
  {
    HeldIsHoldsAll(d, id, held);
  }

  lemma TwoMore(w: World, e: Event, a: Entry, b: Entry)
    requires Next(w, e).log == w.log + [a, b] && IsEarned(w, e, a) && IsEarned(w, e, b)
    ensures AddsEarned(w, e)
  {
    hide IsEarned, Next;
    assert Next(w, e).log[|w.log|..] == [a, b];
  }

  lemma ThreeMore(w: World, e: Event, a: Entry, b: Entry, c: Entry)
    requires Next(w, e).log == w.log + [a, b, c] && IsEarned(w, e, a) && IsEarned(w, e, b) && IsEarned(w, e, c)
    ensures AddsEarned(w, e)
  {
    hide IsEarned, Next;
    assert Next(w, e).log[|w.log|..] == [a, b, c];
  }

  // A dispatch step is only admitted where all locks are held.
  lemma AdmittedHolds(d: Domain, id: Id, s: Step, held: bool)
    requires id in d.intents && Admits(d, id, s, held) && (s.RecordDispatch? || s.BeginSync?)
    ensures held && HoldsAll(d, id, true)
  {
    hide IsReviewable, IsUnused, HoldsAll;
    HeldMeans(d, id, held);
  }

  lemma DispatchEarns(w: World, e: Event)
    requires e.Dispatching?
    ensures AddsEarned(w, e)
  {
    hide IsReviewable, HoldsAll, AddsEarned, Attempt, ValidAcceptance, IsFrozen;
    var s := RecordDispatch(e.expected, e.dispatchId, e.setup);
    if IsLoadable(w.domain, e.id) && Admits(w.domain, e.id, s, e.held) {
      AdmittedHolds(w.domain, e.id, s, e.held);
    }
    hide Admits;
    var used := TicketUsed(e.review, false, e.id, e.setup);
    if Next(w, e).log == w.log {
      NoneMore(w, e);
    } else if Next(w, e).log == w.log + [used] {
      OneMore(w, e, used);
    } else {
      DispatchLog(w, e);
      TwoMore(w, e, used, DispatchSaved(e.id, e.dispatchId, e.setup));
    }
  }

  lemma DispatchLog(w: World, e: Event)
    requires e.Dispatching?
    ensures var used, saved := TicketUsed(e.review, false, e.id, e.setup), DispatchSaved(e.id, e.dispatchId, e.setup);
            Next(w, e).log == w.log || Next(w, e).log == w.log + [used] || Next(w, e).log == w.log + [used, saved]
  {
    hide IsReviewable, Attempt, Admits, IsLoadable;
    var used, saved := TicketUsed(e.review, false, e.id, e.setup), DispatchSaved(e.id, e.dispatchId, e.setup);
    assert w.log + [used] + [saved] == w.log + [used, saved];
  }

  lemma SyncLog(w: World, e: Event)
    requires e.Syncing? && Acts(w, e.exec)
    ensures var x := w.execs[e.exec];
            var used, saved := TicketUsed(x.permit, true, x.seen.id, x.setup), SyncSaved(x.seen.id, e.target);
            Next(w, e).log in [w.log, w.log + [used], w.log + [used, saved],
                               w.log + [used, saved, Marked(e.exec, SyncStart)]]
  {
    hide IsReviewable, Attempt, Admits, IsLoadable;
    var x := w.execs[e.exec];
    var used, saved := TicketUsed(x.permit, true, x.seen.id, x.setup), SyncSaved(x.seen.id, e.target);
    assert w.log + [used] + [saved] == w.log + [used, saved];
    assert w.log + [used] + [saved] + [Marked(e.exec, SyncStart)] == w.log + [used, saved, Marked(e.exec, SyncStart)];
  }

  // What an open sync gate has found.
  lemma SyncOpen(w: World, e: Event)
    requires e.Syncing? && Next(w, e).log != w.log
    ensures Acts(w, e.exec) && var x := w.execs[e.exec];
            x.seen.id in w.domain.intents && Stands(w, e.exec, Prepared) && StillThere(w, x) && e.held &&
              HoldsAll(w.domain, x.seen.id, true) &&
            Grants(w, x.permit, e.exec.holder, true, x.seen.id, x.setup)
  {
    hide IsReviewable, HoldsAll, Attempt, ValidAcceptance, IsFrozen;
    if Acts(w, e.exec) {
      var x := w.execs[e.exec];
      var s := BeginSync(x.seen, x.generation, x.setup, e.target);
      if IsLoadable(w.domain, x.seen.id) && Admits(w.domain, x.seen.id, s, e.held) {
        AdmittedHolds(w.domain, x.seen.id, s, e.held);
      }
    }
  }

  lemma SyncDelivered(w: World, e: Event)
    requires e.Syncing? && Acts(w, e.exec)
    ensures |Next(w, e).log| > |w.log| + 1 ==> !e.delivery.Unwritten?
    ensures |Next(w, e).log| > |w.log| + 2 ==> e.delivery.Delivered?
  {
    hide IsReviewable, Attempt, Admits, IsLoadable;
  }

  lemma SyncEarns(w: World, e: Event)
    requires e.Syncing?
    ensures AddsEarned(w, e)
  {
    hide HoldsAll, AddsEarned, Next, Grants, StillThere;
    if Next(w, e).log == w.log {
      NoneMore(w, e);
    } else {
      SyncOpen(w, e);
      SyncLog(w, e);
      SyncDelivered(w, e);
      var x := w.execs[e.exec];
      var used, saved := TicketUsed(x.permit, true, x.seen.id, x.setup), SyncSaved(x.seen.id, e.target);
      if Next(w, e).log == w.log + [used] {
        OneMore(w, e, used);
      } else if Next(w, e).log == w.log + [used, saved] {
        TwoMore(w, e, used, saved);
      } else {
        ThreeMore(w, e, used, saved, Marked(e.exec, SyncStart));
      }
    }
  }

  lemma EndEarns(w: World, e: Event)
    requires e.Ending?
    ensures AddsEarned(w, e)
  {
    hide AddsEarned, Attempt, ValidAcceptance, IsFrozen;
    if Next(w, e).log == w.log {
      NoneMore(w, e);
    } else {
      OneMore(w, e, SuccessSaved(w.execs[e.exec].seen.id, e.exec));
    }
  }

  lemma EventEarns(w: World, e: Event)
    ensures AddsEarned(w, e)
  {
    hide AddsEarned;
    match e {
      case Dispatching(_, _, _, _, _, _, _, _) => DispatchEarns(w, e);
      case Syncing(_, _, _, _) => SyncEarns(w, e);
      case Ending(_, _, _) => EndEarns(w, e);
      case Checking(_, _, _) => CheckEarns(w, e);
      case Applying(_, _) => CheckEarns(w, e);
      case _ => QuietEarns(w, e);
    }
  }

  lemma QuietEarns(w: World, e: Event)
    requires !e.Dispatching? && !e.Syncing? && !e.Ending? && !e.Checking? && !e.Applying?
    ensures AddsEarned(w, e)
  {
    hide AddsEarned, Attempt, Accept, ValidBatch, IsReviewable;
    NoneMore(w, e);
  }

  // ---- Over every run ----

  ghost predicate EarnedAt(pids: set<nat>, es: seq<Event>, n: nat, entry: Entry) {
    n < |es| && IsEarned(Reached(Start(pids), es[..n]), es[n], entry)
  }

  // Over every run: whatever stands in the log, one event put there through an open gate.
  lemma {:induction false} EntriesAreEarned(pids: set<nat>, es: seq<Event>, k: nat)
    requires k < |Reached(Start(pids), es).log|
    ensures exists n: nat :: EarnedAt(pids, es, n, Reached(Start(pids), es).log[k])
    decreases |es|
  {
    hide Next, IsEarned;
    if es != [] {
      var front, last := es[..|es| - 1], es[|es| - 1];
      var w := Reached(Start(pids), front);
      var entry := Reached(Start(pids), es).log[k];
      EventEarns(w, last);
      if k < |w.log| {
        assert w.log[k] == entry;
        EntriesAreEarned(pids, front, k);
        var n: nat :| EarnedAt(pids, front, n, entry);
        assert front[..n] == es[..n];
        assert EarnedAt(pids, es, n, entry);
      } else {
        assert Next(w, last).log[|w.log|..][k - |w.log|] == entry;
        assert EarnedAt(pids, es, |front|, entry);
      }
    }
  }

  // ---- Tickets ----

  // A review is made by an approval of a stopped setup whose runs have all exited and been released; a
  // permit by a delivered dispatch, for exactly the batch that dispatch left.
  ghost predicate MadeBy(w: World, e: Event, t: Ticket) {
    if !t.issued then
      && e.Reviewing? && e.approved && e.review.holder == t.pid && e.batch == t.seen && e.generation == t.generation
      && e.setup == t.setup && ValidBatch(t.seen) && t.seen.operation.Setup? && t.seen.phase.Stopped?
      && !t.seen.review && t.seen.result.None? && t.seen.dispatch.state.NotDispatched?
      && (forall run | run in t.seen.plan.byHand.Keys :: t.seen.plan.byHand[run])
      && forall run | run in t.seen.items.Keys ::
           t.seen.items[run].facts.exitConfirmed && t.seen.items[run].facts.resourcesReleased &&
           t.seen.items[run].stop.StopConfirmed? && t.seen.items[run].launch.state.NotDispatched?
    else
      && e.Dispatching? && e.delivery.Delivered? && e.permit.holder == e.review.holder == t.pid && e.setup == t.setup
      && e.id in w.domain.intents && t.generation == w.domain.intents[e.id].generation
      && t.seen == w.domain.intents[e.id].batch.(revision := e.expected + 1, phase := Planned,
           dispatch := Dispatch(Intended, Some(e.dispatchId), Some(e.setup), None))
      && w.domain.intents[e.id].batch.revision == e.expected
  }

  // The same ticket, whether used or not.
  predicate SameTicket(t: Ticket, u: Ticket) {
    t.(used := false) == u.(used := false)
  }

  ghost predicate WasThere(w: World, t: Ticket) {
    exists h :: h in w.tickets && SameTicket(w.tickets[h], t)
  }

  lemma TicketAppears(w: World, e: Event, h: Handle)
    requires h in Next(w, e).tickets
    ensures WasThere(w, Next(w, e).tickets[h]) || MadeBy(w, e, Next(w, e).tickets[h])
  {
    hide MadeBy, Next;
    if !(h in w.tickets && SameTicket(w.tickets[h], Next(w, e).tickets[h])) {
      match e {
        case Reviewing(_, _, _, _, _) => ReviewIsMade(w, e, h);
        case Dispatching(_, _, _, _, _, _, _, _) => PermitIsMade(w, e, h);
        case Forking(_, _) => CopyIsThere(w, e, h);
        case Syncing(_, _, _, _) => SyncKeepsTickets(w, e, h);
        case _ => OthersKeepTickets(w, e, h);
      }
    }
  }

  lemma CopyIsThere(w: World, e: Event, h: Handle)
    requires e.Forking? && h in Next(w, e).tickets &&
      !(h in w.tickets && SameTicket(w.tickets[h], Next(w, e).tickets[h]))
    ensures WasThere(w, Next(w, e).tickets[h])
  {
    assert ForkedFrom(w, h, e.parent, e.child);
  }

  lemma SyncKeepsTickets(w: World, e: Event, h: Handle)
    requires e.Syncing? && h in Next(w, e).tickets
    ensures h in w.tickets && SameTicket(w.tickets[h], Next(w, e).tickets[h])
  {
    hide Attempt, IsReviewable, Admits, IsLoadable;
  }

  lemma OthersKeepTickets(w: World, e: Event, h: Handle)
    requires h in Next(w, e).tickets
    requires !e.Reviewing? && !e.Dispatching? && !e.Forking? && !e.Syncing?
    ensures h in w.tickets && SameTicket(w.tickets[h], Next(w, e).tickets[h])
  {
    hide ValidBatch, Attempt, Accept, IsReviewable, Admits, Sees, IsHeld, IsLoadable;
  }

  // A forked copy is its parent's ticket.
  ghost predicate ForkedFrom(w: World, h: Handle, parent: nat, child: nat) {
    h == ChildOf(Handle(parent, h.serial), child) && Handle(parent, h.serial) in w.tickets
  }

  lemma ReviewIsMade(w: World, e: Event, h: Handle)
    requires e.Reviewing? && h in Next(w, e).tickets && (h !in w.tickets || w.tickets[h] != Next(w, e).tickets[h])
    ensures MadeBy(w, e, Next(w, e).tickets[h])
  {
    hide ValidBatch;
  }

  lemma PermitIsMade(w: World, e: Event, h: Handle)
    requires e.Dispatching? && h in Next(w, e).tickets
    requires h !in w.tickets || !SameTicket(w.tickets[h], Next(w, e).tickets[h])
    ensures MadeBy(w, e, Next(w, e).tickets[h])
  {
    hide ValidDomain, IsReviewable, IsHeld, IsUnused, ValidAcceptance, IsFrozen;
  }

  ghost predicate MadeAt(pids: set<nat>, es: seq<Event>, n: nat, t: Ticket) {
    n < |es| && MadeBy(Reached(Start(pids), es[..n]), es[n], t)
  }

  // Over every run: every ticket any process holds, also one inherited by a fork, was made once by an
  // approval or a delivered dispatch.
  lemma {:induction false} TicketsAreMade(pids: set<nat>, es: seq<Event>, h: Handle)
    requires h in Reached(Start(pids), es).tickets
    ensures exists n: nat :: MadeAt(pids, es, n, Reached(Start(pids), es).tickets[h])
    decreases |es|
  {
    hide Next, MadeBy;
    if es != [] {
      var front, last := es[..|es| - 1], es[|es| - 1];
      var w, t := Reached(Start(pids), front), Reached(Start(pids), es).tickets[h];
      TicketAppears(w, last, h);
      if MadeBy(w, last, t) {
        assert MadeAt(pids, es, |front|, t);
      } else {
        var g :| g in w.tickets && SameTicket(w.tickets[g], t);
        TicketsAreMade(pids, front, g);
        var n: nat :| MadeAt(pids, front, n, w.tickets[g]);
        assert front[..n] == es[..n];
        UsedIsMadeAlike(Reached(Start(pids), es[..n]), es[n], w.tickets[g], t);
        assert MadeAt(pids, es, n, t);
      }
    }
  }

  lemma UsedIsMadeAlike(w: World, e: Event, t: Ticket, u: Ticket)
    requires SameTicket(t, u)
    ensures MadeBy(w, e, t) <==> MadeBy(w, e, u)
  {
    hide ValidBatch;
    assert t.(used := false).seen == u.(used := false).seen && t.(used := false).setup == u.(used := false).setup;
  }

  // ---- Executions ----

  // An execution begins at its first stage, for a dispatched setup, with an issued permit of its own living
  // process and the generation that permit is bound to.
  ghost predicate BegunBy(w: World, e: Event, x: Exec) {
    && e.Executing? && e.exec !in w.minted && e.exec.holder == x.pid && x.pid in w.pids
    && e.permit == x.permit && x.permit.holder == x.pid && x.permit in w.tickets && w.tickets[x.permit].issued
    && w.tickets[x.permit].generation == x.generation && e.setup == x.setup
    && ValidBatch(e.batch) && e.batch.operation.Setup? && e.batch.phase.Planned? && e.batch.dispatch.state.Intended?
    && e.batch.dispatch.setupDigest == Some(x.setup)
    && e.exec in Next(w, e).execs &&
       Next(w, e).execs[e.exec] == Exec(x.pid, x.permit, e.batch, x.generation, x.setup, true, false, New)
  }

  // What an execution keeps as long as it lasts, and hands on to its forked copies.
  predicate SameExec(x: Exec, y: Exec) {
    x.pid == y.pid && x.permit == y.permit && x.generation == y.generation && x.setup == y.setup
  }

  lemma ExecAppears(w: World, e: Event, h: Handle)
    requires h in Next(w, e).execs
    ensures BegunBy(w, e, Next(w, e).execs[h]) || exists g :: g in w.execs && SameExec(w.execs[g], Next(w, e).execs[h])
  {
    hide BegunBy, Next;
    if !(h in w.execs && SameExec(w.execs[h], Next(w, e).execs[h])) {
      if e.Executing? {
        ExecIsBegun(w, e, h);
      } else if e.Forking? {
        ExecIsCopied(w, e, h);
      } else if e.Syncing? {
        SyncKeepsExecs(w, e, h);
      } else {
        OthersKeepExecs(w, e, h);
      }
    }
  }

  lemma ExecIsBegun(w: World, e: Event, h: Handle)
    requires e.Executing? && h in Next(w, e).execs && !(h in w.execs && SameExec(w.execs[h], Next(w, e).execs[h]))
    ensures BegunBy(w, e, Next(w, e).execs[h])
  {
    hide ValidBatch;
  }

  lemma ExecIsCopied(w: World, e: Event, h: Handle)
    requires e.Forking? && h in Next(w, e).execs && !(h in w.execs && SameExec(w.execs[h], Next(w, e).execs[h]))
    ensures exists g :: g in w.execs && SameExec(w.execs[g], Next(w, e).execs[h])
  {
    assert h == ChildOf(Handle(e.parent, h.serial), e.child) && Handle(e.parent, h.serial) in w.execs;
  }

  lemma SyncKeepsExecs(w: World, e: Event, h: Handle)
    requires e.Syncing? && h in Next(w, e).execs
    ensures h in w.execs && SameExec(w.execs[h], Next(w, e).execs[h])
  {
    hide Attempt, IsReviewable, Admits, IsLoadable;
  }

  lemma OthersKeepExecs(w: World, e: Event, h: Handle)
    requires h in Next(w, e).execs && !e.Executing? && !e.Forking? && !e.Syncing?
    ensures h in w.execs && SameExec(w.execs[h], Next(w, e).execs[h])
  {
    hide ValidBatch, Attempt, Accept, IsReviewable, Admits, Sees, IsHeld, IsLoadable;
  }

  ghost predicate BegunAt(pids: set<nat>, es: seq<Event>, n: nat, x: Exec) {
    n < |es| && BegunBy(Reached(Start(pids), es[..n]), es[n], x)
  }

  // Over every run: every execution, also a forked copy, was begun once with an issued permit of the process
  // that may act in it.
  lemma {:induction false} ExecutionsAreBegun(pids: set<nat>, es: seq<Event>, h: Handle)
    requires h in Reached(Start(pids), es).execs
    ensures exists n: nat :: BegunAt(pids, es, n, Reached(Start(pids), es).execs[h])
    decreases |es|
  {
    hide Next, BegunBy;
    if es != [] {
      var front, last := es[..|es| - 1], es[|es| - 1];
      var w, x := Reached(Start(pids), front), Reached(Start(pids), es).execs[h];
      ExecAppears(w, last, h);
      if BegunBy(w, last, x) {
        assert BegunAt(pids, es, |front|, x);
      } else {
        var g :| g in w.execs && SameExec(w.execs[g], x);
        ExecutionsAreBegun(pids, front, g);
        var n: nat :| BegunAt(pids, front, n, w.execs[g]);
        assert front[..n] == es[..n];
        BegunAlike(Reached(Start(pids), es[..n]), es[n], w.execs[g], x);
        assert BegunAt(pids, es, n, x);
      }
    }
  }

  lemma BegunAlike(w: World, e: Event, x: Exec, y: Exec)
    requires SameExec(x, y)
    ensures BegunBy(w, e, x) <==> BegunBy(w, e, y)
  {
    hide ValidBatch, Next;
  }

  // ---- The revision of the domain ----

  // Whatever an event changes in the domain moves its revision on by exactly one, and what is released stays
  // so; what was seen at an earlier revision can no longer be accepted.
  lemma RevisionCounts(w: World, e: Event)
    ensures Next(w, e).domain == w.domain || Next(w, e).domain.revision == w.domain.revision + 1
    ensures w.domain.released <= Next(w, e).domain.released
    ensures e.Releasing? ==> Next(w, e).domain == w.domain.(revision := w.domain.revision + 1,
              released := w.domain.released + {e.run})
  {
    hide ValidBatch, IsReviewable, Admits, Sees, IsHeld, IsLoadable, Edited, ValidDomain, ValidAcceptance, IsUnfenced;
  }

  lemma {:induction false} RevisionsRise(pids: set<nat>, es: seq<Event>, n: nat)
    requires n <= |es|
    ensures var before, now := Reached(Start(pids), es[..n]).domain, Reached(Start(pids), es).domain;
            before.released <= now.released && (now == before || now.revision > before.revision)
    decreases |es|
  {
    hide Next;
    if n < |es| {
      var front := es[..|es| - 1];
      assert front[..n] == es[..n];
      RevisionsRise(pids, front, n);
      RevisionCounts(Reached(Start(pids), front), es[|es| - 1]);
    } else {
      assert es[..n] == es;
    }
  }
}
