/** Whole runs of the maintenance protocol: processes that fork and die, single-use reviews and
    permits held in memory, lost and failed commits, and the staged execution of one setup. */
module MaintenanceRun {
  import opened Wrappers
  import opened MaintenanceBatch
  import opened MaintenanceDomain

  // ---- Volatile objects ----

  // An object of one process. After a fork the child holds its own copy.
  datatype Handle = Handle(holder: nat, serial: nat)

  // A review (not issued) or a permit (issued): bound to a batch, used at most once, by its own process.
  datatype Ticket = Ticket(pid: nat, issued: bool, seen: Batch, generation: nat, setup: Digest, used: bool)

  datatype Stage = New | Approved | Preflight | Prepared | SyncEntering | SyncRunning | SyncDone | ApplyReady
                 | ApplyEntering | ApplyRunning | ApplyDone | Ended

  datatype Exec = Exec(pid: nat, permit: Handle, seen: Batch, generation: nat, setup: Digest, active: bool,
    started: bool, stage: Stage)

  // What has happened, in order.
  datatype Mark = Approval | PreflightCheck | PrepareCheck | SyncStart | SyncEnd | ApplyCheck | ApplyStart
                | ApplyEnd(deployed: Digest)
  datatype Entry =
    | TicketUsed(ticket: Handle, issued: bool, batch: Id, setup: Digest)
    | DispatchSaved(batch: Id, dispatchId: Id, setup: Digest)
    | SyncSaved(batch: Id, target: Digest)
    | Marked(exec: Handle, mark: Mark)
    | SuccessSaved(batch: Id, exec: Handle)

  datatype World = World(domain: Domain, tickets: map<Handle, Ticket>, execs: map<Handle, Exec>, minted: set<Handle>,
                         pids: set<nat>, log: seq<Entry>)

  // A commit is delivered; or durable while its caller fails; or fails before it is durable.
  datatype Delivery = Delivered | Lost | Unwritten

  datatype Event =
    | Accepting(expected: nat, accepted: Batch, managers: map<Id, string>, matches: bool)
    | Releasing(run: Id)
    | Stepping(id: Id, s: Step, held: bool)
    | Reviewing(review: Handle, batch: Batch, generation: nat, setup: Digest, approved: bool)
    | Dispatching(review: Handle, permit: Handle, id: Id, expected: nat, dispatchId: Id, setup: Digest, held: bool,
                  delivery: Delivery)
    | Executing(exec: Handle, permit: Handle, batch: Batch, setup: Digest)
    | Checking(exec: Handle, mark: Mark, held: bool)
    | Syncing(exec: Handle, target: Digest, held: bool, delivery: Delivery)
    | Applying(exec: Handle, held: bool)
    | Ending(exec: Handle, outcome: Outcome, delivery: Delivery)
    | Forking(parent: nat, child: nat)
    | Crashing(pid: nat)

  predicate IsVolatileStep(s: Step) {
    s.RecordDispatch? || s.BeginSync? || s.Finish?
  }

  predicate Takes(t: Ticket, caller: nat, issued: bool, b: Batch, generation: nat, setup: Digest) {
    t.issued == issued && !t.used && t.pid == caller && t.seen == b && t.generation == generation && t.setup == setup &&
    IsReviewable(b, setup, issued)
  }

  // require_execution: only the process that made it, while execute_setup runs.
  predicate Acts(w: World, h: Handle) {
    h in w.execs && w.execs[h].active && w.execs[h].pid == h.holder
  }

  // The execution still sees exactly the batch it holds.
  predicate Sees(d: Domain, e: Exec) {
    IsLoadable(d, e.seen.id) && IsOpen(d.intents[e.seen.id]) && d.intents[e.seen.id].generation == e.generation &&
      d.intents[e.seen.id].batch == e.seen
  }

  function Log(w: World, entry: Entry): World {
    w.(log := w.log + [entry])
  }

  function At(w: World, h: Handle, stage: Stage): World
    requires h in w.execs
  {
    w.(execs := w.execs[h := w.execs[h].(stage := stage)])
  }

  function Pass(w: World, h: Handle, stage: Stage, mark: Mark): World
    requires h in w.execs
  {
    Log(At(w, h, stage), Marked(h, mark))
  }

  function Use(w: World, t: Handle, batch: Id): World
    requires t in w.tickets
  {
    Log(w.(tickets := w.tickets[t := w.tickets[t].(used := true)]),
      TicketUsed(t, w.tickets[t].issued, batch, w.tickets[t].setup))
  }

  function Mint(w: World, h: Handle, t: Ticket): World {
    w.(tickets := w.tickets[h := t], minted := w.minted + {h})
  }

  function DispatchSetup(w: World, e: Event): World
    requires e.Dispatching?
  {
    var s := RecordDispatch(e.expected, e.dispatchId, e.setup);
    if !(IsLoadable(w.domain, e.id) && Admits(w.domain, e.id, s, e.held)) then w
    else
      var i := w.domain.intents[e.id];
      if !(e.review in w.tickets && Takes(w.tickets[e.review], e.review.holder, false, i.batch, i.generation,
        e.setup)) then w
      else
        var used := Use(w, e.review, e.id);
        var committed := Attempt(w.domain, e.id, s, e.held);
        if e.delivery.Unwritten? || committed.Conflict? then used
        else
          var saved := Log(used.(domain := committed.value), DispatchSaved(e.id, e.dispatchId, e.setup));
          if e.delivery.Lost? || e.permit in w.minted || e.permit.holder != e.review.holder then saved
          else Mint(saved, e.permit, Ticket(e.permit.holder, true, committed.value.intents[e.id].batch, i.generation,
            e.setup, false))
  }

  function Sync(w: World, e: Event): World
    requires e.Syncing?
  {
    if !(Acts(w, e.exec) && w.execs[e.exec].stage.Prepared?) then w
    else
      var x := w.execs[e.exec];
      var id := x.seen.id;
      var entering := At(w, e.exec, SyncEntering);
      var s := BeginSync(x.seen, x.generation, x.setup, e.target);
      if !(IsLoadable(w.domain, id) && Admits(w.domain, id, s, e.held)) then entering
      else if !(x.permit in w.tickets && Takes(w.tickets[x.permit], e.exec.holder, true, x.seen, x.generation,
        x.setup)) then entering
      else
        var used := Use(entering, x.permit, id);
        var committed := Attempt(w.domain, id, s, e.held);
        if e.delivery.Unwritten? || committed.Conflict? then used
        else
          var saved := Log(used.(domain := committed.value), SyncSaved(id, e.target));
          if e.delivery.Lost? then saved
          else
            Pass(saved.(execs := saved.execs[e.exec := x.(seen := committed.value.intents[id].batch, started := true)]),
              e.exec, SyncRunning, SyncStart)
  }

  // approve, the three scope checks, finish_sync, and the end of apply_guard.
  function Check(w: World, e: Event): World
    requires e.Checking?
  {
    if !Acts(w, e.exec) then w
    else
      var x := w.execs[e.exec];
      match e.mark
      case Approval => if x.stage.New? && e.held && Sees(w.domain, x) then Pass(w, e.exec, Approved, e.mark) else w
      case PreflightCheck => if x.stage.Approved? && e.held && Sees(w.domain, x) then Pass(w, e.exec, Preflight, e.mark)
        else w
      case PrepareCheck => if x.stage.Preflight? && e.held && Sees(w.domain, x) then Pass(w, e.exec, Prepared, e.mark)
        else w
      case SyncEnd => if x.stage.SyncRunning? then Pass(w, e.exec, SyncDone, e.mark) else w
      case ApplyCheck => if x.stage.SyncDone? && e.held && Sees(w.domain, x) then Pass(w, e.exec, ApplyReady, e.mark)
        else w
      case ApplyEnd(deployed) =>
        if x.stage.ApplyRunning? && Sees(w.domain, x) && IsHeld(w.domain, x.seen.id, e.held) &&
          x.seen.dispatch.targetDigest == Some(deployed)
        then Pass(w, e.exec, ApplyDone, e.mark) else w
      case _ => w
  }

  function Apply(w: World, e: Event): World
    requires e.Applying?
  {
    if !(Acts(w, e.exec) && w.execs[e.exec].stage.ApplyReady?) then w
    else if Sees(w.domain, w.execs[e.exec]) && IsHeld(w.domain, w.execs[e.exec].seen.id, e.held) then
      Pass(w, e.exec, ApplyRunning, ApplyStart)
    else At(w, e.exec, ApplyEntering)
  }

  // The operation returned or raised: one result is recorded if it had started, and no more comes after.
  function End(w: World, e: Event): World
    requires e.Ending?
  {
    if !Acts(w, e.exec) then w
    else
      var x := w.execs[e.exec];
      var id := x.seen.id;
      var over := w.(execs := w.execs[e.exec := x.(active := false)]);
      var s := Finish(x.seen, x.generation, e.outcome);
      if !x.started || (e.outcome.Returned? && e.outcome.code == 0 && !x.stage.ApplyDone?) ||
        e.delivery.Unwritten? then over
      else if !(IsLoadable(w.domain, id) && Admits(w.domain, id, s, true)) ||
        Attempt(w.domain, id, s, true).Conflict? then over
      else
        var saved := over.(domain := Attempt(w.domain, id, s, true).value);
        if e.outcome.Returned? && e.outcome.code == 0 then Log(saved, SuccessSaved(id, e.exec)) else saved
  }

  function ChildOf(h: Handle, child: nat): Handle {
    Handle(child, h.serial)
  }

  function Fork(w: World, parent: nat, child: nat): World {
    if parent !in w.pids || child in w.pids then w
    else
      var tickets := map h | h in w.tickets.Keys && h.holder == parent :: ChildOf(h, child) := w.tickets[h];
      var execs := map h | h in w.execs.Keys && h.holder == parent :: ChildOf(h, child) := w.execs[h];
      w.(tickets := w.tickets + tickets, execs := w.execs + execs, minted := w.minted + tickets.Keys + execs.Keys,
        pids := w.pids + {child})
  }

  function Crash(w: World, pid: nat): World {
    w.(tickets := map h | h in w.tickets.Keys && h.holder != pid :: w.tickets[h],
       execs := map h | h in w.execs.Keys && h.holder != pid :: w.execs[h])
  }

  function Next(w: World, e: Event): World {
    match e
    case Accepting(expected, accepted, managers, matches) =>
      var accepting := Accept(w.domain, expected, accepted, managers, matches);
      if accepting.Ok? then w.(domain := accepting.value) else w
    case Releasing(run) => w.(domain := Release(w.domain, run))
    case Stepping(id, s, held) =>
      if !IsVolatileStep(s) && Attempt(w.domain, id, s, held).Ok? then
        w.(domain := Attempt(w.domain, id, s, held).value) else w
    case Reviewing(review, batch, generation, setup, approved) =>
      if approved && ValidBatch(batch) && IsReviewable(batch, setup, false) && review !in w.minted &&
        review.holder in w.pids
      then Mint(w, review, Ticket(review.holder, false, batch, generation, setup, false)) else w
    case Dispatching(_, _, _, _, _, _, _, _) => DispatchSetup(w, e)
    case Executing(exec, permit, batch, setup) =>
      if exec in w.minted || exec.holder !in w.pids || permit.holder != exec.holder || permit !in w.tickets ||
        !w.tickets[permit].issued ||
         !ValidBatch(batch) || !IsReviewable(batch, setup, true) then w
      else w.(execs := w.execs[exec := Exec(exec.holder, permit, batch, w.tickets[permit].generation, setup, true,
        false, New)], minted := w.minted + {exec})
    case Checking(_, _, _) => Check(w, e)
    case Syncing(_, _, _, _) => Sync(w, e)
    case Applying(_, _) => Apply(w, e)
    case Ending(_, _, _) => End(w, e)
    case Forking(parent, child) => Fork(w, parent, child)
    case Crashing(pid) => Crash(w, pid)
  }

  function Reached(w: World, es: seq<Event>): World {
    if es == [] then w else Next(Reached(w, es[..|es| - 1]), es[|es| - 1])
  }

  // No batch, no object, nothing logged; any set of processes.
  function Start(pids: set<nat>): World {
    World(Domain(0, map[], {}), map[], map[], {}, pids, [])
  }
}
