/** Safety of the maintenance protocol over whole runs: at most one dispatch and one sync per batch,
    each backed by its own single-use review and permit, and only earned successes are recorded. */
module MaintenanceSafety {
  import opened Wrappers
  import opened MaintenanceBatch
  import opened MaintenanceDomain
  import opened MaintenanceSteps
  import opened MaintenanceRun

  // ---- Invariants ----

  // Handles are never reused, and a logged use leaves the original ticket used for good.
  ghost predicate TicketsGood(w: World) {
    && w.tickets.Keys + w.execs.Keys <= w.minted
    && (forall h | h in w.minted :: h.holder in w.pids)
    && (forall h | h in w.execs.Keys :: w.execs[h].pid in w.pids)
    && (forall n | 0 <= n < |w.log| && w.log[n].TicketUsed? ::
          w.log[n].ticket in w.minted && (w.log[n].ticket in w.tickets ==> w.tickets[w.log[n].ticket].used))
    && (forall n, m | 0 <= n < m < |w.log| && w.log[n].TicketUsed? &&
      w.log[m].TicketUsed? :: w.log[n].ticket != w.log[m].ticket)
  }

  ghost predicate UsedBefore(log: seq<Entry>, n: nat, issued: bool, batch: Id, setup: Digest) {
    exists m :: 0 <= m < n && m < |log| && log[m].TicketUsed? && log[m].issued == issued && log[m].batch == batch &&
      log[m].setup == setup
  }

  ghost predicate SavedBefore(log: seq<Entry>, n: nat, batch: Id, setup: Digest) {
    exists m :: 0 <= m < n && m < |log| && log[m].DispatchSaved? && log[m].batch == batch && log[m].setup == setup
  }

  // One logged save against what the domain holds and what came before it.
  ghost predicate SaveGood(d: Domain, log: seq<Entry>, n: nat)
    requires n < |log|
  {
    match log[n]
    case DispatchSaved(batch, dispatchId, setup) =>
      batch in d.intents && !d.intents[batch].batch.dispatch.state.NotDispatched? &&
      d.intents[batch].batch.dispatch.id == Some(dispatchId) &&
        d.intents[batch].batch.dispatch.setupDigest == Some(setup) &&
      UsedBefore(log, n, false, batch, setup)
    case SyncSaved(batch, target) =>
      batch in d.intents && !d.intents[batch].batch.dispatch.state.NotDispatched? &&
        !d.intents[batch].batch.dispatch.state.Intended? &&
      d.intents[batch].batch.dispatch.targetDigest == Some(target) &&
        d.intents[batch].batch.dispatch.setupDigest.Some? &&
      UsedBefore(log, n, true, batch, d.intents[batch].batch.dispatch.setupDigest.value) &&
      SavedBefore(log, n, batch, d.intents[batch].batch.dispatch.setupDigest.value)
    case _ => true
  }

  ghost predicate DispatchLogged(log: seq<Entry>, b: Batch) {
    exists n :: 0 <= n < |log| && log[n].DispatchSaved? && log[n].batch == b.id &&
      b.dispatch.setupDigest == Some(log[n].setup)
  }

  ghost predicate SavesGood(w: World) {
    && (forall n | 0 <= n < |w.log| :: SaveGood(w.domain, w.log, n))
    && (forall n, m | 0 <= n < m < |w.log| && w.log[n].DispatchSaved? &&
      w.log[m].DispatchSaved? :: w.log[n].batch != w.log[m].batch)
    && (forall n, m | 0 <= n < m < |w.log| && w.log[n].SyncSaved? &&
      w.log[m].SyncSaved? :: w.log[n].batch != w.log[m].batch)
    && (forall id | id in w.domain.intents.Keys && !w.domain.intents[id].batch.dispatch.state.NotDispatched? ::
          DispatchLogged(w.log, w.domain.intents[id].batch))
  }

  // The marks of one execution, oldest first.
  function Marks(log: seq<Entry>, h: Handle): seq<Mark> {
    if log == [] then []
    else
      var front := Marks(log[..|log| - 1], h);
      var last := log[|log| - 1];
      if last.Marked? && last.exec == h then front + [last.mark] else front
  }

  function Through(stage: Stage, target: Option<Digest>): seq<Mark> {
    match stage
    case New => []
    case Approved => [Approval]
    case Preflight => [Approval, PreflightCheck]
    case Prepared => [Approval, PreflightCheck, PrepareCheck]
    case SyncEntering => [Approval, PreflightCheck, PrepareCheck]
    case SyncRunning => [Approval, PreflightCheck, PrepareCheck, SyncStart]
    case SyncDone => [Approval, PreflightCheck, PrepareCheck, SyncStart, SyncEnd]
    case ApplyReady => [Approval, PreflightCheck, PrepareCheck, SyncStart, SyncEnd, ApplyCheck]
    case ApplyEntering => [Approval, PreflightCheck, PrepareCheck, SyncStart, SyncEnd, ApplyCheck]
    case ApplyRunning => [Approval, PreflightCheck, PrepareCheck, SyncStart, SyncEnd, ApplyCheck, ApplyStart]
    case _ =>
      [Approval, PreflightCheck, PrepareCheck, SyncStart, SyncEnd, ApplyCheck, ApplyStart] +
      if target.Some? then [ApplyEnd(target.value)] else []
  }

  predicate IsPastSync(stage: Stage) {
    stage.SyncRunning? || stage.SyncDone? || stage.ApplyReady? || stage.ApplyEntering? || stage.ApplyRunning? ||
      stage.ApplyDone?
  }

  // An execution that may still act has left exactly the marks of its stage, and a started one holds
  // the running batch it began.
  ghost predicate ExecGood(log: seq<Entry>, h: Handle, x: Exec) {
    x.active && x.pid == h.holder ==>
      Marks(log, h) == Through(x.stage, x.seen.dispatch.targetDigest) && !x.stage.Ended? &&
      (x.stage.ApplyDone? ==> x.seen.dispatch.targetDigest.Some?) && (IsPastSync(x.stage) ==> x.started) &&
        (x.started ==> x.seen.phase.Running?)
  }

  ghost predicate EarnedBy(log: seq<Entry>, b: Batch, h: Handle) {
    b.dispatch.targetDigest.Some? && Marks(log, h) == Through(ApplyDone, b.dispatch.targetDigest)
  }

  ghost predicate SuccessLogged(log: seq<Entry>, id: Id) {
    exists n :: 0 <= n < |log| && log[n].SuccessSaved? && log[n].batch == id
  }

  predicate HasSuccess(b: Batch) {
    b.result.Some? && b.result.value.status.Success?
  }

  ghost predicate MarksGood(w: World) {
    && (forall n | 0 <= n < |w.log| && w.log[n].Marked? :: w.log[n].exec in w.minted)
    && (forall h | h in w.execs.Keys :: ExecGood(w.log, h, w.execs[h]))
    && (forall n | 0 <= n < |w.log| && w.log[n].SuccessSaved? ::
          w.log[n].batch in w.domain.intents && HasSuccess(w.domain.intents[w.log[n].batch].batch) &&
            w.log[n].exec in w.minted &&
          EarnedBy(w.log, w.domain.intents[w.log[n].batch].batch, w.log[n].exec) && !Acts(w, w.log[n].exec))
    && (forall id | id in w.domain.intents.Keys && HasSuccess(w.domain.intents[id].batch) :: SuccessLogged(w.log, id))
  }

  ghost predicate Good(w: World) {
    Sound(w.domain) && TicketsGood(w) && SavesGood(w) && MarksGood(w)
  }

  // ---- How the log and the domain may move ----

  lemma MarksOfAppend(log: seq<Entry>, entry: Entry, h: Handle)
    ensures Marks(log + [entry], h) == Marks(log, h) + if entry.Marked? && entry.exec == h then [entry.mark] else []
  {
    assert (log + [entry])[..|log|] == log;
  }

  lemma {:induction false} UnmintedHasNoMarks(log: seq<Entry>, h: Handle)
    requires forall n | 0 <= n < |log| && log[n].Marked? :: log[n].exec != h
    ensures Marks(log, h) == []
    decreases |log|
  {
    if log != [] {
      UnmintedHasNoMarks(log[..|log| - 1], h);
    }
  }

  // Every old intent has grown, and nothing new is dispatched or successful.
  ghost predicate Quietly(d: Domain, next: Domain) {
    && d.intents.Keys <= next.intents.Keys
    && (forall id | id in d.intents.Keys :: Grows(d.intents[id], next.intents[id]))
    && (forall id | id in next.intents.Keys && !next.intents[id].batch.dispatch.state.NotDispatched? ::
          id in d.intents && !d.intents[id].batch.dispatch.state.NotDispatched?)
    && (forall id | id in next.intents.Keys && HasSuccess(next.intents[id].batch) ::
      id in d.intents && HasSuccess(d.intents[id].batch))
  }

  lemma SoundNames(d: Domain)
    requires Sound(d)
    ensures forall id | id in d.intents.Keys ::
      IsFrozen(d.intents[id]) && d.intents[id].batch.id == id && d.intents[id].accepted.id == id
  {
    hide Follows, ValidAcceptance;
    forall id | id in d.intents.Keys
      ensures IsFrozen(d.intents[id]) && d.intents[id].batch.id == id && d.intents[id].accepted.id == id
    {
      assert Tracked(d, id);
    }
  }

  lemma QuietKeepsTickets(w: World, next: Domain)
    requires TicketsGood(w)
    ensures TicketsGood(w.(domain := next))
  {
  }

  lemma QuietKeepsSave(d: Domain, next: Domain, log: seq<Entry>, n: nat)
    requires n < |log| && SaveGood(d, log, n) && Quietly(d, next)
    ensures SaveGood(next, log, n)
  {
    hide Sound, UsedBefore, SavedBefore, HasSuccess;
  }

  lemma QuietKeepsLogged(log: seq<Entry>, d: Domain, next: Domain, id: Id)
    requires id in d.intents && id in next.intents && Grows(d.intents[id], next.intents[id])
    requires d.intents[id].batch.id == next.intents[id].batch.id && !d.intents[id].batch.dispatch.state.NotDispatched?
    requires DispatchLogged(log, d.intents[id].batch)
    ensures DispatchLogged(log, next.intents[id].batch)
  {
  }

  lemma QuietKeepsSaves(w: World, next: Domain)
    requires Sound(w.domain) && Sound(next) && SavesGood(w) && Quietly(w.domain, next)
    ensures SavesGood(w.(domain := next))
  {
    hide Sound, SaveGood, Grows, DispatchLogged, HasSuccess;
    var v := w.(domain := next);
    NamesStay(w.domain);
    NamesStay(next);
    forall n | 0 <= n < |v.log| ensures SaveGood(v.domain, v.log, n) {
      QuietKeepsSave(w.domain, next, w.log, n);
    }
    forall id | id in next.intents.Keys && !next.intents[id].batch.dispatch.state.NotDispatched?
      ensures DispatchLogged(v.log, next.intents[id].batch) {
      QuietKeepsLogged(w.log, w.domain, next, id);
    }
  }

  lemma QuietKeepsMarks(w: World, next: Domain)
    requires MarksGood(w) && Quietly(w.domain, next)
    ensures MarksGood(w.(domain := next))
  {
    hide ExecGood, Marks, Through, HasSuccess, Grows, SuccessLogged;
    var v := w.(domain := next);
    forall n | 0 <= n < |v.log| && v.log[n].SuccessSaved?
      ensures v.log[n].batch in v.domain.intents && HasSuccess(v.domain.intents[v.log[n].batch].batch) &&
              EarnedBy(v.log, v.domain.intents[v.log[n].batch].batch, v.log[n].exec)
    {
      SuccessGrows(w.domain.intents[w.log[n].batch], next.intents[w.log[n].batch]);
    }
  }

  lemma QuietKeepsGood(w: World, next: Domain)
    requires Good(w) && Sound(next) && Quietly(w.domain, next)
    ensures Good(w.(domain := next))
  {
    hide Sound, TicketsGood, SavesGood, MarksGood, Quietly;
    QuietKeepsTickets(w, next);
    QuietKeepsSaves(w, next);
    QuietKeepsMarks(w, next);
  }

  // ---- Steps of the domain ----

  lemma StandingGrows(i: Intent)
    requires IsFrozen(i)
    ensures Grows(i, i)
  {
  }

  lemma AttemptGrows(d: Domain, id: Id, s: Step, held: bool)
    requires Sound(d) && Due(d, id, s, held) && Attempt(d, id, s, held).Ok?
    ensures var next := Attempt(d, id, s, held).value;
            Sound(next) && next == Drafted(d, id, s, held) && Grows(d.intents[id], next.intents[id]) &&
            forall other | other in d.intents.Keys :: Grows(d.intents[other], next.intents[other])
  {
    hide Grows, Edited, Admits, Tracked;
    GuardsSuffice(d, id, s, held);
    StepGrows(d, id, s, held);
    SoundNames(d);
    forall other | other in d.intents.Keys ensures Grows(d.intents[other],
      Attempt(d, id, s, held).value.intents[other]) {
      if other != id {
        StandingGrows(d.intents[other]);
      }
    }
  }

  predicate IsQuiet(s: Step) {
    !s.RecordDispatch? && !(s.Finish? && s.outcome.Returned? && s.outcome.code == 0)
  }

  lemma QuietEdit(d: Domain, id: Id, s: Step, held: bool)
    requires Due(d, id, s, held) && IsQuiet(s)
    ensures var b, after := d.intents[id].batch, Edited(d, id, s, held).batch;
            (!after.dispatch.state.NotDispatched? ==> !b.dispatch.state.NotDispatched?) &&
              (HasSuccess(after) ==> HasSuccess(b))
  {
    hide ValidBatch, ValidAcceptance, IsHeld, AllSettled, InDoubt;
  }

  lemma AttemptIsQuiet(d: Domain, id: Id, s: Step, held: bool)
    requires Sound(d) && Due(d, id, s, held) && Attempt(d, id, s, held).Ok? && IsQuiet(s)
    ensures Quietly(d, Attempt(d, id, s, held).value)
  {
    hide Grows, Edited, Admits, Tracked, Sound, Attempt, HasSuccess;
    AttemptGrows(d, id, s, held);
    QuietEdit(d, id, s, held);
  }

  lemma AcceptIsQuiet(d: Domain, expected: nat, accepted: Batch, managers: map<Id, string>, matches: bool)
    requires Sound(d) && Accept(d, expected, accepted, managers, matches).Ok?
    ensures Quietly(d, Accept(d, expected, accepted, managers, matches).value)
  {
    hide ValidBatch, Grows, Sound, AllByHand, IsUnfenced;
    SoundNames(d);
    assert accepted.dispatch == NEVER && accepted.result.None?;
    forall other | other in d.intents.Keys ensures Grows(d.intents[other], d.intents[other]) {
      StandingGrows(d.intents[other]);
    }
  }

  lemma ReleaseIsQuiet(d: Domain, run: Id)
    requires Sound(d)
    ensures Quietly(d, Release(d, run))
  {
    hide Grows, Sound, HasSuccess;
    SoundNames(d);
    forall other | other in d.intents.Keys ensures Grows(d.intents[other], d.intents[other]) {
      StandingGrows(d.intents[other]);
    }
  }

  lemma StepIsDue(d: Domain, id: Id, s: Step, held: bool)
    requires Sound(d) && id in d.intents && Admits(d, id, s, held) && (s.Finish? ==> d.intents[id].batch.phase.Running?)
    ensures Due(d, id, s, held)
  {
  }

  lemma DomainEventKeepsGood(w: World, e: Event)
    requires Good(w) && (e.Accepting? || e.Releasing? || e.Stepping?)
    ensures Good(Next(w, e))
  {
    hide Good, Sound, Quietly, Attempt, Accept, Admits, Due;
    assert Sound(w.domain) by {
      GoodIsSound(w);
    }
    match e {
      case Accepting(expected, accepted, managers, matches) =>
        if Accept(w.domain, expected, accepted, managers, matches).Ok? {
          AcceptIsSound(w.domain, expected, accepted, managers, matches);
          AcceptIsQuiet(w.domain, expected, accepted, managers, matches);
          QuietKeepsGood(w, Accept(w.domain, expected, accepted, managers, matches).value);
        }
      case Releasing(run) =>
        ReleaseIsSound(w.domain, run);
        ReleaseIsQuiet(w.domain, run);
        QuietKeepsGood(w, Release(w.domain, run));
      case Stepping(id, s, held) =>
        if !IsVolatileStep(s) && Attempt(w.domain, id, s, held).Ok? {
          AttemptAdmits(w.domain, id, s, held);
          StepIsDue(w.domain, id, s, held);
          AttemptGrows(w.domain, id, s, held);
          AttemptIsQuiet(w.domain, id, s, held);
          QuietKeepsGood(w, Attempt(w.domain, id, s, held).value);
        }
    }
  }

  lemma GoodIsSound(w: World)
    ensures Good(w) ==> Sound(w.domain)
  {
  }

  lemma AttemptAdmits(d: Domain, id: Id, s: Step, held: bool)
    requires Attempt(d, id, s, held).Ok?
    ensures id in d.intents && Admits(d, id, s, held)
  {
  }

  // ---- Volatile moves ----

  lemma OldSavesStay(d: Domain, log: seq<Entry>, entry: Entry)
    requires forall n | 0 <= n < |log| :: SaveGood(d, log, n)
    ensures forall n | 0 <= n < |log| :: SaveGood(d, log + [entry], n)
  {
    forall n | 0 <= n < |log| ensures SaveGood(d, log + [entry], n) {
      assert SaveGood(d, log, n);
      assert forall m | 0 <= m < |log| :: (log + [entry])[m] == log[m];
    }
  }

  // An entry that is no save of the domain leaves the saves as they were.
  lemma LogKeepsSaves(w: World, v: World, entry: Entry)
    requires SavesGood(w) && v.domain == w.domain && v.log == w.log + [entry] && !entry.DispatchSaved? &&
      !entry.SyncSaved?
    ensures SavesGood(v)
  {
    hide SaveGood;
    OldSavesStay(w.domain, w.log, entry);
    assert SaveGood(v.domain, v.log, |w.log|) by {
      NoSaveIsGood(v.domain, v.log, |w.log|);
    }
    forall id | id in v.domain.intents.Keys && !v.domain.intents[id].batch.dispatch.state.NotDispatched?
      ensures DispatchLogged(v.log, v.domain.intents[id].batch)
    {
      LoggedStays(w.log, entry, v.domain.intents[id].batch);
    }
  }

  lemma NoSaveIsGood(d: Domain, log: seq<Entry>, n: nat)
    requires n < |log| && !log[n].DispatchSaved? && !log[n].SyncSaved?
    ensures SaveGood(d, log, n)
  {
  }

  lemma LoggedStays(log: seq<Entry>, entry: Entry, b: Batch)
    ensures DispatchLogged(log, b) ==> DispatchLogged(log + [entry], b)
    ensures SuccessLogged(log, b.id) ==> SuccessLogged(log + [entry], b.id)
  {
    assert forall n | 0 <= n < |log| :: (log + [entry])[n] == log[n];
  }

  lemma SuccessStaysLogged(log: seq<Entry>, entry: Entry, id: Id)
    ensures SuccessLogged(log, id) ==> SuccessLogged(log + [entry], id)
  {
    assert forall n | 0 <= n < |log| :: (log + [entry])[n] == log[n];
  }

  // An entry that is no mark and no success leaves the marks as they were.
  lemma LogKeepsMarks(w: World, v: World, entry: Entry)
    requires MarksGood(w) && v == w.(log := w.log + [entry], tickets := v.tickets) && !entry.Marked? &&
      !entry.SuccessSaved?
    ensures MarksGood(v)
  {
    hide Through;
    forall h ensures Marks(v.log, h) == Marks(w.log, h) {
      MarksOfAppend(w.log, entry, h);
    }
    forall id | id in v.domain.intents.Keys && HasSuccess(v.domain.intents[id].batch) ensures SuccessLogged(v.log, id) {
      SuccessStaysLogged(w.log, entry, id);
    }
  }

  lemma UseKeepsGood(w: World, t: Handle, batch: Id)
    requires Good(w) && t in w.tickets && !w.tickets[t].used
    ensures Good(Use(w, t, batch))
  {
    hide Sound, MarksGood, SavesGood;
    var v := Use(w, t, batch);
    var entry := TicketUsed(t, w.tickets[t].issued, batch, w.tickets[t].setup);
    LogKeepsSaves(w, v, entry);
    LogKeepsMarks(w, v, entry);
    assert v.tickets.Keys == w.tickets.Keys;
  }

  lemma MintKeepsGood(w: World, h: Handle, t: Ticket)
    requires Good(w) && h !in w.minted && h.holder in w.pids
    ensures Good(Mint(w, h, t))
  {
    hide Sound, ExecGood, Marks, Through;
  }

  lemma HoldKeepsGood(w: World, h: Handle, x: Exec)
    requires Good(w) && Acts(w, h) && x.pid == h.holder && ExecGood(w.log, h, x)
    ensures Good(w.(execs := w.execs[h := x]))
  {
    hide Sound, Marks, SaveGood, Through;
    var v := w.(execs := w.execs[h := x]);
    assert v.execs.Keys == w.execs.Keys;
    forall g | g in v.execs.Keys ensures ExecGood(v.log, g, v.execs[g]) {
      assert ExecGood(w.log, g, w.execs[g]);
    }
  }

  lemma AtKeepsGood(w: World, h: Handle, stage: Stage)
    requires Good(w) && Acts(w, h)
    requires var target := w.execs[h].seen.dispatch.targetDigest;
      Through(stage, target) == Through(w.execs[h].stage, target)
    requires !stage.Ended? && !stage.ApplyDone? && (IsPastSync(stage) ==> w.execs[h].started)
    ensures Good(At(w, h, stage))
  {
    hide Sound, Marks, SavesGood, Through, TicketsGood;
    assert ExecGood(w.log, h, w.execs[h]);
    HoldKeepsGood(w, h, w.execs[h].(stage := stage));
  }

  lemma PassKeepsGood(w: World, h: Handle, stage: Stage, mark: Mark)
    requires Good(w) && Acts(w, h) && !stage.Ended?
    requires var x := w.execs[h];
             Through(stage, x.seen.dispatch.targetDigest) == Through(x.stage, x.seen.dispatch.targetDigest) + [mark] &&
             (IsPastSync(stage) ==> x.started) && (stage.ApplyDone? ==> x.seen.dispatch.targetDigest.Some?)
    ensures Good(Pass(w, h, stage, mark))
  {
    hide Sound, Marks, SavesGood, Through;
    var v := Pass(w, h, stage, mark);
    LogKeepsSaves(w, v, Marked(h, mark));
    forall g ensures Marks(v.log, g) == if g == h then Marks(w.log, g) + [mark] else Marks(w.log, g) {
      MarksOfAppend(w.log, Marked(h, mark), g);
    }
    assert v.execs.Keys == w.execs.Keys;
    forall g | g in v.execs.Keys ensures ExecGood(v.log, g, v.execs[g]) {
      assert ExecGood(w.log, g, w.execs[g]);
    }
    forall id | id in v.domain.intents.Keys && HasSuccess(v.domain.intents[id].batch) ensures SuccessLogged(v.log, id) {
      SuccessStaysLogged(w.log, Marked(h, mark), id);
    }
  }

  lemma CrashKeepsGood(w: World, pid: nat)
    requires Good(w)
    ensures Good(Crash(w, pid))
  {
    hide Sound, Marks, SaveGood, Through;
    var v := Crash(w, pid);
    forall h | h in v.execs.Keys ensures ExecGood(v.log, h, v.execs[h]) {
      assert ExecGood(w.log, h, w.execs[h]);
    }
  }

  // ---- Events made of them ----

  lemma ThroughPasses(stage: Stage, target: Option<Digest>)
    ensures Through(Approved, target) == Through(New, target) + [Approval]
    ensures Through(Preflight, target) == Through(Approved, target) + [PreflightCheck]
    ensures Through(Prepared, target) == Through(Preflight, target) + [PrepareCheck]
    ensures Through(SyncEntering, target) == Through(Prepared, target)
    ensures Through(SyncRunning, target) == Through(Prepared, target) + [SyncStart]
    ensures Through(SyncDone, target) == Through(SyncRunning, target) + [SyncEnd]
    ensures Through(ApplyReady, target) == Through(SyncDone, target) + [ApplyCheck]
    ensures Through(ApplyEntering, target) == Through(ApplyReady, target)
    ensures Through(ApplyRunning, target) == Through(ApplyReady, target) + [ApplyStart]
    ensures target.Some? ==> Through(ApplyDone, target) == Through(ApplyRunning, target) + [ApplyEnd(target.value)]
    ensures stage.New? || stage.Approved? || stage.Preflight? || stage.Prepared? || stage.SyncEntering? ==>
      Through(stage, target) == Through(stage, None)
  {
  }

  lemma CheckKeepsGood(w: World, e: Event)
    requires Good(w) && e.Checking?
    ensures Good(Check(w, e))
  {
    hide Good, Sees, Pass, Through, IsHeld;
    if Acts(w, e.exec) {
      var x := w.execs[e.exec];
      assert ExecGood(w.log, e.exec, x) by {
        GoodExec(w, e.exec);
      }
      ThroughPasses(x.stage, x.seen.dispatch.targetDigest);
      match e.mark {
        case Approval => if x.stage.New? { PassKeepsGood(w, e.exec, Approved, e.mark); }
        case PreflightCheck => if x.stage.Approved? { PassKeepsGood(w, e.exec, Preflight, e.mark); }
        case PrepareCheck => if x.stage.Preflight? { PassKeepsGood(w, e.exec, Prepared, e.mark); }
        case SyncEnd => if x.stage.SyncRunning? { PassKeepsGood(w, e.exec, SyncDone, e.mark); }
        case ApplyCheck => if x.stage.SyncDone? { PassKeepsGood(w, e.exec, ApplyReady, e.mark); }
        case ApplyEnd(deployed) =>
          if x.stage.ApplyRunning? && x.seen.dispatch.targetDigest ==
            Some(deployed) { PassKeepsGood(w, e.exec, ApplyDone, e.mark); }
        case _ =>
      }
    }
  }

  lemma GoodExec(w: World, h: Handle)
    requires Good(w) && h in w.execs
    ensures ExecGood(w.log, h, w.execs[h]) && h in w.minted
  {
  }

  lemma ApplyKeepsGood(w: World, e: Event)
    requires Good(w) && e.Applying?
    ensures Good(Apply(w, e))
  {
    hide Good, Sees, Pass, At, Through, IsHeld;
    if Acts(w, e.exec) && w.execs[e.exec].stage.ApplyReady? {
      GoodExec(w, e.exec);
      ThroughPasses(ApplyReady, w.execs[e.exec].seen.dispatch.targetDigest);
      PassKeepsGood(w, e.exec, ApplyRunning, ApplyStart);
      AtKeepsGood(w, e.exec, ApplyEntering);
    }
  }

  // ---- Saves ----

  lemma OtherSavesStay(w: World, next: Domain, n: nat)
    requires SavesGood(w) && n < |w.log| && Sound(w.domain) && Sound(next)
    requires w.domain.intents.Keys <= next.intents.Keys
    requires forall id | id in w.domain.intents.Keys :: Grows(w.domain.intents[id], next.intents[id])
    ensures SaveGood(next, w.log, n)
  {
    hide Sound;
    assert SaveGood(w.domain, w.log, n);
  }

  // The domain step and its log entry together.
  ghost predicate Saves(w: World, v: World, id: Id, s: Step, held: bool, entry: Entry) {
    Due(w.domain, id, s, held) && Attempt(w.domain, id, s, held).Ok? &&
    v == w.(domain := Attempt(w.domain, id, s, held).value, log := w.log + [entry])
  }

  lemma DueAttemptGrows(d: Domain, id: Id, s: Step, held: bool, next: Domain)
    requires Sound(d) && Due(d, id, s, held) && Attempt(d, id, s, held) == Ok(next)
    ensures Sound(next) && next.intents == d.intents[id := Edited(d, id, s, held)]
    ensures forall other | other in d.intents.Keys :: Grows(d.intents[other], next.intents[other])
  {
    hide Sound, Grows, Edited, Admits, Tracked, Attempt;
    AttemptGrows(d, id, s, held);
  }

  lemma NamesStay(d: Domain)
    requires Sound(d)
    ensures forall id | id in d.intents.Keys :: d.intents[id].batch.id == id
  {
    hide IsFrozen, Sound;
    SoundNames(d);
  }

  lemma SavesKeepOld(w: World, v: World, id: Id, s: Step, held: bool, entry: Entry)
    requires Good(w) && Saves(w, v, id, s, held, entry)
    ensures forall n | 0 <= n < |w.log| :: SaveGood(v.domain, v.log, n)
    ensures forall other | other in w.domain.intents.Keys &&
      !w.domain.intents[other].batch.dispatch.state.NotDispatched? ::
              DispatchLogged(v.log, v.domain.intents[other].batch)
  {
    hide Sound, SaveGood, Tracked, Grows, Edited, Admits, DispatchLogged, Attempt;
    DueAttemptGrows(w.domain, id, s, held, v.domain);
    NamesStay(w.domain);
    NamesStay(v.domain);
    forall n | 0 <= n < |w.log| ensures SaveGood(v.domain, w.log, n) {
      OtherSavesStay(w, v.domain, n);
    }
    OldSavesStay(v.domain, w.log, entry);
    forall other | other in w.domain.intents.Keys && !w.domain.intents[other].batch.dispatch.state.NotDispatched?
      ensures DispatchLogged(v.log, v.domain.intents[other].batch)
    {
      LoggedGrows(w.log, entry, w.domain.intents[other], v.domain.intents[other]);
    }
  }

  lemma UsedStays(log: seq<Entry>, entry: Entry, issued: bool, batch: Id, setup: Digest)
    requires UsedBefore(log, |log|, issued, batch, setup)
    ensures UsedBefore(log + [entry], |log|, issued, batch, setup)
  {
    assert forall n | 0 <= n < |log| :: (log + [entry])[n] == log[n];
  }

  lemma LoggedGrows(log: seq<Entry>, entry: Entry, i: Intent, after: Intent)
    requires DispatchLogged(log, i.batch) && !i.batch.dispatch.state.NotDispatched? && Grows(i, after) &&
      after.batch.id == i.batch.id
    ensures DispatchLogged(log + [entry], after.batch)
  {
    LoggedStays(log, entry, i.batch);
  }

  lemma DispatchEdit(d: Domain, id: Id, s: Step, held: bool)
    requires Due(d, id, s, held) && s.RecordDispatch?
    ensures d.intents[id].batch.dispatch.state.NotDispatched?
    ensures Edited(d, id, s, held).batch.dispatch == Dispatch(Intended, Some(s.dispatchId), Some(s.setup), None)
    ensures Edited(d, id, s, held).batch.result.None?
  {
    hide ValidAcceptance, Shaped;
  }

  lemma DispatchSaveKeepsSaves(w: World, v: World, id: Id, s: Step, held: bool)
    requires Good(w) && s.RecordDispatch? && Saves(w, v, id, s, held, DispatchSaved(id, s.dispatchId, s.setup))
    requires UsedBefore(w.log, |w.log|, false, id, s.setup)
    ensures SavesGood(v)
  {
    hide Sound, Attempt, Tracked, Edited, Admits, Grows, TicketsGood, MarksGood, UsedBefore, SavedBefore;
    var entry := DispatchSaved(id, s.dispatchId, s.setup);
    DueAttemptGrows(w.domain, id, s, held, v.domain);
    DispatchEdit(w.domain, id, s, held);
    NamesStay(v.domain);
    SavesKeepOld(w, v, id, s, held, entry);
    UsedStays(w.log, entry, false, id, s.setup);
    assert SaveGood(v.domain, v.log, |w.log|);
    assert v.log[|w.log|].DispatchSaved?;
    forall n | 0 <= n < |w.log| && v.log[n].DispatchSaved? ensures v.log[n].batch != id {
      assert SaveGood(w.domain, w.log, n);
    }
    assert DispatchLogged(v.log, v.domain.intents[id].batch);
  }

  lemma SuccessGrows(i: Intent, after: Intent)
    requires Grows(i, after) && HasSuccess(i.batch)
    ensures HasSuccess(after.batch) && (i.batch.dispatch.targetDigest.Some? ==>
      after.batch.dispatch.targetDigest == i.batch.dispatch.targetDigest)
  {
  }

  // A save of a dispatch or a sync moves no mark and makes no success.
  lemma SaveKeepsMarks(w: World, v: World, id: Id, s: Step, held: bool, entry: Entry)
    requires Good(w) && Saves(w, v, id, s, held, entry) && (entry.DispatchSaved? || entry.SyncSaved?)
    requires HasSuccess(Edited(w.domain, id, s, held).batch) ==> HasSuccess(w.domain.intents[id].batch)
    ensures MarksGood(v)
  {
    hide Sound, Attempt, Tracked, Edited, Admits, Grows, TicketsGood, SavesGood, Through, HasSuccess;
    DueAttemptGrows(w.domain, id, s, held, v.domain);
    forall h ensures Marks(v.log, h) == Marks(w.log, h) {
      MarksOfAppend(w.log, entry, h);
    }
    forall n | 0 <= n < |v.log| && v.log[n].SuccessSaved?
      ensures v.log[n].batch in v.domain.intents && HasSuccess(v.domain.intents[v.log[n].batch].batch) &&
        v.log[n].exec in v.minted &&
              EarnedBy(v.log, v.domain.intents[v.log[n].batch].batch, v.log[n].exec) && !Acts(v, v.log[n].exec)
    {
      assert v.log[n] == w.log[n];
      SuccessGrows(w.domain.intents[w.log[n].batch], v.domain.intents[w.log[n].batch]);
    }
    forall other | other in v.domain.intents.Keys && HasSuccess(v.domain.intents[other].batch)
      ensures SuccessLogged(v.log, other) {
      SuccessStaysLogged(w.log, entry, other);
    }
  }

  lemma DispatchSaveKeepsGood(w: World, v: World, id: Id, s: Step, held: bool)
    requires Good(w) && s.RecordDispatch? && Saves(w, v, id, s, held, DispatchSaved(id, s.dispatchId, s.setup))
    requires UsedBefore(w.log, |w.log|, false, id, s.setup)
    ensures Good(v)
  {
    hide Sound, Attempt, Tracked, Edited, Admits, SavesGood, MarksGood;
    DispatchSaveKeepsSaves(w, v, id, s, held);
    DispatchEdit(w.domain, id, s, held);
    SaveKeepsMarks(w, v, id, s, held, DispatchSaved(id, s.dispatchId, s.setup));
    DueAttemptGrows(w.domain, id, s, held, v.domain);
  }

  lemma SyncEdit(d: Domain, id: Id, s: Step, held: bool)
    requires Due(d, id, s, held) && s.BeginSync?
    ensures var b, after := d.intents[id].batch, Edited(d, id, s, held).batch;
            b.dispatch.state.Intended? && b.dispatch.setupDigest == Some(s.setup) && after.phase.Running? &&
              after.result.None? &&
            after.dispatch == b.dispatch.(state := Dispatched, targetDigest := Some(s.target))
  {
    hide ValidAcceptance, Shaped;
  }

  lemma SyncSaveKeepsSaves(w: World, v: World, id: Id, s: Step, held: bool)
    requires Good(w) && s.BeginSync? && Saves(w, v, id, s, held, SyncSaved(id, s.target))
    requires UsedBefore(w.log, |w.log|, true, id, s.setup)
    ensures SavesGood(v)
  {
    hide Sound, Attempt, Tracked, Edited, Admits, Grows, TicketsGood, MarksGood, UsedBefore, SavedBefore;
    var entry := SyncSaved(id, s.target);
    DueAttemptGrows(w.domain, id, s, held, v.domain);
    SyncEdit(w.domain, id, s, held);
    NamesStay(w.domain);
    NamesStay(v.domain);
    SavesKeepOld(w, v, id, s, held, entry);
    UsedStays(w.log, entry, true, id, s.setup);
    LoggedIsSavedBefore(w.log, entry, w.domain.intents[id].batch, s.setup);
    assert SaveGood(v.domain, v.log, |w.log|);
    forall n | 0 <= n < |w.log| && v.log[n].SyncSaved? ensures v.log[n].batch != id {
      assert SaveGood(w.domain, w.log, n);
    }
    forall other | other in v.domain.intents.Keys && !v.domain.intents[other].batch.dispatch.state.NotDispatched?
      ensures DispatchLogged(v.log, v.domain.intents[other].batch)
    {
      assert !w.domain.intents[other].batch.dispatch.state.NotDispatched?;
    }
  }

  lemma LoggedIsSavedBefore(log: seq<Entry>, entry: Entry, b: Batch, setup: Digest)
    requires DispatchLogged(log, b) && b.dispatch.setupDigest == Some(setup)
    ensures SavedBefore(log + [entry], |log|, b.id, setup)
  {
    assert forall n | 0 <= n < |log| :: (log + [entry])[n] == log[n];
  }

  lemma SyncSaveKeepsGood(w: World, v: World, id: Id, s: Step, held: bool)
    requires Good(w) && s.BeginSync? && Saves(w, v, id, s, held, SyncSaved(id, s.target))
    requires UsedBefore(w.log, |w.log|, true, id, s.setup)
    ensures Good(v)
  {
    hide Sound, Attempt, Tracked, Edited, Admits, SavesGood, MarksGood;
    SyncSaveKeepsSaves(w, v, id, s, held);
    SyncEdit(w.domain, id, s, held);
    SaveKeepsMarks(w, v, id, s, held, SyncSaved(id, s.target));
    DueAttemptGrows(w.domain, id, s, held, v.domain);
  }

  lemma SuccessEdit(d: Domain, id: Id, s: Step, held: bool)
    requires Due(d, id, s, held) && s.Finish? && s.outcome.Returned? && s.outcome.code == 0
    ensures var b, after := d.intents[id].batch, Edited(d, id, s, held).batch;
            b == s.seen && HasSuccess(after) && after.dispatch == b.dispatch.(state := Confirmed) &&
              !b.dispatch.state.NotDispatched?
  {
    hide ValidAcceptance;
  }

  lemma SuccessSaveKeepsGood(w: World, v: World, id: Id, s: Step, held: bool, h: Handle)
    requires Good(w) && s.Finish? && s.outcome.Returned? && s.outcome.code == 0
    requires Saves(w, v, id, s, held, SuccessSaved(id, h))
    requires h in w.minted && !Acts(w, h) && EarnedBy(w.log, s.seen, h)
    ensures Good(v)
  {
    hide Sound, Attempt, Tracked, Edited, Admits, Grows, TicketsGood, SavesGood, MarksGood;
    var entry := SuccessSaved(id, h);
    DueAttemptGrows(w.domain, id, s, held, v.domain);
    SuccessKeepsSaves(w, v, id, s, held, h);
    SuccessKeepsMarks(w, v, id, s, held, h);
    TicketsIgnoreSuccess(w, v, entry);
  }

  lemma SuccessKeepsSaves(w: World, v: World, id: Id, s: Step, held: bool, h: Handle)
    requires Good(w) && s.Finish? && s.outcome.Returned? && s.outcome.code == 0
    requires Saves(w, v, id, s, held, SuccessSaved(id, h))
    ensures SavesGood(v)
  {
    hide Sound, Attempt, Tracked, Edited, Admits, Grows, TicketsGood, MarksGood, SaveGood, DispatchLogged;
    DueAttemptGrows(w.domain, id, s, held, v.domain);
    SuccessEdit(w.domain, id, s, held);
    SavesKeepOld(w, v, id, s, held, SuccessSaved(id, h));
    NoSaveIsGood(v.domain, v.log, |w.log|);
  }

  lemma SuccessKeepsMarks(w: World, v: World, id: Id, s: Step, held: bool, h: Handle)
    requires Good(w) && s.Finish? && s.outcome.Returned? && s.outcome.code == 0
    requires Saves(w, v, id, s, held, SuccessSaved(id, h))
    requires h in w.minted && !Acts(w, h) && EarnedBy(w.log, s.seen, h)
    ensures MarksGood(v)
  {
    hide Sound, Attempt, Tracked, Edited, Admits, Grows, TicketsGood, SavesGood, Through, HasSuccess, Marks,
      SuccessLogged;
    var entry := SuccessSaved(id, h);
    DueAttemptGrows(w.domain, id, s, held, v.domain);
    SuccessEdit(w.domain, id, s, held);
    forall g ensures Marks(v.log, g) == Marks(w.log, g) {
      MarksOfAppend(w.log, entry, g);
    }
    LastSuccessLogged(w.log, id, h);
    forall n | 0 <= n < |v.log| && v.log[n].SuccessSaved?
      ensures v.log[n].batch in v.domain.intents && HasSuccess(v.domain.intents[v.log[n].batch].batch) &&
        v.log[n].exec in v.minted &&
              EarnedBy(v.log, v.domain.intents[v.log[n].batch].batch, v.log[n].exec) && !Acts(v, v.log[n].exec)
    {
      if n < |w.log| {
        assert v.log[n] == w.log[n];
        SuccessGrows(w.domain.intents[w.log[n].batch], v.domain.intents[w.log[n].batch]);
      }
    }
    forall other | other in v.domain.intents.Keys && HasSuccess(v.domain.intents[other].batch)
      ensures SuccessLogged(v.log, other) {
      if other != id {
        SuccessStaysLogged(w.log, entry, other);
      }
    }
  }

  lemma LastSuccessLogged(log: seq<Entry>, id: Id, h: Handle)
    ensures SuccessLogged(log + [SuccessSaved(id, h)], id)
  {
    assert (log + [SuccessSaved(id, h)])[|log|].SuccessSaved?;
  }

  lemma TicketsIgnoreSuccess(w: World, v: World, entry: Entry)
    requires TicketsGood(w) && !entry.TicketUsed? && v == w.(log := w.log + [entry], domain := v.domain)
    ensures TicketsGood(v)
  {
  }

  // ---- Every event ----

  lemma DispatchEventKeepsGood(w: World, e: Event)
    requires Good(w) && e.Dispatching?
    ensures Good(DispatchSetup(w, e))
  {
    hide Good, Attempt, Admits, Due, Use, Mint, IsReviewable, ValidAcceptance;
    var s := RecordDispatch(e.expected, e.dispatchId, e.setup);
    if e.id in w.domain.intents && IsLoadable(w.domain, e.id) && Admits(w.domain, e.id, s, e.held) {
      var i := w.domain.intents[e.id];
      if e.review in w.tickets && Takes(w.tickets[e.review], e.review.holder, false, i.batch, i.generation, e.setup) {
        UseKeepsGood(w, e.review, e.id);
        var used := Use(w, e.review, e.id);
        UseEffect(w, e.review, e.id);
        if Attempt(w.domain, e.id, s, e.held).Ok? {
          GoodIsSound(w);
          StepIsDue(w.domain, e.id, s, e.held);
          var saved := Log(used.(domain := Attempt(w.domain, e.id, s, e.held).value),
            DispatchSaved(e.id, e.dispatchId, e.setup));
          DispatchSaveKeepsGood(used, saved, e.id, s, e.held);
          if e.permit !in w.minted && e.permit.holder == e.review.holder {
            HolderLives(w, e.review);
            AttemptHas(w.domain, e.id, s, e.held);
            MintKeepsGood(saved, e.permit,
              Ticket(e.permit.holder, true, Attempt(w.domain, e.id, s, e.held).value.intents[e.id].batch, i.generation,
                e.setup, false));
          }
        }
      }
    }
  }

  lemma HolderLives(w: World, h: Handle)
    requires Good(w) && (h in w.tickets || h in w.execs)
    ensures h.holder in w.pids
  {
  }

  lemma UseEffect(w: World, t: Handle, batch: Id)
    requires t in w.tickets
    ensures var v := Use(w, t, batch);
            v.domain == w.domain && v.execs == w.execs && v.minted == w.minted && v.pids == w.pids &&
            UsedBefore(v.log, |v.log|, w.tickets[t].issued, batch, w.tickets[t].setup)
  {
    var v := Use(w, t, batch);
    assert v.log[|w.log|].TicketUsed?;
  }

  lemma ExecutingKeepsGood(w: World, exec: Handle, x: Exec)
    requires Good(w) && exec !in w.minted && exec.holder in w.pids && x.pid == exec.holder && x.stage.New? && !x.started
    ensures Good(w.(execs := w.execs[exec := x], minted := w.minted + {exec}))
  {
    hide Sound, SaveGood;
    var v := w.(execs := w.execs[exec := x], minted := w.minted + {exec});
    UnmintedHasNoMarks(w.log, exec);
    forall g | g in v.execs.Keys ensures ExecGood(v.log, g, v.execs[g]) {
      if g != exec {
        assert ExecGood(w.log, g, w.execs[g]);
      }
    }
  }

  lemma AttemptHas(d: Domain, id: Id, s: Step, held: bool)
    requires Attempt(d, id, s, held).Ok?
    ensures id in Attempt(d, id, s, held).value.intents
  {
  }

  lemma SyncCommits(d: Domain, id: Id, s: Step, held: bool)
    requires Due(d, id, s, held) && s.BeginSync? && Attempt(d, id, s, held).Ok?
    ensures id in Attempt(d, id, s, held).value.intents &&
      Attempt(d, id, s, held).value.intents[id].batch.phase.Running?
  {
    hide Admits, Tracked, Edited, ValidDomain, IsLoadable;
    SyncEdit(d, id, s, held);
  }

  lemma SyncEventKeepsGood(w: World, e: Event)
    requires Good(w) && e.Syncing?
    ensures Good(Sync(w, e))
  {
    hide Good, Attempt, Admits, Due, Use, ValidAcceptance, Takes, Through, At, Pass, ExecGood, Log;
    if Acts(w, e.exec) && w.execs[e.exec].stage.Prepared? {
      var x := w.execs[e.exec];
      ThroughPasses(Prepared, x.seen.dispatch.targetDigest);
      AtKeepsGood(w, e.exec, SyncEntering);
      var s := BeginSync(x.seen, x.generation, x.setup, e.target);
      if x.seen.id in w.domain.intents && IsLoadable(w.domain, x.seen.id) && Admits(w.domain, x.seen.id, s, e.held) {
        if x.permit in w.tickets && Takes(w.tickets[x.permit], e.exec.holder, true, x.seen, x.generation, x.setup) {
          SyncAdmitted(w, e, s);
        }
      }
    }
  }

  lemma AtEffect(w: World, h: Handle, stage: Stage)
    requires h in w.execs
    ensures var v := At(w, h, stage);
            v == w.(execs := v.execs) && v.execs == w.execs[h := w.execs[h].(stage := stage)]
  {
  }

  lemma SyncAdmitted(w: World, e: Event, s: Step)
    requires Good(w) && e.Syncing? && Acts(w, e.exec) && w.execs[e.exec].stage.Prepared?
    requires var x := w.execs[e.exec];
             s == BeginSync(x.seen, x.generation, x.setup, e.target) && x.seen.id in w.domain.intents &&
             Admits(w.domain, x.seen.id, s, e.held) && x.permit in w.tickets &&
             Takes(w.tickets[x.permit], e.exec.holder, true, x.seen, x.generation, x.setup)
    ensures var x := w.execs[e.exec];
            var id := x.seen.id;
            var used := Use(At(w, e.exec, SyncEntering), x.permit, id);
            var committed := Attempt(w.domain, id, s, e.held);
            Good(used) &&
            (committed.Ok? ==>
              var saved := Log(used.(domain := committed.value), SyncSaved(id, e.target));
              Good(saved) && id in committed.value.intents &&
              Good(Pass(saved.(execs := saved.execs[e.exec :=
                x.(seen := committed.value.intents[id].batch, started := true)]), e.exec, SyncRunning, SyncStart)))
  {
    hide Good, Attempt, Admits, Due, Use, IsReviewable, Through, At, Pass, ExecGood, UsedBefore;
    var x := w.execs[e.exec];
    var id := x.seen.id;
    ThroughPasses(Prepared, x.seen.dispatch.targetDigest);
    AtKeepsGood(w, e.exec, SyncEntering);
    AtEffect(w, e.exec, SyncEntering);
    var entering := At(w, e.exec, SyncEntering);
    UseKeepsGood(entering, x.permit, id);
    UseEffect(entering, x.permit, id);
    var used := Use(entering, x.permit, id);
    if Attempt(w.domain, id, s, e.held).Ok? {
      GoodIsSound(w);
      StepIsDue(w.domain, id, s, e.held);
      SyncCommitted(w, used, e, s);
    }
  }

  lemma SyncCommitted(w: World, used: World, e: Event, s: Step)
    requires Good(used) && e.Syncing? && e.exec in w.execs && used.domain == w.domain
    requires var x := w.execs[e.exec];
             x.active && x.pid == e.exec.holder && x.stage.Prepared? && e.exec in used.execs &&
               used.execs[e.exec] == x.(stage := SyncEntering) &&
             s == BeginSync(x.seen, x.generation, x.setup, e.target) && Due(w.domain, x.seen.id, s, e.held) &&
             Attempt(w.domain, x.seen.id, s, e.held).Ok? && UsedBefore(used.log, |used.log|, true, x.seen.id, x.setup)
    ensures var x := w.execs[e.exec];
            var next := Attempt(w.domain, x.seen.id, s, e.held).value;
            var saved := Log(used.(domain := next), SyncSaved(x.seen.id, e.target));
            Good(saved) && x.seen.id in next.intents &&
            Good(Pass(saved.(execs := saved.execs[e.exec :=
              x.(seen := next.intents[x.seen.id].batch, started := true)]), e.exec, SyncRunning, SyncStart))
  {
    hide Good, Attempt, Due, Pass, UsedBefore;
    var x := w.execs[e.exec];
    var id := x.seen.id;
    SyncCommits(w.domain, id, s, e.held);
    var next := Attempt(w.domain, id, s, e.held).value;
    var saved := Log(used.(domain := next), SyncSaved(id, e.target));
    SyncSaveKeepsGood(used, saved, id, s, e.held);
    SyncStarts(saved, e.exec, x, next.intents[id].batch);
  }

  // Once the commit is delivered the execution holds the running batch it began.
  lemma SyncStarts(w: World, h: Handle, x: Exec, running: Batch)
    requires Good(w) && h in w.execs && w.execs[h] == x.(stage := SyncEntering) && x.active && x.pid == h.holder &&
      x.stage.Prepared?
    requires running.phase.Running?
    ensures Good(Pass(w.(execs := w.execs[h := x.(seen := running, started := true)]), h, SyncRunning, SyncStart))
  {
    hide Good, Through, Pass, Marks;
    GoodExec(w, h);
    ThroughPasses(Prepared, x.seen.dispatch.targetDigest);
    ThroughPasses(Prepared, running.dispatch.targetDigest);
    var started := x.(seen := running, started := true);
    HoldKeepsGood(w, h, started);
    PassKeepsGood(w.(execs := w.execs[h := started]), h, SyncRunning, SyncStart);
  }

  lemma EndEventKeepsGood(w: World, e: Event)
    requires Good(w) && e.Ending?
    ensures Good(End(w, e))
  {
    hide Good, Attempt, Admits, ValidAcceptance, ExecGood, Log, IsFrozen;
    if Acts(w, e.exec) {
      var x := w.execs[e.exec];
      GoodExec(w, e.exec);
      InactiveIsGood(w.log, e.exec, x);
      HoldKeepsGood(w, e.exec, x.(active := false));
      var s := Finish(x.seen, x.generation, e.outcome);
      if x.started && x.seen.id in w.domain.intents && IsLoadable(w.domain, x.seen.id) &&
        Admits(w.domain, x.seen.id, s, true) {
        EndAdmitted(w, e, s);
      }
    }
  }

  lemma EndAdmitted(w: World, e: Event, s: Step)
    requires Good(w) && e.Ending? && Acts(w, e.exec) && w.execs[e.exec].started
    requires var x := w.execs[e.exec];
             s == Finish(x.seen, x.generation, e.outcome) && x.seen.id in w.domain.intents &&
               Admits(w.domain, x.seen.id, s, true)
    ensures var x := w.execs[e.exec];
            var over := w.(execs := w.execs[e.exec := x.(active := false)]);
            Attempt(w.domain, x.seen.id, s, true).Ok? ==>
              var saved := over.(domain := Attempt(w.domain, x.seen.id, s, true).value);
              if e.outcome.Returned? && e.outcome.code == 0 then x.stage.ApplyDone? ==>
                Good(Log(saved, SuccessSaved(x.seen.id, e.exec)))
              else Good(saved)
  {
    hide Good, Attempt, Admits, Due, ExecGood, EarnedBy, Log, Sound, IsQuiet;
    var x := w.execs[e.exec];
    var over := w.(execs := w.execs[e.exec := x.(active := false)]);
    EndsInactive(w, e.exec, over);
    StartedIsRunning(w, e.exec);
    FinishSees(w.domain, x.seen.id, s);
    GoodIsSound(w);
    StepIsDue(w.domain, x.seen.id, s, true);
    if Attempt(w.domain, x.seen.id, s, true).Ok? {
      if e.outcome.Returned? && e.outcome.code == 0 {
        if x.stage.ApplyDone? {
          DoneIsEarned(w, e.exec);
          SuccessRecorded(over, x.seen.id, s, e.exec);
        }
      } else {
        UnearnedIsQuiet(s);
        FailureRecorded(over, x.seen.id, s);
      }
    }
  }

  lemma UnearnedIsQuiet(s: Step)
    requires s.Finish? && !(s.outcome.Returned? && s.outcome.code == 0)
    ensures IsQuiet(s)
  {
  }

  lemma EndsInactive(w: World, h: Handle, over: World)
    requires Good(w) && Acts(w, h) && over == w.(execs := w.execs[h := w.execs[h].(active := false)])
    ensures Good(over) && !Acts(over, h)
  {
    hide Good, ExecGood;
    InactiveIsGood(w.log, h, w.execs[h]);
    HoldKeepsGood(w, h, w.execs[h].(active := false));
  }

  lemma SuccessRecorded(over: World, id: Id, s: Step, h: Handle)
    requires Good(over) && Due(over.domain, id, s, true) && s.Finish? && s.outcome.Returned? && s.outcome.code == 0
    requires Attempt(over.domain, id, s, true).Ok? && h in over.minted && !Acts(over, h) &&
      EarnedBy(over.log, s.seen, h)
    ensures Good(Log(over.(domain := Attempt(over.domain, id, s, true).value), SuccessSaved(id, h)))
  {
    hide Good, Attempt, Due, Acts, EarnedBy;
    SuccessSaveKeepsGood(over, Log(over.(domain := Attempt(over.domain, id, s, true).value), SuccessSaved(id, h)), id,
      s, true, h);
  }

  lemma FailureRecorded(over: World, id: Id, s: Step)
    requires Good(over) && Due(over.domain, id, s, true) && IsQuiet(s) && Attempt(over.domain, id, s, true).Ok?
    ensures Good(over.(domain := Attempt(over.domain, id, s, true).value))
  {
    hide Good, Attempt, Due, Quietly;
    GoodIsSound(over);
    AttemptIsQuiet(over.domain, id, s, true);
    AttemptGrows(over.domain, id, s, true);
    QuietKeepsGood(over, Attempt(over.domain, id, s, true).value);
  }

  lemma InactiveIsGood(log: seq<Entry>, h: Handle, x: Exec)
    ensures ExecGood(log, h, x.(active := false))
  {
  }

  lemma StartedIsRunning(w: World, h: Handle)
    requires Good(w) && Acts(w, h) && w.execs[h].started
    ensures w.execs[h].seen.phase.Running?
  {
    GoodExec(w, h);
  }

  lemma FinishSees(d: Domain, id: Id, s: Step)
    requires id in d.intents && s.Finish? && Admits(d, id, s, true)
    ensures d.intents[id].batch == s.seen
  {
  }

  lemma DoneIsEarned(w: World, h: Handle)
    requires Good(w) && Acts(w, h) && w.execs[h].stage.ApplyDone?
    ensures EarnedBy(w.log, w.execs[h].seen, h) && h in w.minted
  {
    hide Marks, Through;
    GoodExec(w, h);
  }

  ghost predicate Forked(w: World, v: World, child: nat) {
    && v.domain == w.domain && v.log == w.log && v.pids == w.pids + {child} && w.minted <= v.minted
    && (forall h | h in v.minted && h !in w.minted :: h.holder == child)
    && v.tickets.Keys + v.execs.Keys <= v.minted
    && (forall h | h in v.tickets.Keys && h.holder != child :: h in w.tickets && v.tickets[h] == w.tickets[h])
    && (forall h | h in v.execs.Keys && h.holder != child :: h in w.execs && v.execs[h] == w.execs[h])
    && (forall h | h in v.execs.Keys :: v.execs[h].pid in w.pids)
  }

  lemma ForkEffect(w: World, parent: nat, child: nat)
    requires TicketsGood(w) && parent in w.pids && child !in w.pids
    ensures Forked(w, Fork(w, parent, child), child)
  {
  }

  // The child's copies carry the parent's process id: they can neither act nor be used.
  lemma ForkKeepsGood(w: World, parent: nat, child: nat)
    requires Good(w)
    ensures Good(Fork(w, parent, child))
  {
    hide Sound, Marks, SaveGood, Through, Fork;
    if parent in w.pids && child !in w.pids {
      ForkEffect(w, parent, child);
      ForkedMarks(w, Fork(w, parent, child), child);
      ForkedTickets(w, Fork(w, parent, child), child);
    } else {
      NoFork(w, parent, child);
    }
  }

  lemma NoFork(w: World, parent: nat, child: nat)
    requires !(parent in w.pids && child !in w.pids)
    ensures Fork(w, parent, child) == w
  {
  }

  lemma ForkedTickets(w: World, v: World, child: nat)
    requires TicketsGood(w) && Forked(w, v, child) && child !in w.pids
    ensures TicketsGood(v)
  {
    forall n | 0 <= n < |v.log| && v.log[n].TicketUsed?
      ensures v.log[n].ticket in v.minted && (v.log[n].ticket in v.tickets ==> v.tickets[v.log[n].ticket].used)
    {
      assert v.log[n].ticket in w.minted && v.log[n].ticket.holder != child;
    }
  }

  lemma ForkedMarks(w: World, v: World, child: nat)
    requires TicketsGood(w) && MarksGood(w) && Forked(w, v, child) && child !in w.pids
    ensures MarksGood(v)
  {
    hide Marks, Through;
    forall h | h in v.execs.Keys ensures ExecGood(v.log, h, v.execs[h]) {
      if h.holder != child {
        assert ExecGood(w.log, h, w.execs[h]);
      }
    }
    forall n | 0 <= n < |v.log| && v.log[n].SuccessSaved? ensures !Acts(v, v.log[n].exec) {
      assert v.log[n].exec in w.minted && v.log[n].exec.holder != child;
    }
  }

  lemma NextKeepsGood(w: World, e: Event)
    requires Good(w)
    ensures Good(Next(w, e))
  {
    hide Good, DispatchSetup, Sync, Check, Apply, End, Fork, Crash, Mint, Attempt, Accept;
    match e {
      case Accepting(_, _, _, _) => DomainEventKeepsGood(w, e);
      case Releasing(_) => DomainEventKeepsGood(w, e);
      case Stepping(_, _, _) => DomainEventKeepsGood(w, e);
      case Reviewing(review, batch, generation, setup, _) =>
        if review !in w.minted && review.holder in w.pids {
          MintKeepsGood(w, review, Ticket(review.holder, false, batch, generation, setup, false));
        }
      case Dispatching(_, _, _, _, _, _, _, _) => DispatchEventKeepsGood(w, e);
      case Executing(exec, permit, batch, setup) =>
        if exec !in w.minted && exec.holder in w.pids && permit in w.tickets {
          ExecutingKeepsGood(w, exec, Exec(exec.holder, permit, batch, w.tickets[permit].generation, setup, true, false,
            New));
        }
      case Checking(_, _, _) => CheckKeepsGood(w, e);
      case Syncing(_, _, _, _) => SyncEventKeepsGood(w, e);
      case Applying(_, _) => ApplyKeepsGood(w, e);
      case Ending(_, _, _) => EndEventKeepsGood(w, e);
      case Forking(parent, child) => ForkKeepsGood(w, parent, child);
      case Crashing(pid) => CrashKeepsGood(w, pid);
    }
  }

  lemma StartIsGood(pids: set<nat>)
    ensures Good(Start(pids))
  {
  }

  lemma {:induction false} ReachedIsGood(pids: set<nat>, es: seq<Event>)
    ensures Good(Reached(Start(pids), es))
    decreases |es|
  {
    hide Good;
    if es == [] {
      StartIsGood(pids);
    } else {
      ReachedIsGood(pids, es[..|es| - 1]);
      NextKeepsGood(Reached(Start(pids), es[..|es| - 1]), es[|es| - 1]);
    }
  }

  // ---- The save before each sync ----

  // Before entry n: the target digest of the batch was saved, and then the execution began its sync.
  ghost predicate SyncedBefore(log: seq<Entry>, n: nat, h: Handle, batch: Id, target: Digest) {
    exists m, k :: 0 <= m < k < n && k < |log| && log[m] == SyncSaved(batch, target) && log[k] == Marked(h, SyncStart)
  }

  ghost predicate StartGood(log: seq<Entry>, h: Handle, x: Exec) {
    x.active && x.pid == h.holder && x.started ==>
      x.seen.dispatch.targetDigest.Some? && SyncedBefore(log, |log|, h, x.seen.id, x.seen.dispatch.targetDigest.value)
  }

  // A logged success of the batch comes after all stages of its execution, which began its sync after
  // the digest it deployed was saved for that batch.
  ghost predicate SuccessBacked(log: seq<Entry>, n: nat, target: Digest)
    requires n < |log| && log[n].SuccessSaved?
  {
    SyncedBefore(log, n, log[n].exec, log[n].batch, target) &&
      Marks(log[..n], log[n].exec) == Through(ApplyDone, Some(target))
  }

  ghost predicate StartsGood(w: World) {
    (forall h | h in w.execs.Keys :: StartGood(w.log, h, w.execs[h])) &&
    forall n | 0 <= n < |w.log| && w.log[n].SuccessSaved? :: exists target :: SuccessBacked(w.log, n, target)
  }

  lemma SyncedStays(log: seq<Entry>, more: seq<Entry>, n: nat, later: nat, h: Handle, batch: Id, target: Digest)
    requires SyncedBefore(log, n, h, batch, target) && n <= later
    ensures SyncedBefore(log + more, later, h, batch, target)
  {
    var m, k :| 0 <= m < k < n && k < |log| && log[m] == SyncSaved(batch, target) && log[k] == Marked(h, SyncStart);
    assert (log + more)[m] == log[m] && (log + more)[k] == log[k];
  }

  lemma BackingStays(log: seq<Entry>, more: seq<Entry>, n: nat, target: Digest)
    requires n < |log| && log[n].SuccessSaved? && SuccessBacked(log, n, target)
    ensures (log + more)[n] == log[n] && SuccessBacked(log + more, n, target)
  {
    SyncedStays(log, more, n, n, log[n].exec, log[n].batch, target);
    assert (log + more)[..n] == log[..n];
  }

  lemma StartStays(log: seq<Entry>, more: seq<Entry>, h: Handle, x: Exec, y: Exec)
    requires StartGood(log, h, x) && y.seen == x.seen && y.pid == x.pid && (y.active ==> x.active) &&
      (y.started ==> x.started)
    ensures StartGood(log + more, h, y)
  {
    if y.active && y.pid == h.holder && y.started {
      SyncedStays(log, more, |log|, |log + more|, h, x.seen.id, x.seen.dispatch.targetDigest.value);
    }
  }

  // What a world may add without starting a sync or recording a success.
  ghost predicate Continues(w: World, v: World, more: seq<Entry>) {
    && v.log == w.log + more && (forall n | 0 <= n < |more| :: !more[n].SuccessSaved?)
    && forall h | h in v.execs.Keys && v.execs[h].active && v.execs[h].pid == h.holder && v.execs[h].started ::
         h in w.execs && w.execs[h].active && w.execs[h].pid == h.holder && w.execs[h].started &&
           w.execs[h].seen == v.execs[h].seen
  }

  lemma FollowingKeepsStarts(w: World, v: World, more: seq<Entry>)
    requires StartsGood(w) && Continues(w, v, more)
    ensures StartsGood(v)
  {
    hide StartGood, SuccessBacked;
    forall h | h in v.execs.Keys ensures StartGood(v.log, h, v.execs[h]) {
      if v.execs[h].active && v.execs[h].pid == h.holder && v.execs[h].started {
        StartStays(w.log, more, h, w.execs[h], v.execs[h]);
      } else {
        IdleIsGood(v.log, h, v.execs[h]);
      }
    }
    forall n | 0 <= n < |v.log| && v.log[n].SuccessSaved? ensures exists target :: SuccessBacked(v.log, n, target) {
      var target :| SuccessBacked(w.log, n, target);
      BackingStays(w.log, more, n, target);
    }
  }

  lemma IdleIsGood(log: seq<Entry>, h: Handle, x: Exec)
    requires !(x.active && x.pid == h.holder && x.started)
    ensures StartGood(log, h, x)
  {
  }

  lemma OneExecKeepsStarts(w: World, v: World, h: Handle, more: seq<Entry>)
    requires StartsGood(w) && h in w.execs && v.log == w.log + more &&
      (forall n | 0 <= n < |more| :: !more[n].SuccessSaved?)
    requires h in v.execs && v.execs == w.execs[h := v.execs[h]] && StartGood(v.log, h, v.execs[h])
    ensures StartsGood(v)
  {
    hide StartGood, SuccessBacked;
    forall g | g in v.execs.Keys ensures StartGood(v.log, g, v.execs[g]) {
      if g != h {
        StartStays(w.log, more, g, w.execs[g], w.execs[g]);
      }
    }
    forall n | 0 <= n < |v.log| && v.log[n].SuccessSaved? ensures exists target :: SuccessBacked(v.log, n, target) {
      var target :| SuccessBacked(w.log, n, target);
      BackingStays(w.log, more, n, target);
    }
  }

  ghost predicate SyncBegan(w: World, v: World, e: Event)
    requires e.Syncing? && e.exec in w.execs
  {
    var x := w.execs[e.exec];
    var id := x.seen.id;
    var s := BeginSync(x.seen, x.generation, x.setup, e.target);
    && id in w.domain.intents && Admits(w.domain, id, s, e.held) && Attempt(w.domain, id, s, e.held).Ok?
    && id in Attempt(w.domain, id, s, e.held).value.intents && x.permit in w.tickets
    && v.log == w.log + [TicketUsed(x.permit, w.tickets[x.permit].issued, id, w.tickets[x.permit].setup),
      SyncSaved(id, e.target), Marked(e.exec, SyncStart)]
    && v.execs == w.execs[e.exec := x.(seen := Attempt(w.domain, id, s, e.held).value.intents[id].batch,
      started := true, stage := SyncRunning)]
  }

  lemma SyncContinues(w: World, e: Event)
    requires e.Syncing? && Acts(w, e.exec) && w.execs[e.exec].stage.Prepared?
    ensures var v := Sync(w, e); SyncBegan(w, v, e) || exists more :: Continues(w, v, more)
  {
    hide Admits, ValidAcceptance, IsFrozen, Takes, ValidDomain, Drafted;
    var v := Sync(w, e);
    var x := w.execs[e.exec];
    var id := x.seen.id;
    var s := BeginSync(x.seen, x.generation, x.setup, e.target);
    if id in w.domain.intents && IsLoadable(w.domain, id) && Admits(w.domain, id, s, e.held) && x.permit in w.tickets &&
       Takes(w.tickets[x.permit], e.exec.holder, true, x.seen, x.generation, x.setup) {
      var used := TicketUsed(x.permit, w.tickets[x.permit].issued, id, w.tickets[x.permit].setup);
      if e.delivery.Unwritten? || Attempt(w.domain, id, s, e.held).Conflict? {
        assert Continues(w, v, [used]);
      } else if e.delivery.Lost? {
        assert v.log == w.log + [used, SyncSaved(id, e.target)];
        assert Continues(w, v, [used, SyncSaved(id, e.target)]);
      } else {
        AttemptHas(w.domain, id, s, e.held);
        assert SyncBegan(w, v, e);
      }
    } else {
      assert v.log == w.log + [];
      assert Continues(w, v, []);
    }
  }

  // The sync is marked right after its target is saved.
  lemma SyncKeepsStarts(w: World, e: Event)
    requires Good(w) && StartsGood(w) && e.Syncing?
    ensures StartsGood(Sync(w, e))
  {
    hide Good, StartsGood, Sync;
    if Acts(w, e.exec) && w.execs[e.exec].stage.Prepared? {
      SyncContinues(w, e);
      var v := Sync(w, e);
      if SyncBegan(w, v, e) {
        BegunIsGood(w, v, e);
      } else {
        var more :| Continues(w, v, more);
        FollowingKeepsStarts(w, v, more);
      }
    } else {
      NoSync(w, e);
    }
  }

  lemma MarkedIsGood(log: seq<Entry>, m: nat, h: Handle, x: Exec, target: Digest)
    requires m + 1 < |log| && log[m] == SyncSaved(x.seen.id, target) && log[m + 1] == Marked(h, SyncStart)
    requires x.seen.dispatch.targetDigest == Some(target)
    ensures StartGood(log, h, x)
  {
  }

  lemma SeenIsThere(d: Domain, id: Id, s: Step, held: bool)
    requires id in d.intents && s.BeginSync? && Admits(d, id, s, held)
    ensures d.intents[id].batch == s.seen
  {
    hide IsHeld, IsReviewable;
  }

  lemma BegunIsGood(w: World, v: World, e: Event)
    requires Good(w) && StartsGood(w) && e.Syncing? && e.exec in w.execs && SyncBegan(w, v, e)
    ensures StartsGood(v)
  {
    hide Good, StartsGood, Admits, Attempt, Due, StartGood, Tracked, Sound;
    var x := w.execs[e.exec];
    var id := x.seen.id;
    var s := BeginSync(x.seen, x.generation, x.setup, e.target);
    GoodIsSound(w);
    StepIsDue(w.domain, id, s, e.held);
    SyncSaves(w.domain, id, s, e.held);
    SeenIsThere(w.domain, id, s, e.held);
    assert v.log[|w.log| + 1] == SyncSaved(id, e.target) && v.log[|w.log| + 2] == Marked(e.exec, SyncStart);
    MarkedIsGood(v.log, |w.log| + 1, e.exec, v.execs[e.exec], e.target);
    OneExecKeepsStarts(w, v, e.exec, v.log[|w.log|..]);
  }

  lemma NoSync(w: World, e: Event)
    requires e.Syncing? && !(Acts(w, e.exec) && w.execs[e.exec].stage.Prepared?)
    ensures Sync(w, e) == w
  {
  }

  lemma SyncSaves(d: Domain, id: Id, s: Step, held: bool)
    requires Sound(d) && Due(d, id, s, held) && s.BeginSync? && Attempt(d, id, s, held).Ok?
    ensures var b := Attempt(d, id, s, held).value.intents[id].batch;
      b.id == d.intents[id].batch.id && b.dispatch.targetDigest == Some(s.target)
  {
    hide Admits, Tracked, Edited, ValidDomain, IsLoadable, Sound;
    DueAttemptGrows(d, id, s, held, Attempt(d, id, s, held).value);
    SyncEdit(d, id, s, held);
    NamesStay(d);
    NamesStay(Attempt(d, id, s, held).value);
  }

  lemma EndKeepsStarts(w: World, e: Event)
    requires Good(w) && StartsGood(w) && e.Ending?
    ensures StartsGood(End(w, e))
  {
    hide Good, StartsGood, Admits, IsLoadable, Attempt;
    var v := End(w, e);
    if Acts(w, e.exec) {
      var x := w.execs[e.exec];
      if v.log == w.log {
        assert v.log == w.log + [];
        FollowingKeepsStarts(w, v, []);
      } else {
        assert v.log == w.log + [SuccessSaved(x.seen.id, e.exec)] && v.execs == w.execs[e.exec := x.(active := false)];
        assert x.started && x.stage.ApplyDone?;
        SuccessKeepsStarts(w, v, e.exec);
      }
    } else {
      assert v == w;
    }
  }

  lemma SuccessKeepsStarts(w: World, v: World, h: Handle)
    requires Good(w) && StartsGood(w) && Acts(w, h) && w.execs[h].started && w.execs[h].stage.ApplyDone?
    requires v.log == w.log + [SuccessSaved(w.execs[h].seen.id, h)] &&
      v.execs == w.execs[h := w.execs[h].(active := false)]
    ensures StartsGood(v)
  {
    hide Good, StartGood, SuccessBacked, Through, Marks;
    var x := w.execs[h];
    var more := [SuccessSaved(x.seen.id, h)];
    forall g | g in v.execs.Keys ensures StartGood(v.log, g, v.execs[g]) {
      StartStays(w.log, more, g, w.execs[g], v.execs[g]);
    }
    DoneIsEarned(w, h);
    SuccessIsBacked(w, v.log, h);
    forall n | 0 <= n < |w.log| && v.log[n].SuccessSaved? ensures exists target :: SuccessBacked(v.log, n, target) {
      var target :| SuccessBacked(w.log, n, target);
      BackingStays(w.log, more, n, target);
    }
  }

  lemma SuccessIsBacked(w: World, log: seq<Entry>, h: Handle)
    requires Acts(w, h) && w.execs[h].started && StartGood(w.log, h, w.execs[h]) && EarnedBy(w.log, w.execs[h].seen, h)
    requires log == w.log + [SuccessSaved(w.execs[h].seen.id, h)]
    ensures var target := w.execs[h].seen.dispatch.targetDigest;
      target.Some? && SuccessBacked(log, |w.log|, target.value)
  {
    hide Marks, Through;
    var x := w.execs[h];
    SyncedStays(w.log, [SuccessSaved(x.seen.id, h)], |w.log|, |w.log|, h, x.seen.id,
      x.seen.dispatch.targetDigest.value);
    assert log[..|w.log|] == w.log;
  }

  lemma OtherEventsKeepStarts(w: World, e: Event)
    requires StartsGood(w) && !e.Syncing? && !e.Ending? && !e.Forking?
    ensures StartsGood(Next(w, e))
  {
    hide StartsGood, Continues, DispatchSetup, Check, Apply, Attempt, Accept, IsReviewable, ValidBatch;
    match e {
      case Dispatching(_, _, _, _, _, _, _, _) => DispatchContinues(w, e);
      case Checking(_, _, _) => StageContinues(w, e);
      case Applying(_, _) => StageContinues(w, e);
      case _ => OthersContinue(w, e);
    }
    var v := Next(w, e);
    FollowingKeepsStarts(w, v, v.log[|w.log|..]);
  }

  lemma DispatchContinues(w: World, e: Event)
    requires e.Dispatching?
    ensures var v := DispatchSetup(w, e); |v.log| >= |w.log| && Continues(w, v, v.log[|w.log|..])
  {
    hide Admits, ValidAcceptance, IsFrozen, Takes, Attempt;
    var v := DispatchSetup(w, e);
    assert v.log == w.log + v.log[|w.log|..] && v.execs == w.execs;
  }

  lemma StageContinues(w: World, e: Event)
    requires e.Checking? || e.Applying?
    ensures var v := Next(w, e); |v.log| >= |w.log| && Continues(w, v, v.log[|w.log|..])
  {
    hide Sees, IsHeld, Pass, At, Continues;
    StayContinues(w);
    if Acts(w, e.exec) {
      AtContinues(w, e.exec, ApplyEntering);
      if e.Applying? {
        PassContinues(w, e.exec, ApplyRunning, ApplyStart);
      } else {
        forall stage {
          PassContinues(w, e.exec, stage, e.mark);
        }
      }
    }
  }

  lemma StayContinues(w: World)
    ensures Continues(w, w, w.log[|w.log|..])
  {
  }

  lemma AtContinues(w: World, h: Handle, stage: Stage)
    requires h in w.execs
    ensures var v := At(w, h, stage); v.log == w.log && Continues(w, v, v.log[|w.log|..])
  {
  }

  lemma PassContinues(w: World, h: Handle, stage: Stage, mark: Mark)
    requires h in w.execs
    ensures var v := Pass(w, h, stage, mark); |v.log| >= |w.log| && Continues(w, v, v.log[|w.log|..])
  {
  }

  lemma OthersContinue(w: World, e: Event)
    requires e.Accepting? || e.Releasing? || e.Stepping? || e.Reviewing? || e.Executing? || e.Crashing?
    ensures var v := Next(w, e); |v.log| >= |w.log| && Continues(w, v, v.log[|w.log|..])
  {
    hide Attempt, Accept, IsReviewable, ValidBatch;
    var v := Next(w, e);
    assert v.log == w.log + v.log[|w.log|..];
  }

  // A child's copies carry the process id of their parent.
  lemma ForkKeepsStarts(w: World, parent: nat, child: nat)
    requires Good(w) && StartsGood(w)
    ensures StartsGood(Fork(w, parent, child))
  {
    hide Sound, SavesGood, MarksGood, StartsGood, Fork;
    if parent in w.pids && child !in w.pids {
      var v := Fork(w, parent, child);
      ForkEffect(w, parent, child);
      assert v.log == w.log + [];
      FollowingKeepsStarts(w, v, []);
    } else {
      NoFork(w, parent, child);
    }
  }

  lemma {:induction false} ReachedStartsGood(pids: set<nat>, es: seq<Event>)
    ensures StartsGood(Reached(Start(pids), es))
    decreases |es|
  {
    hide Good, StartsGood, Sync, End, Fork;
    if es == [] {
      NothingStarted(pids);
    } else {
      var w, e := Reached(Start(pids), es[..|es| - 1]), es[|es| - 1];
      ReachedStartsGood(pids, es[..|es| - 1]);
      ReachedIsGood(pids, es[..|es| - 1]);
      match e {
        case Syncing(_, _, _, _) => SyncKeepsStarts(w, e);
        case Ending(_, _, _) => EndKeepsStarts(w, e);
        case Forking(parent, child) => ForkKeepsStarts(w, parent, child);
        case _ => OtherEventsKeepStarts(w, e);
      }
    }
  }

  lemma NothingStarted(pids: set<nat>)
    ensures StartsGood(Start(pids))
  {
  }

  // ---- The theorems, over every run of any processes ----

  // At most one dispatch and at most one sync are ever saved for a batch, and no review or permit is
  // used twice. A saved sync comes after the saved dispatch of the same setup, which comes after the
  // use of a review of it; a permit was used for it; and every accepted run is exited and released.
  lemma SetupRunsAtMostOnce(pids: set<nat>, es: seq<Event>, batch: Id)
    ensures var w := Reached(Start(pids), es);
            && (forall n, m | 0 <= n < |w.log| && 0 <= m < |w.log| && w.log[n].DispatchSaved? &&
              w.log[m].DispatchSaved? &&
                  w.log[n].batch == batch && w.log[m].batch == batch :: n == m)
            && (forall n, m | 0 <= n < |w.log| && 0 <= m < |w.log| && w.log[n].SyncSaved? && w.log[m].SyncSaved? &&
                  w.log[n].batch == batch && w.log[m].batch == batch :: n == m)
            && (forall n, m | 0 <= n < |w.log| && 0 <= m < |w.log| && w.log[n].TicketUsed? && w.log[m].TicketUsed? &&
                  w.log[n].ticket == w.log[m].ticket :: n == m)
            && (forall n | 0 <= n < |w.log| && w.log[n].DispatchSaved? ::
              UsedBefore(w.log, n, false, w.log[n].batch, w.log[n].setup))
            && (forall n | 0 <= n < |w.log| && w.log[n].SyncSaved? && w.log[n].batch == batch :: SyncIsBacked(w, n))
  {
    hide Sound, MarksGood;
    ReachedIsGood(pids, es);
    var w := Reached(Start(pids), es);
    forall n | 0 <= n < |w.log| && w.log[n].DispatchSaved?
      ensures UsedBefore(w.log, n, false, w.log[n].batch, w.log[n].setup) {
      assert SaveGood(w.domain, w.log, n);
    }
    forall n | 0 <= n < |w.log| && w.log[n].SyncSaved? && w.log[n].batch == batch ensures SyncIsBacked(w, n) {
      assert SaveGood(w.domain, w.log, n);
      DispatchedIsFree(w.domain, batch);
    }
  }

  ghost predicate SyncIsBacked(w: World, n: nat)
    requires n < |w.log| && w.log[n].SyncSaved?
  {
    w.log[n].batch in w.domain.intents &&
    var b := w.domain.intents[w.log[n].batch].batch;
    b.dispatch.targetDigest == Some(w.log[n].target) && b.dispatch.setupDigest.Some? && AllFree(b) &&
    UsedBefore(w.log, n, true, b.id, b.dispatch.setupDigest.value) &&
      SavedBefore(w.log, n, b.id, b.dispatch.setupDigest.value)
  }

  lemma DispatchedIsFree(d: Domain, id: Id)
    requires Sound(d) && id in d.intents && !d.intents[id].batch.dispatch.state.NotDispatched?
    ensures AllFree(d.intents[id].batch) && d.intents[id].batch.id == id
  {
    hide ValidAcceptance, Shaped;
    assert Tracked(d, id);
    ShapedIsFree(d.intents[id].batch);
  }

  lemma ShapedIsFree(b: Batch)
    requires Shaped(b) && !b.dispatch.state.NotDispatched?
    ensures AllFree(b)
  {
    hide ValidDispatch, ValidResult, InSchema, IsPlain;
  }

  // A recorded success, in the batch or as a completed intent, was earned: its log entry n names one
  // execution, which before it was approved, checked, prepared, synced and applied, once each and in
  // this order. What it deployed has the digest the batch holds; that digest was saved for this very
  // batch at m, before the execution began its sync at k.
  lemma SuccessIsEarned(pids: set<nat>, es: seq<Event>, id: Id)
    requires id in Reached(Start(pids), es).domain.intents
    requires var i := Reached(Start(pids), es).domain.intents[id]; HasSuccess(i.batch) || i.phase.Completed?
    ensures var w := Reached(Start(pids), es);
            var target := w.domain.intents[id].batch.dispatch.targetDigest;
            target.Some? && exists n, m, k :: 0 <= m < k < n < |w.log| && IsEarnedAt(w.log, id, target.value, n, m, k)
  {
    hide Sound, TicketsGood, SavesGood, Marks, SuccessBacked;
    ReachedIsGood(pids, es);
    ReachedStartsGood(pids, es);
    var w := Reached(Start(pids), es);
    if w.domain.intents[id].phase.Completed? {
      CompletedHasSuccess(w.domain, id);
    }
    var n :| 0 <= n < |w.log| && w.log[n].SuccessSaved? && w.log[n].batch == id;
    assert EarnedBy(w.log, w.domain.intents[id].batch, w.log[n].exec);
    var target :| SuccessBacked(w.log, n, target);
    BackedIsEarned(w, id, n, target);
  }

  predicate IsEarnedAt(log: seq<Entry>, id: Id, target: Digest, n: nat, m: nat, k: nat)
    requires m < k < n < |log|
  {
    && log[n].SuccessSaved? && log[n].batch == id && log[m] == SyncSaved(id, target) &&
      log[k] == Marked(log[n].exec, SyncStart)
    && Marks(log[..n], log[n].exec) == Marks(log, log[n].exec) ==
         [Approval, PreflightCheck, PrepareCheck, SyncStart, SyncEnd, ApplyCheck, ApplyStart, ApplyEnd(target)]
  }

  lemma BackedIsEarned(w: World, id: Id, n: nat, target: Digest)
    requires SavesGood(w) && n < |w.log| && w.log[n].SuccessSaved? && w.log[n].batch == id && id in w.domain.intents
    requires SuccessBacked(w.log, n, target) && EarnedBy(w.log, w.domain.intents[id].batch, w.log[n].exec)
    ensures w.domain.intents[id].batch.dispatch.targetDigest == Some(target)
    ensures exists m, k :: 0 <= m < k < n && IsEarnedAt(w.log, id, target, n, m, k)
  {
    hide Marks;
    var m, k :| 0 <= m < k < n && k < |w.log| && w.log[m] == SyncSaved(id, target) &&
      w.log[k] == Marked(w.log[n].exec, SyncStart);
    assert SaveGood(w.domain, w.log, m);
    assert IsEarnedAt(w.log, id, target, n, m, k);
  }

  lemma CompletedHasSuccess(d: Domain, id: Id)
    requires Sound(d) && id in d.intents && d.intents[id].phase.Completed?
    ensures HasSuccess(d.intents[id].batch)
  {
    assert Tracked(d, id);
  }

  // Every reachable domain passes its codec, and the guards of every further step suffice there.
  lemma ReachableBatchesAreValid(pids: set<nat>, es: seq<Event>)
    ensures ValidDomain(Reached(Start(pids), es).domain)
  {
    ReachedIsGood(pids, es);
    SoundIsValid(Reached(Start(pids), es).domain);
  }
}
