/** What stands behind the facts of a batch: the result it records is what its setup returned or raised,
    written once; and every fact of a run was put there by one step with the proof that fact needs. */
module MaintenanceEvidence {
  import opened Wrappers
  import opened MaintenanceBatch
  import opened MaintenanceDomain
  import opened MaintenanceSteps
  import opened MaintenanceRun
  import opened MaintenanceSafety

  // ---- What an event does to the domain ----

  // The event ends the execution of this batch after its sync began.
  ghost predicate Ends(w: World, e: Event, id: Id) {
    e.Ending? && Acts(w, e.exec) && w.execs[e.exec].started && w.execs[e.exec].seen.id == id
  }

  // The event committed this one step.
  ghost predicate Commits(w: World, e: Event, id: Id, s: Step, held: bool) {
    && Attempt(w.domain, id, s, held).Ok? && Next(w, e).domain == Attempt(w.domain, id, s, held).value
    && match e
       case Stepping(other, step, verdict) => other == id && step == s && verdict == held && !IsVolatileStep(s)
       case Dispatching(_, _, other, _, _, _, _, _) => other == id && s.RecordDispatch?
       case Syncing(_, _, _, _) => s.BeginSync?
       case Ending(exec, outcome, _) =>
         Ends(w, e, id) && held && s == Finish(w.execs[exec].seen, w.execs[exec].generation, outcome)
       case _ => false
  }

  predicate Accepts(w: World, e: Event) {
    e.Accepting? && Accept(w.domain, e.expected, e.accepted, e.managers, e.matches).Ok?
  }

  // Every event leaves the intents, accepts a batch, or commits one step.
  lemma EventCommits(w: World, e: Event) returns (id: Id, s: Step, held: bool)
    ensures Commits(w, e, id, s, held) || Next(w, e).domain.intents == w.domain.intents ||
      (Accepts(w, e) &&
        Next(w, e).domain == Accept(w.domain, e.expected, e.accepted, e.managers, e.matches).value)
  {
    hide Attempt, Admits, IsLoadable, ValidBatch, IsReviewable, Takes, Sees, Accept;
    id, s, held := "", SendIntent, false;
    match e {
      case Stepping(other, step, verdict) =>
        id, s, held := other, step, verdict;
      case Dispatching(_, _, other, expected, dispatchId, setup, verdict, _) =>
        id, s, held := other, RecordDispatch(expected, dispatchId, setup), verdict;
      case Syncing(exec, target, verdict, _) =>
        if exec in w.execs {
          var x := w.execs[exec];
          id, s, held := x.seen.id, BeginSync(x.seen, x.generation, x.setup, target), verdict;
        }
      case Ending(exec, outcome, _) =>
        if exec in w.execs {
          var x := w.execs[exec];
          id, s, held := x.seen.id, Finish(x.seen, x.generation, outcome), true;
        }
      case _ =>
    }
  }

  // ---- One result ----

  // What a recorded result says of the setup's outcome.
  predicate Tells(r: OperationResult, outcome: Outcome) {
    if outcome.Raised? then r == OperationResult(Uncertain, None, None)
    else
      r.exitCode == Some(outcome.code) && r.digest == Some(outcome.digest) &&
      r.status == if outcome.code == 0 then Success else Incomplete
  }

  // A finished setup is recorded as a success exactly if it returned 0, as partial with its exit code and
  // digest exactly if it returned another code, and as unknown without either exactly if it raised.
  lemma FinishIsRecorded(d: Domain, id: Id, seen: Batch, generation: nat, outcome: Outcome, held: bool)
    requires Attempt(d, id, Finish(seen, generation, outcome), held).Ok?
    ensures id in Attempt(d, id, Finish(seen, generation, outcome), held).value.intents
    ensures var i := Attempt(d, id, Finish(seen, generation, outcome), held).value.intents[id];
            var b := i.batch;
            && b.result.Some? && b.revision == seen.revision + 1 && b.items == seen.items
            && (b.result.value.status.Success? <==> outcome.Returned? && outcome.code == 0)
            && (b.result.value.status.Incomplete? <==> outcome.Returned? && outcome.code != 0)
            && (b.result.value.status.Uncertain? <==> outcome.Raised?)
            && (outcome.Returned? ==>
                  b.result.value.exitCode == Some(outcome.code) && b.result.value.digest == Some(outcome.digest) &&
                    b.dispatch.state.Confirmed?)
            && (outcome.Raised? ==>
                  b.result.value.exitCode.None? && b.result.value.digest.None? && b.dispatch.state.DispatchUnknown?)
            && (b.phase.Succeeded? <==> outcome.Returned? && outcome.code == 0)
            && (b.phase.Partial? <==> outcome.Returned? && outcome.code != 0)
            && (b.phase.Unknown? <==> outcome.Raised?)
            && (b.review <==> !b.phase.Succeeded?) && (i.phase.Doubtful? <==> !b.phase.Succeeded?)
  {
    hide ValidDomain, IsLoadable;
  }

  // ---- Over every run ----

  lemma EditKeepsResult(d: Domain, id: Id, s: Step, held: bool)
    requires id in d.intents && Admits(d, id, s, held) && !s.Finish?
    ensures Edited(d, id, s, held).batch.result == d.intents[id].batch.result
  {
    hide IsHeld, IsReviewable, IsUnused;
  }

  function ResultOf(d: Domain, id: Id): Option<OperationResult> {
    if id in d.intents then d.intents[id].batch.result else None
  }

  lemma AttemptKeepsResults(d: Domain, id: Id, s: Step, held: bool, other: Id)
    requires Attempt(d, id, s, held).Ok? && (other != id || !s.Finish?)
    ensures ResultOf(Attempt(d, id, s, held).value, other) == ResultOf(d, other)
  {
    hide ValidDomain, IsLoadable, Edited, Admits;
    if other == id {
      AttemptAdmits(d, id, s, held);
      EditKeepsResult(d, id, s, held);
    }
  }

  lemma RunningHasNoResult(w: World, h: Handle, s: Step)
    requires Good(w) && Acts(w, h) && w.execs[h].started && w.execs[h].seen.id in w.domain.intents
    requires s.Finish? && s.seen == w.execs[h].seen && Admits(w.domain, s.seen.id, s, true)
    ensures ResultOf(w.domain, s.seen.id).None?
  {
    hide ValidAcceptance, Marks, Through;
    GoodIsSound(w);
    StartedIsRunning(w, h);
    FinishSees(w.domain, s.seen.id, s);
    assert Tracked(w.domain, s.seen.id);
  }

  // A result appears only where none was, with the end of the batch's own execution, and tells its outcome.
  lemma ResultAppears(w: World, e: Event, id: Id)
    requires Good(w) && ResultOf(Next(w, e).domain, id) != ResultOf(w.domain, id)
    ensures ResultOf(w.domain, id).None? && Ends(w, e, id)
    ensures ResultOf(Next(w, e).domain, id).Some? && Tells(ResultOf(Next(w, e).domain, id).value, e.outcome)
  {
    hide Good, Attempt, Admits, Tells, Next, Accept;
    var other, s, held := EventCommits(w, e);
    if Commits(w, e, other, s, held) {
      if other != id || !s.Finish? {
        AttemptKeepsResults(w.domain, other, s, held, id);
      } else {
        AttemptAdmits(w.domain, id, s, true);
        RunningHasNoResult(w, e.exec, s);
        TellsAsRecorded(w.domain, id, s);
      }
    } else if Accepts(w, e) {
      AcceptHasNoResult(w.domain, e.expected, e.accepted, e.managers, e.matches);
    }
  }

  lemma AcceptHasNoResult(d: Domain, expected: nat, accepted: Batch, managers: map<Id, string>, matches: bool)
    ensures Accept(d, expected, accepted, managers, matches).Ok? ==>
      forall id :: ResultOf(Accept(d, expected, accepted, managers, matches).value, id) == ResultOf(d, id)
  {
    hide ValidBatch, IsUnfenced;
  }

  lemma TellsAsRecorded(d: Domain, id: Id, s: Step)
    requires s.Finish? && Attempt(d, id, s, true).Ok?
    ensures ResultOf(Attempt(d, id, s, true).value, id).Some?
    ensures Tells(ResultOf(Attempt(d, id, s, true).value, id).value, s.outcome)
  {
    hide ValidDomain, IsLoadable;
  }

  // The n-th event ended the batch's own started execution, wrote the first result of the batch, and that
  // result tells its outcome.
  ghost predicate Wrote(pids: set<nat>, es: seq<Event>, n: nat, id: Id, r: OperationResult) {
    n < |es| && Ends(Reached(Start(pids), es[..n]), es[n], id) && Tells(r, es[n].outcome) &&
    ResultOf(Reached(Start(pids), es[..n]).domain, id).None?
  }

  lemma WroteEarlier(pids: set<nat>, es: seq<Event>, n: nat, id: Id, r: OperationResult)
    requires es != [] && Wrote(pids, es[..|es| - 1], n, id, r)
    ensures Wrote(pids, es, n, id, r)
  {
    hide Reached, Ends, Tells;
    assert es[..|es| - 1][..n] == es[..n];
  }

  // Over every run: a batch's result was written by one event, the end of its own started execution, and
  // says of the outcome exactly what happened.
  lemma {:induction false} ResultIsWhatHappened(pids: set<nat>, es: seq<Event>, id: Id)
    requires ResultOf(Reached(Start(pids), es).domain, id).Some?
    ensures exists n :: Wrote(pids, es, n, id, ResultOf(Reached(Start(pids), es).domain, id).value)
    decreases |es|
  {
    hide Next, Ends, Tells, Wrote;
    var front, last := es[..|es| - 1], es[|es| - 1];
    ReachedIsGood(pids, front);
    var w := Reached(Start(pids), front);
    var r := ResultOf(Reached(Start(pids), es).domain, id).value;
    if ResultOf(w.domain, id) == Some(r) {
      ResultIsWhatHappened(pids, front, id);
      var n :| Wrote(pids, front, n, id, r);
      WroteEarlier(pids, es, n, id, r);
    } else {
      ResultAppears(w, last, id);
      WroteNow(pids, es, id, r);
    }
  }

  lemma WroteNow(pids: set<nat>, es: seq<Event>, id: Id, r: OperationResult)
    requires es != []
    requires var w := Reached(Start(pids), es[..|es| - 1]);
             Ends(w, es[|es| - 1], id) && Tells(r, es[|es| - 1].outcome) && ResultOf(w.domain, id).None?
    ensures Wrote(pids, es, |es| - 1, id, r)
  {
  }

  lemma {:induction false} ResultIsFinal(pids: set<nat>, es: seq<Event>, n: nat, id: Id)
    requires n <= |es| && ResultOf(Reached(Start(pids), es[..n]).domain, id).Some?
    ensures ResultOf(Reached(Start(pids), es).domain, id) == ResultOf(Reached(Start(pids), es[..n]).domain, id)
    decreases |es|
  {
    hide Next;
    if n < |es| {
      var front := es[..|es| - 1];
      assert front[..n] == es[..n];
      ResultIsFinal(pids, front, n, id);
      ReachedIsGood(pids, front);
      if ResultOf(Reached(Start(pids), es).domain, id) != ResultOf(Reached(Start(pids), front).domain, id) {
        ResultAppears(Reached(Start(pids), front), es[|es| - 1], id);
      }
    } else {
      assert es[..n] == es;
    }
  }

  // ---- Every fact of a run ----

  function FactsOf(d: Domain, id: Id, run: Id): Facts {
    if id in d.intents && run in d.intents[id].batch.items then d.intents[id].batch.items[run].facts else NO_FACTS
  }

  // A complete observation that all processes of the run have exited, by the manager it was accepted with.
  predicate IsOwnProof(i: Intent, run: Id, proof: Proof) {
    proof.run == run && proof.complete && proof.allExited && run in i.managers && proof.manager == i.managers[run]
  }

  // What one step may add to the facts of a run, and with what evidence.
  predicate Witnessed(d: Domain, id: Id, s: Step, held: bool, run: Id, before: Facts, after: Facts) {
    && (after.stopRequested && !before.stopRequested ==> s.RecordStop? && s.run == run)
    && (after.exitConfirmed && !before.exitConfirmed ==>
          s.RecordExit? && id in d.intents && IsOwnProof(d.intents[id], run, s.proof))
    && (after.resourcesReleased && !before.resourcesReleased ==>
          s.ConfirmRelease? && held && id in d.intents && before.exitConfirmed &&
          d.intents[id].batch.accepted <= d.released)
    && after.sessionSealed == before.sessionSealed
  }

  function FactsIn(b: Batch, run: Id): Facts {
    if run in b.items then b.items[run].facts else NO_FACTS
  }

  lemma ItemEditIsWitnessed(d: Domain, id: Id, s: Step, held: bool, run: Id)
    requires id in d.intents && Admits(d, id, s, held) && (s.RecordStop? || s.RecordExit? || s.MarkUnknown?)
    ensures Witnessed(d, id, s, held, run, FactsIn(d.intents[id].batch, run),
      FactsIn(Edited(d, id, s, held).batch, run))
  {
    hide IsHeld, IsReviewable, IsUnused, IsFinished, Initial, IsStopping, AllByHand;
    var edited := if s.RecordExit? then s.proof.run else s.run;
    if run != edited {
      assert FactsIn(Edited(d, id, s, held).batch, run) == FactsIn(d.intents[id].batch, run);
    }
  }

  lemma ReleaseIsWitnessed(d: Domain, id: Id, s: Step, held: bool, run: Id)
    requires id in d.intents && Admits(d, id, s, held) && s.ConfirmRelease?
    ensures Witnessed(d, id, s, held, run, FactsIn(d.intents[id].batch, run),
      FactsIn(Edited(d, id, s, held).batch, run))
  {
    var b := d.intents[id].batch;
    if run in b.items {
      assert run in b.items.Keys;
      assert Freed(b.items)[run].facts == b.items[run].facts.(resourcesReleased := true);
    }
  }

  lemma OtherStepsKeepFacts(d: Domain, id: Id, s: Step, held: bool, run: Id)
    requires id in d.intents && Admits(d, id, s, held)
    requires !s.RecordStop? && !s.RecordExit? && !s.MarkUnknown? && !s.ConfirmRelease?
    ensures FactsIn(Edited(d, id, s, held).batch, run) == FactsIn(d.intents[id].batch, run)
  {
    hide IsHeld, IsReviewable, IsUnused, IsFinished;
  }

  lemma EditIsWitnessed(d: Domain, id: Id, s: Step, held: bool, run: Id)
    requires Attempt(d, id, s, held).Ok?
    ensures Witnessed(d, id, s, held, run, FactsOf(d, id, run), FactsOf(Attempt(d, id, s, held).value, id, run))
  {
    hide ValidDomain, IsLoadable, Edited, Admits, IsOwnProof;
    AttemptAdmits(d, id, s, held);
    if s.RecordStop? || s.RecordExit? || s.MarkUnknown? {
      ItemEditIsWitnessed(d, id, s, held, run);
    } else if s.ConfirmRelease? {
      ReleaseIsWitnessed(d, id, s, held, run);
    } else {
      OtherStepsKeepFacts(d, id, s, held, run);
    }
  }

  // An event adds a fact only as a step of the batch that carries the evidence.
  ghost predicate Adds(d: Domain, e: Event, id: Id, run: Id, before: Facts, after: Facts) {
    e.Stepping? && e.id == id && Witnessed(d, id, e.s, e.held, run, before, after)
  }

  lemma AttemptKeepsFacts(d: Domain, id: Id, s: Step, held: bool, other: Id, run: Id)
    requires Attempt(d, id, s, held).Ok? && (other != id || IsVolatileStep(s))
    ensures FactsOf(Attempt(d, id, s, held).value, other, run) == FactsOf(d, other, run)
  {
    hide ValidDomain, IsLoadable, Edited, Admits;
    AttemptAdmits(d, id, s, held);
    if other == id {
      OtherStepsKeepFacts(d, id, s, held, run);
    }
  }

  lemma FactAppears(w: World, e: Event, id: Id, run: Id)
    requires FactsOf(Next(w, e).domain, id, run) != FactsOf(w.domain, id, run)
    ensures Adds(w.domain, e, id, run, FactsOf(w.domain, id, run), FactsOf(Next(w, e).domain, id, run))
  {
    hide Attempt, FactsOf, Witnessed, Next, Accept;
    var other, s, held := EventCommits(w, e);
    if Commits(w, e, other, s, held) {
      if other != id || IsVolatileStep(s) {
        AttemptKeepsFacts(w.domain, other, s, held, id, run);
      } else {
        EditIsWitnessed(w.domain, id, s, held, run);
      }
    } else if Next(w, e).domain.intents == w.domain.intents {
      SameIntentsSameFacts(w.domain, Next(w, e).domain, id, run);
    } else {
      AcceptHasNoFacts(w.domain, e.expected, e.accepted, e.managers, e.matches, id, run);
    }
  }

  lemma SameIntentsSameFacts(a: Domain, b: Domain, id: Id, run: Id)
    requires a.intents == b.intents
    ensures FactsOf(a, id, run) == FactsOf(b, id, run)
  {
  }

  lemma AcceptHasNoFacts(d: Domain, expected: nat, accepted: Batch, managers: map<Id, string>, matches: bool, id: Id,
      run: Id)
    ensures Accept(d, expected, accepted, managers, matches).Ok? ==>
      FactsOf(Accept(d, expected, accepted, managers, matches).value, id, run) == FactsOf(d, id, run)
  {
    hide ValidBatch, IsUnfenced;
  }

  // ---- Over every run ----

  // The n-th event put the fact there.
  ghost predicate PutThere(pids: set<nat>, es: seq<Event>, n: nat, id: Id, run: Id, fact: Facts -> bool) {
    n < |es| &&
    var w, v := Reached(Start(pids), es[..n]), Reached(Start(pids), es[..n + 1]);
    !fact(FactsOf(w.domain, id, run)) && fact(FactsOf(v.domain, id, run)) &&
    Adds(w.domain, es[n], id, run, FactsOf(w.domain, id, run), FactsOf(v.domain, id, run))
  }

  lemma {:induction false} FactWasPut(pids: set<nat>, es: seq<Event>, id: Id, run: Id, fact: Facts -> bool)
      returns (n: nat)
    requires fact(FactsOf(Reached(Start(pids), es).domain, id, run)) && !fact(NO_FACTS)
    ensures PutThere(pids, es, n, id, run, fact)
    decreases |es|
  {
    hide Next, Adds, FactsOf;
    if es == [] {
      NothingAtStart(pids, id, run);
      assert false;
    } else {
      var front := es[..|es| - 1];
      if fact(FactsOf(Reached(Start(pids), front).domain, id, run)) {
        n := FactWasPut(pids, front, id, run, fact);
        assert front[..n] == es[..n] && front[..n + 1] == es[..n + 1] && front[n] == es[n];
      } else {
        n := |es| - 1;
        assert es[..n] == front && es[..n + 1] == es;
        FactAppears(Reached(Start(pids), front), es[n], id, run);
      }
    }
  }

  lemma NothingAtStart(pids: set<nat>, id: Id, run: Id)
    ensures FactsOf(Reached(Start(pids), []).domain, id, run) == NO_FACTS
  {
  }

  // Over every run: a confirmed exit was recorded with a complete proof, by the manager the run was
  // accepted with, that all its processes exited; released resources were confirmed under the batch's
  // physical locks, with every accepted run's reservation released and its exit confirmed; a stop
  // request was recorded for that very run; and no session is ever marked sealed.
  lemma FactsAreWitnessed(pids: set<nat>, es: seq<Event>, id: Id, run: Id)
    ensures var f := FactsOf(Reached(Start(pids), es).domain, id, run);
            && (f.exitConfirmed ==> exists n :: 0 <= n < |es| && ExitProved(pids, es, n, id, run))
            && (f.resourcesReleased ==> exists n :: 0 <= n < |es| && ReleaseProved(pids, es, n, id, run))
            && (f.stopRequested ==> exists n :: 0 <= n < |es| && StopRecorded(es[n], id, run))
            && !f.sessionSealed
  {
    hide Reached, FactsOf;
    var f := FactsOf(Reached(Start(pids), es).domain, id, run);
    if f.exitConfirmed {
      var n := FactWasPut(pids, es, id, run, (g: Facts) => g.exitConfirmed);
      assert ExitProved(pids, es, n, id, run);
    }
    if f.resourcesReleased {
      var n := FactWasPut(pids, es, id, run, (g: Facts) => g.resourcesReleased);
      assert ReleaseProved(pids, es, n, id, run);
    }
    if f.stopRequested {
      var n := FactWasPut(pids, es, id, run, (g: Facts) => g.stopRequested);
      assert StopRecorded(es[n], id, run);
    }
    if f.sessionSealed {
      var n := FactWasPut(pids, es, id, run, (g: Facts) => g.sessionSealed);
      assert false;
    }
  }

  predicate StopRecorded(e: Event, id: Id, run: Id) {
    e.Stepping? && e.id == id && e.s.RecordStop? && e.s.run == run
  }

  ghost predicate ExitProved(pids: set<nat>, es: seq<Event>, n: nat, id: Id, run: Id)
    requires n < |es|
  {
    var d := Reached(Start(pids), es[..n]).domain;
    es[n].Stepping? && es[n].id == id && es[n].s.RecordExit? && id in d.intents &&
    IsOwnProof(d.intents[id], run, es[n].s.proof)
  }

  ghost predicate ReleaseProved(pids: set<nat>, es: seq<Event>, n: nat, id: Id, run: Id)
    requires n < |es|
  {
    var d := Reached(Start(pids), es[..n]).domain;
    es[n].Stepping? && es[n].id == id && es[n].s.ConfirmRelease? && es[n].held && id in d.intents &&
    FactsOf(d, id, run).exitConfirmed && d.intents[id].batch.accepted <= d.released
  }

  // ---- Dispatch ids ----

  ghost predicate IdsApart(d: Domain) {
    forall a, b | a in d.intents.Keys && b in d.intents.Keys && a != b && d.intents[a].batch.dispatch.id.Some? ::
      d.intents[a].batch.dispatch.id != d.intents[b].batch.dispatch.id
  }

  lemma EditSetsId(d: Domain, id: Id, s: Step, held: bool)
    requires id in d.intents && Admits(d, id, s, held)
    ensures var after := Edited(d, id, s, held).batch.dispatch.id;
            if s.RecordDispatch? then after == Some(s.dispatchId) && IsUnused(d, s.dispatchId)
            else after == d.intents[id].batch.dispatch.id
  {
    hide IsHeld, IsReviewable, IsUnused, IsFinished;
  }

  lemma IdsStayApart(w: World, e: Event)
    requires IdsApart(w.domain)
    ensures IdsApart(Next(w, e).domain)
  {
    hide Next, Admits, Edited, ValidDomain, IsLoadable, ValidBatch, IsUnfenced;
    var id, s, held := EventCommits(w, e);
    if Commits(w, e, id, s, held) {
      AttemptAdmits(w.domain, id, s, held);
      EditSetsId(w.domain, id, s, held);
    }
  }

  // Over every run no two batches ever carry the same dispatch id.
  lemma {:induction false} DispatchIdsDiffer(pids: set<nat>, es: seq<Event>)
    ensures IdsApart(Reached(Start(pids), es).domain)
    decreases |es|
  {
    hide Next;
    if es != [] {
      DispatchIdsDiffer(pids, es[..|es| - 1]);
      IdsStayApart(Reached(Start(pids), es[..|es| - 1]), es[|es| - 1]);
    }
  }
}
