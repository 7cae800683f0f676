/** The maintenance modules in place: a coordinator whose transactions edit one batch item by item and
    commit it, single-use permits, and the execution of one setup with its mutable stage. Every method
    does exactly what the run model of the same step says. */
module MaintenanceService {
  import opened MaintenanceBatch
  import opened MaintenanceDomain

  class Coordinator {
    var revision: nat
    var intents: map<Id, Intent>
    var released: set<Id>

    function State(): Domain
      reads this
    {
      Domain(revision, intents, released)
    }

    constructor ()
      ensures State() == Domain(0, map[], {})
    {
      revision, intents, released := 0, map[], {};
    }

    // The end of every write transaction: validate the whole edited domain, then replace the file.
    method Commit(id: Id, i: Intent) returns (ok: bool)
      modifies this
      ensures var next := old(State()).(revision := old(revision) + 1, intents := old(intents)[id := i]);
              ok == ValidDomain(next) && State() == if ok then next else old(State())
    {
      var next := Domain(revision + 1, intents[id := i], released);
      ok := ValidDomain(next);
      if ok {
        revision, intents := next.revision, next.intents;
      }
    }

    // Commit of a draft that is exactly what an admitted step makes of its intent.
    method CommitStep(id: Id, s: Step, held: bool, i: Intent) returns (ok: bool)
      requires IsLoadable(State(), id) && id in intents && Admits(State(), id, s, held) &&
        i == Edited(State(), id, s, held)
      modifies this
      ensures ok == Attempt(old(State()), id, s, held).Ok?
      ensures State() == if ok then Attempt(old(State()), id, s, held).value else old(State())
      ensures ok ==> id in intents && intents[id] == i
    {
      hide ValidDomain, ValidAcceptance, Admits, Edited;
      ok := Commit(id, i);
    }

    method AcceptSnapshot(expected: nat, accepted: Batch, managers: map<Id, string>, matches: bool) returns (ok: bool)
      modifies this
      ensures ok == Accept(old(State()), expected, accepted, managers, matches).Ok?
      ensures State() == if ok then Accept(old(State()), expected, accepted, managers, matches).value else old(State())
    {
      if !matches || !ValidAcceptance(accepted, managers) || revision != expected || expected >= MAX_REVISION ||
         accepted.id in intents || !IsUnfenced(State(), accepted.plan.resources) {
        return false;
      }
      intents := intents[accepted.id := Intent(Active, expected + 1, accepted, managers, accepted)];
      revision := revision + 1;
      ok := true;
    }

    // Whether any item is unknown, and whether any was asked to stop.
    static method Survey(items: map<Id, Item>) returns (unknown: bool, requested: bool)
      ensures unknown == exists run :: run in items.Keys && items[run].stop.StopUnknown?
      ensures requested == exists run :: run in items.Keys && items[run].facts.stopRequested
    {
      unknown, requested := false, false;
      var todo := items.Keys;
      while todo != {}
        invariant todo <= items.Keys
        invariant unknown == exists run :: run in items.Keys - todo && items[run].stop.StopUnknown?
        invariant requested == exists run :: run in items.Keys - todo && items[run].facts.stopRequested
        decreases |todo|
      {
        var run :| run in todo;
        unknown := unknown || items[run].stop.StopUnknown?;
        requested := requested || items[run].facts.stopRequested;
        todo := todo - {run};
      }
    }

    // The shared shape of record_stop_requested, record_exit and mark_unknown: one item is edited, the
    // phase is settled over all of them, the revision moves on.
    method WriteItem(id: Id, s: Step) returns (ok: bool)
      requires s.RecordStop? || s.RecordExit? || s.MarkUnknown?
      modifies this
      ensures ok == Attempt(old(State()), id, s, true).Ok?
      ensures State() == if ok then Attempt(old(State()), id, s, true).value else old(State())
    {
      hide ValidDomain, ValidAcceptance;
      if !IsLoadable(State(), id) || !Admits(State(), id, s, true) {
        return false;
      }
      var i := intents[id];
      var items := i.batch.items;
      match s {
        case RecordStop(_, run) =>
          items := items[run := items[run].(facts := items[run].facts.(stopRequested := true))];
          items := items[run := items[run].(stop := StopAsked)];
        case RecordExit(_, proof) =>
          items := items[proof.run := items[proof.run].(facts := items[proof.run].facts.(exitConfirmed := true))];
        case MarkUnknown(_, run) =>
          items := items[run := items[run].(stop := StopUnknown)];
      }
      var unknown, requested := Survey(items);
      var b := i.batch.(items := items, revision := i.batch.revision + 1);
      if unknown {
        i := i.(phase := Doubtful, batch := b.(phase := Unknown, review := true));
      } else {
        i := i.(batch := b.(phase := if requested then Stopping else Accepted));
      }
      assert i == Edited(State(), id, s, true) by {
        EditedItem(State(), id, s, items, i, unknown, requested);
      }
      ok := Commit(id, i);
    }

    static method Free(before: map<Id, Item>) returns (items: map<Id, Item>)
      ensures items == Freed(before)
    {
      items := before;
      var todo := items.Keys;
      while todo != {}
        invariant items.Keys == before.Keys && todo <= before.Keys
        invariant forall run | run in before.Keys :: items[run] == if run in todo then before[run]
          else Freed(before)[run]
        decreases |todo|
      {
        var run :| run in todo;
        items := items[run := items[run].(facts := items[run].facts.(resourcesReleased := true))];
        items := items[run := items[run].(stop := StopConfirmed)];
        todo := todo - {run};
      }
    }

    method ConfirmSetupRelease(id: Id, expected: nat, held: bool) returns (ok: bool)
      modifies this
      ensures ok == Attempt(old(State()), id, ConfirmRelease(expected), held).Ok?
      ensures State() == if ok then Attempt(old(State()), id, ConfirmRelease(expected), held).value else old(State())
    {
      hide ValidDomain, ValidAcceptance, IsHeld;
      if !IsLoadable(State(), id) || !Admits(State(), id, ConfirmRelease(expected), held) {
        return false;
      }
      var i := intents[id];
      var items := Free(i.batch.items);
      i := i.(batch := i.batch.(items := items, phase := Stopped, revision := i.batch.revision + 1));
      ok := Commit(id, i);
    }

    static method HandOver(before: map<Id, Item>) returns (items: map<Id, Item>)
      ensures items == HandedOver(before)
    {
      items := before;
      var todo := items.Keys;
      while todo != {}
        invariant items.Keys == before.Keys && todo <= before.Keys
        invariant forall run | run in before.Keys :: items[run] == if run in todo then before[run]
          else HandedOver(before)[run]
        decreases |todo|
      {
        var run :| run in todo;
        items := items[run := items[run].(restore := Manual)];
        todo := todo - {run};
      }
    }

    method CompleteSetupManual(id: Id, seen: Batch, generation: nat, held: bool) returns (ok: bool)
      modifies this
      ensures ok == Attempt(old(State()), id, CompleteByHand(seen, generation), held).Ok?
      ensures State() == if ok then Attempt(old(State()), id, CompleteByHand(seen, generation), held).value
        else old(State())
    {
      hide ValidDomain, ValidAcceptance, IsHeld, IsFinished, IsFrozen, IsSettled, Settle, Ended;
      if !IsLoadable(State(), id) || !Admits(State(), id, CompleteByHand(seen, generation), held) {
        return false;
      }
      var i := intents[id];
      var items := HandOver(i.batch.items);
      i := i.(batch := i.batch.(items := items, revision := i.batch.revision + 1), phase := Completed);
      ok := Commit(id, i);
    }

    // dispatch_intent, mark_intent_unknown and cancel_intent.
    method MoveIntent(id: Id, s: Step, held: bool) returns (ok: bool)
      requires s.SendIntent? || s.DoubtIntent? || s.CancelIntent?
      modifies this
      ensures ok == Attempt(old(State()), id, s, held).Ok?
      ensures State() == if ok then Attempt(old(State()), id, s, held).value else old(State())
    {
      hide ValidDomain, ValidAcceptance;
      if !IsLoadable(State(), id) || !Admits(State(), id, s, held) {
        return false;
      }
      var i := intents[id];
      match s {
        case SendIntent => i := i.(phase := Sent);
        case CancelIntent => i := i.(phase := Cancelled);
        case DoubtIntent =>
          i := i.(phase := Doubtful, batch := i.batch.(revision := i.batch.revision + 1, phase := Unknown,
            review := true));
      }
      ok := Commit(id, i);
    }
  }

  lemma EditedItem(d: Domain, id: Id, s: Step, items: map<Id, Item>, i: Intent, unknown: bool, requested: bool)
    requires id in d.intents && Admits(d, id, s, true)
    requires match s
             case RecordStop(_, run) =>
               items == d.intents[id].batch.items[run :=
                 d.intents[id].batch.items[run].(facts := d.intents[id].batch.items[run].facts.(stopRequested := true),
                 stop := StopAsked)]
             case RecordExit(_, proof) =>
               items == d.intents[id].batch.items[proof.run :=
                 d.intents[id].batch.items[proof.run].(facts :=
                 d.intents[id].batch.items[proof.run].facts.(exitConfirmed := true))]
             case MarkUnknown(_, run) => items == d.intents[id].batch.items[run :=
               d.intents[id].batch.items[run].(stop := StopUnknown)]
             case _ => false
    requires unknown == exists run :: run in items.Keys && items[run].stop.StopUnknown?
    requires requested == exists run :: run in items.Keys && items[run].facts.stopRequested
    requires var b := d.intents[id].batch.(items := items, revision := d.intents[id].batch.revision + 1);
             i == if unknown then d.intents[id].(phase := Doubtful, batch := b.(phase := Unknown, review := true))
                  else d.intents[id].(batch := b.(phase := if requested then Stopping else Accepted))
    ensures i == Edited(d, id, s, true)
  {
  }
}
