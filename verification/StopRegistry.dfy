/** The registry in place: each call takes the owner lock and performs its durable writes one after
    the other, and may die before any of them. */
module StopRegistry {
  import opened Wrappers
  import opened StopProtocol

  class Registry {
    var records: map<Id, Record>
    var snapshots: map<Id, Snapshot>
    var fence: Option<Fence>
    var closes: map<Id, Close>
    var posted: map<Id, Request>
    var sent: set<Id>
    // How many more durable writes the process survives.
    var alive: nat

    function State(): Store
      reads this
    {
      Store(records, snapshots, fence, closes, posted, sent)
    }

    constructor (s: Store, alive: nat)
      ensures State() == s && this.alive == alive
    {
      records, snapshots, fence, closes, posted, sent := s.records, s.snapshots, s.fence, s.closes, s.posted, s.sent;
      this.alive := alive;
    }

    method Survives() returns (ok: bool)
      modifies this`alive
      ensures ok <==> old(alive) > 0
      ensures alive == if ok then old(alive) - 1 else 0
    {
      ok := alive > 0;
      alive := if ok then alive - 1 else 0;
    }

    method InstallFence(batch: Id, plan: Digest, expected: map<Id, Record>, snapshot: Option<Snapshot>, allowed: bool)
        returns (ok: bool)
      modifies this
      ensures var run := InstallRun(old(State()), batch, plan, expected, snapshot, allowed);
              State() == Landing(run, old(alive)) && ok == (run.outcome.Done? && old(alive) + 1 >= |run.states|)
    {
      ok := false;
      if records != expected || expected.Keys == {} || fence.Some? || !allowed {
        return;
      }
      if snapshot.Some? {
        var chosen := snapshot.value;
        if chosen.plan != plan || batch in snapshots || !(chosen.records.Keys <= records.Keys) ||
           chosen.records != Restricted(records, chosen.records.Keys) {
          return;
        }
        var written := Survives();
        if !written {
          return;
        }
        snapshots := snapshots[batch := chosen];
      }
      ok := Survives();
      if ok {
        fence := Some(Fence(batch, plan, snapshot.Some?));
      }
    }

    method PublishRequest(request: Request, expected: Record, ready: bool) returns (ok: bool)
      modifies this
      ensures var run := PublishRun(old(State()), request, expected, ready);
              State() == Landing(run, old(alive)) && ok == (run.outcome.Done? && old(alive) + 1 >= |run.states|)
    {
      ok := false;
      if request.batch in closes || fence.None? || !IsLinked(State(), fence.value) {
        return;
      }
      var f := fence.value;
      if f.batch != request.batch || f.plan != request.plan || !f.linked || !snapshots[f.batch].stopOnly {
        return;
      }
      var snapshot, run := snapshots[f.batch], request.run;
      if !(run in snapshot.records && run in records && records[run] == expected && snapshot.records[run] == expected) {
        return;
      }
      if !ready || !expected.state.Active? || run in posted || run in sent {
        return;
      }
      ok := Survives();
      if ok {
        posted := posted[run := request];
      }
    }

    // Every selected run is checked and its current record collected; the first that may not be
    // closed refuses the call.
    method Collect(snapshot: Snapshot, reason: Reason) returns (ok: bool, selected: map<Id, Record>)
      ensures ok == Qualifies(State(), snapshot, reason)
      ensures ok ==> selected == Restricted(records, snapshot.records.Keys)
    {
      selected := map[];
      var todo := snapshot.records.Keys;
      while todo != {}
        invariant todo <= snapshot.records.Keys
        invariant selected.Keys == snapshot.records.Keys - todo
        invariant forall run | run in selected.Keys ::
                    run in records && selected[run] == records[run] &&
                      IsUnchanged(snapshot.records[run], records[run]) && IsClosable(State(), run, reason)
        decreases |todo|
      {
        var run :| run in todo;
        if run !in records || !IsUnchanged(snapshot.records[run], records[run]) {
          return false, selected;
        }
        var state := records[run].state;
        if !state.Idle? && (!reason.Cancelled? || !state.Active? || run in posted || run in sent) {
          return false, selected;
        }
        selected := selected[run := records[run]];
        todo := todo - {run};
      }
      ok := true;
    }

    method CloseStop(batch: Id, plan: Digest, reason: Reason) returns (ok: bool)
      modifies this
      ensures var run := CloseRun(old(State()), batch, plan, reason);
              State() == Landing(run, old(alive)) && ok == (run.outcome.Done? && old(alive) + 1 >= |run.states|)
    {
      ok := false;
      if (batch in closes && !ValidClose(State(), batch)) || (fence.Some? && !IsLinked(State(), fence.value)) {
        return;
      }
      if batch in closes {
        var prior := closes[batch];
        if prior.plan != plan || prior.reason != reason {
          return;
        }
        if fence.None? || fence.value.batch != batch {
          return true;
        }
        if prior.fence != fence.value {
          return;
        }
      }
      if fence.None? || fence.value.batch != batch || fence.value.plan != plan || !fence.value.linked {
        return;
      }
      var snapshot := snapshots[batch];
      if !snapshot.stopOnly {
        return;
      }
      var fit, selected := Collect(snapshot, reason);
      if !fit {
        return;
      }
      if batch !in closes {
        var written := Survives();
        if !written {
          return;
        }
        closes := closes[batch := Close(plan, fence.value, reason, selected)];
      }
      ok := Survives();
      if ok {
        fence := None;
      }
    }
  }
}
