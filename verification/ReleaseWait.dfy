/** Waiting for runs to exit under one shared deadline: the budget only tightens, every confirmed exit is
    recorded exactly once, no exit is recorded twice even where an answer is lost, and the loop ends
    whenever a sleep lets the clock advance. */
module ReleaseWait {
  import opened Wrappers

  type Id = string

  // A monotonic clock. Every reading takes some time; it may fail, and an unusable reading fails too.
  class Clock {
    const delay: nat -> real
    const fails: nat -> bool
    var now: real
    var readings: nat

    constructor (delay: nat -> real, fails: nat -> bool, now: real)
      ensures this.now == now
    {
      this.delay, this.fails, this.now, readings := delay, fails, now, 0;
    }

    // The last reading or sleep failed.
    ghost predicate LastFailed()
      reads this
    {
      readings > 0 && fails(readings - 1)
    }

    method Read() returns (r: Option<real>)
      modifies this
      ensures now >= old(now) && (r.Some? ==> r.value == now)
      ensures readings == old(readings) + 1 && (r.None? <==> LastFailed())
    {
      now := now + if delay(readings) > 0.0 then delay(readings) else 0.0;
      r := if fails(readings) then None else Some(now);
      readings := readings + 1;
    }

    method Sleep(seconds: real) returns (ok: bool)
      requires seconds >= 0.0
      modifies this
      ensures now >= old(now) && (ok ==> now >= old(now) + seconds)
      ensures readings == old(readings) + 1 && (ok <==> !LastFailed())
    {
      ok := !fails(readings);
      now := now + seconds + if delay(readings) > 0.0 then delay(readings) else 0.0;
      readings := readings + 1;
    }
  }

  // One absolute deadline shared by every step of a control phase.
  class ControlDeadline {
    const clock: Clock
    var last: real
    var deadline: real
    var left: real

    // What every reading keeps: the budget is the time that was left to the deadline.
    ghost predicate Valid()
      reads this, clock
    {
      last <= clock.now && left == if deadline > last then deadline - last else 0.0
    }

    constructor (clock: Clock, start: real, seconds: nat)
      requires clock.now == start && 1 <= seconds <= 300
      ensures Valid() && this.clock == clock && left == seconds as real && deadline == start + seconds as real
    {
      this.clock, last, deadline, left := clock, start, start + seconds as real, seconds as real;
    }

    // The budget only tightens; a failed reading leaves it as it was.
    method Remaining() returns (r: Option<real>)
      requires Valid()
      modifies this, clock
      ensures Valid() && deadline == old(deadline) && clock.now >= old(clock.now)
      ensures left <= old(left) && (r.Some? ==> r.value == left && last == clock.now) && (r.None? ==> left == old(left))
      ensures r.None? <==> clock.LastFailed()
    {
      var now := clock.Read();
      if now.None? {
        return None;
      }
      last := now.value;
      var until := if deadline - last > 0.0 then deadline - last else 0.0;
      left := if until < left then until else left;
      r := Some(left);
    }

    // An expired deadline never comes back.
    method Expired() returns (r: Option<bool>)
      requires Valid()
      modifies this, clock
      ensures Valid() && deadline == old(deadline)
      ensures r.Some? ==> (r.value <==> left == 0.0)
      ensures old(left) == 0.0 && r.Some? ==> r.value
      ensures r.None? <==> clock.LastFailed()
    {
      var now := Remaining();
      r := if now.None? then None else Some(now.value == 0.0);
    }
  }

  datatype Proof = Proof(run: Id, manager: string, complete: bool, allExited: bool)

  // The observer may raise, see nothing, or return a proof.
  datatype Answer = Raises | Gives(proof: Option<Proof>)

  predicate Matches(proof: Option<Proof>, run: Id, manager: string) {
    proof.Some? && proof.value.run == run && proof.value.complete && proof.value.allExited &&
      proof.value.manager == manager
  }

  // A record is kept and answered, kept while its answer is lost, or refused.
  datatype Fate = Kept | AnswerLost | Refused

  // What stands outside: observations as they come, and the durable record with its revision. known is
  // the revision of the last answer that came back.
  class World {
    const answers: nat -> Answer
    const fates: nat -> Fate
    var asked: nat
    // The runs observed, in order.
    var seen: seq<Id>
    var recorded: seq<Proof>
    var revision: nat
    var known: nat
    const initial: nat

    ghost predicate Valid()
      reads this
    {
      revision == initial + |recorded|
    }

    constructor (answers: nat -> Answer, fates: nat -> Fate, revision: nat)
      ensures Valid() && recorded == [] && seen == [] && initial == known == revision
    {
      this.answers, this.fates, asked, seen, recorded := answers, fates, 0, [], [];
      this.revision, known, initial := revision, revision, revision;
    }

    method Observe(run: Id, manager: string) returns (answer: Answer)
      modifies this`asked, this`seen
      ensures asked == old(asked) + 1 && seen == old(seen) + [run] && answer == answers(old(asked))
    {
      answer := answers(asked);
      asked, seen := asked + 1, seen + [run];
    }

    method Record(proof: Proof) returns (ok: bool)
      requires Valid()
      modifies this
      ensures Valid() && asked == old(asked) + 1 && seen == old(seen)
      ensures recorded == if fates(old(asked)).Refused? then old(recorded) else old(recorded) + [proof]
      ensures ok <==> fates(old(asked)).Kept?
      ensures known == if ok then revision else old(known)
    {
      var fate := fates(asked);
      asked := asked + 1;
      if !fate.Refused? {
        recorded := recorded + [proof];
        revision := revision + 1;
      }
      ok := fate.Kept?;
      if ok {
        known := revision;
      }
    }
  }

  datatype Reason = Fine | DeadlineExpired | ClockUnconfirmed | ObservationUnconfirmed | RecordUnconfirmed
                  | WaitUnconfirmed
  datatype Waited = Waited(confirmed: set<Id>, pending: set<Id>, exitCode: int, reason: Reason)

  // The reason for stopping is what happened last.
  ghost predicate IsTruthful(stop: Reason, deadline: ControlDeadline, world: World)
    reads deadline, deadline.clock, world
  {
    match stop
    case Fine => true
    case DeadlineExpired => deadline.left == 0.0
    case ClockUnconfirmed => deadline.clock.LastFailed()
    case WaitUnconfirmed => deadline.clock.LastFailed()
    case ObservationUnconfirmed => world.asked > 0 && world.answers(world.asked - 1).Raises?
    case RecordUnconfirmed => world.asked > 0 && !world.fates(world.asked - 1).Kept?
  }

  // The confirmed runs are exactly those recorded, once each and with a proof of their own manager.
  ghost predicate Accounts(targets: map<Id, string>, confirmed: set<Id>, recorded: seq<Proof>) {
    && (forall k | 0 <= k < |recorded| ::
          recorded[k].run in confirmed && recorded[k].run in targets &&
            Matches(Some(recorded[k]), recorded[k].run, targets[recorded[k].run]))
    && (forall run | run in confirmed :: exists k :: 0 <= k < |recorded| && recorded[k].run == run)
    && RecordedOnce(recorded) && |recorded| == |confirmed|
  }

  ghost predicate RecordedOnce(recorded: seq<Proof>) {
    forall k, l | 0 <= k < l < |recorded| :: recorded[k].run != recorded[l].run
  }

  // Beyond the confirmed runs at most one is recorded: the last, still pending, its answer lost.
  ghost predicate AllButOne(targets: map<Id, string>, w: Waited, recorded: seq<Proof>) {
    w.reason.RecordUnconfirmed? && recorded != [] &&
    var front, last := recorded[..|recorded| - 1], recorded[|recorded| - 1];
    Accounts(targets, w.confirmed, front) && last.run in w.pending && last.run in targets &&
    Matches(Some(last), last.run, targets[last.run])
  }

  ghost predicate Accounted(targets: map<Id, string>, w: Waited, recorded: seq<Proof>) {
    Accounts(targets, w.confirmed, recorded) || AllButOne(targets, w, recorded)
  }

  // However the wait ends no run is recorded twice, and only its own proof is.
  lemma AtMostOnceDurable(targets: map<Id, string>, w: Waited, recorded: seq<Proof>)
    requires Accounted(targets, w, recorded) && Splits(targets, w.confirmed, w.pending)
    ensures RecordedOnce(recorded) && |w.confirmed| <= |recorded| <= |w.confirmed| + 1
    ensures forall proof | proof in recorded :: proof.run in targets && Matches(Some(proof), proof.run,
      targets[proof.run])
    ensures forall run | run in w.confirmed :: exists proof :: proof in recorded && proof.run == run
  {
    hide Matches;
    if AllButOne(targets, w, recorded) {
      var front, last := recorded[..|recorded| - 1], recorded[|recorded| - 1];
      assert recorded == front + [last];
      ConfirmedIsRecorded(targets, w.confirmed, front);
      assert last.run !in w.confirmed;
    } else {
      ConfirmedIsRecorded(targets, w.confirmed, recorded);
    }
  }

  lemma ConfirmedIsRecorded(targets: map<Id, string>, confirmed: set<Id>, recorded: seq<Proof>)
    requires Accounts(targets, confirmed, recorded)
    ensures forall run | run in confirmed :: exists proof :: proof in recorded && proof.run == run
    ensures forall proof | proof in recorded ::
      proof.run in confirmed && proof.run in targets && Matches(Some(proof), proof.run, targets[proof.run])
  {
    hide Matches;
    forall run | run in confirmed ensures exists proof :: proof in recorded && proof.run == run {
      var k :| 0 <= k < |recorded| && recorded[k].run == run;
      assert recorded[k] in recorded;
    }
  }

  ghost predicate Splits(targets: map<Id, string>, confirmed: set<Id>, pending: set<Id>) {
    confirmed + pending == targets.Keys && confirmed !! pending
  }

  function Result(confirmed: set<Id>, pending: set<Id>, reason: Reason): Waited {
    Waited(confirmed, pending, if reason.Fine? then 0 else 4, reason)
  }

  // At most so many whole sleeps fit into the time left.
  ghost predicate Within(time: real, turns: real, interval: real) {
    time <= 0.0 || (turns > 0.0 && time <= turns * interval)
  }

  lemma SleepFits(time: real, turns: real, interval: real, after: real)
    requires 0.0 < interval && 0.0 < time && Within(time, turns, interval)
    requires after <= time - (if interval < time then interval else time)
    ensures Within(after, turns - 1.0, interval) && turns > 0.0 && (turns - 1.0).Floor == turns.Floor - 1
  {
    assert (turns - 1.0) * interval == turns * interval - interval;
    if turns <= 1.0 {
      assert (turns - 1.0) * interval <= 0.0;
    }
  }

  lemma SplitMoves(targets: map<Id, string>, confirmed: set<Id>, pending: set<Id>, run: Id)
    requires Splits(targets, confirmed, pending) && run in pending
    ensures Splits(targets, confirmed + {run}, pending - {run}) && run in targets && run !in confirmed
  {
  }

  // The budget, or why the wait ends here.
  method Budget(deadline: ControlDeadline) returns (left: real, stop: Reason)
    requires deadline.Valid()
    modifies deadline, deadline.clock
    ensures deadline.Valid() && deadline.deadline == old(deadline.deadline) &&
      deadline.clock.now >= old(deadline.clock.now)
    ensures stop.Fine? || (stop.ClockUnconfirmed? && deadline.clock.LastFailed()) ||
      (stop.DeadlineExpired? && deadline.left == 0.0)
    ensures stop.Fine? ==> left == deadline.left > 0.0 && left == deadline.deadline - deadline.clock.now
  {
    var remaining := deadline.Remaining();
    left := if remaining.Some? then remaining.value else 0.0;
    stop := if remaining.None? then ClockUnconfirmed else if left == 0.0 then DeadlineExpired else Fine;
  }

  // One matching proof more.
  ghost predicate Recorded(before: seq<Proof>, recorded: seq<Proof>, run: Id, manager: string) {
    |recorded| == |before| + 1 && recorded[..|before|] == before &&
    var proof := recorded[|before|];
    proof.run == run && Matches(Some(proof), run, manager)
  }

  lemma AccountsGrow(targets: map<Id, string>, confirmed: set<Id>, recorded: seq<Proof>, more: seq<Proof>, run: Id)
    requires Accounts(targets, confirmed, recorded) && run !in confirmed && run in targets
    requires Recorded(recorded, more, run, targets[run])
    ensures Accounts(targets, confirmed + {run}, more)
  {
    forall r | r in confirmed + {run} ensures exists k :: 0 <= k < |more| && more[k].run == r {
      if r in confirmed {
        var k :| 0 <= k < |recorded| && recorded[k].run == r;
        assert more[..|recorded|][k] == recorded[k] == more[k];
      } else {
        assert more[|recorded|].run == r;
      }
    }
    assert more == recorded + [more[|recorded|]];
  }

  // One run of the round: look at the clock, observe, record a matching proof, look again.
  method Visit(run: Id, manager: string, deadline: ControlDeadline, world: World) returns (stop: Reason, saved: bool)
    requires deadline.Valid() && world.Valid()
    modifies deadline, deadline.clock, world
    ensures deadline.Valid() && deadline.deadline == old(deadline.deadline) &&
      deadline.clock.now >= old(deadline.clock.now)
    ensures world.Valid() && (saved ==> !stop.RecordUnconfirmed?)
    ensures world.recorded == old(world.recorded) ||
      ((saved || stop.RecordUnconfirmed?) && Recorded(old(world.recorded), world.recorded, run, manager))
    ensures saved ==> world.recorded != old(world.recorded)
    ensures world.known == if saved then world.revision else old(world.known)
    ensures IsTruthful(stop, deadline, world)
    ensures old(world.asked) == world.asked ==>
      !saved && (stop.ClockUnconfirmed? || stop.DeadlineExpired?) && world.seen == old(world.seen)
    ensures old(world.asked) < world.asked ==>
      world.seen == old(world.seen) + [run] && var answer := world.answers(old(world.asked));
      (stop.ObservationUnconfirmed? <==> answer.Raises?) &&
      if answer.Gives? && Matches(answer.proof, run, manager) then
        var fate := world.fates(old(world.asked) + 1);
        && (saved <==> fate.Kept?) && (stop.RecordUnconfirmed? <==> !fate.Kept?)
        && world.recorded == if fate.Refused? then old(world.recorded) else old(world.recorded) + [answer.proof.value]
      else !saved && !stop.RecordUnconfirmed? && world.recorded == old(world.recorded)
    ensures stop.Fine? ==> world.asked > old(world.asked)
  {
    saved := false;
    var left: real;
    left, stop := Budget(deadline);
    if !stop.Fine? {
      return;
    }
    var answer := world.Observe(run, manager);
    if answer.Raises? {
      return ObservationUnconfirmed, false;
    }
    var proof := answer.proof;
    if Matches(proof, run, manager) {
      saved := world.Record(proof.value);
      if !saved {
        return RecordUnconfirmed, false;
      }
    }
    left, stop := Budget(deadline);
  }

  ghost predicate Underway(targets: map<Id, string>, confirmed: set<Id>, pending: set<Id>, world: World)
    reads world
  {
    world.Valid() && Splits(targets, confirmed, pending) && Accounts(targets, confirmed, world.recorded) &&
    world.known == world.revision
  }

  // How a wait may end.
  ghost predicate Ended(targets: map<Id, string>, w: Waited, world: World)
    reads world
  {
    world.Valid() && Splits(targets, w.confirmed, w.pending) && Accounted(targets, w, world.recorded) &&
    world.known == world.initial + |w.confirmed| &&
    world.revision == if AllButOne(targets, w, world.recorded) then world.known + 1 else world.known
  }

  lemma UnderwayEnds(targets: map<Id, string>, confirmed: set<Id>, pending: set<Id>, stop: Reason, world: World)
    requires Underway(targets, confirmed, pending, world)
    ensures Ended(targets, Result(confirmed, pending, stop), world)
  {
  }

  // The last record came through but its answer did not.
  lemma LostAnswer(targets: map<Id, string>, confirmed: set<Id>, pending: set<Id>, before: seq<Proof>, run: Id,
      world: World)
    requires Splits(targets, confirmed, pending) && Accounts(targets, confirmed, before) && run in pending
    requires world.Valid() && world.known == world.initial + |before|
    requires run in targets && Recorded(before, world.recorded, run, targets[run])
    ensures Ended(targets, Result(confirmed, pending, RecordUnconfirmed), world)
  {
    assert world.recorded[..|world.recorded| - 1] == before;
  }

  // These runs, and each of them once, were observed in between.
  ghost predicate Observed(before: seq<Id>, seen: seq<Id>, runs: set<Id>) {
    && before <= seen && |seen| == |before| + |runs|
    && forall run | run in runs :: exists k :: |before| <= k < |seen| && seen[k] == run
  }

  lemma NoneObserved(seen: seq<Id>)
    ensures Observed(seen, seen, {})
  {
  }

  lemma StillFine(deadline: ControlDeadline, world: World)
    ensures IsTruthful(Fine, deadline, world)
  {
  }

  lemma ObservedMore(before: seq<Id>, seen: seq<Id>, runs: set<Id>, run: Id)
    requires Observed(before, seen, runs) && run !in runs
    ensures Observed(before, seen + [run], runs + {run})
  {
    var more := seen + [run];
    forall r | r in runs + {run}
      ensures exists k :: |before| <= k < |more| && more[k] == r
    {
      if r in runs {
        var k :| |before| <= k < |seen| && seen[k] == r;
        assert more[k] == r;
      } else {
        assert more[|seen|] == r;
      }
    }
  }

  // One run visited: a confirmed one leaves the pending runs.
  method Take(targets: map<Id, string>, before: set<Id>, waiting: set<Id>, run: Id, deadline: ControlDeadline,
      world: World) returns (stop: Reason, confirmed: set<Id>, pending: set<Id>)
    requires deadline.Valid() && Underway(targets, before, waiting, world) && run in waiting
    modifies deadline, deadline.clock, world
    ensures deadline.Valid() && world.Valid() && waiting - {run} <= pending <= waiting
    ensures stop.Fine? ==> Underway(targets, confirmed, pending, world) && world.seen == old(world.seen) + [run]
    ensures Ended(targets, Result(confirmed, pending, stop), world) && IsTruthful(stop, deadline, world)
    ensures deadline.deadline == old(deadline.deadline) && deadline.clock.now >= old(deadline.clock.now)
  {
    hide Accounts, Splits, Matches, Ended, Recorded, IsTruthful;
    confirmed, pending := before, waiting;
    SplitMoves(targets, confirmed, pending, run);
    ghost var recorded := world.recorded;
    var saved: bool;
    stop, saved := Visit(run, targets[run], deadline, world);
    if saved {
      AccountsGrow(targets, confirmed, recorded, world.recorded, run);
      pending := pending - {run};
      confirmed := confirmed + {run};
    }
    if !saved && world.recorded != recorded {
      LostAnswer(targets, confirmed, pending, recorded, run, world);
    } else {
      UnderwayEnds(targets, confirmed, pending, stop, world);
    }
  }

  // One round over the runs still pending.
  method Round(targets: map<Id, string>, before: set<Id>, waiting: set<Id>, deadline: ControlDeadline, world: World)
    returns (stop: Reason, confirmed: set<Id>, pending: set<Id>)
    requires deadline.Valid() && Underway(targets, before, waiting, world)
    modifies deadline, deadline.clock, world
    ensures deadline.Valid() && world.Valid() && pending <= waiting
    ensures stop.Fine? ==> Underway(targets, confirmed, pending, world)
    ensures Ended(targets, Result(confirmed, pending, stop), world)
    ensures deadline.deadline == old(deadline.deadline) && deadline.clock.now >= old(deadline.clock.now)
    ensures IsTruthful(stop, deadline, world)
    ensures stop.Fine? ==> Observed(old(world.seen), world.seen, waiting)
  {
    hide Underway, Ended, Observed, IsTruthful;
    confirmed, pending, stop := before, waiting, Fine;
    var todo := pending;
    ghost var visited: set<Id> := {};
    NoneObserved(world.seen);
    StillFine(deadline, world);
    while todo != {}
      invariant todo <= pending <= waiting && stop.Fine?
      invariant visited + todo == waiting && visited !! todo && Observed(old(world.seen), world.seen, visited)
      invariant deadline.Valid() && Underway(targets, confirmed, pending, world) && IsTruthful(stop, deadline, world)
      invariant deadline.deadline == old(deadline.deadline) && deadline.clock.now >= old(deadline.clock.now)
      decreases |todo|
    {
      var run :| run in todo;
      todo := todo - {run};
      ghost var seen := world.seen;
      stop, confirmed, pending := Take(targets, confirmed, pending, run, deadline, world);
      if !stop.Fine? {
        return;
      }
      ObservedMore(old(world.seen), seen, visited, run);
      visited := visited + {run};
    }
    UnderwayEnds(targets, confirmed, pending, stop, world);
  }

  // One sleep between two rounds, no longer than the time left.
  method Pause(deadline: ControlDeadline, interval: real) returns (stop: Reason, ghost left: real)
    requires deadline.Valid() && 0.0 < interval <= 1.0
    modifies deadline, deadline.clock
    ensures deadline.Valid() && deadline.deadline == old(deadline.deadline)
    ensures stop.DeadlineExpired? ==> deadline.left == 0.0
    ensures stop.ClockUnconfirmed? || stop.WaitUnconfirmed? ==> deadline.clock.LastFailed()
    ensures !stop.RecordUnconfirmed? && !stop.ObservationUnconfirmed?
    ensures stop.Fine? ==>
      0.0 < left <= deadline.deadline - old(deadline.clock.now) &&
      deadline.deadline - deadline.clock.now <= left - (if interval < left then interval else left)
  {
    var budget: real;
    budget, stop := Budget(deadline);
    left := budget;
    if stop.Fine? {
      var slept := deadline.clock.Sleep(if interval < budget then interval else budget);
      stop := if slept then Fine else WaitUnconfirmed;
    }
  }

  method WaitForRelease(targets: map<Id, string>, deadline: ControlDeadline, world: World, interval: real)
      returns (r: Waited)
    requires targets.Keys != {} && deadline.Valid() && world.Valid() && world.recorded == [] &&
      world.known == world.initial && 0.0 < interval <= 1.0
    modifies deadline, deadline.clock, world
    ensures Ended(targets, r, world) && RecordedOnce(world.recorded)
    ensures r.exitCode == 0 <==> r.reason.Fine?
    ensures r.exitCode == 0 ==> r.pending == {}
    ensures IsTruthful(r.reason, deadline, world)
  {
    hide Accounts, Splits, Matches, Within, Ended, Observed;
    var pending := targets.Keys;
    var confirmed: set<Id> := {};
    ghost var turns := deadline.left / interval;
    assert turns * interval == deadline.left;
    NothingYet(targets);
    AllTimeLeft(deadline.deadline - deadline.clock.now, deadline.left, turns, interval);
    while pending != {}
      invariant deadline.Valid() && Underway(targets, confirmed, pending, world)
      invariant Within(deadline.deadline - deadline.clock.now, turns, interval)
      decreases |pending|, turns.Floor
    {
      ghost var time, waiting := deadline.deadline - deadline.clock.now, pending;
      var stop: Reason;
      stop, confirmed, pending := Round(targets, confirmed, pending, deadline, world);
      Fewer(pending, waiting);
      if !stop.Fine? {
        r := Result(confirmed, pending, stop);
        EndedOnce(targets, r, world);
        return;
      }
      if pending != {} {
        ghost var left: real;
        stop, left := Pause(deadline, interval);
        if !stop.Fine? {
          r := Result(confirmed, pending, stop);
          UnderwayEnds(targets, confirmed, pending, stop, world);
          EndedOnce(targets, r, world);
          return;
        }
        LessTime(time, left, turns, interval);
        SleepFits(left, turns, interval, deadline.deadline - deadline.clock.now);
        turns := turns - 1.0;
      } else {
        LessTime(time, deadline.deadline - deadline.clock.now, turns, interval);
      }
    }
    r := Result(confirmed, pending, Fine);
    UnderwayEnds(targets, confirmed, pending, Fine, world);
    EndedOnce(targets, r, world);
  }

  lemma EndedOnce(targets: map<Id, string>, w: Waited, world: World)
    requires Ended(targets, w, world)
    ensures RecordedOnce(world.recorded)
  {
    AtMostOnceDurable(targets, w, world.recorded);
  }

  // The runs, and the revision as far as the answers tell it.
  datatype BatchWaited = BatchWaited(waited: Waited, revision: nat)

  // The same wait over a batch: runs whose exit is already saved count as confirmed and are neither
  // observed nor recorded again; the revision returned moves by the runs newly confirmed, and the durable
  // one may be one ahead. A batch that is not open, or no longer being stopped, is refused before anything
  // is read.
  method WaitForBatchRelease(waits: bool, managers: map<Id, string>, existing: set<Id>, deadline: ControlDeadline,
      world: World, interval: real)
    returns (r: Result<BatchWaited>)
    requires existing <= managers.Keys && deadline.Valid() && world.Valid() && world.recorded == [] &&
      world.known == world.initial && 0.0 < interval <= 1.0
    modifies deadline, deadline.clock, world
    ensures r.Ok? <==> waits
    ensures r.Conflict? ==> world.recorded == [] && world.revision == old(world.revision)
    ensures r.Ok? ==>
              var w := r.value.waited;
              && Splits(managers, w.confirmed, w.pending) && existing <= w.confirmed
              && Ended(managers - existing, w.(confirmed := w.confirmed - existing), world)
              && RecordedOnce(world.recorded) && r.value.revision == world.initial + |w.confirmed - existing|
              && (w.exitCode == 0 <==> w.reason.Fine?) && (w.exitCode == 0 ==> w.pending == {})
              && IsTruthful(w.reason, deadline, world)
  {
    if !waits {
      return Conflict;
    }
    var targets := managers - existing;
    if targets.Keys == {} {
      forall run | run in managers.Keys ensures run in existing {
        assert run !in targets.Keys;
      }
      assert managers.Keys == existing;
      var expired := deadline.Expired();
      var reason := if expired.None? then ClockUnconfirmed else if expired.value then DeadlineExpired else Fine;
      r := Ok(BatchWaited(Result(existing, {}, reason), world.known));
      NothingYet(targets);
      assert existing - existing == {};
      UnderwayEnds(targets, {}, {}, reason, world);
    } else {
      var waited := WaitForRelease(targets, deadline, world, interval);
      BatchSplits(managers, existing, waited.confirmed, waited.pending);
      r := Ok(BatchWaited(waited.(confirmed := existing + waited.confirmed), world.known));
    }
  }

  lemma BatchSplits(managers: map<Id, string>, existing: set<Id>, confirmed: set<Id>, pending: set<Id>)
    requires existing <= managers.Keys && Splits(managers - existing, confirmed, pending)
    ensures Splits(managers, existing + confirmed, pending) && (existing + confirmed) - existing == confirmed
  {
    assert managers.Keys == existing + (managers - existing).Keys;
  }

  lemma AllTimeLeft(time: real, left: real, turns: real, interval: real)
    requires time <= left && turns * interval == left && interval > 0.0 && left >= 0.0
    ensures Within(time, turns, interval)
  {
    assert turns <= 0.0 ==> turns * interval <= 0.0;
  }

  lemma LessTime(time: real, less: real, turns: real, interval: real)
    requires less <= time && Within(time, turns, interval)
    ensures Within(less, turns, interval)
  {
  }

  lemma Fewer(some: set<Id>, all: set<Id>)
    requires some <= all
    ensures |some| <= |all|
  {
    if some != all {
      assert |all - some| == |all| - |some|;
    }
  }

  lemma NothingYet(targets: map<Id, string>)
    ensures Splits(targets, {}, targets.Keys) && Accounts(targets, {}, [])
  {
  }
}
