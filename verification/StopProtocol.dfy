/** Stopping runs of one registry: install a fence with its recovery snapshot, post stop requests,
    close the batch. Every call is the list of durable states it passes through. */
module StopProtocol {
  import opened Wrappers

  type Id = string
  type Digest = string

  datatype Lifecycle = Active | Unknown | Idle
  // identity stands for every field but the lifecycle and the process observation.
  datatype Record = Record(identity: string, state: Lifecycle)
  datatype Snapshot = Snapshot(plan: Digest, stopOnly: bool, records: map<Id, Record>)
  // A linked fence carries the digest of its batch's snapshot; older fences have none.
  datatype Fence = Fence(batch: Id, plan: Digest, linked: bool)
  datatype Reason = Stopped | Cancelled
  datatype Close = Close(plan: Digest, fence: Fence, reason: Reason, records: map<Id, Record>)
  datatype Request = Request(batch: Id, plan: Digest, run: Id)

  datatype Store = Store(records: map<Id, Record>, snapshots: map<Id, Snapshot>, fence: Option<Fence>, closes: map<Id,
    Close>,
                         posted: map<Id, Request>, sent: set<Id>)

  datatype Outcome = Done | Refused
  datatype Run = Run(states: seq<Store>, outcome: Outcome)
  {
    function End(): Store
      requires states != []
    {
      states[|states| - 1]
    }
  }

  predicate IsLinked(s: Store, f: Fence) {
    f.linked ==> f.batch in s.snapshots && s.snapshots[f.batch].plan == f.plan
  }

  predicate IsUnchanged(before: Record, current: Record) {
    before.identity == current.identity
  }

  predicate IsClosable(s: Store, run: Id, reason: Reason)
    requires run in s.records
  {
    s.records[run].state.Idle? || (reason.Cancelled? && s.records[run].state.Active? && run !in s.posted &&
      run !in s.sent)
  }

  // Every selected run is the recorded one and may be closed for this reason.
  predicate Qualifies(s: Store, snapshot: Snapshot, reason: Reason) {
    forall run | run in snapshot.records.Keys ::
      run in s.records && IsUnchanged(snapshot.records[run], s.records[run]) && IsClosable(s, run, reason)
  }

  // What reading a close record back checks.
  predicate ValidClose(s: Store, batch: Id)
    requires batch in s.closes
  {
    var close := s.closes[batch];
    && close.fence.batch == batch && close.fence.plan == close.plan && close.fence.linked && IsLinked(s, close.fence)
    && s.snapshots[batch].stopOnly && close.records.Keys == s.snapshots[batch].records.Keys
    && forall run | run in close.records.Keys ::
         IsUnchanged(s.snapshots[batch].records[run], close.records[run]) &&
         (close.records[run].state.Idle? || (close.reason.Cancelled? && close.records[run].state.Active?))
  }

  function Restricted(records: map<Id, Record>, runs: set<Id>): map<Id, Record> {
    map run | run in runs && run in records :: records[run]
  }

  // install: the snapshot first, then the fence. allowed is the reviewed callback's verdict.
  function InstallRun(s: Store, batch: Id, plan: Digest, expected: map<Id, Record>, snapshot: Option<Snapshot>,
      allowed: bool): (r: Run)
    ensures r.states != [] && r.states[0] == s
  {
    if s.records != expected || expected.Keys == {} || s.fence.Some? || !allowed then Run([s], Refused)
    else if snapshot.None? then Run([s, s.(fence := Some(Fence(batch, plan, false)))], Done)
    else if snapshot.value.plan != plan || batch in s.snapshots || !(snapshot.value.records.Keys <= s.records.Keys) ||
            snapshot.value.records != Restricted(s.records, snapshot.value.records.Keys) then Run([s], Refused)
    else
      var saved := s.(snapshots := s.snapshots[batch := snapshot.value]);
      Run([s, saved, saved.(fence := Some(Fence(batch, plan, true)))], Done)
  }

  // publish_request, under the same owner lock as close_stop. ready: endpoint, processes and deadline.
  function PublishRun(s: Store, request: Request, expected: Record, ready: bool): (r: Run)
    ensures r.states != [] && r.states[0] == s
  {
    if request.batch in s.closes || s.fence.None? || !IsLinked(s, s.fence.value) then Run([s], Refused)
    else
      var fence := s.fence.value;
      if fence.batch != request.batch || fence.plan != request.plan || !fence.linked ||
        !s.snapshots[fence.batch].stopOnly then Run([s], Refused)
      else
        var snapshot := s.snapshots[fence.batch];
        var run := request.run;
        if !(run in snapshot.records && run in s.records && s.records[run] == expected &&
          snapshot.records[run] == expected) then Run([s], Refused)
        else if !(ready && expected.state.Active? && run !in s.posted && run !in s.sent) then Run([s], Refused)
        else Run([s, s.(posted := s.posted[run := request])], Done)
  }

  // close_stop: the close record first, then the fence is removed.
  function CloseRun(s: Store, batch: Id, plan: Digest, reason: Reason): (r: Run)
    ensures r.states != [] && r.states[0] == s
  {
    if (batch in s.closes && !ValidClose(s, batch)) ||
      (s.fence.Some? && !IsLinked(s, s.fence.value)) then Run([s], Refused)
    else if batch in s.closes && (s.closes[batch].plan != plan || s.closes[batch].reason != reason) then
      Run([s], Refused)
    else if batch in s.closes && (s.fence.None? || s.fence.value.batch != batch) then Run([s], Done)
    else if batch in s.closes && s.closes[batch].fence != s.fence.value then Run([s], Refused)
    else if s.fence.None? || s.fence.value.batch != batch || s.fence.value.plan != plan ||
      !s.fence.value.linked then Run([s], Refused)
    else
      var snapshot := s.snapshots[batch];
      if !snapshot.stopOnly || !Qualifies(s, snapshot, reason) then Run([s], Refused)
      else if batch in s.closes then Run([s, s.(fence := None)], Done)
      else
        var closed := s.(closes := s.closes[batch :=
          Close(plan, s.fence.value, reason, Restricted(s.records, snapshot.records.Keys))]);
        Run([s, closed, closed.(fence := None)], Done)
  }

  // ---- Whole runs: calls die after any number of durable writes, records move on by themselves ----

  datatype Event =
    | Install(batch: Id, plan: Digest, expected: map<Id, Record>, snapshot: Option<Snapshot>, allowed: bool, alive: nat)
    | Publish(request: Request, record: Record, ready: bool, alive: nat)
    | CloseStop(batch: Id, plan: Digest, reason: Reason, alive: nat)
    | Register(run: Id, record: Record)
    | Observe(run: Id, record: Record)
    | Begin(run: Id)

  function Landing(r: Run, alive: nat): Store
    requires r.states != []
  {
    if alive < |r.states| then r.states[alive] else r.End()
  }

  function Next(s: Store, e: Event): Store {
    match e
    case Install(batch, plan, expected, snapshot, allowed,
      alive) => Landing(InstallRun(s, batch, plan, expected, snapshot, allowed), alive)
    case Publish(request, record, ready, alive) => Landing(PublishRun(s, request, record, ready), alive)
    case CloseStop(batch, plan, reason, alive) => Landing(CloseRun(s, batch, plan, reason), alive)
    case Register(run, record) => if run in s.records || s.fence.Some? then s
      else s.(records := s.records[run := record])
    case Observe(run, record) => if run in s.records then s.(records := s.records[run := record]) else s
    case Begin(run) => if run in s.posted && run !in s.sent then s.(sent := s.sent + {run}) else s
  }

  function Reached(s: Store, es: seq<Event>): Store {
    if es == [] then s else Next(Reached(s, es[..|es| - 1]), es[|es| - 1])
  }

  const EMPTY_STORE := Store(map[], map[], None, map[], map[], {})
}

/** Publishing and cancelling never cross: what a closed batch may still do, and why closing again
    always gets through. */
module StopSafety {
  import opened Wrappers
  import opened StopProtocol

  // ---- The invariant ----

  ghost predicate RequestGood(s: Store, run: Id)
    requires run in s.posted
  {
    var q := s.posted[run];
    && q.run == run && q.batch in s.snapshots && s.snapshots[q.batch].plan == q.plan &&
      run in s.snapshots[q.batch].records && s.snapshots[q.batch].records[run].state.Active?
    && (q.batch in s.closes ==> run in s.closes[q.batch].records && s.closes[q.batch].records[run].state.Idle?)
  }

  ghost predicate Good(s: Store) {
    && (s.fence.Some? ==> IsLinked(s, s.fence.value))
    && (forall b | b in s.closes.Keys :: ValidClose(s, b))
    && (s.fence.Some? && s.fence.value.linked && s.fence.value.batch in s.closes ==>
      s.closes[s.fence.value.batch].fence == s.fence.value)
    && (forall run | run in s.posted.Keys :: RequestGood(s, run))
    && s.sent <= s.posted.Keys
  }

  lemma SnapshotKeepsGood(s: Store, batch: Id, snapshot: Snapshot)
    requires Good(s) && batch !in s.snapshots
    ensures Good(s.(snapshots := s.snapshots[batch := snapshot])) && batch !in s.closes
  {
    var v := s.(snapshots := s.snapshots[batch := snapshot]);
    forall b | b in v.closes.Keys ensures ValidClose(v, b) && b != batch {
      assert ValidClose(s, b);
    }
    forall run | run in v.posted.Keys ensures RequestGood(v, run) {
      assert RequestGood(s, run);
    }
  }

  lemma FenceKeepsGood(s: Store, f: Fence)
    requires Good(s) && IsLinked(s, f) && (f.linked ==> f.batch !in s.closes)
    ensures Good(s.(fence := Some(f)))
  {
    var v := s.(fence := Some(f));
    assert forall b | b in v.closes.Keys :: ValidClose(s, b);
    assert forall run | run in v.posted.Keys :: RequestGood(s, run);
  }

  lemma InstallKeepsGood(s: Store, e: Event)
    requires Good(s) && e.Install?
    ensures Good(Next(s, e))
  {
    hide Good, Restricted, ValidClose;
    if e.snapshot.None? {
      FenceKeepsGood(s, Fence(e.batch, e.plan, false));
    } else if e.batch !in s.snapshots {
      SnapshotKeepsGood(s, e.batch, e.snapshot.value);
      if e.snapshot.value.plan == e.plan {
        FenceKeepsGood(s.(snapshots := s.snapshots[e.batch := e.snapshot.value]), Fence(e.batch, e.plan, true));
      }
    }
  }

  lemma PublishKeepsGood(s: Store, e: Event)
    requires Good(s) && e.Publish?
    ensures Good(Next(s, e))
  {
    var v := Next(s, e);
    assert forall b | b in v.closes.Keys :: ValidClose(s, b);
    forall run | run in v.posted.Keys ensures RequestGood(v, run) {
      if run in s.posted {
        assert RequestGood(s, run);
      }
    }
  }

  lemma CloseWrittenKeepsGood(s: Store, batch: Id, close: Close)
    requires Good(s) && batch !in s.closes && s.fence == Some(close.fence) && close.fence.linked &&
      close.fence.batch == batch
    requires var v := s.(closes := s.closes[batch := close]); ValidClose(v, batch)
    requires forall run | run in s.posted && s.posted[run].batch == batch ::
      run in close.records && close.records[run].state.Idle?
    ensures Good(s.(closes := s.closes[batch := close]))
  {
    var v := s.(closes := s.closes[batch := close]);
    forall b | b in v.closes.Keys ensures ValidClose(v, b) {
      if b != batch {
        assert ValidClose(s, b);
      }
    }
    forall run | run in v.posted.Keys ensures RequestGood(v, run) {
      assert RequestGood(s, run);
    }
  }

  lemma FenceGoneKeepsGood(s: Store)
    requires Good(s)
    ensures Good(s.(fence := None))
  {
    var v := s.(fence := None);
    assert forall b | b in v.closes.Keys :: ValidClose(s, b);
    assert forall run | run in v.posted.Keys :: RequestGood(s, run);
  }

  // A first close covers each posted run of its batch while that run is idle.
  lemma FirstCloseIsValid(s: Store, batch: Id, reason: Reason)
    requires Good(s) && batch !in s.closes && s.fence.Some? && s.fence.value.batch == batch && s.fence.value.linked
    requires batch in s.snapshots && s.snapshots[batch].stopOnly && Qualifies(s, s.snapshots[batch], reason)
    ensures var close := Close(s.fence.value.plan, s.fence.value, reason,
      Restricted(s.records, s.snapshots[batch].records.Keys));
            ValidClose(s.(closes := s.closes[batch := close]), batch) &&
            forall run | run in s.posted && s.posted[run].batch == batch :: run in close.records &&
              close.records[run].state.Idle?
  {
    forall run | run in s.posted && s.posted[run].batch == batch
      ensures run in s.snapshots[batch].records && run in s.records && s.records[run].state.Idle?
    {
      assert RequestGood(s, run);
    }
  }

  lemma CloseKeepsGood(s: Store, e: Event)
    requires Good(s) && e.CloseStop?
    ensures Good(Next(s, e))
  {
    hide Good, ValidClose, Qualifies, Restricted;
    FenceGoneKeepsGood(s);
    GoodFence(s);
    if s.fence.Some? && s.fence.value.batch == e.batch && s.fence.value.linked && s.fence.value.plan == e.plan &&
      e.batch !in s.closes {
      var snapshot := s.snapshots[e.batch];
      if snapshot.stopOnly && Qualifies(s, snapshot, e.reason) {
        var close := Close(e.plan, s.fence.value, e.reason, Restricted(s.records, snapshot.records.Keys));
        FirstCloseIsValid(s, e.batch, e.reason);
        CloseWrittenKeepsGood(s, e.batch, close);
        FenceGoneKeepsGood(s.(closes := s.closes[e.batch := close]));
      }
    }
  }

  lemma GoodFence(s: Store)
    requires Good(s)
    ensures s.fence.Some? ==> IsLinked(s, s.fence.value)
  {
  }

  lemma RecordsKeepGood(s: Store, records: map<Id, Record>)
    requires Good(s)
    ensures Good(s.(records := records))
  {
    var v := s.(records := records);
    assert forall b | b in v.closes.Keys :: ValidClose(s, b);
    assert forall run | run in v.posted.Keys :: RequestGood(s, run);
  }

  lemma SentKeepsGood(s: Store, run: Id)
    requires Good(s) && run in s.posted
    ensures Good(s.(sent := s.sent + {run}))
  {
    var v := s.(sent := s.sent + {run});
    assert forall b | b in v.closes.Keys :: ValidClose(s, b);
    assert forall r | r in v.posted.Keys :: RequestGood(s, r);
  }

  lemma RegisteredKeepsGood(s: Store, e: Event)
    requires Good(s) && (e.Register? || e.Observe?)
    ensures Good(Next(s, e))
  {
    hide Good;
    RecordsKeepGood(s, s.records[e.run := e.record]);
  }

  lemma BegunKeepsGood(s: Store, e: Event)
    requires Good(s) && e.Begin?
    ensures Good(Next(s, e))
  {
    hide Good;
    if e.run in s.posted {
      SentKeepsGood(s, e.run);
    }
  }

  lemma NextKeepsGood(s: Store, e: Event)
    requires Good(s)
    ensures Good(Next(s, e))
  {
    hide Good, Next;
    match e {
      case Install(_, _, _, _, _, _) => InstallKeepsGood(s, e);
      case Publish(_, _, _, _) => PublishKeepsGood(s, e);
      case CloseStop(_, _, _, _) => CloseKeepsGood(s, e);
      case Register(run, record) => RegisteredKeepsGood(s, e);
      case Observe(run, record) => RegisteredKeepsGood(s, e);
      case Begin(run) => BegunKeepsGood(s, e);
    }
  }

  lemma {:induction false} ReachedIsGood(s: Store, es: seq<Event>)
    requires Good(s)
    ensures Good(Reached(s, es))
    decreases |es|
  {
    if es != [] {
      ReachedIsGood(s, es[..|es| - 1]);
      NextKeepsGood(Reached(s, es[..|es| - 1]), es[|es| - 1]);
    }
  }

  // ---- A closed batch stays closed and gets no further request ----

  ghost predicate Quieter(s: Store, v: Store, batch: Id)
    requires batch in s.closes
  {
    batch in v.closes && v.closes[batch] == s.closes[batch] &&
    forall run | run in v.posted.Keys && v.posted[run].batch == batch :: run in s.posted &&
      s.posted[run] == v.posted[run]
  }

  lemma ClosedStaysQuiet(s: Store, e: Event, batch: Id)
    requires batch in s.closes
    ensures Quieter(s, Next(s, e), batch)
  {
  }

  lemma {:induction false} NoRequestAfterClose(s: Store, es: seq<Event>, batch: Id)
    requires batch in s.closes
    ensures Quieter(s, Reached(s, es), batch)
    decreases |es|
  {
    if es != [] {
      NoRequestAfterClose(s, es[..|es| - 1], batch);
      ClosedStaysQuiet(Reached(s, es[..|es| - 1]), es[|es| - 1], batch);
    }
  }

  // Over every run from an empty registry: a run closed while active never gets a request of that
  // batch, before or after; every run that did get one was confirmed idle by the close record.
  lemma CancelNeverCoversPostedRun(es: seq<Event>, batch: Id, run: Id)
    ensures var s := Reached(EMPTY_STORE, es);
            batch in s.closes && run in s.closes[batch].records && s.closes[batch].records[run].state.Active? ==>
              s.closes[batch].reason.Cancelled? && !(run in s.posted && s.posted[run].batch == batch)
    ensures var s := Reached(EMPTY_STORE, es);
            batch in s.closes && run in s.posted && s.posted[run].batch == batch ==>
              run in s.closes[batch].records && s.closes[batch].records[run].state.Idle?
  {
    ReachedIsGood(EMPTY_STORE, es);
    var s := Reached(EMPTY_STORE, es);
    if batch in s.closes {
      assert ValidClose(s, batch);
    }
    if run in s.posted {
      assert RequestGood(s, run);
    }
  }

  // Over every run: a request is only ever posted for a run that its batch's snapshot holds as active.
  lemma OnlyActiveRunsAreAsked(es: seq<Event>, run: Id)
    ensures var s := Reached(EMPTY_STORE, es);
            run in s.posted ==>
              var q := s.posted[run];
              q.run == run && q.batch in s.snapshots && s.snapshots[q.batch].plan == q.plan &&
              run in s.snapshots[q.batch].records && s.snapshots[q.batch].records[run].state.Active?
  {
    ReachedIsGood(EMPTY_STORE, es);
    if run in Reached(EMPTY_STORE, es).posted {
      assert RequestGood(Reached(EMPTY_STORE, es), run);
    }
  }

  // ---- A fence keeps new runs out ----

  lemma RunsStay(s: Store, e: Event)
    ensures s.records.Keys <= Next(s, e).records.Keys
    ensures s.fence.Some? ==> Next(s, e).records.Keys == s.records.Keys
  {
    hide Restricted, ValidClose, Qualifies, IsLinked;
  }

  // No run is ever forgotten, and while a fence is up no run is added.
  lemma {:induction false} FenceKeepsOut(s: Store, es: seq<Event>)
    ensures s.records.Keys <= Reached(s, es).records.Keys
    ensures (forall n | 0 <= n < |es| :: Reached(s, es[..n]).fence.Some?) ==>
              Reached(s, es).records.Keys == s.records.Keys
    decreases |es|
  {
    hide Next;
    if es != [] {
      var front := es[..|es| - 1];
      FenceKeepsOut(s, front);
      assert forall n | 0 <= n < |front| :: front[..n] == es[..n];
      RunsStay(Reached(s, front), es[|es| - 1]);
    }
  }

  // ---- When a call succeeds ----

  // A request is posted exactly if its batch is open, its own linked fence is up over a stop-only snapshot,
  // the run stands as the snapshot holds it and the caller saw it, is active, and was never asked before.
  // Then nothing but the request is written, otherwise nothing at all.
  lemma PublishOutcome(v: Store, request: Request, expected: Record, ready: bool)
    requires Good(v)
    ensures var run := PublishRun(v, request, expected, ready);
            (run.outcome == Done <==>
              && ready && request.batch !in v.closes && v.fence == Some(Fence(request.batch, request.plan, true))
              && request.batch in v.snapshots && v.snapshots[request.batch].stopOnly
              && request.run in v.snapshots[request.batch].records && request.run in v.records
              && v.snapshots[request.batch].records[request.run] == expected == v.records[request.run]
              && expected.state.Active? && request.run !in v.posted && request.run !in v.sent) &&
            (run.outcome == Done ==> run.states == [v, v.(posted := v.posted[request.run := request])]) &&
            (run.outcome == Refused ==> run.states == [v])
  {
  }

  // A fence goes up exactly if the registry is what was reviewed, holds a run, and has no fence, and its
  // snapshot, if it has one, is new and holds the chosen runs as they stand. The snapshot comes first.
  lemma InstallOutcome(v: Store, batch: Id, plan: Digest, expected: map<Id, Record>, snapshot: Option<Snapshot>,
      allowed: bool)
    ensures var run := InstallRun(v, batch, plan, expected, snapshot, allowed);
            (run.outcome == Done <==>
              && allowed && v.records == expected && expected != map[] && v.fence.None?
              && (snapshot.Some? ==>
                    snapshot.value.plan == plan && batch !in v.snapshots &&
                    forall id | id in snapshot.value.records ::
                      id in v.records && v.records[id] == snapshot.value.records[id])) &&
            (run.outcome == Done ==>
              run.End() == v.(fence := Some(Fence(batch, plan, snapshot.Some?)),
                snapshots := if snapshot.Some? then v.snapshots[batch := snapshot.value] else v.snapshots) &&
              (forall n | 0 <= n < |run.states| && run.states[n].fence.Some? && snapshot.Some? ::
                batch in run.states[n].snapshots)) &&
            (run.outcome == Refused ==> run.states == [v])
  {
    assert expected.Keys == {} <==> expected == map[];
    if snapshot.Some? {
      var chosen := snapshot.value.records;
      if forall id | id in chosen :: id in v.records && v.records[id] == chosen[id] {
        assert chosen.Keys <= v.records.Keys;
        assert chosen == Restricted(v.records, chosen.Keys);
      }
    }
  }

  // From fence to request: an active run of a stop-only snapshot can be asked to stop as soon as the fence
  // is up, while it stands as it was chosen.
  lemma FencedRunCanBeAsked(v: Store, batch: Id, plan: Digest, expected: map<Id, Record>, snapshot: Snapshot, run: Id)
    requires Good(v) && InstallRun(v, batch, plan, expected, Some(snapshot), true).outcome == Done
    requires snapshot.stopOnly && run in snapshot.records && snapshot.records[run].state.Active?
    requires run !in v.posted && run !in v.sent
    ensures var fenced := InstallRun(v, batch, plan, expected, Some(snapshot), true).End();
            PublishRun(fenced, Request(batch, plan, run), snapshot.records[run], true).outcome == Done
  {
    InstallOutcome(v, batch, plan, expected, Some(snapshot), true);
    assert batch in v.closes ==> ValidClose(v, batch);
  }

  // ---- Closing again ----

  // close_stop removes no fence but its own batch's, at any point of its run.
  lemma OtherFenceStays(s: Store, batch: Id, plan: Digest, reason: Reason, n: nat)
    requires n < |CloseRun(s, batch, plan, reason).states|
    ensures var v := CloseRun(s, batch, plan, reason).states[n];
            v.fence == s.fence || (s.fence.Some? && s.fence.value.batch == batch && s.fence.value.linked &&
              v.fence.None? && batch in v.closes)
  {
  }

  // Where the call stands: its fence is up, with or without the close record, or the close is finished.
  ghost predicate Fenced(s: Store, batch: Id, plan: Digest, reason: Reason) {
    s.fence == Some(Fence(batch, plan, true)) && batch in s.snapshots && s.snapshots[batch].stopOnly &&
    (batch in s.closes ==> s.closes[batch].reason == reason)
  }

  ghost predicate Finished(s: Store, batch: Id, plan: Digest, reason: Reason) {
    batch in s.closes && s.closes[batch].plan == plan && s.closes[batch].reason == reason &&
    (s.fence.Some? ==> s.fence.value.batch != batch)
  }

  // The selected run is recorded, by its identity the one selected, and idle; or, to cancel, active and
  // never asked to stop.
  ghost predicate MayClose(v: Store, batch: Id, run: Id, reason: Reason)
    requires batch in v.snapshots && run in v.snapshots[batch].records
  {
    run in v.records && v.records[run].identity == v.snapshots[batch].records[run].identity &&
    (v.records[run].state == Idle ||
      (reason == Cancelled && v.records[run].state == Active && run !in v.posted && run !in v.sent))
  }

  // When close_stop succeeds, whatever led to the store: it is finished, or its fence is up and the
  // selected runs may be closed. Success always ends finished and leaves every other batch's fence.
  lemma CloseOutcome(v: Store, batch: Id, plan: Digest, reason: Reason)
    requires Good(v)
    ensures var again := CloseRun(v, batch, plan, reason);
            (again.outcome == Done <==>
              Finished(v, batch, plan, reason) || (Fenced(v, batch, plan, reason) &&
                forall run | run in v.snapshots[batch].records :: MayClose(v, batch, run, reason))) &&
            (again.outcome == Done ==> Finished(again.End(), batch, plan, reason)) &&
            (v.fence.Some? && v.fence.value.batch != batch ==> again.End().fence == v.fence)
  {
    assert batch in v.snapshots ==> (Qualifies(v, v.snapshots[batch], reason) <==>
      forall run | run in v.snapshots[batch].records :: MayClose(v, batch, run, reason));
    if batch in v.closes {
      assert ValidClose(v, batch);
    }
  }

  // Nobody else closes this batch with another plan or reason, or fences it again without a snapshot.
  // Requests may be posted and any run may move on.
  predicate Agrees(e: Event, batch: Id, plan: Digest, reason: Reason) {
    (e.CloseStop? && e.batch == batch ==> e.plan == plan && e.reason == reason) &&
      (e.Install? && e.batch == batch ==> e.snapshot.Some?)
  }

  lemma StaysUnderway(s: Store, e: Event, batch: Id, plan: Digest, reason: Reason)
    requires Good(s) && (Fenced(s, batch, plan, reason) || Finished(s, batch, plan, reason)) &&
      Agrees(e, batch, plan, reason)
    ensures Fenced(Next(s, e), batch, plan, reason) || Finished(Next(s, e), batch, plan, reason)
  {
    hide Qualifies;
    if Finished(s, batch, plan, reason) {
      assert ValidClose(s, batch);
    }
  }

  lemma {:induction false} StaysUnderwayThrough(s: Store, es: seq<Event>, batch: Id, plan: Digest, reason: Reason)
    requires Good(s) && (Fenced(s, batch, plan, reason) || Finished(s, batch, plan, reason))
    requires forall n | 0 <= n < |es| :: Agrees(es[n], batch, plan, reason)
    ensures var v := Reached(s, es);
            Good(v) && (Fenced(v, batch, plan, reason) || Finished(v, batch, plan, reason))
    decreases |es|
  {
    hide Good, Fenced, Finished, Next, Agrees;
    ReachedIsGood(s, es);
    if es != [] {
      var front := es[..|es| - 1];
      StaysUnderwayThrough(s, front, batch, plan, reason);
      ReachedIsGood(s, front);
      StaysUnderway(Reached(s, front), es[|es| - 1], batch, plan, reason);
    }
  }

  lemma UnderwayQualifies(v: Store, batch: Id, plan: Digest, reason: Reason)
    requires Good(v) && (Fenced(v, batch, plan, reason) || Finished(v, batch, plan, reason))
    ensures batch in v.snapshots
    ensures CloseRun(v, batch, plan, reason).outcome == Done <==>
            Finished(v, batch, plan, reason) || Qualifies(v, v.snapshots[batch], reason)
  {
    if batch in v.closes {
      assert ValidClose(v, batch);
    }
    hide ValidClose, Good;
    CloseOutcome(v, batch, plan, reason);
  }

  // The first call may die at any durable write, with requests posted and runs moving on around it:
  // a later call of close_stop succeeds if and only if the close is finished or the selected runs
  // qualify then. It ends with the close there and its fence gone, and any other batch's fence where
  // it was.
  lemma ClosingGetsThrough(s: Store, es: seq<Event>, batch: Id, plan: Digest, reason: Reason)
    requires Good(s) && (Fenced(s, batch, plan, reason) || Finished(s, batch, plan, reason))
    requires forall n | 0 <= n < |es| :: Agrees(es[n], batch, plan, reason)
    ensures var v := Reached(s, es);
            Good(v) && batch in v.snapshots && (Fenced(v, batch, plan, reason) || Finished(v, batch, plan, reason)) &&
            var again := CloseRun(v, batch, plan, reason);
            (again.outcome == Done <==> Finished(v, batch, plan, reason) || Qualifies(v, v.snapshots[batch], reason)) &&
            (again.outcome == Done ==> Finished(again.End(), batch, plan, reason)) &&
            (v.fence.Some? && v.fence.value.batch != batch ==> again.End().fence == v.fence)
  {
    hide Good, Fenced, Finished, Qualifies, CloseRun, Agrees, MayClose;
    StaysUnderwayThrough(s, es, batch, plan, reason);
    UnderwayQualifies(Reached(s, es), batch, plan, reason);
    CloseOutcome(Reached(s, es), batch, plan, reason);
  }

  // Once the close is written, the retry depends on the selected runs alone: still recorded,
  // unchanged, and idle, or for a cancellation active and never asked to stop.
  lemma InterruptedCloseRetries(s: Store, batch: Id)
    requires Good(s) && batch in s.closes && s.fence.Some? && s.fence.value.batch == batch && s.fence.value.linked
    ensures ValidClose(s, batch)
    ensures CloseRun(s, batch, s.closes[batch].plan, s.closes[batch].reason).outcome == Done <==>
            Qualifies(s, s.snapshots[batch], s.closes[batch].reason)
  {
    assert ValidClose(s, batch);
  }
}
