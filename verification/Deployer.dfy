/** The deployer in place. An Instance performs the durable steps of deployment.py one at a time and
    may die before any of them; every method is proved to walk exactly the run computed by the
    function of the same name, up to the step where the process dies. */
module Deployer {
  import opened Wrappers
  import opened NativeDocument
  import opened DocumentEditor
  import opened Deployment
  import opened DeploymentPlan

  datatype Ending = Finished | Failed | Died

  // The process survives `alive` durable steps of the run.
  predicate Walks(run: Run, before: nat, disk: Disk, alive: nat, end: Ending)
    requires run.disks != []
  {
    if before + 1 < |run.disks| then end == Died && disk == run.disks[before]
    else disk == run.End() && alive == before + 1 - |run.disks| && end == if run.outcome.Done? then Finished else Failed
  }

  method ListPaths(cs: seq<Change>) returns (paths: seq<string>)
    ensures paths == Paths(cs)
  {
    paths := [];
    assert cs[..0] == [];
    for i := 0 to |cs|
      invariant paths == Paths(cs[..i])
    {
      assert cs[..i + 1][..i] == cs[..i];
      if cs[i].key.path !in paths {
        paths := paths + [cs[i].key.path];
      }
    }
    assert cs[..|cs|] == cs;
  }

  method SelectGroup(cs: seq<Change>, path: string) returns (group: seq<Change>)
    ensures group == Group(cs, path)
  {
    group := [];
    assert cs[..0] == [];
    for i := 0 to |cs|
      invariant group == Group(cs[..i], path)
    {
      assert cs[..i + 1][..i] == cs[..i];
      if cs[i].key.path == path {
        group := group + [cs[i]];
      }
    }
    assert cs[..|cs|] == cs;
  }

  class Instance {
    var files: Files
    var saved: Saved
    var pending: Option<Journal>
    var prepared: seq<Launch>
    // How many more durable steps the process survives.
    var alive: nat

    function State(): Disk
      reads this
    {
      Disk(files, saved, pending, prepared)
    }

    constructor (disk: Disk, alive: nat)
      ensures State() == disk && this.alive == alive
    {
      files, saved, pending, prepared := disk.files, disk.saved, disk.pending, disk.prepared;
      this.alive := alive;
    }

    // One durable step, or death just before it.
    method Store(next: Disk) returns (ok: bool)
      modifies this
      ensures ok <==> old(alive) > 0
      ensures ok ==> State() == next && alive == old(alive) - 1
      ensures !ok ==> State() == old(State()) && alive == old(alive)
    {
      ok := alive > 0;
      if ok {
        files, saved, pending, prepared := next.files, next.saved, next.pending, next.prepared;
        alive := alive - 1;
      }
    }

    method RewriteGroup(group: seq<Change>, document: Doc) returns (r: Result<Draft>)
      requires document.Dict?
      ensures r == DraftAll(files, Draft(document, false, None, "0600"), group)
    {
      var native := new NativeFile(document);
      var draft := Draft(document, false, None, "0600");
      for i := 0 to |group|
        invariant native.root == draft.document && draft.document.Dict? && fresh(native)
        invariant DraftAll(files, draft, group[i..]) == DraftAll(files, Draft(document, false, None, "0600"), group)
      {
        var c := group[i];
        assert group[i..][1..] == group[i + 1..];
        var current: Result<Projection>;
        if c.key.selector != [] {
          current := native.GetField(c.key.selector);
        } else {
          current := Project(files, c.key, c.codec);
        }
        if current.Conflict? {
          return Conflict;
        }
        if current.value != c.after {
          if current.value != c.before {
            return Conflict;
          }
          draft := draft.(changed := true);
          if c.key.selector != [] {
            var ok := native.PutField(c.key.selector, c.after);
            if !ok {
              return Conflict;
            }
            if c.after.None? {
              native.PruneCreatedParents(c.parents);
            }
            draft := draft.(document := native.root);
          } else if c.after.Some? {
            if !IsWhole(c.after.value) {
              return Conflict;
            }
            draft := draft.(content := Some(c.after.value.entries["bytes"]),
              mode := c.after.value.entries["mode"].text);
          }
        }
      }
      r := Ok(draft);
    }

    method ComposeFile(path: string, group: seq<Change>) returns (r: Result<Option<Files>>)
      requires group != []
      ensures r == WriteGroup(files, path, group)
    {
      var document := if group[0].key.selector != [] then Document(files, path, group[0].codec) else Ok(EMPTY);
      if document.Conflict? {
        return Conflict;
      }
      var draft := RewriteGroup(group, document.value);
      if draft.Conflict? {
        return Conflict;
      }
      r := Ok(if draft.value.changed then Some(SetFile(files, path, Finish(draft.value, group))) else None);
    }

    method WriteChanges(cs: seq<Change>) returns (end: Ending)
      modifies this
      ensures Walks(WriteRun(old(State()), cs, Paths(cs)), old(alive), State(), alive, end)
    {
      hide WriteGroup, Group, Paths, WriteRun;
      var paths := ListPaths(cs);
      ghost var whole := WriteRun(State(), cs, paths);
      ghost var done: seq<Disk> := [];
      for i := 0 to |paths|
        invariant whole == Then(done, WriteRun(State(), cs, paths[i..])) && |done| + alive == old(alive)
      {
        GroupNonempty(cs, paths[i]);
        var group := SelectGroup(cs, paths[i]);
        var written := ComposeFile(paths[i], group);
        WriteUnfolds(done, State(), cs, paths, i);
        if written.Conflict? {
          return Failed;
        }
        if written.value.Some? {
          ghost var here := State();
          var ok := Store(State().(files := written.value.value));
          if !ok {
            return Died;
          }
          done := done + [here];
        }
      }
      WriteUnfolds(done, State(), cs, paths, |paths|);
      end := Finished;
    }

    method Recover(prepare: Prepare) returns (end: Ending)
      modifies this
      ensures Walks(RecoverRun(old(State()), prepare), old(alive), State(), alive, end)
    {
      hide WriteRun, Paths, RecoverRun;
      ghost var start, budget := State(), alive;
      NoRecovery(start, prepare);
      if pending.None? {
        return Finished;
      }
      var journal := pending.value;
      if journal.prepares && prepare.None? {
        return Failed;
      }
      RecoverOpens(start, prepare);
      ghost var written := Undone(start);
      if saved != journal.after {
        end := WriteChanges(ReverseChanges(journal.changes));
        if end.Died? || end.Failed? {
          return;
        }
      }
      ghost var done := written.disks[..|written.disks| - 1];
      assert done + [State()] == written.disks;
      end := Clear(journal, prepare, done, budget, RecoverRun(start, prepare));
    }

    // The second half of a recovery: prepare the surviving launch, then remove the journal.
    method Clear(journal: Journal, prepare: Prepare, ghost done: seq<Disk>, ghost budget: nat, ghost whole: Run)
      returns (end: Ending)
      requires |done| + alive == budget && (journal.prepares ==> prepare.Some?)
      requires whole == Cleared(done, State(), journal, prepare)
      modifies this
      ensures Walks(whole, budget, State(), alive, end)
    {
      ghost var before := done;
      if journal.prepares && saved.current.Some? {
        if !prepare.value(saved.current.value.launch) {
          return Failed;
        }
        ghost var here := State();
        var ok := Store(State().(prepared := prepared + [saved.current.value.launch]));
        if !ok {
          return Died;
        }
        before := done + [here];
      }
      ghost var here := State();
      var ok := Store(State().(pending := None));
      if !ok {
        return Died;
      }
      assert whole.disks == before + [here] + [State()];
      end := Finished;
    }

    method Transact(after: Saved, changes: seq<Change>, prepare: Prepare) returns (end: Ending)
      modifies this
      ensures Walks(TransactRun(old(State()), after, changes, prepare), old(alive), State(), alive, end)
    {
      hide WriteRun, Paths, RecoverRun;
      ghost var start, budget := State(), alive;
      ghost var whole := TransactRun(start, after, changes, prepare);
      var ok := Store(State().(pending := Some(Journal(after, changes, prepare.Some?))));
      if !ok {
        return Died;
      }
      ghost var done := [start];
      if prepare.Some? && after.current.Some? {
        if !prepare.value(after.current.value.launch) {
          ghost var here := State();
          var cleanup := Recover(prepare);
          Abandoned(done, here, prepare, budget, State(), alive, cleanup);
          return if cleanup.Died? then Died else Failed;
        }
        ghost var here := State();
        ok := Store(State().(prepared := prepared + [after.current.value.launch]));
        if !ok {
          return Died;
        }
        done := done + [here];
      }
      TransactOpens(start, after, changes, prepare, done, State());
      end := Execute(after, changes, prepare, done, budget, whole);
    }

    // The second half of a transaction: write the files, commit the state, clear the journal.
    method Execute(after: Saved, changes: seq<Change>, prepare: Prepare, ghost done: seq<Disk>, ghost budget: nat,
        ghost whole: Run)
      returns (end: Ending)
      requires |done| + alive == budget && whole.disks != []
      requires TransactsFrom(whole, done, WriteRun(State(), changes, Paths(changes)), after, prepare)
      modifies this
      ensures Walks(whole, budget, State(), alive, end)
    {
      hide WriteRun, Paths, RecoverRun, Abandon;
      ghost var written := WriteRun(State(), changes, Paths(changes));
      end := WriteChanges(changes);
      if end.Died? {
        return;
      }
      ghost var before := done + written.disks[..|written.disks| - 1];
      ghost var here := State();
      if end.Failed? {
        var cleanup := Recover(prepare);
        Abandoned(before, here, prepare, budget, State(), alive, cleanup);
        return if cleanup.Died? then Died else Failed;
      }
      var ok := Store(State().(saved := after));
      if !ok {
        return Died;
      }
      ghost var committed := State();
      end := Recover(prepare);
      WalksOn(before + [here], RecoverRun(committed, prepare), budget, State(), alive, end);
    }

    // The loop over the sorted keys, its four accumulators updated in place.
    method MakePlan(candidate: Candidate, binding: string, launch: Launch, order: seq<Key>) returns (r: Result<Plan>)
      requires Known(saved, candidate.wanted, order)
      ensures r == PlanAll(files, saved, candidate, binding, launch, order)
    {
      hide PlanKey;
      if !Belongs(saved, binding) || !Disjoint(candidate.wanted.Keys) {
        return Conflict;
      }
      var items: Items := map[];
      var changes, drift, conflicts := [], [], [];
      assert order[..0] == [];
      for i := 0 to |order|
        invariant TallyOver(files, saved, candidate.wanted, order[..i]) == Ok(Tally(items, changes, drift, conflicts))
      {
        assert order[..i + 1][..i] == order[..i];
        var verdict := PlanKey(files, saved, candidate.wanted, order[i]);
        if verdict.Conflict? {
          RefusedKeyRefusesAll(files, saved, candidate.wanted, order, i + 1);
          return Conflict;
        }
        if verdict.value.keep.Some? {
          items := items[order[i] := verdict.value.keep.value];
        }
        if verdict.value.change.Some? {
          changes := changes + [verdict.value.change.value];
        }
        if verdict.value.drift {
          drift := drift + [order[i]];
        }
        if verdict.value.conflict {
          conflicts := conflicts + [order[i]];
        }
      }
      assert order[..|order|] == order;
      r := Ok(Plan(Manifest(candidate.generation, binding, launch, items), changes, drift, conflicts));
    }

    method Apply(candidate: Candidate, binding: string, launch: Launch, order: seq<Key>, prepare: Prepare)
        returns (end: Ending)
      requires Known(saved, candidate.wanted, order)
      modifies this
      ensures Walks(ApplyRun(old(State()), candidate, binding, launch, order, prepare), old(alive), State(), alive, end)
    {
      hide RecoverRun, TransactRun, PlanAll, Walks;
      ghost var start, budget := State(), alive;
      ghost var first := RecoverRun(start, prepare);
      end := Recover(prepare);
      RecoveryKeepsSaved(start, prepare);
      FirstPart(first, budget, State(), alive, end);
      if !end.Finished? {
        ghost var whole := ApplyRun(start, candidate, binding, launch, order, prepare);
        Stops(first, whole, budget, State(), alive, end);
        return;
      }
      ghost var here := State();
      var plan := MakePlan(candidate, binding, launch, order);
      ghost var rest := if plan.Conflict? then Run([here], Refused) else CommitRun(here, plan.value, prepare);
      assert first.disks + [here][1..] == first.disks;
      if plan.Conflict? || plan.value.conflicts != [] {
        Stays(here, alive);
        end := Failed;
      } else if Unchanged(saved, plan.value) {
        if prepare.Some? {
          end := Transact(saved, [], prepare);
        } else {
          Stays(here, alive);
          end := Finished;
        }
      } else {
        end := Transact(NextSaved(saved, plan.value), plan.value.changes, prepare);
      }
      Follows(first, rest, budget, State(), alive, end);
    }

    method Rollback(binding: string, prepare: Prepare) returns (end: Ending)
      modifies this
      ensures Walks(UndoRun(old(State()), binding, prepare), old(alive), State(), alive, end)
    {
      hide RecoverRun, TransactRun, Walks;
      ghost var start, budget := State(), alive;
      ghost var first := RecoverRun(start, prepare);
      end := Recover(prepare);
      FirstPart(first, budget, State(), alive, end);
      if !end.Finished? {
        Stops(first, UndoRun(start, binding, prepare), budget, State(), alive, end);
        return;
      }
      ghost var here, left := State(), alive;
      ghost var rest := RollbackRun(here, binding, prepare);
      Stays(here, alive);
      if saved.current.None? || saved.current.value.binding != binding || saved.previous.None? {
        Follows(first, rest, budget, here, left, Failed);
        return Failed;
      }
      var back := ReverseChanges(saved.previous.value.changes);
      for i := 0 to |back|
        invariant State() == here && alive == left
        invariant forall j | 0 <= j < i ::
          Project(files, back[j].key, back[j].codec) == Ok(back[j].before) ||
          Project(files, back[j].key, back[j].codec) == Ok(back[j].after)
      {
        var current := Project(files, back[i].key, back[i].codec);
        if current != Ok(back[i].before) && current != Ok(back[i].after) {
          Follows(first, rest, budget, here, left, Failed);
          return Failed;
        }
      }
      end := Transact(RollbackSaved(saved), back, prepare);
      Follows(first, rest, budget, State(), alive, end);
    }
  }

  // A walk that leaves nothing to do where it stands.
  lemma Stays(disk: Disk, alive: nat)
    ensures Walks(Run([disk], Refused), alive, disk, alive, Failed)
    ensures Walks(Run([disk], Done), alive, disk, alive, Finished)
  {
  }

  lemma FirstPart(first: Run, budget: nat, disk: Disk, alive: nat, end: Ending)
    requires first.disks != [] && Walks(first, budget, disk, alive, end)
    ensures end.Finished? <==> first.outcome.Done? && |first.disks| <= budget + 1
    ensures !end.Died? ==> disk == first.End() && budget - alive == |first.disks| - 1
  {
  }

  // Whatever comes after a first part that did not finish, the walk ends with that part.
  lemma Stops(first: Run, whole: Run, budget: nat, disk: Disk, alive: nat, end: Ending)
    requires first.disks != [] && first.disks <= whole.disks && (first.outcome.Refused? ==> whole == first)
    requires Walks(first, budget, disk, alive, end) && !end.Finished?
    ensures Walks(whole, budget, disk, alive, end)
  {
  }

  lemma Follows(first: Run, rest: Run, budget: nat, disk: Disk, alive: nat, end: Ending)
    requires first.disks != [] && rest.disks != [] && rest.disks[0] == first.End() && |first.disks| <= budget + 1
    requires Walks(rest, budget + 1 - |first.disks|, disk, alive, end)
    ensures Walks(Run(first.disks + rest.disks[1..], rest.outcome), budget, disk, alive, end)
  {
    var done := first.disks[..|first.disks| - 1];
    WalksOn(done, rest, budget, disk, alive, end);
    assert done + rest.disks == first.disks + rest.disks[1..];
  }

  lemma {:induction false} RefusedKeyRefusesAll(files: Files, saved: Saved, wanted: map<Key, Wanted>, order: seq<Key>,
      n: nat)
    requires Known(saved, wanted, order) && n <= |order|
    requires TallyOver(files, saved, wanted, order[..n]).Conflict?
    ensures TallyOver(files, saved, wanted, order).Conflict?
    decreases |order|
  {
    if n < |order| {
      var front := order[..|order| - 1];
      assert front[..n] == order[..n];
      RefusedKeyRefusesAll(files, saved, wanted, front, n);
    } else {
      assert order[..n] == order;
    }
  }

  // How a transaction goes on from its write pass.
  ghost predicate TransactsFrom(whole: Run, done: seq<Disk>, written: Run, after: Saved, prepare: Prepare)
    requires written.disks != []
  {
    var before := done + written.disks[..|written.disks| - 1];
    if written.outcome.Refused? then
      whole == Abandon(Run(before + [written.End()], Refused), prepare) && done + written.disks <= whole.disks
    else
      && whole == Then(before + [written.End()], RecoverRun(written.End().(saved := after), prepare))
      && done + written.disks <= whole.disks
      && |whole.disks| > |before| + 1
  }

  lemma TransactOpens(disk: Disk, after: Saved, changes: seq<Change>, prepare: Prepare, done: seq<Disk>, here: Disk)
    requires (prepare.Some? && after.current.Some?) ==> prepare.value(after.current.value.launch)
    requires var journaled := disk.(pending := Some(Journal(after, changes, prepare.Some?)));
             if prepare.Some? && after.current.Some? then
               done == [disk, journaled] && here == journaled.(prepared :=
                 journaled.prepared + [after.current.value.launch])
             else done == [disk] && here == journaled
    ensures TransactsFrom(TransactRun(disk, after, changes, prepare), done, WriteRun(here, changes, Paths(changes)),
      after, prepare)
  {
    hide WriteRun, Paths, RecoverRun, Abandon;
    var written := WriteRun(here, changes, Paths(changes));
    Regroup(done, here, written);
    var body := done + [here] + written.disks[1..];
    var whole := TransactRun(disk, after, changes, prepare);
    if prepare.Some? && after.current.Some? {
      assert done + [here] == [disk, disk.(pending := Some(Journal(after, changes, true))), here];
    } else {
      assert done + [here] == [disk, here];
    }
    if written.outcome.Refused? {
      assert whole == Abandon(Run(body, Refused), prepare);
      AbandonExtends(Run(body, Refused), prepare);
    } else {
      assert whole == Then(body, RecoverRun(written.End().(saved := after), prepare));
    }
  }

  lemma AbandonExtends(run: Run, prepare: Prepare)
    requires run.disks != []
    ensures run.disks <= Abandon(run, prepare).disks
  {
  }

  lemma Regroup(done: seq<Disk>, here: Disk, written: Run)
    requires written.disks != [] && written.disks[0] == here
    ensures done + [here] + written.disks[1..] == done + written.disks
    ensures done + written.disks == done + written.disks[..|written.disks| - 1] + [written.End()]
  {
  }

  // Steps already taken are put in front of the run still to walk.
  lemma WalksOn(done: seq<Disk>, run: Run, budget: nat, disk: Disk, alive: nat, end: Ending)
    requires run.disks != [] && |done| <= budget
    requires Walks(run, budget - |done|, disk, alive, end)
    ensures Walks(Then(done, run), budget, disk, alive, end)
  {
  }

  // A failed transaction recovers and then reports its failure, whatever the recovery did.
  lemma Abandoned(done: seq<Disk>, here: Disk, prepare: Prepare, budget: nat, disk: Disk, alive: nat, cleanup: Ending)
    requires |done| <= budget
    requires Walks(RecoverRun(here, prepare), budget - |done|, disk, alive, cleanup)
    ensures Walks(Abandon(Run(done + [here], Refused), prepare), budget, disk, alive, if cleanup.Died? then Died
      else Failed)
  {
    var run := RecoverRun(here, prepare);
    WalksOn(done, Run(run.disks, Refused), budget, disk, alive, if cleanup.Died? then Died else Failed);
    assert done + [here] + run.disks[1..] == done + run.disks;
  }

  lemma WriteUnfolds(done: seq<Disk>, disk: Disk, cs: seq<Change>, paths: seq<string>, i: nat)
    requires i <= |paths| && forall p | p in paths :: p in Paths(cs)
    ensures var run := Then(done, WriteRun(disk, cs, paths[i..]));
            if i == |paths| then run == Run(done + [disk], Done)
            else
              Group(cs, paths[i]) != [] &&
              match WriteGroup(disk.files, paths[i], Group(cs, paths[i]))
              case Conflict => run == Run(done + [disk], Refused)
              case Ok(None) => run == Then(done, WriteRun(disk, cs, paths[i + 1..]))
              case Ok(Some(files)) =>
                run == Then(done + [disk], WriteRun(disk.(files := files), cs, paths[i + 1..])) &&
                  |run.disks| > |done| + 1 && run.disks[|done|] == disk
  {
    if i < |paths| {
      assert paths[i..][0] == paths[i] && paths[i..][1..] == paths[i + 1..];
      GroupNonempty(cs, paths[i]);
      match WriteGroup(disk.files, paths[i], Group(cs, paths[i]))
      case Ok(Some(files)) =>
        var rest := WriteRun(disk.(files := files), cs, paths[i + 1..]);
        assert done + ([disk] + rest.disks) == done + [disk] + rest.disks;
      case _ =>
    }
  }

  // The backward pass of a recovery, empty where the commit is on disk.
  ghost function Undone(disk: Disk): (r: Run)
    requires disk.pending.Some?
    ensures r.disks != [] && r.disks[0] == disk
  {
    var back := ReverseChanges(disk.pending.value.changes);
    if disk.saved == disk.pending.value.after then Run([disk], Done) else WriteRun(disk, back, Paths(back))
  }

  // What follows the backward pass, which passed through done and ended at here.
  ghost function Cleared(done: seq<Disk>, here: Disk, journal: Journal, prepare: Prepare): (r: Run)
    requires journal.prepares ==> prepare.Some?
    ensures done + [here] <= r.disks
  {
    if journal.prepares && here.saved.current.Some? then
      var launch := here.saved.current.value.launch;
      if !prepare.value(launch) then Run(done + [here], Refused)
      else
        var ready := here.(prepared := here.prepared + [launch]);
        Run(done + [here] + [ready, ready.(pending := None)], Done)
    else Run(done + [here] + [here.(pending := None)], Done)
  }

  lemma NoRecovery(disk: Disk, prepare: Prepare)
    ensures disk.pending.None? ==> RecoverRun(disk, prepare) == Run([disk], Done)
    ensures disk.pending.Some? && disk.pending.value.prepares && prepare.None? ==>
              RecoverRun(disk, prepare) == Run([disk], Refused)
  {
  }

  lemma RecoverOpens(disk: Disk, prepare: Prepare)
    requires disk.pending.Some? && (disk.pending.value.prepares ==> prepare.Some?)
    ensures var written := Undone(disk);
            RecoverRun(disk, prepare) ==
              if written.outcome.Refused? then written
              else Cleared(written.disks[..|written.disks| - 1], written.End(), disk.pending.value, prepare)
  {
    hide WriteRun, Paths, ReverseChanges, Undone;
    var written := Undone(disk);
    LastApart(written.disks);
    assert written == (if disk.saved == disk.pending.value.after then Run([disk], Done)
      else WriteRun(disk, ReverseChanges(disk.pending.value.changes),
        Paths(ReverseChanges(disk.pending.value.changes)))) by {
      UndoneIs(disk);
    }
  }

  lemma UndoneIs(disk: Disk)
    requires disk.pending.Some?
    ensures Undone(disk) == var back := ReverseChanges(disk.pending.value.changes);
      if disk.saved == disk.pending.value.after then Run([disk], Done) else WriteRun(disk, back, Paths(back))
  {
    hide WriteRun, Paths;
  }

  lemma LastApart(disks: seq<Disk>)
    requires disks != []
    ensures disks == disks[..|disks| - 1] + [disks[|disks| - 1]]
  {
  }
}
