/** What a refused call leaves behind. A hook that refuses the new launch undoes the transaction at once;
    only a hook that refuses the old launch too keeps the journal. A rollback is refused for its checks or
    its hook alone, never half way. */
module Refusals {
  import opened Wrappers
  import opened NativeDocument
  import opened DocumentLaws
  import R = Restoration
  import opened Deployment
  import opened DeploymentWrites
  import opened DeploymentCrash
  import opened DeploymentPlan
  import opened PlanLaws
  import opened PlanLayers
  import opened ForwardWrites
  import opened PlanEffects
  import opened Rollback

  // ---- A settled state is left alone ----

  ghost predicate AllThere(files: Files, cs: seq<Change>) {
    forall i | 0 <= i < |cs| :: At(files, cs[i], cs[i].after)
  }

  lemma {:induction false} DraftSkips(files: Files, draft: Draft, g: seq<Change>)
    requires forall i | 0 <= i < |g| :: DraftStep(files, draft, g[i]) == Ok(draft)
    ensures DraftAll(files, draft, g) == Ok(draft)
    decreases |g|
  {
    if g != [] {
      forall i | 0 <= i < |g[1..]| ensures DraftStep(files, draft, g[1..][i]) == Ok(draft) {
        assert g[1..][i] == g[i + 1];
      }
      DraftSkips(files, draft, g[1..]);
    }
  }

  lemma SettledGroup(files: Files, path: string, g: seq<Change>)
    requires OneFileLayered(g, path) && AllThere(files, g)
    ensures WriteGroup(files, path, g) == Ok(None)
  {
    GroupShape(g, path);
    assert At(files, g[0], g[0].after);
    if g[0].key.selector != [] {
      ProjectIsField(files, g[0].key, g[0].codec);
    }
    var start := StartOf(files, path, g);
    forall i | 0 <= i < |g| ensures DraftStep(files, start, g[i]) == Ok(start) {
      assert At(files, g[i], g[i].after);
      if g[i].key.selector != [] {
        ProjectIsField(files, g[i].key, g[i].codec);
      }
    }
    DraftSkips(files, start, g);
  }

  lemma {:induction false} NothingIsWritten(disk: Disk, cs: seq<Change>, paths: seq<string>)
    requires Layered(cs) && AllThere(disk.files, cs) && forall p | p in paths :: p in Paths(cs)
    ensures WriteRun(disk, cs, paths) == Run([disk], Done)
    decreases |paths|
  {
    hide WriteGroup, Layered, At;
    if paths != [] {
      var path := paths[0];
      assert path in paths;
      GroupNonempty(cs, path);
      GroupIsLayered(cs, path);
      GroupOfPath(cs, path);
      forall i | 0 <= i < |Group(cs, path)| ensures At(disk.files, Group(cs, path)[i], Group(cs, path)[i].after) {
        assert Group(cs, path)[i] in cs;
      }
      SettledGroup(disk.files, path, Group(cs, path));
      NothingIsWritten(disk, cs, paths[1..]);
    }
  }

  // ---- A refused transaction ----

  // The launches a finished recovery prepares.
  function Prepared(prepare: Prepare, saved: Saved): seq<Launch> {
    if prepare.Some? && saved.current.Some? then [saved.current.value.launch] else []
  }

  // From a ready disk only a hook that refuses the new launch refuses the transaction. Nothing is committed
  // then, every change is back at its before value, and the journal is gone if and only if the hook accepts
  // the old launch, or there is none.
  lemma RefusalReverts(d: Disk, t: Transaction, prepare: Prepare)
    requires Ready(d, t) && t.prepares == prepare.Some?
    ensures var run := TransactRun(d, t.after, t.changes, prepare);
            (run.outcome.Refused? <==> !Allows(prepare, t.after)) &&
            (run.outcome.Refused? ==>
              run.End().saved == d.saved && AllBefore(run.End().files, t.changes) &&
              (run.End().pending.None? <==> Allows(prepare, d.saved)) &&
              (run.End().pending.Some? ==> run.End().pending == Some(Journal(t.after, t.changes, true))))
  {
    hide Compatible, AtEither, AllBefore, AllAfter, WriteRun, Paths;
    TransactionStep(d, t, prepare);
    if !Allows(prepare, t.after) {
      var journaled := d.(pending := Some(Journal(t.after, t.changes, true)));
      assert TransactRun(d, t.after, t.changes, prepare) == Abandon(Run([d, journaled], Refused), prepare);
      OpeningIsSafe(d, t, prepare);
      assert Opening(d, t, prepare)[1] == journaled;
      RecoveryEnds(journaled, t, prepare);
    }
  }

  lemma RecoveryEnds(d: Disk, t: Transaction, prepare: Prepare)
    requires Recoverable(d, t) && t.prepares && prepare.Some? && d.saved == t.prior
    requires t.prior != t.after || t.changes == []
    ensures var run := RecoverRun(d, prepare);
            run.End().saved == d.saved && AllBefore(run.End().files, t.changes) &&
            (run.End().pending.None? <==> Allows(prepare, d.saved)) &&
            (run.End().pending.Some? ==> run.End().pending == d.pending)
  {
    hide Compatible, AtEither, AllAfter, WriteRun, Paths;
    if d.saved != t.after {
      ReversalIsCompatible(t.changes);
      BackwardRun(d, t);
    } else {
      NothingBefore(d.files);
    }
  }

  lemma NothingBefore(files: Files)
    ensures AllBefore(files, [])
  {
  }

  // ---- A refused apply ----

  // Where all changes are still to be done, refusing the launch changes nothing but what was prepared.
  lemma RefusedAtStart(d: Disk, after: Saved, cs: seq<Change>, prepare: Prepare)
    requires d.pending.None? && !Allows(prepare, after) && AllThere(d.files, ReverseChanges(cs)) && Layered(cs)
    ensures var run := TransactRun(d, after, cs, prepare);
            run.outcome.Refused? && run.End().files == d.files && run.End().saved == d.saved &&
            (run.End().pending.None? <==> Allows(prepare, d.saved)) &&
            (Allows(prepare, d.saved) ==> run.End() == d.(prepared := d.prepared + Prepared(prepare, d.saved))) &&
            (!Allows(prepare, d.saved) ==> run.End() == d.(pending := Some(Journal(after, cs, true))))
  {
    var journaled := d.(pending := Some(Journal(after, cs, true)));
    var back := ReverseChanges(cs);
    assert TransactRun(d, after, cs, prepare) == Abandon(Run([d, journaled], Refused), prepare);
    ReversalIsLayered(cs);
    NothingIsWritten(journaled, back, Paths(back));
  }

  // A conflict-free apply is refused only by its hook, wherever its changes overlap. If the hook accepts the
  // launch in use the instance is what it was, the journal gone; otherwise all that stays is the journal, and
  // the first recovery whose hook accepts that launch removes it with every file as it was.
  lemma ApplyRefusal(d: Disk, plan: Plan, candidate: Candidate, binding: string, launch: Launch, order: seq<Key>,
      prepare: Prepare, later: Prepare)
    requires IsPlan(d, plan, candidate, binding, launch, order)
    ensures var run := CommitRun(d, plan, prepare);
            (run.outcome.Refused? <==> prepare.Some? && !prepare.value(launch)) &&
            (run.outcome.Refused? ==>
              run.End().files == d.files && run.End().saved == d.saved &&
              (Allows(prepare, d.saved) ==> run.End() == d.(prepared := d.prepared + Prepared(prepare, d.saved))) &&
              (!Allows(prepare, d.saved) ==> run.End().pending.Some?) &&
              (run.End().pending.Some? && later.Some? && Allows(later, d.saved) ==>
                RecoverRun(run.End(), later).outcome.Done? &&
                RecoverRun(run.End(), later).End() == d.(prepared := d.prepared + Prepared(later, d.saved))))
  {
    hide PlanAll, WriteRun, TransactRun, Project, RecoverRun;
    PlanFacts(d, plan, candidate, binding, launch, order);
    StagedIsLayered(d.files, plan.changes);
    var cs := plan.changes;
    var after := if Unchanged(d.saved, plan) then d.saved else NextSaved(d.saved, plan);
    if prepare.Some? && !prepare.value(launch) {
      DueIsThere(d.files, cs);
      RefusedAtStart(d, after, cs, prepare);
      if !Allows(prepare, d.saved) {
        JournalClears(d, after, cs, later);
      }
    } else {
      StagedTransactionCompletes(d, after, cs, prepare);
    }
  }

  lemma DueIsThere(files: Files, cs: seq<Change>)
    requires AllDue(files, cs)
    ensures AllThere(files, ReverseChanges(cs))
  {
    forall i | 0 <= i < |cs| ensures At(files, ReverseChanges(cs)[i], ReverseChanges(cs)[i].after) {
      assert At(files, cs[i], cs[i].before);
    }
  }

  lemma JournalClears(d: Disk, after: Saved, cs: seq<Change>, later: Prepare)
    requires d.pending.None? && AllThere(d.files, ReverseChanges(cs)) && Layered(cs)
    ensures var left := d.(pending := Some(Journal(after, cs, true)));
            later.Some? && Allows(later, d.saved) ==>
              RecoverRun(left, later).outcome.Done? &&
              RecoverRun(left, later).End() == d.(prepared := d.prepared + Prepared(later, d.saved))
  {
    var back := ReverseChanges(cs);
    ReversalIsLayered(cs);
    NothingIsWritten(d.(pending := Some(Journal(after, cs, true))), back, Paths(back));
  }

  // ---- A rollback ----

  // The undoing of fields that may lie below one another: the upper value comes back, and holds nothing
  // where the lower one goes.
  ghost predicate Restores(cs: seq<R.FieldChange>) {
    (forall i | 0 <= i < |cs| :: R.OwnParents(cs[i])) &&
    forall i, j | 0 <= i < j < |cs| && Related(cs[i].selector, cs[j].selector) ::
      cs[i].selector < cs[j].selector && cs[i].before.None? && cs[i].after.Some? && cs[j].after.None? &&
      Field(cs[i].after.value, cs[j].selector[|cs[i].selector|..]) == Ok(None)
  }

  lemma NothingBelow(d: Doc, c: R.FieldChange, s: Selector)
    requires c.selector < s && Field(d, c.selector) == Ok(c.after) && c.after.Some?
    requires Field(c.after.value, s[|c.selector|..]) == Ok(None)
    ensures Field(d, s) == Ok(None)
  {
    assert s == c.selector + s[|c.selector|..];
    FieldCompose(d, c.selector, s[|c.selector|..]);
  }

  lemma RestoreStep(d: Doc, cs: seq<R.FieldChange>)
    requires cs != [] && d.Dict? && Restores(cs) && forall i | 0 <= i < |cs| :: R.AtEither(d, cs[i])
    ensures R.Step(d, cs[0]).Ok? && R.Step(d, cs[0]).value.Dict? && Restores(cs[1..])
    ensures Field(R.Step(d, cs[0]).value, cs[0].selector) == Ok(cs[0].after)
    ensures forall i | 0 <= i < |cs[1..]| ::
      R.AtEither(R.Step(d, cs[0]).value, cs[1..][i]) &&
        (Related(cs[1..][i].selector, cs[0].selector) ==> !R.IsDue(R.Step(d, cs[0]).value, cs[1..][i]))
  {
    var c, rest := cs[0], cs[1..];
    R.StepSettles(d, c);
    var next := R.Step(d, c).value;
    forall i | 0 <= i < |rest| ensures R.AtEither(next, rest[i]) &&
      (Related(rest[i].selector, c.selector) ==> !R.IsDue(next, rest[i])) {
      assert rest[i] == cs[i + 1];
      if Related(c.selector, rest[i].selector) {
        NothingBelow(next, c, rest[i].selector);
      } else {
        R.StepFrame(d, c, rest[i].selector);
      }
    }
    forall i, j | 0 <= i < j < |rest| && Related(rest[i].selector, rest[j].selector)
      ensures rest[i].selector < rest[j].selector && rest[i].before.None? && rest[i].after.Some? &&
        rest[j].after.None? && Field(rest[i].after.value, rest[j].selector[|rest[i].selector|..]) == Ok(None)
    {
      assert rest[i] == cs[i + 1] && rest[j] == cs[j + 1];
    }
  }

  lemma {:induction false} RestoreSettles(d: Doc, cs: seq<R.FieldChange>)
    requires d.Dict? && Restores(cs) && forall i | 0 <= i < |cs| :: R.AtEither(d, cs[i])
    ensures R.Rewrite(d, cs).Ok?
    ensures forall i | 0 <= i < |cs| :: Field(R.Rewrite(d, cs).value, cs[i].selector) == Ok(cs[i].after)
    decreases |cs|
  {
    if cs != [] {
      RestoreStep(d, cs);
      var next, rest := R.Step(d, cs[0]).value, cs[1..];
      RestoreSettles(next, rest);
      RestoresTopDown(rest);
      R.OnlyBeforeIsOverwritten(next, rest, cs[0].selector);
      forall i | 0 < i < |cs| ensures Field(R.Rewrite(d, cs).value, cs[i].selector) == Ok(cs[i].after) {
        assert cs[i] == rest[i - 1];
      }
    }
  }

  lemma RestoresTopDown(cs: seq<R.FieldChange>)
    requires Restores(cs)
    ensures R.TopDown(cs)
  {
  }

  // The changes of a plan, taken back.
  lemma ReversalRestores(origin: Files, path: string, g: seq<Change>)
    requires Staged(origin, g) && FieldGroup(g) && forall i | 0 <= i < |g| :: g[i].key.path == path
    ensures Restores(ToFields(ReverseChanges(g)))
  {
    var fields := ToFields(ReverseChanges(g));
    forall i | 0 <= i < |fields| ensures R.OwnParents(fields[i]) {
      assert ValidChange(g[i]);
    }
    forall i, j | 0 <= i < j < |fields| && Related(fields[i].selector, fields[j].selector)
      ensures fields[i].selector < fields[j].selector && fields[i].before.None? && fields[i].after.Some? &&
        fields[j].after.None? && Field(fields[i].after.value, fields[j].selector[|fields[i].selector|..]) == Ok(None)
    {
      assert Overlap(g[i].key, g[j].key) && Shadows(g[i], g[j]);
      assert At(origin, g[i], g[i].before) && At(origin, g[j], g[j].before);
      ReadThrough(origin, g[i].key, g[j].key, g[i].codec);
    }
  }

  lemma WholeKeepsFieldsApart(origin: Files, path: string, g: seq<Change>)
    requires Staged(origin, g) && WholeLast(g) && forall i | 0 <= i < |g| :: g[i].key.path == path
    ensures Compatible(g)
  {
    StagedIsLayered(origin, g);
    assert forall i | 0 <= i < |g| - 1 :: Overlap(g[i].key, g[|g| - 1].key);
  }

  lemma RestoredFields(origin: Files, files: Files, path: string, g: seq<Change>)
    requires OneFileLayered(g, path) && FieldGroup(g) && Staged(origin, g) && AtEither(files, g)
    ensures var back := ReverseChanges(g);
            WriteGroup(files, path, back).Ok? &&
            forall i | 0 <= i < |g| :: At(FilesAfter(files, path, back), g[i], g[i].before)
  {
    var back := ReverseChanges(g);
    ReversalIsLayered(g);
    GroupShape(back, path);
    ReversalRestores(origin, path, g);
    ProjectIsField(files, g[0].key, g[0].codec);
    assert At(files, g[0], g[0].before) || At(files, g[0], g[0].after);
    var document := Document(files, path, back[0].codec).value;
    forall i | 0 <= i < |back| ensures R.AtEither(document, ToFields(back)[i]) {
      ProjectIsField(files, g[i].key, g[i].codec);
      assert At(files, g[i], g[i].before) || At(files, g[i], g[i].after);
    }
    RestoreSettles(document, ToFields(back));
    DraftIsRewrite(files, StartOf(files, path, back), back);
    WrittenIsRewritten(files, path, back);
    forall i | 0 <= i < |g| ensures At(FilesAfter(files, path, back), g[i], g[i].before) {
      ProjectIsField(FilesAfter(files, path, back), g[i].key, g[i].codec);
      assert ToFields(back)[i] == ToField(ReverseChange(g[i]));
    }
  }

  // One file of a backup, whatever of it is still to be undone: it is written back.
  lemma RestoredGroup(origin: Files, files: Files, path: string, g: seq<Change>)
    requires OneFileLayered(g, path) && Staged(origin, g) && AtEither(files, g)
    ensures WriteGroup(files, path, ReverseChanges(g)).Ok?
    ensures forall i | 0 <= i < |g| :: At(FilesAfter(files, path, ReverseChanges(g)), g[i], Starts(g, i))
  {
    GroupShape(g, path);
    if WholeLast(g) {
      WholeKeepsFieldsApart(origin, path, g);
      ReversalIsCompatible(g);
      assert AtEither(files, ReverseChanges(g));
      GroupSettles(files, path, ReverseChanges(g));
    } else {
      RestoredFields(origin, files, path, g);
    }
  }

  lemma GroupAtEither(files: Files, cs: seq<Change>, path: string)
    requires AtEither(files, cs)
    ensures AtEither(files, Group(cs, path))
  {
    GroupOfPath(cs, path);
    var g := Group(cs, path);
    forall i | 0 <= i < |g| ensures At(files, g[i], g[i].before) || At(files, g[i], g[i].after) {
      var k :| 0 <= k < |cs| && cs[k] == g[i];
    }
  }

  // The write pass of a rollback whose check passed completes, and undoes every change.
  lemma RestoringRun(origin: Files, start: Disk, cs: seq<Change>)
    requires Staged(origin, cs) && AtEither(start.files, cs)
    ensures var back := ReverseChanges(cs);
            var run := WriteRun(start, back, Paths(back));
            run.outcome.Done? && AllBefore(run.End().files, cs)
  {
    hide WriteRun, WriteGroup, Staged, Group, Paths, AtEither, At;
    var back := ReverseChanges(cs);
    var run := WriteRun(start, back, Paths(back));
    PathsDistinct(back);
    forall p | p in Paths(back)
      ensures Group(back, p) != [] && WriteGroup(start.files, p, Group(back, p)).Ok? &&
        Agree(start.files, start.files, p)
    {
      GroupOfBackup(origin, start.files, cs, p);
      SameAgrees(start.files, p);
    }
    RunCompletes(start.files, start, back, Paths(back));
    forall i | 0 <= i < |cs| ensures At(run.End().files, cs[i], Starts(cs, i)) {
      var path := cs[i].key.path;
      assert cs[i] in cs;
      GroupNonempty(cs, path);
      GroupOfReversal(cs, path);
      GroupOfBackup(origin, start.files, cs, path);
      EachFileNew(start, back, Paths(back), path);
      var k :| 0 <= k < |Group(cs, path)| && Group(cs, path)[k] == cs[i];
      VainInGroup(cs, path, i, k);
      SameAt(FilesAfter(start.files, path, Group(back, path)), run.End().files, cs[i], Starts(cs, i));
    }
  }

  lemma SameAt(a: Files, b: Files, c: Change, v: Projection)
    requires Agree(a, b, c.key.path) && At(a, c, v)
    ensures At(b, c, v)
  {
  }

  lemma GroupOfBackup(origin: Files, files: Files, cs: seq<Change>, path: string)
    requires Staged(origin, cs) && AtEither(files, cs) && path in Paths(ReverseChanges(cs))
    ensures var g := Group(cs, path);
            g != [] && Group(ReverseChanges(cs), path) == ReverseChanges(g) &&
            WriteGroup(files, path, ReverseChanges(g)).Ok? &&
            forall k | 0 <= k < |g| :: At(FilesAfter(files, path, ReverseChanges(g)), g[k], Starts(g, k))
  {
    hide WriteGroup, Staged, AtEither;
    GroupOfReversal(cs, path);
    GroupIsStaged(origin, cs, path);
    GroupAtEither(files, cs, path);
    RestoredGroup(origin, files, path, Group(cs, path));
  }

  // What a rollback asks before it touches anything.
  ghost predicate Revertible(d: Disk, binding: string) {
    d.saved.current.Some? && d.saved.current.value.binding == binding && d.saved.previous.Some? &&
    AtEither(d.files, d.saved.previous.value.changes)
  }

  // A rollback of what some plan changed, wherever its changes overlap: it finishes if and only if there is
  // a backup of this binding, each backed-up place holds one of its two values, and the hook accepts the
  // backed-up launch. Where the first two fail nothing at all is written; once they hold the write pass is
  // never refused.
  lemma RollbackOutcome(origin: Files, d: Disk, binding: string, prepare: Prepare)
    requires d.pending.None? && (d.saved.previous.Some? ==> Staged(origin, d.saved.previous.value.changes))
    ensures var run := RollbackRun(d, binding, prepare);
            (run.outcome.Done? <==> Revertible(d, binding) && Allows(prepare, RollbackSaved(d.saved))) &&
            (!Revertible(d, binding) ==> run == Run([d], Refused)) &&
            (run.outcome.Done? ==>
              run.End().pending.None? && run.End().saved == RollbackSaved(d.saved) &&
              AllBefore(run.End().files, d.saved.previous.value.changes))
  {
    hide Staged, WriteRun, Paths, AllBefore;
    if Revertible(d, binding) {
      var cs := d.saved.previous.value.changes;
      var back := ReverseChanges(cs);
      ReversalIsReversed(cs);
      assert AtEither(d.files, back);
      var start := ToWrite(d, RollbackSaved(d.saved), back, prepare);
      RestoringRun(origin, start, cs);
      WriteKeepsState(start, back, Paths(back));
      TransactionEnds(d, RollbackSaved(d.saved), back, prepare);
    } else {
      NotRevertible(d, binding, prepare);
    }
  }

  lemma NotRevertible(d: Disk, binding: string, prepare: Prepare)
    requires !Revertible(d, binding)
    ensures RollbackRun(d, binding, prepare) == Run([d], Refused)
  {
    hide Project;
    if d.saved.current.Some? && d.saved.current.value.binding == binding && d.saved.previous.Some? {
      var cs := d.saved.previous.value.changes;
      var i :| 0 <= i < |cs| && !At(d.files, cs[i], cs[i].before) && !At(d.files, cs[i], cs[i].after);
      assert ReverseChanges(cs)[i] == ReverseChange(cs[i]);
    }
  }

  // A transaction whose write pass completes.
  lemma TransactionEnds(d: Disk, after: Saved, cs: seq<Change>, prepare: Prepare)
    requires var written := Written(d, after, cs, prepare);
             written.outcome.Done? && OnlyFilesDiffer(written.End(), ToWrite(d, after, cs, prepare))
    ensures var run := TransactRun(d, after, cs, prepare);
            (run.outcome.Done? <==> Allows(prepare, after)) &&
            (run.outcome.Done? ==>
              run.End().pending.None? && run.End().saved == after &&
                run.End().files == Written(d, after, cs, prepare).End().files)
  {
    hide WriteRun, Paths;
    if Allows(prepare, after) {
      var written := Written(d, after, cs, prepare);
      var opening := if prepare.Some? && after.current.Some?
        then [d, d.(pending := Some(Journal(after, cs, true)))] else [d];
      assert TransactRun(d, after, cs, prepare).End() == RecoverRun(written.End().(saved := after), prepare).End();
    }
  }

  // ---- A rollback refused by its hook ----

  ghost predicate Removes(cs: seq<R.FieldChange>) {
    (forall i | 0 <= i < |cs| :: R.OwnParents(cs[i])) &&
    forall i, j | 0 <= i < j < |cs| && Related(cs[i].selector, cs[j].selector) ::
      cs[i].selector < cs[j].selector && cs[i].after.None? && cs[j].before.None?
  }

  lemma {:induction false} RemovesRewrites(d: Doc, cs: seq<R.FieldChange>)
    requires d.Dict? && Removes(cs) && forall i | 0 <= i < |cs| :: R.AtEither(d, cs[i])
    ensures R.Rewrite(d, cs).Ok?
    decreases |cs|
  {
    if cs != [] {
      var c, rest := cs[0], cs[1..];
      R.StepSettles(d, c);
      var next := R.Step(d, c).value;
      forall i | 0 <= i < |rest| ensures R.AtEither(next, rest[i]) {
        assert rest[i] == cs[i + 1];
        if Related(c.selector, rest[i].selector) {
          RemovedAbove(next, c.selector, rest[i].selector);
        } else {
          R.StepFrame(d, c, rest[i].selector);
        }
      }
      forall i, j | 0 <= i < j < |rest| && Related(rest[i].selector, rest[j].selector)
        ensures rest[i].selector < rest[j].selector && rest[i].after.None? && rest[j].before.None?
      {
        assert rest[i] == cs[i + 1] && rest[j] == cs[j + 1];
      }
      RemovesRewrites(next, rest);
    }
  }

  lemma StackRemoves(path: string, g: seq<Change>)
    requires Stacked(g) && FieldGroup(g) && forall i | 0 <= i < |g| :: g[i].key.path == path && ValidChange(g[i])
    ensures Removes(ToFields(g))
  {
    var fields := ToFields(g);
    forall i | 0 <= i < |fields| ensures R.OwnParents(fields[i]) {
      assert ValidChange(g[i]);
    }
    forall i, j | 0 <= i < j < |fields| && Related(fields[i].selector, fields[j].selector)
      ensures fields[i].selector < fields[j].selector && fields[i].after.None? && fields[j].before.None?
    {
      assert Overlap(g[i].key, g[j].key);
    }
  }

  lemma RedoneGroup(origin: Files, files: Files, path: string, g: seq<Change>)
    requires OneFileLayered(g, path) && Staged(origin, g) && AtEither(files, g)
    ensures WriteGroup(files, path, g).Ok?
  {
    GroupShape(g, path);
    if WholeLast(g) {
      WholeKeepsFieldsApart(origin, path, g);
      GroupSettles(files, path, g);
    } else {
      ProjectIsField(files, g[0].key, g[0].codec);
      assert At(files, g[0], g[0].before) || At(files, g[0], g[0].after);
      var document := Document(files, path, g[0].codec).value;
      forall i | 0 <= i < |g| ensures R.AtEither(document, ToFields(g)[i]) && ValidChange(g[i]) {
        ProjectIsField(files, g[i].key, g[i].codec);
        assert At(files, g[i], g[i].before) || At(files, g[i], g[i].after);
      }
      StackRemoves(path, g);
      RemovesRewrites(document, ToFields(g));
      DraftIsRewrite(files, StartOf(files, path, g), g);
    }
  }

  lemma RedoneRun(origin: Files, start: Disk, cs: seq<Change>)
    requires Staged(origin, cs) && AtEither(start.files, cs)
    ensures WriteRun(start, cs, Paths(cs)).outcome.Done?
  {
    hide WriteRun, WriteGroup, Staged, Group, AtEither;
    PathsDistinct(cs);
    forall p | p in Paths(cs)
      ensures Group(cs, p) != [] && WriteGroup(start.files, p, Group(cs, p)).Ok? && Agree(start.files, start.files, p)
    {
      GroupIsStaged(origin, cs, p);
      GroupAtEither(start.files, cs, p);
      RedoneGroup(origin, start.files, p, Group(cs, p));
      SameAgrees(start.files, p);
    }
    RunCompletes(start.files, start, cs, Paths(cs));
  }

  lemma ReversedTwice(cs: seq<Change>)
    ensures ReverseChanges(ReverseChanges(cs)) == cs
  {
  }

  // A rollback whose check passed and whose backed-up launch the hook refuses: the saved state stays, the
  // journal is gone if and only if the hook accepts the launch in use, and where no two field changes
  // overlap every backed-up change is done again.
  lemma RollbackRefusal(origin: Files, d: Disk, binding: string, prepare: Prepare)
    requires d.pending.None? && Revertible(d, binding) && Staged(origin, d.saved.previous.value.changes)
    requires !Allows(prepare, RollbackSaved(d.saved))
    ensures var run := RollbackRun(d, binding, prepare);
            run.outcome.Refused? && run.End().saved == d.saved &&
            (run.End().pending.None? <==> Allows(prepare, d.saved)) &&
            (FieldsApart(d.saved.previous.value.changes) ==> AllAfter(run.End().files, d.saved.previous.value.changes))
  {
    hide Staged, WriteRun, Paths, AllBefore, AllAfter;
    var cs := d.saved.previous.value.changes;
    var back, after := ReverseChanges(cs), RollbackSaved(d.saved);
    ReversalIsReversed(cs);
    ReversedTwice(cs);
    assert AtEither(d.files, back);
    var journaled := d.(pending := Some(Journal(after, back, true)));
    assert RollbackRun(d, binding, prepare) == Abandon(Run([d, journaled], Refused), prepare);
    RedoneRun(origin, journaled, cs);
    WriteKeepsState(journaled, cs, Paths(cs));
    if FieldsApart(cs) {
      StagedIsLayered(origin, cs);
      UndoIsReady(d, binding, prepare);
      RefusalReverts(d, Undo(d, prepare), prepare);
      ReversalIsReversed(back);
    }
  }
}
