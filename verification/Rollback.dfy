/** Rollback as the inverse of apply: manifest, managed values, every other field, and exactly when
    the documents themselves come back container for container. */
module Rollback {
  import opened Wrappers
  import opened NativeDocument
  import opened DocumentLaws
  import R = Restoration
  import opened Deployment
  import opened DeploymentWrites
  import opened DeploymentCrash
  import opened DeploymentPlan
  import opened ForwardWrites
  import opened PlanLaws
  import opened PlanLayers

  function Undo(d: Disk, prepare: Prepare): Transaction
    requires d.saved.previous.Some?
  {
    Transaction(d.saved, RollbackSaved(d.saved), ReverseChanges(d.saved.previous.value.changes), prepare.Some?, d.files)
  }

  // A deployed state whose backup is still undoable: nothing pending, and every backed-up change at
  // its after value, or already at its before value.
  ghost predicate Undoable(d: Disk, binding: string) {
    d.pending.None? && d.saved.current.Some? && d.saved.current.value.binding == binding && d.saved.previous.Some? &&
    Compatible(d.saved.previous.value.changes) && AtEither(d.files, d.saved.previous.value.changes)
  }

  lemma UndoIsReady(d: Disk, binding: string, prepare: Prepare)
    requires Undoable(d, binding)
    ensures Ready(d, Undo(d, prepare))
    ensures RollbackRun(d, binding, prepare) ==
      TransactRun(d, RollbackSaved(d.saved), Undo(d, prepare).changes, prepare)
  {
    var changes := d.saved.previous.value.changes;
    var back := ReverseChanges(changes);
    ReversalIsCompatible(changes);
    assert AtEither(d.files, back);
  }

  // Rollback succeeds on every undoable state whose backed-up launch the hook accepts, restores the
  // backed-up manifest and puts every changed field back to the value it had before the apply.
  lemma RollbackRestoresFields(d: Disk, binding: string, prepare: Prepare)
    requires Undoable(d, binding) && Allows(prepare, RollbackSaved(d.saved))
    ensures var run := RollbackRun(d, binding, prepare);
            run.outcome == Done && run.End().pending.None? && run.End().saved == RollbackSaved(d.saved) &&
            AllBefore(run.End().files, d.saved.previous.value.changes)
  {
    UndoIsReady(d, binding, prepare);
    TransactionStep(d, Undo(d, prepare), prepare);
    ReversalIsReversed(d.saved.previous.value.changes);
  }

  lemma RollbackKeepsOthers(d: Disk, binding: string, prepare: Prepare, key: Key, codec: Codec)
    requires Undoable(d, binding) && Untouched(key, codec, d.saved.previous.value.changes)
    ensures Project(RollbackRun(d, binding, prepare).End().files, key, codec) == Project(d.files, key, codec)
  {
    UndoIsReady(d, binding, prepare);
    var changes := d.saved.previous.value.changes;
    var back := Undo(d, prepare).changes;
    assert Untouched(key, codec, back) by {
      forall i | 0 <= i < |changes| ensures !Overlap(back[i].key, key) &&
        (back[i].key.path == key.path ==> back[i].codec == codec) {
        assert back[i] == ReverseChange(changes[i]);
      }
    }
    TransactionFrame(d, Undo(d, prepare), prepare, key, codec);
  }

  // apply, then any outside edits that leave the changed fields at their after (or before) values,
  // then rollback: the manifest and every changed field are what they were before the apply, and
  // the edits stay.
  lemma RollbackInvertsApply(d: Disk, plan: Plan, order: seq<Key>, candidate: Candidate, binding: string,
      launch: Launch, prepare: Prepare, edited: Files, key: Key, codec: Codec)
    requires IsPlan(d, plan, candidate, binding, launch, order) && FieldsApart(plan.changes)
    requires (prepare.Some? ==> prepare.value(launch)) && Allows(prepare, d.saved)
    requires plan.changes != [] || d.saved.current.None? || d.saved.current.value.launch != launch
    requires AtEither(edited, plan.changes)
    ensures var applied := CommitRun(d, plan, prepare);
            applied.outcome == Done && applied.End().pending.None? && AllAfter(applied.End().files, plan.changes) &&
            var undone := RollbackRun(applied.End().(files := edited), binding, prepare);
            undone.outcome == Done && undone.End().saved.current == d.saved.current &&
              undone.End().saved.previous.None? &&
            (forall i | 0 <= i < |plan.changes| ::
              Project(undone.End().files, plan.changes[i].key, plan.changes[i].codec) ==
                Project(d.files, plan.changes[i].key, plan.changes[i].codec)) &&
            (Untouched(key, codec, plan.changes) ==>
              Project(undone.End().files, key, codec) == Project(edited, key, codec))
  {
    PlanFacts(d, plan, candidate, binding, launch, order);
    SettledAtEither(d.files, plan.changes);
    var t := Transaction(d.saved, NextSaved(d.saved, plan), plan.changes, prepare.Some?, d.files);
    TransactionStep(d, t, prepare);
    var deployed := CommitRun(d, plan, prepare).End().(files := edited);
    assert Undoable(deployed, binding);
    RollbackRestoresFields(deployed, binding, prepare);
    if Untouched(key, codec, plan.changes) {
      RollbackKeepsOthers(deployed, binding, prepare, key, codec);
    }
    var undone := RollbackRun(deployed, binding, prepare).End();
    forall i | 0 <= i < |plan.changes|
      ensures Project(undone.files, plan.changes[i].key, plan.changes[i].codec) ==
        Project(d.files, plan.changes[i].key, plan.changes[i].codec)
    {
      assert At(undone.files, plan.changes[i], Starts(plan.changes, i)) &&
        At(d.files, plan.changes[i], Starts(plan.changes, i));
    }
  }

  // ---- Documents ----

  lemma {:induction false} PathsOfReversal(cs: seq<Change>)
    ensures Paths(ReverseChanges(cs)) == Paths(cs)
  {
    if cs != [] {
      PathsOfReversal(cs[..|cs| - 1]);
      assert ReverseChanges(cs)[..|cs| - 1] == ReverseChanges(cs[..|cs| - 1]);
    }
  }

  lemma {:induction false} GroupOfReversal(cs: seq<Change>, path: string)
    ensures Group(ReverseChanges(cs), path) == ReverseChanges(Group(cs, path))
    ensures Paths(ReverseChanges(cs)) == Paths(cs)
  {
    PathsOfReversal(cs);
    hide Paths;
    if cs != [] {
      var front := cs[..|cs| - 1];
      GroupOfReversal(front, path);
      assert ReverseChanges(cs)[..|cs| - 1] == ReverseChanges(front);
    }
  }

  lemma TransactEndsAsWritten(d: Disk, t: Transaction, prepare: Prepare)
    requires Ready(d, t) && t.prepares == prepare.Some? && Allows(prepare, t.after)
    ensures ToWrite(d, t.after, t.changes, prepare).files == d.files
    ensures TransactRun(d, t.after, t.changes, prepare).End().files ==
      WriteRun(ToWrite(d, t.after, t.changes, prepare), t.changes, Paths(t.changes)).End().files
  {
    var ready := ToWrite(d, t.after, t.changes, prepare);
    ForwardRun(ready, t);
    RecoveryStep(WriteRun(ready, t.changes, Paths(t.changes)).End().(saved := t.after), t, prepare);
  }

  // One file of a group whose first field is due: it is there afterwards unless it was created and is empty.
  lemma DueGroupPresence(files: Files, path: string, g: seq<Change>)
    requires OneFileLayered(g, path) && FieldGroup(g) && Compatible(g) && AtEither(files, g)
    requires At(files, g[0], g[0].before) && g[0].before != g[0].after
    ensures var next := FilesAfter(files, path, g);
            path in next <==> !(Document(next, path, g[0].codec) == Ok(EMPTY) && AnyCreated(g))
  {
    GroupShape(g, path);
    FieldGroupRewrites(files, path, g);
    DraftIsRewrite(files, StartOf(files, path, g), g);
    ProjectIsField(files, g[0].key, g[0].codec);
  }

  // One transaction rewrites the document of each field-managed file as a whole.
  lemma TransactRewrites(d: Disk, t: Transaction, prepare: Prepare, path: string)
    requires Ready(d, t) && t.prepares == prepare.Some? && Allows(prepare, t.after) && path in Paths(t.changes) &&
      FieldGroup(Group(t.changes, path))
    ensures var g := Group(t.changes, path);
            var end := TransactRun(d, t.after, t.changes, prepare).End().files;
            g != [] && Document(d.files, path, g[0].codec).Ok? && At(end, g[0], g[0].after) &&
            Document(end, path, g[0].codec) == R.Rewrite(Document(d.files, path, g[0].codec).value, ToFields(g)) &&
            (At(d.files, g[0], g[0].before) && g[0].before != g[0].after ==>
              (path in end <==> !(Document(end, path, g[0].codec) == Ok(EMPTY) && AnyCreated(g))))
  {
    hide WriteGroup, TransactRun, WriteRun, Group, Compatible, ReadIn;
    var ready := ToWrite(d, t.after, t.changes, prepare);
    var g := Group(t.changes, path);
    SubGroup(d.files, t.changes, path);
    CompatibleIsLayered(g);
    GroupShape(g, path);
    FieldGroupRewrites(d.files, path, g);
    var next := FilesAfter(d.files, path, g);
    ProjectIsField(next, g[0].key, g[0].codec);
    if At(d.files, g[0], g[0].before) && g[0].before != g[0].after {
      DueGroupPresence(d.files, path, g);
    }
    PathsDistinct(t.changes);
    TransactEndsAsWritten(d, t, prepare);
    ForwardRun(ready, t);
    EachFileNew(ready, t.changes, Paths(t.changes), path);
  }

  // apply and rollback with nothing in between give back the document of a field-managed file,
  // container for container, exactly when no empty object the user already had is recorded as a
  // created parent by the last change below it. The file itself is there again, or gone again.
  lemma RollbackRestoresDocument(d: Disk, plan: Plan, order: seq<Key>, candidate: Candidate, binding: string,
      launch: Launch, prepare: Prepare, path: string)
    requires IsPlan(d, plan, candidate, binding, launch, order) && FieldsApart(plan.changes)
    requires (prepare.Some? ==> prepare.value(launch)) && Allows(prepare, d.saved)
    requires path in Paths(plan.changes) && FieldGroup(Group(plan.changes, path))
    ensures var g := Group(plan.changes, path);
            var restored := RollbackRun(CommitRun(d, plan, prepare).End(), binding, prepare).End();
            g != [] && Document(d.files, path, g[0].codec).Ok? && (path in restored.files <==> path in d.files) &&
            (Document(restored.files, path, g[0].codec) == Document(d.files, path, g[0].codec) <==>
              R.SparesEmpty(Document(d.files, path, g[0].codec).value, ToFields(g)))
  {
    hide TallyOver, TransactRun, Document, Shaped, Disjoint, Compatible, AllBefore, Undoable, R.Rewrite, R.SparesEmpty,
      CodecOf;
    PlanFacts(d, plan, candidate, binding, launch, order);
    PlanIsReady(d.files, d.saved, candidate, binding, launch, order);
    AppliedIsUndoable(d, plan, prepare);
    RestoredDocument(d, plan, prepare, path);
  }

  lemma AppliedIsUndoable(d: Disk, plan: Plan, prepare: Prepare)
    requires d.pending.None? && Compatible(plan.changes) && AllBefore(d.files, plan.changes)
    requires plan.conflicts == [] && plan.changes != [] && NextSaved(d.saved, plan) != d.saved
    requires (prepare.Some? ==> prepare.value(plan.manifest.launch)) && Allows(prepare, d.saved)
    ensures Applied(d, plan, prepare)
  {
    hide TransactRun, Compatible, AllBefore, AllAfter, AtEither;
    var t := Transaction(d.saved, NextSaved(d.saved, plan), plan.changes, prepare.Some?, d.files);
    SettledAtEither(d.files, plan.changes);
    TransactionStep(d, t, prepare);
    SettledAtEither(CommitRun(d, plan, prepare).End().files, plan.changes);
  }

  ghost predicate Applied(d: Disk, plan: Plan, prepare: Prepare) {
    var t := Transaction(d.saved, NextSaved(d.saved, plan), plan.changes, prepare.Some?, d.files);
    var applied := CommitRun(d, plan, prepare).End();
    Compatible(plan.changes) && Ready(d, t) && Allows(prepare, t.after) &&
    applied == TransactRun(d, t.after, t.changes, prepare).End() &&
    Undoable(applied, plan.manifest.binding) && applied.saved.previous.Some? &&
    applied.saved.previous.value.changes == plan.changes && Allows(prepare, RollbackSaved(applied.saved))
  }

  lemma RewrittenTwice(d: Disk, plan: Plan, prepare: Prepare, path: string)
    requires Applied(d, plan, prepare) && path in Paths(plan.changes) && FieldGroup(Group(plan.changes, path))
    ensures var g := Group(plan.changes, path);
            var restored := RollbackRun(CommitRun(d, plan, prepare).End(), plan.manifest.binding, prepare).End().files;
            g != [] && Document(d.files, path, g[0].codec).Ok? &&
            var document := Document(d.files, path, g[0].codec).value;
            R.Rewrite(document, ToFields(g)).Ok? &&
            Document(restored, path, g[0].codec) ==
              R.Rewrite(R.Rewrite(document, ToFields(g)).value, R.ReverseAll(ToFields(g))) &&
            (g[0].before != g[0].after ==>
              (path in restored <==> !(Document(restored, path, g[0].codec) == Ok(EMPTY) && AnyCreated(g))))
  {
    hide TransactRun, CommitRun, RollbackRun, Document, Ready, Undoable, Allows, Compatible, AllBefore, R.Rewrite;
    var g, back := Group(plan.changes, path), ReverseChanges(Group(plan.changes, path));
    var t := Transaction(d.saved, NextSaved(d.saved, plan), plan.changes, prepare.Some?, d.files);
    TransactRewrites(d, t, prepare, path);
    var applied := CommitRun(d, plan, prepare).End();
    UndoIsReady(applied, plan.manifest.binding, prepare);
    GroupOfReversal(plan.changes, path);
    TransactRewrites(applied, Undo(applied, prepare), prepare, path);
    assert ToFields(back) == R.ReverseAll(ToFields(g));
    assert AnyCreated(back) <==> AnyCreated(g) by {
      assert forall i | 0 <= i < |g| :: back[i].createdFile == g[i].createdFile;
    }
  }

  lemma RestoredDocument(d: Disk, plan: Plan, prepare: Prepare, path: string)
    requires AllDue(d.files, plan.changes) && Applied(d, plan, prepare)
    requires forall i | 0 <= i < |plan.changes| ::
      RecordsMissing(d.files, plan.changes[i]) && (plan.changes[i].createdFile <==>
        plan.changes[i].key.path !in d.files)
    requires path in Paths(plan.changes) && FieldGroup(Group(plan.changes, path))
    ensures var g := Group(plan.changes, path);
            var restored := RollbackRun(CommitRun(d, plan, prepare).End(), plan.manifest.binding, prepare).End();
            g != [] && Document(d.files, path, g[0].codec).Ok? && (path in restored.files <==> path in d.files) &&
            (Document(restored.files, path, g[0].codec) == Document(d.files, path, g[0].codec) <==>
              R.SparesEmpty(Document(d.files, path, g[0].codec).value, ToFields(g)))
  {
    hide TransactRun, CommitRun, RollbackRun, Document, RecordsMissing, Ready, Undoable, AllDue, Allows, R.Rewrite,
      R.SparesEmpty, R.Planned, Compatible;
    RewrittenTwice(d, plan, prepare, path);
    GroupIsPlanned(d.files, plan.changes, path);
    var g := Group(plan.changes, path);
    var document := Document(d.files, path, g[0].codec).value;
    R.UndoRestoresDocumentExactly(document, ToFields(g));
    assert AnyCreated(g) <==> path !in d.files by {
      assert g[0] in plan.changes;
    }
    if path !in d.files {
      AbsentIsSpared(d.files, path, g) by {
        PlannedIsWellFormed(document, ToFields(g));
      }
    }
  }

  lemma PlannedIsWellFormed(origin: Doc, cs: seq<R.FieldChange>)
    requires R.Planned(origin, cs)
    ensures R.WellFormed(cs)
  {
  }

  // A file that was absent held no empty object to lose.
  lemma AbsentIsSpared(files: Files, path: string, g: seq<Change>)
    requires g != [] && path !in files && Document(files, path, g[0].codec).Ok?
    requires R.WellFormed(ToFields(g))
    ensures Document(files, path, g[0].codec) == Ok(EMPTY) && R.SparesEmpty(EMPTY, ToFields(g))
  {
    var fields := ToFields(g);
    forall i, p | 0 <= i < |fields| && p in fields[i].parents ensures !HoldsEmpty(EMPTY, p) {
      assert R.OwnParents(fields[i]);
    }
  }

  lemma GroupIsPlanned(files: Files, cs: seq<Change>, path: string)
    requires Compatible(cs) && AllDue(files, cs) && path in Paths(cs) && FieldGroup(Group(cs, path))
    requires forall i | 0 <= i < |cs| :: RecordsMissing(files, cs[i])
    ensures var g := Group(cs, path);
            g != [] && Document(files, path, g[0].codec).Ok? &&
              R.Planned(Document(files, path, g[0].codec).value, ToFields(g))
    ensures forall c | c in Group(cs, path) :: c in cs && c.key.path == path && c.before != c.after
  {
    hide ReadIn, Compatible, Group;
    var g := Group(cs, path);
    SubGroup(files, cs, path) by {
      assert AtEither(files, cs);
    }
    CompatibleIsLayered(g);
    GroupShape(g, path);
    ToFieldsWellFormed(g);
    forall i | 0 <= i < |g|
      ensures At(files, g[i], g[i].before) && g[i].before != g[i].after && RecordsMissing(files, g[i])
    {
      var k :| 0 <= k < |cs| && cs[k] == g[i];
    }
    FieldsArePlanned(files, path, g);
  }

  lemma FieldsArePlanned(files: Files, path: string, g: seq<Change>)
    requires g != [] && FieldGroup(g) && R.WellFormed(ToFields(g))
    requires forall i | 0 <= i < |g| :: g[i].key.path == path && g[i].codec == g[0].codec
    requires AllDue(files, g) && forall i | 0 <= i < |g| :: RecordsMissing(files, g[i])
    ensures Document(files, path, g[0].codec).Ok? &&
      R.Planned(Document(files, path, g[0].codec).value, ToFields(g))
  {
    assert At(files, g[0], g[0].before);
    var document := Document(files, path, g[0].codec).value;
    var fields := ToFields(g);
    forall i | 0 <= i < |fields| ensures Field(document, fields[i].selector) == Ok(fields[i].before) &&
      fields[i].before != fields[i].after {
      ProjectIsField(files, g[i].key, g[i].codec);
    }
    forall i, p | 0 <= i < |fields| && p != [] && p < fields[i].selector && Field(document, p) == Ok(None)
      ensures p in fields[i].parents
    {
      assert RecordsMissing(files, g[i]);
    }
  }
}
