/** The write pass of a plan always completes, also where its changes overlap: a removal above a new
    value is written first and leaves room for it, and a whole file is removed after all its fields. */
module ForwardWrites {
  import opened Wrappers
  import opened NativeDocument
  import opened DocumentLaws
  import opened Deployment
  import opened DeploymentWrites
  import opened DeploymentCrash
  import opened DeploymentPlan
  import opened PlanLaws
  import opened PlanLayers

  // ---- One file ----

  ghost predicate DocDue(d: Doc, cs: seq<R.FieldChange>) {
    (forall i | 0 <= i < |cs| :: R.OwnParents(cs[i]) && Field(d, cs[i].selector) == Ok(cs[i].before)) &&
    forall i, j | 0 <= i < j < |cs| && Related(cs[i].selector, cs[j].selector) ::
      cs[i].selector < cs[j].selector && cs[i].after.None? && cs[j].before.None?
  }

  lemma RemovedAbove(d: Doc, s: Selector, t: Selector)
    requires s < t && Field(d, s) == Ok(None)
    ensures Field(d, t) == Ok(None)
  {
    assert t == s + t[|s|..];
    FieldCompose(d, s, t[|s|..]);
  }

  lemma {:induction false} DueRewrites(d: Doc, cs: seq<R.FieldChange>)
    requires d.Dict? && DocDue(d, cs)
    ensures R.Rewrite(d, cs).Ok?
    decreases |cs|
  {
    if cs != [] {
      var c, rest := cs[0], cs[1..];
      R.StepSettles(d, c);
      var next := R.Step(d, c).value;
      forall i | 0 <= i < |rest| ensures R.OwnParents(rest[i]) && Field(next, rest[i].selector) == Ok(rest[i].before) {
        assert rest[i] == cs[i + 1];
        if Related(c.selector, rest[i].selector) {
          RemovedAbove(next, c.selector, rest[i].selector);
        } else {
          R.StepFrame(d, c, rest[i].selector);
        }
      }
      forall i, j | 0 <= i < j < |rest| && Related(rest[i].selector, rest[j].selector)
        ensures rest[i].selector < rest[j].selector && rest[i].after.None? && rest[j].before.None?
      {
        assert rest[i] == cs[i + 1] && rest[j] == cs[j + 1];
      }
      DueRewrites(next, rest);
    }
  }

  lemma FieldsAreDue(d: Doc, g: seq<Change>, path: string)
    requires Stacked(g) && FieldGroup(g) && forall i | 0 <= i < |g| :: g[i].key.path == path && ValidChange(g[i])
    requires forall i | 0 <= i < |g| :: Field(d, g[i].key.selector) == Ok(g[i].before)
    ensures DocDue(d, ToFields(g))
  {
    var fields := ToFields(g);
    forall i | 0 <= i < |fields| ensures R.OwnParents(fields[i]) {
      assert ValidChange(g[i]);
    }
    forall i, j | 0 <= i < j < |fields| && Related(fields[i].selector, fields[j].selector)
      ensures fields[i].selector < fields[j].selector && fields[i].after.None? && fields[j].before.None?
    {
      assert Overlap(g[i].key, g[j].key);
    }
  }

  lemma StagedFieldsAreWritten(files: Files, path: string, g: seq<Change>)
    requires g != [] && FieldGroup(g) && Staged(files, g) && forall i | 0 <= i < |g| :: g[i].key.path == path
    ensures Document(files, path, g[0].codec).Ok? && DraftAll(files, StartOf(files, path, g), g).Ok?
  {
    ProjectIsField(files, g[0].key, g[0].codec);
    assert At(files, g[0], g[0].before);
    var document := Document(files, path, g[0].codec).value;
    forall i | 0 <= i < |g| ensures Field(document, g[i].key.selector) == Ok(g[i].before) && ValidChange(g[i]) {
      ProjectIsField(files, g[i].key, g[i].codec);
    }
    FieldsAreDue(document, g, path);
    DueRewrites(document, ToFields(g));
    DraftIsRewrite(files, StartOf(files, path, g), g);
  }

  lemma StagedGroupIsWritten(files: Files, path: string, g: seq<Change>)
    requires OneFileLayered(g, path) && Staged(files, g)
    ensures WriteGroup(files, path, g).Ok?
  {
    GroupShape(g, path);
    if WholeLast(g) {
      var w, fields := g[|g| - 1], g[..|g| - 1];
      assert g == fields + [w] && ValidChange(w) && At(files, w, w.before);
      if fields != [] {
        FrontIsStaged(files, g);
        StagedFieldsAreWritten(files, path, fields);
      }
      DraftAppend(files, StartOf(files, path, g), fields, w);
    } else {
      StagedFieldsAreWritten(files, path, g);
    }
  }

  lemma FrontIsStaged(files: Files, g: seq<Change>)
    requires g != [] && Staged(files, g)
    ensures Staged(files, g[..|g| - 1])
  {
    hide At, Shadows, Dropped, ValidChange, Overlap;
    var front := g[..|g| - 1];
    assert forall i | 0 <= i < |front| :: front[i] == g[i];
  }

  // ---- All files ----

  lemma {:induction false} GroupStacks(cs: seq<Change>, path: string)
    requires Stacked(cs)
    ensures Stacked(Group(cs, path))
  {
    hide Overlap, Shadows, Dropped;
    if cs != [] {
      var front, last := cs[..|cs| - 1], cs[|cs| - 1];
      GroupStacks(front, path);
      GroupNonempty(front, path);
      var rest := Group(front, path);
      forall i | 0 <= i < |rest| && Overlap(rest[i].key, last.key)
        ensures Shadows(rest[i], last) || Dropped(rest[i], last)
      {
        assert rest[i] in front;
        var a :| 0 <= a < |front| && front[a] == rest[i];
        assert cs[a] == front[a] && cs[|cs| - 1] == last;
      }
    }
  }

  lemma GroupIsStaged(files: Files, cs: seq<Change>, path: string)
    requires Staged(files, cs) && path in Paths(cs)
    ensures OneFileLayered(Group(cs, path), path) && Staged(files, Group(cs, path))
  {
    hide Layered, Stacked, At, ValidChange;
    StagedIsLayered(files, cs);
    GroupIsLayered(cs, path);
    GroupStacks(cs, path);
    GroupNonempty(cs, path);
    GroupOfPath(cs, path);
    var g := Group(cs, path);
    assert AllDue(files, g) && OneCodecEach(g) by {
      forall i | 0 <= i < |g| ensures exists k :: 0 <= k < |cs| && cs[k] == g[i] {
        assert g[i] in cs;
      }
    }
  }

  // A run completes if each of its groups can be written over the files it starts from.
  ghost predicate EachWrites(files: Files, cs: seq<Change>, paths: seq<string>) {
    forall p | p in paths :: p in Paths(cs) && Group(cs, p) != [] && WriteGroup(files, p, Group(cs, p)).Ok?
  }

  lemma {:induction false} RunCompletes(files: Files, disk: Disk, cs: seq<Change>, paths: seq<string>)
    requires EachWrites(files, cs, paths) && forall p | p in paths :: Agree(files, disk.files, p)
    requires forall i, j | 0 <= i < j < |paths| :: paths[i] != paths[j]
    ensures WriteRun(disk, cs, paths).outcome.Done?
    decreases |paths|
  {
    hide WriteGroup, Agree, Group;
    if paths != [] {
      var path, rest := paths[0], paths[1..];
      assert path in paths;
      GroupOfPath(cs, path);
      GroupReadsOwnFile(files, disk.files, path, Group(cs, path));
      GroupReadsOwnFile(disk.files, disk.files, path, Group(cs, path)) by {
        SameAgrees(disk.files, path);
      }
      var next := disk.(files := FilesAfter(disk.files, path, Group(cs, path)));
      forall p | p in rest ensures p in paths && Agree(files, next.files, p) {
        ElsewhereAgrees(files, disk.files, next.files, path, p);
      }
      OneFileUnfolds(disk, cs, paths);
      RunCompletes(files, next, cs, rest);
    }
  }

  lemma StagedRunCompletes(files: Files, disk: Disk, cs: seq<Change>)
    requires Staged(files, cs) && files == disk.files
    ensures WriteRun(disk, cs, Paths(cs)).outcome.Done?
  {
    hide Staged, WriteGroup, Group;
    forall p | p in Paths(cs) ensures Group(cs, p) != [] && WriteGroup(files, p, Group(cs, p)).Ok? {
      GroupIsStaged(files, cs, p);
      StagedGroupIsWritten(files, p, Group(cs, p));
    }
    forall p | p in Paths(cs) ensures Agree(files, disk.files, p) {
      SameAgrees(files, p);
    }
    PathsDistinct(cs);
    RunCompletes(files, disk, cs, Paths(cs));
  }

  lemma SameAgrees(files: Files, path: string)
    ensures Agree(files, files, path)
  {
  }

  lemma ElsewhereAgrees(files: Files, now: Files, next: Files, path: string, p: string)
    requires Agree(files, now, p) && SameElsewhere(now, next, path) && p != path
    ensures Agree(files, next, p)
  {
  }

  // The state the write pass of a transaction starts from.
  function ToWrite(d: Disk, after: Saved, changes: seq<Change>, prepare: Prepare): Disk {
    var journaled := d.(pending := Some(Journal(after, changes, prepare.Some?)));
    if prepare.Some? && after.current.Some? then journaled.(prepared := d.prepared + [after.current.value.launch])
      else journaled
  }

  function Written(d: Disk, after: Saved, changes: seq<Change>, prepare: Prepare): (r: Run)
    ensures r.disks != []
  {
    WriteRun(ToWrite(d, after, changes, prepare), changes, Paths(changes))
  }

  // A transaction over staged changes completes whenever the hook accepts the new launch.
  lemma StagedTransactionCompletes(d: Disk, after: Saved, changes: seq<Change>, prepare: Prepare)
    requires Staged(d.files, changes) && Allows(prepare, after)
    ensures var written := Written(d, after, changes, prepare);
            var run := TransactRun(d, after, changes, prepare);
            && written.outcome.Done? && OnlyFilesDiffer(written.End(), ToWrite(d, after, changes, prepare))
            && (exists n :: 0 <= n < |run.disks| && run.disks[n] == written.End())
            && run.outcome.Done? && run.End().pending.None? && run.End().saved == after &&
              run.End().files == written.End().files
  {
    hide Staged, WriteRun;
    var ready := ToWrite(d, after, changes, prepare);
    StagedRunCompletes(d.files, ready, changes);
    WriteKeepsState(ready, changes, Paths(changes));
    var written := Written(d, after, changes, prepare);
    var run := TransactRun(d, after, changes, prepare);
    var opening := if ready.prepared == d.prepared then [d, ready] else [d, d.(pending := ready.pending), ready];
    var body := opening + written.disks[1..];
    assert body[|body| - 1] == written.End();
    assert run.disks == body + RecoverRun(written.End().(saved := after), prepare).disks;
    assert run.disks[|body| - 1] == written.End();
  }
}
