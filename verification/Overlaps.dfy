/** What overlapping changes cost. A candidate's selectors are checked against each other, not against
    the recorded ones. Apply completes all the same, but where two of its field changes overlap, its
    rollback and the recovery of a crash before its commit find their own work edited. */
module Overlaps {
  import opened Wrappers
  import opened NativeDocument
  import opened DocumentLaws
  import R = Restoration
  import opened Deployment
  import opened DeploymentWrites
  import opened DeploymentCrash
  import opened DeploymentPlan
  import opened PlanLaws
  import opened PlanLayers
  import opened ForwardWrites
  import opened PlanEffects
  import opened Rollback

  // ---- The plan after its write pass ----

  // Where the lower field now has a value, the upper one is neither absent nor what it was.
  lemma ShadowedReadsEdited(files: Files, now: Files, a: Change, b: Change)
    requires Shadows(a, b) && At(files, a, a.before) && At(files, b, b.before) && At(now, b, b.after)
    ensures !At(now, a, a.before) && !At(now, a, a.after)
  {
    ReadThrough(files, a.key, b.key, a.codec);
    if Project(now, a.key, a.codec).Ok? {
      ReadThrough(now, a.key, b.key, a.codec);
    }
  }

  // After the write pass the upper of two overlapping fields is at neither of its values.
  lemma UpperIsEdited(start: Disk, cs: seq<Change>, i: nat, j: nat)
    requires Staged(start.files, cs) && i < j < |cs| && Shadows(cs[i], cs[j]) &&
      WriteRun(start, cs, Paths(cs)).outcome.Done?
    ensures !Found(WriteRun(start, cs, Paths(cs)).End().files, cs[i])
  {
    hide WriteRun, Project;
    LowerStands(cs, i, j);
    EndsAtAfter(start, cs, j);
    ShadowedReadsEdited(start.files, WriteRun(start, cs, Paths(cs)).End().files, cs[i], cs[j]);
  }

  lemma LowerStands(cs: seq<Change>, i: nat, j: nat)
    requires Stacked(cs) && i < j < |cs| && Shadows(cs[i], cs[j])
    ensures Stands(cs, j)
  {
    forall k | j < k < |cs| ensures !Overlap(cs[j].key, cs[k].key) {
      if cs[k].key.selector == [] && cs[k].key.path == cs[i].key.path {
        assert Overlap(cs[i].key, cs[k].key);
      }
    }
  }

  // Two overlapping field changes of a plan are a removal and a new value below it.
  lemma OverlappingFields(cs: seq<Change>) returns (i: nat, j: nat)
    requires Stacked(cs) && !FieldsApart(cs)
    ensures i < j < |cs| && Shadows(cs[i], cs[j])
  {
    i, j :| 0 <= i < j < |cs| && Overlap(cs[i].key, cs[j].key) && cs[i].key.selector != [] && cs[j].key.selector != [];
  }

  // ---- Rollback ----

  // An apply whose plan has no conflict, followed at once by a rollback: the apply finishes, and the
  // rollback does if and only if no two changes of the plan overlap. Nobody else edits anything.
  lemma RollbackNeedsDisjointFields(d: Disk, plan: Plan, candidate: Candidate, binding: string, launch: Launch,
      order: seq<Key>, prepare: Prepare)
    requires IsPlan(d, plan, candidate, binding, launch, order) && plan.changes != []
    requires (prepare.Some? ==> prepare.value(launch)) && Allows(prepare, d.saved)
    ensures var applied := CommitRun(d, plan, prepare);
            applied.outcome.Done? && (FieldsApart(plan.changes) <==>
              RollbackRun(applied.End(), binding, prepare).outcome.Done?)
  {
    hide IsPlan, WriteRun, Project, TransactRun, Staged, Layered, RollbackRun, Compatible;
    PlanFacts(d, plan, candidate, binding, launch, order);
    StagedTransactionCompletes(d, NextSaved(d.saved, plan), plan.changes, prepare);
    if FieldsApart(plan.changes) {
      DisjointRollsBack(d, plan, prepare);
    } else {
      OverlapRefusesRollback(d, plan, prepare);
    }
  }

  lemma DisjointRollsBack(d: Disk, plan: Plan, prepare: Prepare)
    requires d.pending.None? && Compatible(plan.changes) && Staged(d.files, plan.changes)
    requires NextSaved(d.saved, plan) == d.saved <==> Unchanged(d.saved, plan)
    requires plan.changes != [] && plan.conflicts == [] && !Unchanged(d.saved, plan)
    requires Allows(prepare, NextSaved(d.saved, plan)) && Allows(prepare, d.saved)
    ensures RollbackRun(CommitRun(d, plan, prepare).End(), plan.manifest.binding, prepare).outcome.Done?
  {
    hide WriteRun, Project, TransactRun, Staged, Compatible, RollbackRun;
    DueIsReady(d, plan, prepare);
    TransactionStep(d, Transaction(d.saved, NextSaved(d.saved, plan), plan.changes, prepare.Some?, d.files), prepare);
    SettledAtEither(CommitRun(d, plan, prepare).End().files, plan.changes);
    RollbackRestoresFields(CommitRun(d, plan, prepare).End(), plan.manifest.binding, prepare);
  }

  lemma OverlapRefusesRollback(d: Disk, plan: Plan, prepare: Prepare)
    requires Staged(d.files, plan.changes) && !FieldsApart(plan.changes)
    requires plan.changes != [] && plan.conflicts == [] && !Unchanged(d.saved, plan) &&
      Allows(prepare, NextSaved(d.saved, plan))
    ensures RollbackRun(CommitRun(d, plan, prepare).End(), plan.manifest.binding, prepare).outcome.Refused?
  {
    hide WriteRun, Project, TransactRun, AllDue, Stacked, Overlap, FieldsApart;
    StagedTransactionCompletes(d, NextSaved(d.saved, plan), plan.changes, prepare);
    var i, j := OverlappingFields(plan.changes);
    UpperIsEdited(ToWrite(d, NextSaved(d.saved, plan), plan.changes, prepare), plan.changes, i, j);
    assert ReverseChanges(plan.changes)[i] == ReverseChange(plan.changes[i]);
  }

  lemma DueIsReady(d: Disk, plan: Plan, prepare: Prepare)
    requires d.pending.None? && Compatible(plan.changes) && Staged(d.files, plan.changes)
    requires NextSaved(d.saved, plan) == d.saved <==> Unchanged(d.saved, plan)
    ensures Ready(d, Transaction(d.saved, NextSaved(d.saved, plan), plan.changes, prepare.Some?, d.files))
  {
  }

  // ---- Recovery ----

  // A group whose change m reads neither of its values, and which nothing before it in the group
  // overlaps, is refused.
  ghost predicate Blocks(files: Files, g: seq<Change>, m: nat, path: string) {
    && m < |g| && (forall k | 0 <= k < |g| :: g[k].key.path == path && ValidChange(g[k]) && g[k].codec == g[0].codec)
    && (forall k | 0 <= k < m :: !Overlap(g[k].key, g[m].key)) && g[m].key.selector != [] && !Found(files, g[m])
  }

  lemma {:induction false} DraftIsRefused(files: Files, draft: Draft, g: seq<Change>, m: nat)
    requires m < |g| && forall k | 0 <= k <= m :: ValidChange(g[k]) && g[k].key.selector != []
    requires forall k | 0 <= k < m :: g[k].key.path == g[m].key.path && !Overlap(g[k].key, g[m].key)
    requires Field(draft.document, g[m].key.selector) != Ok(g[m].before) &&
      Field(draft.document, g[m].key.selector) != Ok(g[m].after)
    ensures DraftAll(files, draft, g).Conflict?
    decreases m
  {
    var step := DraftStep(files, draft, g[0]);
    if m > 0 && step.Ok? {
      R.StepFrame(draft.document, ToField(g[0]), g[m].key.selector);
      assert step.value.document == R.Step(draft.document, ToField(g[0])).value;
      assert g[1..][m - 1] == g[m];
      forall k | 0 <= k <= m - 1 ensures ValidChange(g[1..][k]) && g[1..][k].key.selector != [] {
        assert g[1..][k] == g[k + 1];
      }
      DraftIsRefused(files, step.value, g[1..], m - 1);
    }
  }

  lemma BlockedGroupIsRefused(files: Files, g: seq<Change>, m: nat, path: string)
    requires Blocks(files, g, m, path)
    ensures WriteGroup(files, path, g).Conflict?
  {
    forall k | 0 <= k < m ensures g[k].key.selector != [] {
      assert !Overlap(g[k].key, g[m].key);
    }
    if Document(files, path, g[0].codec).Ok? {
      ProjectIsField(files, g[m].key, g[m].codec);
      DraftIsRefused(files, Draft(Document(files, path, g[0].codec).value, false, None, "0600"), g, m);
    }
  }

  // A write run that meets a refused group is refused and leaves that group's file as it was.
  lemma {:induction false} RunIsRefused(disk: Disk, cs: seq<Change>, paths: seq<string>, path: string)
    requires (forall p | p in paths :: p in Paths(cs)) && path in paths
    requires Group(cs, path) != [] && WriteGroup(disk.files, path, Group(cs, path)).Conflict?
    ensures var run := WriteRun(disk, cs, paths);
            run.outcome.Refused? && forall n | 0 <= n < |run.disks| :: Agree(disk.files, run.disks[n].files, path)
    decreases |paths|
  {
    hide WriteGroup, DraftAll;
    var first, rest := paths[0], paths[1..];
    GroupNonempty(cs, first);
    SameAgrees(disk.files, path);
    if first != path && WriteGroup(disk.files, first, Group(cs, first)).Ok? {
      GroupOfPath(cs, first);
      GroupOfPath(cs, path);
      SameAgrees(disk.files, first);
      GroupReadsOwnFile(disk.files, disk.files, first, Group(cs, first));
      var next := disk.(files := FilesAfter(disk.files, first, Group(cs, first)));
      ElsewhereAgrees(disk.files, disk.files, next.files, first, path);
      GroupReadsOwnFile(disk.files, next.files, path, Group(cs, path));
      RunIsRefused(next, cs, rest, path);
      OneFileUnfolds(disk, cs, paths);
    }
  }

  // The upper of two overlapping changes blocks the reversal of its file.
  lemma ReversalIsBlocked(files: Files, now: Files, cs: seq<Change>, i: nat, j: nat)
    requires Staged(files, cs) && i < j < |cs| && Shadows(cs[i], cs[j]) && !Found(now, cs[i])
    ensures cs[i].key.path in Paths(ReverseChanges(cs)) && Group(ReverseChanges(cs), cs[i].key.path) != []
    ensures WriteGroup(now, cs[i].key.path, Group(ReverseChanges(cs), cs[i].key.path)).Conflict?
  {
    hide Project, Group, Paths, WriteGroup;
    var path := cs[i].key.path;
    var g := Group(cs, path);
    assert cs[i] in cs;
    GroupNonempty(cs, path);
    GroupOfPath(cs, path);
    GroupIsStaged(files, cs, path);
    GroupOfReversal(cs, path);
    var m := GroupPosition(cs, path, i);
    var back := ReverseChanges(g);
    forall k | 0 <= k < |back| ensures back[k].key.path == path && ValidChange(back[k]) &&
      back[k].codec == back[0].codec {
      assert back[k] == ReverseChange(g[k]) && g[k] in cs && g[0] in cs && ValidChange(g[k]);
    }
    forall k | 0 <= k < m ensures !Overlap(back[k].key, back[m].key) {
      assert Overlap(g[k].key, g[m].key) ==> Shadows(g[k], g[m]) || Dropped(g[k], g[m]);
    }
    assert Blocks(now, back, m, path);
    BlockedGroupIsRefused(now, back, m, path);
  }

  ghost predicate Blocked(files: Files, cs: seq<Change>, path: string) {
    path in Paths(cs) && Group(cs, path) != [] && WriteGroup(files, path, Group(cs, path)).Conflict?
  }

  // The journal of overlapping changes is written, the files are, the commit is not.
  ghost predicate Stranded(d: Disk, at: Disk, path: string) {
    d.saved == at.saved && d.pending == at.pending && Agree(at.files, d.files, path)
  }

  lemma RecoveryIsRefused(d: Disk, at: Disk, path: string, prepare: Prepare)
    requires Stranded(d, at, path) && at.pending.Some? && at.saved != at.pending.value.after
    requires Blocked(at.files, ReverseChanges(at.pending.value.changes), path)
    ensures var run := RecoverRun(d, prepare);
            run.outcome.Refused? && forall n | 0 <= n < |run.disks| :: Stranded(run.disks[n], at, path)
  {
    hide WriteGroup, Group, Paths;
    var back := ReverseChanges(at.pending.value.changes);
    GroupOfPath(back, path);
    GroupReadsOwnFile(at.files, d.files, path, Group(back, path));
    RunIsRefused(d, back, Paths(back), path);
    WriteKeepsState(d, back, Paths(back));
    var run := WriteRun(d, back, Paths(back));
    forall n | 0 <= n < |run.disks| ensures Stranded(run.disks[n], at, path) {
    }
  }

  lemma {:induction false} RestartsStrand(at: Disk, path: string, schedule: seq<Restart>)
    requires at.pending.Some? && at.saved != at.pending.value.after
    requires Blocked(at.files, ReverseChanges(at.pending.value.changes), path)
    ensures Stranded(AfterRestarts(at, schedule), at, path)
    decreases |schedule|
  {
    hide Blocked, RecoverRun;
    if schedule == [] {
      SameAgrees(at.files, path);
    } else {
      var last := schedule[|schedule| - 1];
      RestartsStrand(at, path, schedule[..|schedule| - 1]);
      RecoveryIsRefused(AfterRestarts(at, schedule[..|schedule| - 1]), at, path, last.prepare);
    }
  }

  // The written but uncommitted state, and the file whose reversal it blocks.
  lemma WritePassStrands(d: Disk, after: Saved, cs: seq<Change>, prepare: Prepare) returns (path: string)
    requires Staged(d.files, cs) && !FieldsApart(cs) && Allows(prepare, after)
    ensures var at := Written(d, after, cs, prepare).End();
            OnlyFilesDiffer(at, ToWrite(d, after, cs, prepare)) && Blocked(at.files, ReverseChanges(cs), path)
  {
    hide WriteRun, Project, TransactRun, AllDue, Stacked, FieldsApart, WriteGroup, Group, Paths;
    StagedTransactionCompletes(d, after, cs, prepare);
    var i, j := OverlappingFields(cs);
    path := cs[i].key.path;
    UpperIsEdited(ToWrite(d, after, cs, prepare), cs, i, j);
    ReversalIsBlocked(d.files, Written(d, after, cs, prepare).End().files, cs, i, j);
  }

  // For every conflict-free plan two of whose changes overlap: die between the write pass and the
  // commit, and after any schedule of recoveries, interrupted or not, every recovery is refused and
  // the journal still stands. Nobody edited anything.
  lemma OverlapStrandsRecovery(d: Disk, plan: Plan, candidate: Candidate, binding: string, launch: Launch,
      order: seq<Key>, prepare: Prepare,
                               schedule: seq<Restart>, last: Prepare)
    requires IsPlan(d, plan, candidate, binding, launch, order) && !FieldsApart(plan.changes) &&
      (prepare.Some? ==> prepare.value(launch))
    ensures var at := Written(d, NextSaved(d.saved, plan), plan.changes, prepare).End();
            var run := CommitRun(d, plan, prepare);
            (exists n :: 0 <= n < |run.disks| && run.disks[n] == at) && at.saved == d.saved && at.pending.Some? &&
            var later := AfterRestarts(at, schedule);
            RecoverRun(later, last).outcome.Refused? && RecoverRun(later, last).End().pending == at.pending
  {
    hide IsPlan, Written, TransactRun, Staged, RecoverRun, Blocked, Allows, AfterRestarts;
    PlanFacts(d, plan, candidate, binding, launch, order);
    var after, cs := NextSaved(d.saved, plan), plan.changes;
    assert Allows(prepare, after) by {
      AllowsLaunch(d, plan, prepare);
    }
    StagedTransactionCompletes(d, after, cs, prepare);
    var path := WritePassStrands(d, after, cs, prepare);
    var at := Written(d, after, cs, prepare).End();
    RestartsStrand(at, path, schedule);
    RecoveryIsRefused(AfterRestarts(at, schedule), at, path, last);
    assert cs != [] && CommitRun(d, plan, prepare) == TransactRun(d, after, cs, prepare);
    var run := RecoverRun(AfterRestarts(at, schedule), last);
    assert Stranded(run.disks[|run.disks| - 1], at, path);
  }

  lemma AllowsLaunch(d: Disk, plan: Plan, prepare: Prepare)
    requires prepare.Some? ==> prepare.value(plan.manifest.launch)
    ensures Allows(prepare, NextSaved(d.saved, plan))
  {
  }

  // Every crash point of an apply is recoverable, with a hook that accepts both launches, if and only
  // if no two changes of its plan overlap.
  lemma RecoveryNeedsDisjointFields(d: Disk, plan: Plan, candidate: Candidate, binding: string, launch: Launch,
      order: seq<Key>, prepare: Prepare)
    requires IsPlan(d, plan, candidate, binding, launch, order)
    requires (prepare.Some? ==> prepare.value(launch)) && Allows(prepare, d.saved)
    ensures FieldsApart(plan.changes) <==>
              forall alive: nat :: RecoverRun(CrashAt(CommitRun(d, plan, prepare), alive), prepare).outcome.Done?
  {
    hide IsPlan, WriteRun, Project, TransactRun, Staged, RecoverRun, WriteGroup, Compatible;
    PlanFacts(d, plan, candidate, binding, launch, order);
    if FieldsApart(plan.changes) {
      forall alive: nat ensures RecoverRun(CrashAt(CommitRun(d, plan, prepare), alive), prepare).outcome.Done? {
        CrashRecovers(d, plan, prepare, alive);
      }
    } else {
      OverlapStrandsRecovery(d, plan, candidate, binding, launch, order, prepare, [], prepare);
      var at := Written(d, NextSaved(d.saved, plan), plan.changes, prepare).End();
      var run := CommitRun(d, plan, prepare);
      var n :| 0 <= n < |run.disks| && run.disks[n] == at;
      assert AfterRestarts(at, []) == at;
      assert CrashAt(run, n) == at;
    }
  }

  lemma CrashRecovers(d: Disk, plan: Plan, prepare: Prepare, alive: nat)
    requires d.pending.None? && plan.conflicts == [] && Compatible(plan.changes) && Staged(d.files, plan.changes)
    requires NextSaved(d.saved, plan) == d.saved <==> Unchanged(d.saved, plan)
    requires (prepare.Some? ==> prepare.value(plan.manifest.launch)) && Allows(prepare, d.saved)
    ensures RecoverRun(CrashAt(CommitRun(d, plan, prepare), alive), prepare).outcome.Done?
  {
    hide WriteRun, Project, TransactRun, Staged, Compatible;
    if Unchanged(d.saved, plan) {
      if prepare.Some? {
        NothingIsReady(d);
        CrashedTransactionRecovers(d, Transaction(d.saved, d.saved, [], true, d.files), prepare, alive);
      }
    } else {
      DueIsReady(d, plan, prepare);
      CrashedTransactionRecovers(d, Transaction(d.saved, NextSaved(d.saved, plan), plan.changes, prepare.Some?,
        d.files), prepare, alive);
    }
  }

  lemma NothingIsReady(d: Disk)
    requires d.pending.None?
    ensures Ready(d, Transaction(d.saved, d.saved, [], true, d.files))
  {
  }

  lemma CrashedTransactionRecovers(d: Disk, t: Transaction, prepare: Prepare, alive: nat)
    requires Ready(d, t) && t.prepares == prepare.Some? && Allows(prepare, t.after) && Allows(prepare, t.prior)
    ensures RecoverRun(CrashAt(TransactRun(d, t.after, t.changes, prepare), alive), prepare).outcome.Done?
  {
    hide TransactRun, RecoverRun, Compatible, AtEither, AllAfter, AllBefore;
    TransactionStep(d, t, prepare);
    var crashed := CrashAt(TransactRun(d, t.after, t.changes, prepare), alive);
    if Recoverable(crashed, t) {
      RecoveryStep(crashed, t, prepare);
    } else {
      NothingPending(crashed, prepare);
    }
  }
}
