/** Applying the same candidate again. The first commit always completes and settles every key it can
    still read; the second apply changes no file and only forgets keys that are gone; the third leaves
    everything alone. */
module Convergence {
  import opened Wrappers
  import opened Deployment
  import opened DeploymentWrites
  import opened DeploymentPlan
  import opened PlanLaws
  import opened PlanLayers
  import opened PlanEffects
  import ForwardWrites

  // Every key is recorded as the candidate wants it, and every recorded place can be read.
  ghost predicate Settled(files: Files, saved: Saved, wanted: map<Key, Wanted>) {
    var recorded := OldItems(saved);
    wanted.Keys <= recorded.Keys &&
    forall k | k in recorded :: SettledAt(files, recorded[k], wanted, k)
  }

  ghost predicate SettledAt(files: Files, item: Item, wanted: map<Key, Wanted>, k: Key) {
    (k in wanted ==> item.codec == wanted[k].codec && item.ownership == wanted[k].ownership) &&
    (item.ownership != Initialize ==> item.baseline == Desired(wanted, k)) &&
    Project(files, k, item.codec).Ok?
  }

  // A recorded key that is no longer wanted and no longer on disk.
  predicate Gone(files: Files, item: Item, wanted: map<Key, Wanted>, k: Key) {
    k !in wanted && item.ownership != Initialize && Project(files, k, item.codec) == Ok(None)
  }

  // A recorded key the manager keeps, whose place holds something else than wanted.
  ghost predicate Drifted(files: Files, item: Item, wanted: map<Key, Wanted>, k: Key) {
    item.ownership != Initialize && Project(files, k, item.codec) != Ok(Desired(wanted, k))
  }

  lemma SettledKey(files: Files, saved: Saved, wanted: map<Key, Wanted>, k: Key)
    requires Settled(files, saved, wanted) && k in OldItems(saved)
    ensures var v := PlanKey(files, saved, wanted, k);
            v.Ok? && v.value.change.None? && !v.value.conflict &&
            v.value.keep == (if Gone(files, OldItems(saved)[k], wanted, k) then None else Some(OldItems(saved)[k])) &&
            (v.value.drift <==> Drifted(files, OldItems(saved)[k], wanted, k))
  {
    assert SettledAt(files, OldItems(saved)[k], wanted, k);
  }

  lemma {:induction false} SettledTally(files: Files, saved: Saved, wanted: map<Key, Wanted>, order: seq<Key>)
    requires Settled(files, saved, wanted) && Known(saved, wanted, order)
    ensures TallyOver(files, saved, wanted, order).Ok?
    ensures TallyOver(files, saved, wanted, order).value.changes == [] &&
      TallyOver(files, saved, wanted, order).value.conflicts == []
    decreases |order|
  {
    if order != [] {
      SettledTally(files, saved, wanted, order[..|order| - 1]);
      SettledKey(files, saved, wanted, order[|order| - 1]);
    }
  }

  // From a settled state the plan has no change and no conflict, keeps all but the gone keys and reports
  // the drifted ones.
  lemma SettledPlan(files: Files, saved: Saved, candidate: Candidate, launch: Launch, order: seq<Key>)
    requires saved.current.Some? && Belongs(saved, saved.current.value.binding) && Disjoint(candidate.wanted.Keys)
    requires Settled(files, saved, candidate.wanted) && Lists(order, saved, candidate.wanted) &&
      Known(saved, candidate.wanted, order)
    ensures var plan := PlanAll(files, saved, candidate, saved.current.value.binding, launch, order);
            var recorded := OldItems(saved);
            plan.Ok? && plan.value.changes == [] && plan.value.conflicts == [] &&
            plan.value.manifest.items == map k | k in recorded &&
              !Gone(files, recorded[k], candidate.wanted, k) :: recorded[k]
    ensures var plan := PlanAll(files, saved, candidate, saved.current.value.binding, launch, order);
            forall k | k in OldItems(saved) ::
              k in plan.value.drift <==> Drifted(files, OldItems(saved)[k], candidate.wanted, k)
  {
    var wanted, recorded := candidate.wanted, OldItems(saved);
    SettledTally(files, saved, wanted, order);
    var items := TallyOver(files, saved, wanted, order).value.items;
    TallyOnlyOrdered(files, saved, wanted, order);
    forall k ensures k in items <==> k in recorded && !Gone(files, recorded[k], wanted, k) {
      if k in recorded {
        SettledKey(files, saved, wanted, k);
        TallyAt(files, saved, wanted, order, k);
      }
    }
    forall k | k in recorded
      ensures k in items ==> items[k] == recorded[k]
      ensures k in TallyOver(files, saved, wanted, order).value.drift <==> Drifted(files, recorded[k], wanted, k)
    {
      SettledKey(files, saved, wanted, k);
      TallyAt(files, saved, wanted, order, k);
    }
  }

  // ---- The run ----

  // What an apply without outside edits hands to the next one.
  ghost predicate Steady(d: Disk, candidate: Candidate, binding: string, launch: Launch) {
    && d.pending.None? && d.saved.current.Some? && d.saved.owner.Some?
    && d.saved.current.value == Manifest(candidate.generation, binding, launch, OldItems(d.saved))
    && d.saved.owner.value.binding == binding
    && (forall k | k in OldItems(d.saved) && k.selector != [] :: k.path in d.saved.owner.value.shared)
    && Disjoint(candidate.wanted.Keys) && Settled(d.files, d.saved, candidate.wanted)
  }

  ghost predicate NoneGone(d: Disk, wanted: map<Key, Wanted>) {
    forall k | k in OldItems(d.saved) :: !Gone(d.files, OldItems(d.saved)[k], wanted, k)
  }

  // Every recorded place can be read: none lies below a scalar.
  ghost predicate AllReadable(d: Disk) {
    forall k | k in OldItems(d.saved) :: Project(d.files, k, OldItems(d.saved)[k].codec).Ok?
  }

  lemma KeptAsWanted(files: Files, saved: Saved, wanted: map<Key, Wanted>, k: Key)
    requires (k in OldItems(saved) || k in wanted) && PlanKey(files, saved, wanted, k).Ok?
    ensures var v := PlanKey(files, saved, wanted, k).value;
            !v.conflict ==>
              (k in wanted ==>
                v.keep.Some? && v.keep.value.codec == wanted[k].codec &&
                v.keep.value.ownership == wanted[k].ownership) &&
              (v.keep.Some? && v.keep.value.ownership != Initialize ==> v.keep.value.baseline == Desired(wanted, k))
  {
  }

  // What a commit records is settled wherever it can still be read.
  lemma SettledIsReadable(files: Files, d: Disk, candidate: Candidate, binding: string, launch: Launch, order: seq<Key>)
    requires Lists(order, d.saved, candidate.wanted) && Known(d.saved, candidate.wanted, order)
    requires PlanAll(d.files, d.saved, candidate, binding, launch, order).Ok?
    requires PlanAll(d.files, d.saved, candidate, binding, launch, order).value.conflicts == []
    ensures var next := NextSaved(d.saved, PlanAll(d.files, d.saved, candidate, binding, launch, order).value);
            Settled(files, next, candidate.wanted) <==> AllReadable(d.(files := files, saved := next))
  {
    hide PlanKey;
    var wanted := candidate.wanted;
    var items := PlanAll(d.files, d.saved, candidate, binding, launch, order).value.manifest.items;
    TallyOnlyOrdered(d.files, d.saved, wanted, order);
    forall k | k in order
      ensures k in wanted ==> k in items
      ensures k in items ==> (SettledAt(files, items[k], wanted, k) <==> Project(files, k, items[k].codec).Ok?)
    {
      TallyAt(d.files, d.saved, wanted, order, k);
      KeptAsWanted(d.files, d.saved, wanted, k);
    }
  }

  // No value the plan sets hides a place it keeps recorded: none lies above one it cannot be read in.
  // Values set in a file that the same plan removes do not count.
  ghost predicate KeepsReadable(plan: Plan) {
    forall k | k in plan.manifest.items :: NoneHides(plan.changes, k)
  }

  lemma RecordedWasRead(files: Files, saved: Saved, wanted: map<Key, Wanted>, k: Key)
    requires (k in OldItems(saved) || k in wanted) && Shaped(saved, wanted) && PlanKey(files, saved, wanted, k).Ok?
    ensures Project(files, k, CodecOf(saved, wanted, k)).Ok?
    ensures var keep := PlanKey(files, saved, wanted, k).value.keep;
            keep.Some? ==> keep.value.codec == CodecOf(saved, wanted, k)
  {
  }

  lemma PlanReads(d: Disk, plan: Plan, candidate: Candidate, binding: string, launch: Launch, order: seq<Key>, k: Key)
    requires IsPlan(d, plan, candidate, binding, launch, order) && k in plan.manifest.items
    ensures (k in OldItems(d.saved) || k in candidate.wanted) && Project(d.files, k, plan.manifest.items[k].codec).Ok?
    ensures OneCodec(plan.changes, k.path, plan.manifest.items[k].codec)
  {
    hide PlanKey, Shaped, Disjoint, Live, Project;
    var wanted := candidate.wanted;
    TallyOnlyOrdered(d.files, d.saved, wanted, order);
    TallyAt(d.files, d.saved, wanted, order, k);
    RecordedWasRead(d.files, d.saved, wanted, k);
    ChangesAreDue(d.files, d.saved, candidate, binding, launch, order);
    forall i | 0 <= i < |plan.changes| && plan.changes[i].key.path == k.path
      ensures plan.changes[i].codec == plan.manifest.items[k].codec
    {
      PlanHasOneCodec(d.saved, wanted, plan.changes[i].key, k);
    }
  }

  lemma PlanHasOneCodec(saved: Saved, wanted: map<Key, Wanted>, a: Key, b: Key)
    requires Shaped(saved, wanted) && a.path == b.path
    requires (a in OldItems(saved) || a in wanted) && (b in OldItems(saved) || b in wanted)
    ensures CodecOf(saved, wanted, a) == CodecOf(saved, wanted, b)
  {
  }

  lemma GovernedKeepsReadable(d: Disk, plan: Plan, candidate: Candidate, binding: string, launch: Launch,
      order: seq<Key>)
    requires IsPlan(d, plan, candidate, binding, launch, order) && Governed(d.saved, candidate.wanted)
    ensures KeepsReadable(plan)
  {
    hide PlanKey, Shaped, Live, Project;
    ChangesAreDue(d.files, d.saved, candidate, binding, launch, order);
    forall k, i | k in plan.manifest.items && 0 <= i < |plan.changes| ensures !Hides(plan.changes[i], k) {
      PlanReads(d, plan, candidate, binding, launch, order, k);
      assert IsVerdictOf(d.files, d.saved, candidate.wanted, plan.changes[i]);
      assert plan.changes[i].key in OldItems(d.saved).Keys + candidate.wanted.Keys &&
        k in OldItems(d.saved).Keys + candidate.wanted.Keys;
    }
  }

  lemma ReadableAfter(d: Disk, plan: Plan, candidate: Candidate, binding: string, launch: Launch, order: seq<Key>,
      start: Disk)
    requires IsPlan(d, plan, candidate, binding, launch, order) && Staged(d.files, plan.changes)
    requires start.files == d.files && WriteRun(start, plan.changes, Paths(plan.changes)).outcome.Done?
    ensures var files := WriteRun(start, plan.changes, Paths(plan.changes)).End().files;
            (forall k | k in plan.manifest.items :: Project(files, k, plan.manifest.items[k].codec).Ok?) <==>
              KeepsReadable(plan)
  {
    hide IsPlan, WriteRun, Project, Staged, NoneHides;
    var files := WriteRun(start, plan.changes, Paths(plan.changes)).End().files;
    forall k | k in plan.manifest.items
      ensures Project(files, k, plan.manifest.items[k].codec).Ok? <==> NoneHides(plan.changes, k)
    {
      PlanReads(d, plan, candidate, binding, launch, order, k);
      HidesExactly(start, plan.changes, k, plan.manifest.items[k].codec);
    }
  }

  // A conflict-free plan always executes fully. Each of its changes ends at its after value if and only
  // if no later one overlaps it, so all do when none overlap. It leaves a steady state if and only if no
  // value it sets hides a place it keeps recorded, as when recorded and wanted selectors are disjoint.
  lemma FirstApply(d: Disk, plan: Plan, candidate: Candidate, binding: string, launch: Launch, order: seq<Key>,
      prepare: Prepare)
    requires IsPlan(d, plan, candidate, binding, launch, order) && (prepare.Some? ==> prepare.value(launch))
    requires !Unchanged(d.saved, plan)
    ensures var run := CommitRun(d, plan, prepare);
            run.outcome == Done && run.End().pending.None? && run.End().saved == NextSaved(d.saved, plan) &&
            (forall i | 0 <= i < |plan.changes| ::
              At(run.End().files, plan.changes[i], plan.changes[i].after) <==> Stands(plan.changes, i)) &&
            (NoneOverlap(plan.changes) ==> AllAfter(run.End().files, plan.changes)) &&
            (Steady(run.End(), candidate, binding, launch) <==> AllReadable(run.End())) &&
            (AllReadable(run.End()) <==> KeepsReadable(plan)) &&
            (Governed(d.saved, candidate.wanted) ==> KeepsReadable(plan))
  {
    hide TallyOver, TransactRun, WriteRun, Settled, Shaped, Live, AllReadable, KeepsReadable, Stands, Project, AllAfter,
      Staged;
    PlanFacts(d, plan, candidate, binding, launch, order);
    ForwardWrites.StagedTransactionCompletes(d, NextSaved(d.saved, plan), plan.changes, prepare);
    var start := ForwardWrites.ToWrite(d, NextSaved(d.saved, plan), plan.changes, prepare);
    var end := TransactRun(d, NextSaved(d.saved, plan), plan.changes, prepare).End();
    forall i | 0 <= i < |plan.changes|
      ensures At(end.files, plan.changes[i], plan.changes[i].after) <==> Stands(plan.changes, i)
    {
      EndsAtAfter(start, plan.changes, i);
    }
    if NoneOverlap(plan.changes) {
      NoneOverlapsAllStand(end.files, plan.changes);
    }
    ReadableAfter(d, plan, candidate, binding, launch, order, start);
    ReadableItems(end, plan.manifest.items);
    SettledIsReadable(end.files, d, candidate, binding, launch, order);
    ReadableIgnoresRest(end, d.(files := end.files, saved := end.saved));
    SharedCovers(d.saved, plan);
    if Governed(d.saved, candidate.wanted) {
      GovernedKeepsReadable(d, plan, candidate, binding, launch, order);
    }
  }

  lemma NoneOverlapsAllStand(files: Files, cs: seq<Change>)
    requires NoneOverlap(cs)
    requires forall i | 0 <= i < |cs| :: At(files, cs[i], cs[i].after) <==> Stands(cs, i)
    ensures AllAfter(files, cs)
  {
    forall i | 0 <= i < |cs| ensures Stands(cs, i) && !Vain(cs, i) {
      if Vain(cs, i) {
        var j :| 0 <= j < |cs| && cs[j].key == Key(cs[i].key.path, []);
        assert if i < j then Overlap(cs[i].key, cs[j].key) else Overlap(cs[j].key, cs[i].key);
      }
    }
  }

  lemma ReadableItems(d: Disk, items: Items)
    requires OldItems(d.saved) == items
    ensures AllReadable(d) <==> forall k | k in items :: Project(d.files, k, items[k].codec).Ok?
  {
  }

  lemma ReadableIgnoresRest(a: Disk, b: Disk)
    requires a.files == b.files && a.saved == b.saved
    ensures AllReadable(a) <==> AllReadable(b)
  {
  }

  lemma SharedCovers(saved: Saved, plan: Plan)
    ensures forall k | k in plan.manifest.items && k.selector != [] :: k.path in NextOwner(saved, plan).shared
  {
  }

  // The hook runs once before the files are written and once before the journal goes.
  function Twice(prepare: Prepare, launch: Launch): seq<Launch> {
    if prepare.Some? then [launch, launch] else []
  }

  lemma EmptyTransaction(d: Disk, after: Saved, prepare: Prepare)
    requires d.pending.None? && after.current.Some? && (prepare.Some? ==> prepare.value(after.current.value.launch))
    ensures var run := TransactRun(d, after, [], prepare);
            run.outcome == Done && run.End() == d.(saved := after,
              prepared := d.prepared + Twice(prepare, after.current.value.launch))
  {
  }

  lemma SecondApply(d: Disk, candidate: Candidate, binding: string, launch: Launch, order: seq<Key>, prepare: Prepare)
    requires Steady(d, candidate, binding, launch) && (prepare.Some? ==> prepare.value(launch))
    requires Lists(order, d.saved, candidate.wanted) && Known(d.saved, candidate.wanted, order)
    ensures var plan := PlanAll(d.files, d.saved, candidate, binding, launch, order);
            plan.Ok? && plan.value.changes == [] && plan.value.conflicts == [] &&
            (forall k :: k in plan.value.manifest.items <==>
              k in OldItems(d.saved) && !Gone(d.files, OldItems(d.saved)[k], candidate.wanted, k)) &&
            (forall k | k in OldItems(d.saved) ::
              k in plan.value.drift <==> Drifted(d.files, OldItems(d.saved)[k], candidate.wanted, k)) &&
            CommitRun(d, plan.value, prepare).outcome == Done &&
            var next := CommitRun(d, plan.value, prepare).End();
            next.files == d.files && next.saved.previous == d.saved.previous &&
            Steady(next, candidate, binding, launch) && NoneGone(next, candidate.wanted)
  {
    SettledPlan(d.files, d.saved, candidate, launch, order);
    var plan := PlanAll(d.files, d.saved, candidate, binding, launch, order).value;
    var recorded, items := OldItems(d.saved), plan.manifest.items;
    SharedCovers(d.saved, plan);
    forall k | k in items ensures SettledAt(d.files, items[k], candidate.wanted, k) {
      assert SettledAt(d.files, recorded[k], candidate.wanted, k);
    }
    forall k | k in candidate.wanted ensures k in items {
      assert k in recorded;
    }
    EmptyTransaction(d, if Unchanged(d.saved, plan) then d.saved else NextSaved(d.saved, plan), prepare);
  }

  // Without a hook nothing at all is written; with one an empty transaction runs for its sake, which
  // ends where it began but for the launches prepared.
  lemma ThirdApply(d: Disk, candidate: Candidate, binding: string, launch: Launch, order: seq<Key>, prepare: Prepare)
    requires Steady(d, candidate, binding, launch) && NoneGone(d, candidate.wanted) &&
      (prepare.Some? ==> prepare.value(launch))
    requires Lists(order, d.saved, candidate.wanted) && Known(d.saved, candidate.wanted, order)
    ensures var plan := PlanAll(d.files, d.saved, candidate, binding, launch, order);
            plan.Ok? && LeavesAlone(d, CommitRun(d, plan.value, prepare), prepare, launch)
  {
    SettledPlan(d.files, d.saved, candidate, launch, order);
    var plan := PlanAll(d.files, d.saved, candidate, binding, launch, order).value;
    assert plan.manifest.items == OldItems(d.saved);
    assert NextOwner(d.saved, plan).shared == d.saved.owner.value.shared;
    EmptyTransaction(d, d.saved, prepare);
  }

  ghost predicate LeavesAlone(d: Disk, run: Run, prepare: Prepare, launch: Launch) {
    (prepare.None? ==> run == Run([d], Done)) &&
    run.disks != [] && run.outcome == Done && run.End() == d.(prepared := d.prepared + Twice(prepare, launch))
  }

  // An unreadable recorded place refuses the next plan.
  lemma ReadableToPlan(d: Disk, candidate: Candidate, binding: string, launch: Launch, order: seq<Key>)
    requires Lists(order, d.saved, candidate.wanted) && Known(d.saved, candidate.wanted, order)
    ensures PlanAll(d.files, d.saved, candidate, binding, launch, order).Ok? ==> AllReadable(d)
  {
    if PlanAll(d.files, d.saved, candidate, binding, launch, order).Ok? {
      forall k | k in OldItems(d.saved) ensures Project(d.files, k, OldItems(d.saved)[k].codec).Ok? {
        TallyMissesNoChange(d.files, d.saved, candidate.wanted, order, k);
      }
    }
  }

  // The key is recorded as the manager's own, not as an initial value given away.
  predicate Owned(plan: Plan, k: Key) {
    k in plan.manifest.items && plan.manifest.items[k].ownership != Initialize
  }

  lemma ChangeIsKept(d: Disk, plan: Plan, candidate: Candidate, binding: string, launch: Launch, order: seq<Key>,
      i: nat)
    requires IsPlan(d, plan, candidate, binding, launch, order) && i < |plan.changes|
    ensures var c := plan.changes[i];
            c.key in plan.manifest.items && plan.manifest.items[c.key].codec == c.codec &&
            c.after == Desired(candidate.wanted, c.key)
  {
    hide PlanKey, Shaped, Project;
    var wanted := candidate.wanted;
    TallyChanges(d.files, d.saved, wanted, order);
    assert IsVerdictOf(d.files, d.saved, wanted, plan.changes[i]);
    ChangeIsDue(d.files, d.saved, wanted, plan.changes[i].key);
    TallyAt(d.files, d.saved, wanted, order, plan.changes[i].key);
    RecordedWasRead(d.files, d.saved, wanted, plan.changes[i].key);
  }

  // Applying a conflict-free candidate executes fully, with or without a hook that accepts the launch.
  // The next apply of the same candidate is planned if and only if no value the plan sets hides a place it
  // keeps recorded; then it has no changes, drops only gone keys and reports as drift, of the keys changed
  // before, exactly those whose value was overwritten by a later change of the same plan. The apply after
  // that leaves the instance alone. The backup stays.
  lemma ApplyConverges(d: Disk, plan: Plan, candidate: Candidate, binding: string, launch: Launch,
                       order: seq<Key>, order': seq<Key>, order'': seq<Key>, prepare: Prepare)
    requires IsPlan(d, plan, candidate, binding, launch, order) && (prepare.Some? ==> prepare.value(launch))
    requires !Unchanged(d.saved, plan)
    ensures var run := CommitRun(d, plan, prepare);
            var d' := run.End();
            run.outcome == Done && d'.pending.None? && (Governed(d.saved, candidate.wanted) ==> KeepsReadable(plan)) &&
            (Lists(order', d'.saved, candidate.wanted) && Known(d'.saved, candidate.wanted, order') ==>
              var second := PlanAll(d'.files, d'.saved, candidate, binding, launch, order');
              (second.Ok? <==> KeepsReadable(plan)) &&
              (second.Ok? ==>
                second.value.changes == [] && second.value.conflicts == [] &&
                (forall k :: k in second.value.manifest.items <==>
                  k in OldItems(d'.saved) && !Gone(d'.files, OldItems(d'.saved)[k], candidate.wanted, k)) &&
                (forall i | 0 <= i < |plan.changes| ::
                  plan.changes[i].key in second.value.drift <==>
                    !Stands(plan.changes, i) && Owned(plan, plan.changes[i].key)) &&
                CommitRun(d', second.value, prepare).outcome == Done &&
                var d'' := CommitRun(d', second.value, prepare).End();
                d''.files == d'.files && d''.saved.previous == d'.saved.previous &&
                (Lists(order'', d''.saved, candidate.wanted) && Known(d''.saved, candidate.wanted, order'') ==>
                  var third := PlanAll(d''.files, d''.saved, candidate, binding, launch, order'');
                  third.Ok? && LeavesAlone(d'', CommitRun(d'', third.value, prepare), prepare, launch))))
  {
    hide PlanAll, CommitRun, Steady, AllReadable, LeavesAlone, Gone, IsPlan, KeepsReadable;
    var d' := CommitRun(d, plan, prepare).End();
    FirstApply(d, plan, candidate, binding, launch, order, prepare);
    if Lists(order', d'.saved, candidate.wanted) && Known(d'.saved, candidate.wanted, order') {
      ReadableToPlan(d', candidate, binding, launch, order');
      if AllReadable(d') {
        SecondApply(d', candidate, binding, launch, order', prepare);
        forall i | 0 <= i < |plan.changes|
          ensures plan.changes[i].key in OldItems(d'.saved)
          ensures Drifted(d'.files, OldItems(d'.saved)[plan.changes[i].key], candidate.wanted, plan.changes[i].key) <==>
            !Stands(plan.changes, i) && Owned(plan, plan.changes[i].key)
        {
          ChangeIsKept(d, plan, candidate, binding, launch, order, i);
        }
        var second := PlanAll(d'.files, d'.saved, candidate, binding, launch, order').value;
        var d'' := CommitRun(d', second, prepare).End();
        if Lists(order'', d''.saved, candidate.wanted) && Known(d''.saved, candidate.wanted, order'') {
          ThirdApply(d'', candidate, binding, launch, order'', prepare);
        }
      }
    }
  }
}
