/** How the changes of one plan may overlap. A candidate's selectors are checked against each other,
    not against the recorded ones; still there are only two ways: a removal of a recorded value and,
    after it, a new value below; or a new field and, after it, the removal of its recorded whole file. */
module PlanLayers {
  import opened Wrappers
  import opened DocumentLaws
  import opened Deployment
  import opened DeploymentWrites
  import opened DeploymentPlan
  import opened PlanLaws

  // The sorted order of the keys of one path: a field comes before those below it, and the whole file,
  // whose selector is null, after every field.
  ghost predicate InOrder(a: Key, b: Key) {
    a.path == b.path ==> a.selector != [] && (b.selector == [] || !(b.selector < a.selector))
  }

  ghost predicate SortedKeys(order: seq<Key>) {
    forall i, j | 0 <= i < j < |order| :: InOrder(order[i], order[j])
  }

  // The changes come in the order of the keys.
  ghost predicate Ordered(cs: seq<Change>) {
    forall i, j | 0 <= i < j < |cs| :: InOrder(cs[i].key, cs[j].key)
  }

  lemma {:induction false} ChangesKeepOrder(files: Files, saved: Saved, wanted: map<Key, Wanted>, order: seq<Key>)
    requires Known(saved, wanted, order) && TallyOver(files, saved, wanted, order).Ok? && Distinct(order) &&
      SortedKeys(order)
    ensures Ordered(TallyOver(files, saved, wanted, order).value.changes)
    decreases |order|
  {
    hide PlanKey;
    if order != [] {
      var front, key := order[..|order| - 1], order[|order| - 1];
      assert order == front + [key];
      ChangesKeepOrder(files, saved, wanted, front);
      TallyChanges(files, saved, wanted, front);
      var v := PlanKey(files, saved, wanted, key).value;
      if v.change.Some? {
        ChangeKey(files, saved, wanted, key);
        var cs := TallyOver(files, saved, wanted, front).value.changes;
        forall i | 0 <= i < |cs| ensures InOrder(cs[i].key, key) {
          assert cs[i].key in front;
          var n :| 0 <= n < |front| && front[n] == cs[i].key;
          assert order[n] == cs[i].key && order[|order| - 1] == key;
        }
      }
    }
  }

  // One removal of a field and one value set below it.
  ghost predicate Shadows(a: Change, b: Change) {
    a.key.path == b.key.path && a.codec == b.codec && a.key.selector != [] && a.key.selector < b.key.selector &&
    a.before.Some? && a.after.None? && b.before.None? && b.after.Some?
  }

  // One field set and its whole file removed.
  ghost predicate Dropped(a: Change, b: Change) {
    a.key.path == b.key.path && a.codec == b.codec && Drops(a, b) && b.after.None?
  }

  lemma AbsentAboveIsAbsent(files: Files, a: Key, b: Key, codec: Codec)
    requires a.path == b.path && a.selector < b.selector
    requires Project(files, a, codec) == Ok(None) && Project(files, b, codec).Ok?
    ensures Project(files, b, codec) == Ok(None)
  {
    if a.selector != [] {
      ProjectIsField(files, a, codec);
      ProjectIsField(files, b, codec);
      assert b.selector == a.selector + b.selector[|a.selector|..];
      FieldCompose(Document(files, a.path, codec).value, a.selector, b.selector[|a.selector|..]);
    }
  }

  // Recorded keys with a value that is the manager's to take back.
  function Live(items: Items): set<Key> {
    set k | k in items.Keys && items[k].ownership != Initialize && items[k].baseline.Some?
  }

  // What a plan keeps of a live key was wanted, so no two live keys ever overlap.
  lemma LiveWasWanted(files: Files, saved: Saved, wanted: map<Key, Wanted>, key: Key)
    requires (key in OldItems(saved) || key in wanted) && PlanKey(files, saved, wanted, key).Ok?
    ensures var v := PlanKey(files, saved, wanted, key).value;
            v.keep.Some? && v.keep.value.ownership != Initialize && v.keep.value.baseline.Some? ==> key in wanted
  {
  }

  lemma LiveStaysDisjoint(files: Files, saved: Saved, candidate: Candidate, binding: string, launch: Launch,
      order: seq<Key>)
    requires Lists(order, saved, candidate.wanted) && Known(saved, candidate.wanted, order)
    requires PlanAll(files, saved, candidate, binding, launch, order).Ok?
    ensures Disjoint(Live(PlanAll(files, saved, candidate, binding, launch, order).value.manifest.items))
  {
    hide PlanKey;
    var wanted := candidate.wanted;
    var items := PlanAll(files, saved, candidate, binding, launch, order).value.manifest.items;
    TallyOnlyOrdered(files, saved, wanted, order);
    forall k | k in Live(items) ensures k in wanted.Keys {
      TallyAt(files, saved, wanted, order, k);
      LiveWasWanted(files, saved, wanted, k);
    }
  }

  lemma ChangedIsLive(files: Files, saved: Saved, wanted: map<Key, Wanted>, key: Key)
    requires (key in OldItems(saved) || key in wanted) && Shaped(saved, wanted)
    requires PlanKey(files, saved, wanted, key).Ok? && PlanKey(files, saved, wanted, key).value.change.Some?
    ensures var c := PlanKey(files, saved, wanted, key).value.change.value;
      c.before.Some? ==> key in Live(OldItems(saved))
  {
  }

  lemma WholeIsDropped(files: Files, a: Change, b: Change)
    requires At(files, a, a.before) && At(files, b, b.before) && a.key.path == b.key.path && a.codec == b.codec
    requires a.key.selector != [] && b.key.selector == [] && a.before != a.after && b.before != b.after
    requires !(a.before.Some? && b.before.Some?) && !(a.after.Some? && b.after.Some?)
    ensures Dropped(a, b)
  {
    ReadThrough(files, b.key, a.key, a.codec);
  }

  // The two ways changes of a plan overlap.
  lemma OverlapShapes(files: Files, saved: Saved, candidate: Candidate, binding: string, launch: Launch,
      order: seq<Key>, i: nat, j: nat)
    requires Lists(order, saved, candidate.wanted) && Known(saved, candidate.wanted, order) && SortedKeys(order)
    requires Shaped(saved, candidate.wanted) && Disjoint(Live(OldItems(saved)))
    requires PlanAll(files, saved, candidate, binding, launch, order).Ok?
    requires var cs := PlanAll(files, saved, candidate, binding, launch, order).value.changes;
             i < j < |cs| && Overlap(cs[i].key, cs[j].key)
    ensures var cs := PlanAll(files, saved, candidate, binding, launch, order).value.changes;
            Shadows(cs[i], cs[j]) || Dropped(cs[i], cs[j])
  {
    hide PlanKey, Project, ReadIn;
    var wanted := candidate.wanted;
    var cs := PlanAll(files, saved, candidate, binding, launch, order).value.changes;
    ChangesAreDue(files, saved, candidate, binding, launch, order);
    ChangesKeepOrder(files, saved, wanted, order);
    var a, b := cs[i], cs[j];
    assert IsVerdictOf(files, saved, wanted, a) && IsVerdictOf(files, saved, wanted, b);
    ChangeIsDue(files, saved, wanted, a.key);
    ChangeIsDue(files, saved, wanted, b.key);
    ChangedIsLive(files, saved, wanted, a.key);
    ChangedIsLive(files, saved, wanted, b.key);
    OneCodecPerFile(files, saved, candidate, binding, launch, order, i, j);
    assert InOrder(cs[i].key, cs[j].key);
    assert a.key in wanted.Keys ==> b.key !in wanted.Keys;
    assert a.key in Live(OldItems(saved)) ==> b.key !in Live(OldItems(saved));
    if b.key.selector == [] {
      WholeIsDropped(files, a, b);
    } else if a.before.None? {
      AbsentAboveIsAbsent(files, a.key, b.key, a.codec);
    }
  }

  lemma OneCodecPerFile(files: Files, saved: Saved, candidate: Candidate, binding: string, launch: Launch,
      order: seq<Key>, j: nat, k: nat)
    requires Lists(order, saved, candidate.wanted) && Known(saved, candidate.wanted, order)
    requires Shaped(saved, candidate.wanted) && PlanAll(files, saved, candidate, binding, launch, order).Ok?
    requires var cs := PlanAll(files, saved, candidate, binding, launch, order).value.changes;
             j < |cs| && k < |cs| && cs[j].key.path == cs[k].key.path
    ensures var cs := PlanAll(files, saved, candidate, binding, launch, order).value.changes;
            cs[j].codec == cs[k].codec
  {
    hide PlanAll, PlanKey;
    ChangesAreDue(files, saved, candidate, binding, launch, order);
  }

  ghost predicate OneCodecEach(cs: seq<Change>) {
    forall i, j | 0 <= i < |cs| && 0 <= j < |cs| && cs[i].key.path == cs[j].key.path :: cs[i].codec == cs[j].codec
  }

  ghost predicate AllDue(files: Files, cs: seq<Change>) {
    forall i | 0 <= i < |cs| :: ValidChange(cs[i]) && At(files, cs[i], cs[i].before) && cs[i].before != cs[i].after
  }

  ghost predicate Stacked(cs: seq<Change>) {
    forall i, j | 0 <= i < j < |cs| && Overlap(cs[i].key, cs[j].key) :: Shadows(cs[i], cs[j]) || Dropped(cs[i], cs[j])
  }

  // The changes of a plan against the files it was planned for.
  ghost predicate Staged(files: Files, cs: seq<Change>) {
    AllDue(files, cs) && OneCodecEach(cs) && Stacked(cs)
  }

  lemma PlanIsStaged(files: Files, saved: Saved, candidate: Candidate, binding: string, launch: Launch, order: seq<Key>)
    requires Lists(order, saved, candidate.wanted) && Known(saved, candidate.wanted, order) && SortedKeys(order)
    requires Shaped(saved, candidate.wanted) && Disjoint(Live(OldItems(saved)))
    requires PlanAll(files, saved, candidate, binding, launch, order).Ok?
    ensures Staged(files, PlanAll(files, saved, candidate, binding, launch, order).value.changes)
  {
    hide PlanAll, PlanKey, Project, Shadows, Dropped;
    var cs := PlanAll(files, saved, candidate, binding, launch, order).value.changes;
    ChangesAreDue(files, saved, candidate, binding, launch, order);
    forall i, j | 0 <= i < |cs| && 0 <= j < |cs| && cs[i].key.path == cs[j].key.path
      ensures cs[i].codec == cs[j].codec
    {
      OneCodecPerFile(files, saved, candidate, binding, launch, order, i, j);
    }
    forall i, j | 0 <= i < j < |cs| && Overlap(cs[i].key, cs[j].key)
      ensures Shadows(cs[i], cs[j]) || Dropped(cs[i], cs[j])
    {
      OverlapShapes(files, saved, candidate, binding, launch, order, i, j);
    }
  }

  // Staged changes nest, and they are compatible, that is each of their mixtures is recoverable, if and
  // only if no two field changes overlap.
  lemma StagedIsLayered(files: Files, cs: seq<Change>)
    requires Staged(files, cs)
    ensures Layered(cs) && AllBefore(files, cs) && (Compatible(cs) <==> FieldsApart(cs))
  {
    hide Project, ReadIn, ValidChange;
    forall i, j | 0 <= i < j < |cs| ensures Nests(cs[i], cs[j]) &&
      (Clear(cs[i], cs[j]) <==>
        (Overlap(cs[i].key, cs[j].key) ==> cs[i].key.selector == [] || cs[j].key.selector == [])) {
    }
    forall i | 0 <= i < |cs| ensures At(files, cs[i], Starts(cs, i)) {
      if Vain(cs, i) {
        var j :| 0 <= j < |cs| && cs[j].key == Key(cs[i].key.path, []);
        assert i < j ==> Overlap(cs[i].key, cs[j].key);
      }
    }
  }

  // The changes of any plan nest: they overlap only as a field above a field, or a field in a whole file
  // that goes.
  lemma PlanIsLayered(files: Files, saved: Saved, candidate: Candidate, binding: string, launch: Launch,
      order: seq<Key>)
    requires Lists(order, saved, candidate.wanted) && Known(saved, candidate.wanted, order) && SortedKeys(order)
    requires Shaped(saved, candidate.wanted) && Disjoint(Live(OldItems(saved)))
    requires PlanAll(files, saved, candidate, binding, launch, order).Ok?
    ensures var cs := PlanAll(files, saved, candidate, binding, launch, order).value.changes;
            Layered(cs) && AllBefore(files, cs) && (Compatible(cs) <==> FieldsApart(cs))
  {
    PlanIsStaged(files, saved, candidate, binding, launch, order);
    StagedIsLayered(files, PlanAll(files, saved, candidate, binding, launch, order).value.changes);
  }

  // A conflict-free plan over a sound state, its keys listed in their sorted order.
  ghost predicate IsPlan(d: Disk, plan: Plan, candidate: Candidate, binding: string, launch: Launch, order: seq<Key>) {
    && d.pending.None? && Lists(order, d.saved, candidate.wanted) && Known(d.saved, candidate.wanted, order) &&
      SortedKeys(order)
    && Shaped(d.saved, candidate.wanted) && Disjoint(Live(OldItems(d.saved)))
    && PlanAll(d.files, d.saved, candidate, binding, launch, order) == Ok(plan) && plan.conflicts == []
  }

  lemma PlanFacts(d: Disk, plan: Plan, candidate: Candidate, binding: string, launch: Launch, order: seq<Key>)
    requires IsPlan(d, plan, candidate, binding, launch, order)
    ensures Staged(d.files, plan.changes) && plan.manifest.binding == binding && plan.manifest.launch == launch
    ensures d.pending.None? && plan.conflicts == [] && (Unchanged(d.saved, plan) ==> plan.changes == [])
    ensures AllBefore(d.files, plan.changes) && (Compatible(plan.changes) <==> FieldsApart(plan.changes))
    ensures NextSaved(d.saved, plan) == d.saved <==> Unchanged(d.saved, plan)
  {
    PlanIsStaged(d.files, d.saved, candidate, binding, launch, order);
    StagedIsLayered(d.files, plan.changes);
    CommitTestIsSound(d.files, d.saved, candidate, binding, launch, order);
  }
}
