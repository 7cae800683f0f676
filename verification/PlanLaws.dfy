/** What a plan guarantees about its own execution: its changes are due, independent and record
    their missing parents; it can always be told from the state it replaces; and it converges. */
module PlanLaws {
  import opened Wrappers
  import opened NativeDocument
  import opened DocumentLaws
  import R = Restoration
  import opened Deployment
  import opened DeploymentWrites
  import opened DeploymentPlan

  // Parents recorded in the saved state, and the shape of whole-file values (validate_saved_state).
  ghost predicate ValidItem(key: Key, item: Item) {
    if key.selector == [] then item.created == [] && (item.baseline.Some? ==> IsWhole(item.baseline.value))
    else forall i | 0 <= i < |item.created| :: item.created[i] != [] && item.created[i] < key.selector
  }

  // Recorded items and wanted whole files have their shapes, and each file has one codec.
  ghost predicate Shaped(saved: Saved, wanted: map<Key, Wanted>) {
    var recorded := OldItems(saved);
    && (forall k | k in recorded :: ValidItem(k, recorded[k]))
    && (forall k | k in wanted && k.selector == [] :: IsWhole(wanted[k].desired))
    && (forall a, b | a in recorded && b in recorded && a.path == b.path :: recorded[a].codec == recorded[b].codec)
    && (forall a, b | a in wanted && b in wanted && a.path == b.path :: wanted[a].codec == wanted[b].codec)
    && (forall a, b | a in recorded && b in wanted && a.path == b.path :: recorded[a].codec == wanted[b].codec)
  }

  // Recorded and wanted keys are pairwise independent.
  ghost predicate Governed(saved: Saved, wanted: map<Key, Wanted>) {
    Shaped(saved, wanted) && Disjoint(OldItems(saved).Keys + wanted.Keys)
  }

  function Desired(wanted: map<Key, Wanted>, key: Key): Projection {
    if key in wanted then Some(wanted[key].desired) else None
  }

  function CodecOf(saved: Saved, wanted: map<Key, Wanted>, key: Key): Codec
    requires key in OldItems(saved) || key in wanted
  {
    if key in wanted then wanted[key].codec else OldItems(saved)[key].codec
  }

  lemma {:induction false} DedupKeeps(ps: seq<Selector>)
    ensures forall p :: p in Dedup(ps) <==> p in ps
  {
    if ps != [] {
      DedupKeeps(ps[..|ps| - 1]);
      assert ps == ps[..|ps| - 1] + [ps[|ps| - 1]];
    }
  }

  // A change records every ancestor that is missing in the document it was planned against.
  ghost predicate RecordsMissing(files: Files, c: Change) {
    c.key.selector != [] ==>
      Document(files, c.key.path, c.codec).Ok? &&
      forall p | p != [] && p < c.key.selector && Field(Document(files, c.key.path, c.codec).value, p) == Ok(None) ::
        p in c.parents
  }

  lemma MissingNowIsExact(files: Files, key: Key, codec: Codec)
    requires key.selector != [] && MissingNow(files, key, codec).Ok?
    ensures Document(files, key.path, codec).Ok?
    ensures forall p :: p in MissingNow(files, key, codec).value <==>
              p != [] && p < key.selector && Field(Document(files, key.path, codec).value, p) == Ok(None)
  {
    MissingParentsAreExact(Document(files, key.path, codec).value, key.selector);
  }

  lemma ChangeIsDue(files: Files, saved: Saved, wanted: map<Key, Wanted>, key: Key)
    requires key in OldItems(saved) || key in wanted
    requires Shaped(saved, wanted)
    requires PlanKey(files, saved, wanted, key).Ok? && PlanKey(files, saved, wanted, key).value.change.Some?
    ensures var v := PlanKey(files, saved, wanted, key).value;
            var c := v.change.value;
            c.key == key && c.codec == CodecOf(saved, wanted, key) && c.after == Desired(wanted, key) &&
              c.before != c.after &&
            At(files, c, c.before) && ValidChange(c) && RecordsMissing(files, c) &&
              (c.createdFile <==> key.path !in files) &&
            v.keep.Some? && v.keep.value.baseline == c.after && !v.conflict && !v.drift &&
            (key in OldItems(saved) ==> OldItems(saved)[key].baseline == c.before) &&
            (key !in OldItems(saved) ==> c.before.None?)
  {
    var c := PlanKey(files, saved, wanted, key).value.change.value;
    var created := if key in OldItems(saved) then OldItems(saved)[key].created
      else MissingNow(files, key, CodecOf(saved, wanted, key)).value;
    var missing := MissingNow(files, key, c.codec).value;
    DedupKeeps(created + missing);
    if key.selector != [] {
      MissingNowIsExact(files, key, c.codec);
      forall i | 0 <= i < |c.parents| ensures c.parents[i] != [] && c.parents[i] < key.selector {
        assert c.parents[i] in created + missing;
        if key in OldItems(saved) && c.parents[i] in created {
          assert ValidItem(key, OldItems(saved)[key]);
        }
      }
    }
  }

  // ---- The whole tally ----

  ghost predicate Distinct(order: seq<Key>) {
    forall i, j | 0 <= i < j < |order| :: order[i] != order[j]
  }

  // What key k contributed to a tally over the keys of order, its verdict being v.
  ghost predicate Contributes(t: Tally, order: seq<Key>, k: Key, v: Result<Verdict>) {
    (k in order ==> v.Ok?) &&
    (k in t.items <==> k in order && v.value.keep.Some?) &&
    (k in t.items ==> t.items[k] == v.value.keep.value) &&
    (k in t.conflicts <==> k in order && v.value.conflict) &&
    (k in t.drift <==> k in order && v.value.drift)
  }

  lemma OneKeyMore(t: Tally, front: seq<Key>, key: Key, verdict: Verdict, k: Key, v: Result<Verdict>)
    requires Contributes(t, front, k, v) && key !in front && (k == key ==> v == Ok(verdict))
    ensures Contributes(Add(t, key, verdict), front + [key], k, v)
  {
  }

  // Each key decides alone what it contributes.
  lemma {:induction false} TallyAt(files: Files, saved: Saved, wanted: map<Key, Wanted>, order: seq<Key>, k: Key)
    requires Known(saved, wanted, order) && TallyOver(files, saved, wanted, order).Ok? && Distinct(order)
    requires k in OldItems(saved) || k in wanted
    ensures Contributes(TallyOver(files, saved, wanted, order).value, order, k, PlanKey(files, saved, wanted, k))
    decreases |order|
  {
    hide PlanKey, Contributes, Add;
    if order == [] {
      NothingContributed(k, PlanKey(files, saved, wanted, k));
    } else {
      var front, key := order[..|order| - 1], order[|order| - 1];
      assert order == front + [key] && key !in front;
      TallyAt(files, saved, wanted, front, k);
      OneKeyMore(TallyOver(files, saved, wanted, front).value, front, key, PlanKey(files, saved, wanted, key).value, k,
        PlanKey(files, saved, wanted, k));
    }
  }

  lemma NothingContributed(k: Key, v: Result<Verdict>)
    ensures Contributes(NOTHING, [], k, v)
  {
  }

  lemma {:induction false} TallyOnlyOrdered(files: Files, saved: Saved, wanted: map<Key, Wanted>, order: seq<Key>)
    requires Known(saved, wanted, order) && TallyOver(files, saved, wanted, order).Ok?
    ensures forall k | k in TallyOver(files, saved, wanted, order).value.items :: k in order
    decreases |order|
  {
    hide PlanKey;
    if order != [] {
      TallyOnlyOrdered(files, saved, wanted, order[..|order| - 1]);
    }
  }

  // The changes are verdicts of listed keys, one a key.
  ghost predicate AreVerdicts(files: Files, saved: Saved, wanted: map<Key, Wanted>, order: seq<Key>, cs: seq<Change>) {
    (forall i | 0 <= i < |cs| :: cs[i].key in order && IsVerdictOf(files, saved, wanted, cs[i])) &&
    (forall i, j | 0 <= i < j < |cs| :: cs[i].key != cs[j].key)
  }

  lemma NoVerdicts(files: Files, saved: Saved, wanted: map<Key, Wanted>)
    ensures AreVerdicts(files, saved, wanted, [], [])
  {
  }

  lemma VerdictsGrow(files: Files, saved: Saved, wanted: map<Key, Wanted>, front: seq<Key>, key: Key, cs: seq<Change>,
      c: Option<Change>)
    requires AreVerdicts(files, saved, wanted, front, cs) && key !in front
    requires c.Some? ==> c.value.key == key && IsVerdictOf(files, saved, wanted, c.value)
    ensures AreVerdicts(files, saved, wanted, front + [key], if c.Some? then cs + [c.value] else cs)
  {
    hide IsVerdictOf;
  }

  lemma {:induction false} TallyChanges(files: Files, saved: Saved, wanted: map<Key, Wanted>, order: seq<Key>)
    requires Known(saved, wanted, order) && TallyOver(files, saved, wanted, order).Ok? && Distinct(order)
    ensures AreVerdicts(files, saved, wanted, order, TallyOver(files, saved, wanted, order).value.changes)
    decreases |order|
  {
    hide PlanKey, IsVerdictOf, AreVerdicts;
    if order == [] {
      NoVerdicts(files, saved, wanted);
    } else {
      var front, key := order[..|order| - 1], order[|order| - 1];
      assert order == front + [key] && key !in front;
      TallyChanges(files, saved, wanted, front);
      var v := PlanKey(files, saved, wanted, key).value;
      if v.change.Some? {
        ChangeKey(files, saved, wanted, key);
      }
      VerdictsGrow(files, saved, wanted, front, key, TallyOver(files, saved, wanted, front).value.changes, v.change);
    }
  }

  lemma {:induction false} TallyMissesNoChange(files: Files, saved: Saved, wanted: map<Key, Wanted>, order: seq<Key>,
      k: Key)
    requires Known(saved, wanted, order) && TallyOver(files, saved, wanted, order).Ok? && k in order
    ensures PlanKey(files, saved, wanted, k).Ok?
    ensures PlanKey(files, saved, wanted, k).value.change.Some? ==>
              PlanKey(files, saved, wanted, k).value.change.value in TallyOver(files, saved, wanted,
                order).value.changes
    decreases |order|
  {
    hide PlanKey;
    var front, key := order[..|order| - 1], order[|order| - 1];
    assert order == front + [key];
    if k in front {
      TallyMissesNoChange(files, saved, wanted, front, k);
    }
  }

  ghost predicate IsVerdictOf(files: Files, saved: Saved, wanted: map<Key, Wanted>, c: Change) {
    (c.key in OldItems(saved) || c.key in wanted) &&
    PlanKey(files, saved, wanted, c.key).Ok? && PlanKey(files, saved, wanted, c.key).value.change == Some(c)
  }

  lemma ChangeKey(files: Files, saved: Saved, wanted: map<Key, Wanted>, key: Key)
    requires key in OldItems(saved) || key in wanted
    requires PlanKey(files, saved, wanted, key).Ok? && PlanKey(files, saved, wanted, key).value.change.Some?
    ensures PlanKey(files, saved, wanted, key).value.change.value.key == key
    ensures IsVerdictOf(files, saved, wanted, PlanKey(files, saved, wanted, key).value.change.value)
  {
  }

  // ---- A plan is ready to run ----

  lemma ChangesAreDue(files: Files, saved: Saved, candidate: Candidate, binding: string, launch: Launch,
      order: seq<Key>)
    requires Lists(order, saved, candidate.wanted) && Known(saved, candidate.wanted, order) &&
      Shaped(saved, candidate.wanted)
    requires PlanAll(files, saved, candidate, binding, launch, order).Ok?
    ensures var cs := PlanAll(files, saved, candidate, binding, launch, order).value.changes;
            (forall i | 0 <= i < |cs| ::
              IsVerdictOf(files, saved, candidate.wanted, cs[i]) &&
                cs[i].codec == CodecOf(saved, candidate.wanted, cs[i].key) &&
              ValidChange(cs[i]) && At(files, cs[i], cs[i].before) && cs[i].before != cs[i].after &&
                RecordsMissing(files, cs[i]) &&
              (cs[i].createdFile <==> cs[i].key.path !in files)) &&
            (forall i, j | 0 <= i < j < |cs| :: cs[i].key != cs[j].key)
  {
    var wanted := candidate.wanted;
    var cs := PlanAll(files, saved, candidate, binding, launch, order).value.changes;
    TallyChanges(files, saved, wanted, order);
    forall i | 0 <= i < |cs|
      ensures ValidChange(cs[i]) && At(files, cs[i], cs[i].before) && cs[i].before != cs[i].after &&
        RecordsMissing(files, cs[i]) &&
              cs[i].codec == CodecOf(saved, wanted, cs[i].key) && (cs[i].createdFile <==> cs[i].key.path !in files)
    {
      assert IsVerdictOf(files, saved, wanted, cs[i]);
      ChangeIsDue(files, saved, wanted, cs[i].key);
    }
  }

  ghost predicate NoneOverlap(cs: seq<Change>) {
    forall i, j | 0 <= i < j < |cs| :: !Overlap(cs[i].key, cs[j].key)
  }

  // No two field changes overlap; the whole file of one may still be changed with it.
  ghost predicate FieldsApart(cs: seq<Change>) {
    forall i, j | 0 <= i < j < |cs| && Overlap(cs[i].key, cs[j].key) :: cs[i].key.selector == [] ||
      cs[j].key.selector == []
  }

  // The changes of any plan are due, record their missing parents and know whether their file is there.
  // None overlap when recorded and wanted selectors together are disjoint.
  lemma PlanIsReady(files: Files, saved: Saved, candidate: Candidate, binding: string, launch: Launch, order: seq<Key>)
    requires Lists(order, saved, candidate.wanted) && Known(saved, candidate.wanted, order) &&
      Shaped(saved, candidate.wanted)
    requires PlanAll(files, saved, candidate, binding, launch, order).Ok?
    ensures var plan := PlanAll(files, saved, candidate, binding, launch, order).value;
            (Governed(saved, candidate.wanted) ==> NoneOverlap(plan.changes)) &&
            forall i | 0 <= i < |plan.changes| ::
              At(files, plan.changes[i], plan.changes[i].before) &&
              plan.changes[i].before != plan.changes[i].after && RecordsMissing(files, plan.changes[i]) &&
              (plan.changes[i].createdFile <==> plan.changes[i].key.path !in files)
  {
    var wanted := candidate.wanted;
    var cs := PlanAll(files, saved, candidate, binding, launch, order).value.changes;
    ChangesAreDue(files, saved, candidate, binding, launch, order);
    if Governed(saved, wanted) {
      forall i, j | 0 <= i < j < |cs| ensures !Overlap(cs[i].key, cs[j].key) {
        var a, b := cs[i].key, cs[j].key;
        assert a in OldItems(saved).Keys + wanted.Keys && b in OldItems(saved).Keys + wanted.Keys && a != b;
      }
    }
  }

  // ---- A commit can always be told from what it replaces ----

  lemma PlannedChangeShows(files: Files, saved: Saved, candidate: Candidate, binding: string, launch: Launch,
      order: seq<Key>)
    requires Lists(order, saved, candidate.wanted) && Known(saved, candidate.wanted, order) &&
      Shaped(saved, candidate.wanted)
    requires PlanAll(files, saved, candidate, binding, launch, order).Ok?
    requires PlanAll(files, saved, candidate, binding, launch, order).value.changes != []
    ensures PlanAll(files, saved, candidate, binding, launch, order).value.manifest.items != OldItems(saved)
  {
    var plan := PlanAll(files, saved, candidate, binding, launch, order).value;
    TallyChanges(files, saved, candidate.wanted, order);
    var key := plan.changes[0].key;
    assert IsVerdictOf(files, saved, candidate.wanted, plan.changes[0]);
    ChangeIsDue(files, saved, candidate.wanted, key);
    TallyAt(files, saved, candidate.wanted, order, key);
  }

  // recover compares the saved state with the journal's: for every apply that writes, and for every
  // rollback, the two states differ, so an uncommitted transaction is never taken for a committed one.
  lemma CommitTestIsSound(files: Files, saved: Saved, candidate: Candidate, binding: string, launch: Launch,
      order: seq<Key>)
    requires Lists(order, saved, candidate.wanted) && Known(saved, candidate.wanted, order) &&
      Shaped(saved, candidate.wanted)
    requires PlanAll(files, saved, candidate, binding, launch, order).Ok?
    ensures var plan := PlanAll(files, saved, candidate, binding, launch, order).value;
            NextSaved(saved, plan) == saved <==> Unchanged(saved, plan)
    ensures saved.previous.Some? ==> RollbackSaved(saved) != saved
  {
    var plan := PlanAll(files, saved, candidate, binding, launch, order).value;
    if plan.changes != [] {
      PlannedChangeShows(files, saved, candidate, binding, launch, order);
    }
  }
}
