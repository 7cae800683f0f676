/** Which files a plan may take over, and the three-way table of a recorded key, read off the saved
    state and the files alone: a file the manager neither wrote fields to nor was told to share is left
    exactly as it is. */
module PlanTakeover {
  import opened Wrappers
  import opened NativeDocument
  import opened DocumentLaws
  import opened Deployment
  import opened DeploymentWrites
  import opened DeploymentPlan
  import opened PlanLaws
  import opened PlanEffects
  import opened DeploymentSafety

  // There is text in the file.
  predicate Filled(files: Files, path: string) {
    path in files && files[path].content != Scalar("")
  }

  // Nothing saved speaks for writing fields into the file: no field of it is recorded, and it is not
  // among the files declared or used as shared.
  ghost predicate Unclaimed(saved: Saved, path: string) {
    (forall k | k in OldItems(saved) && k.path == path :: k.selector == []) &&
    (saved.owner.Some? ==> path !in saved.owner.value.shared)
  }

  ghost predicate Changes(plan: Plan, key: Key, before: Projection, after: Projection) {
    exists c :: c in plan.changes && c.key == key && c.before == before && c.after == after
  }

  ghost predicate Unchanging(plan: Plan, key: Key) {
    forall c | c in plan.changes :: c.key != key
  }

  // What one key has in the plan.
  lemma VerdictShows(files: Files, saved: Saved, candidate: Candidate, binding: string, launch: Launch,
      order: seq<Key>, key: Key)
    requires Lists(order, saved, candidate.wanted) && Known(saved, candidate.wanted, order)
    requires PlanAll(files, saved, candidate, binding, launch, order).Ok?
    requires key in OldItems(saved) || key in candidate.wanted
    ensures PlanKey(files, saved, candidate.wanted, key).Ok?
    ensures var plan := PlanAll(files, saved, candidate, binding, launch, order).value;
            var v := PlanKey(files, saved, candidate.wanted, key).value;
            && (key in plan.conflicts <==> v.conflict) && (key in plan.drift <==> v.drift)
            && (key in plan.manifest.items <==> v.keep.Some?)
            && (v.keep.Some? ==> plan.manifest.items[key] == v.keep.value)
            && (v.change.Some? ==> v.change.value.key == key && Changes(plan, key, v.change.value.before,
              v.change.value.after))
            && (v.change.None? <==> Unchanging(plan, key))
  {
    hide PlanKey;
    var wanted := candidate.wanted;
    var plan := PlanAll(files, saved, candidate, binding, launch, order).value;
    TallyAt(files, saved, wanted, order, key);
    TallyChanges(files, saved, wanted, order);
    TallyMissesNoChange(files, saved, wanted, order, key);
    var v := PlanKey(files, saved, wanted, key).value;
    if v.change.Some? {
      ChangeKey(files, saved, wanted, key);
    } else {
      forall c | c in plan.changes ensures c.key != key {
        assert IsVerdictOf(files, saved, wanted, c);
      }
    }
  }

  // ---- When there is a plan ----

  // The key can be read in its file, with the codec it was recorded with, or else is wanted with.
  predicate Readable(files: Files, saved: Saved, wanted: map<Key, Wanted>, key: Key)
    requires key in OldItems(saved) || key in wanted
  {
    Project(files, key, if key in OldItems(saved) then OldItems(saved)[key].codec else wanted[key].codec).Ok?
  }

  // A scalar stands at the selector.
  predicate HoldsScalar(d: Doc, s: Selector) {
    Field(d, s).Ok? && Field(d, s).value.Some? && Field(d, s).value.value.Scalar?
  }

  lemma {:induction false} ReadUnlessScalarAbove(d: Doc, s: Selector)
    ensures Field(d, s).Ok? <==> forall n | 0 <= n < |s| :: !HoldsScalar(d, s[..n])
    decreases |s|
  {
    if s != [] {
      assert s[..0] == [];
      if d.Scalar? {
        assert HoldsScalar(d, s[..0]);
      } else if s[0] in d.entries {
        ReadUnlessScalarAbove(d.entries[s[0]], s[1..]);
        forall n | 0 < n < |s|
          ensures HoldsScalar(d, s[..n]) <==> HoldsScalar(d.entries[s[0]], s[1..][..n - 1])
        {
          assert s[..n][0] == s[0] && s[..n][1..] == s[1..][..n - 1];
        }
        if forall n | 0 <= n < |s| :: !HoldsScalar(d, s[..n]) {
          forall m | 0 <= m < |s[1..]|
            ensures !HoldsScalar(d.entries[s[0]], s[1..][..m])
          {
            assert !HoldsScalar(d, s[..m + 1]);
          }
        }
      } else {
        forall n | 0 <= n < |s|
          ensures !HoldsScalar(d, s[..n])
        {
        }
      }
    }
  }

  // A key reads in a file that is not there, and else as a whole file; as a field in an object that holds no
  // scalar above it, and in text without an object only where that is null, or empty and YAML.
  lemma WhatIsReadable(files: Files, key: Key, codec: Codec)
    ensures Project(files, key, codec).Ok? <==>
            key.path !in files || key.selector == [] ||
            match files[key.path].content
            case Dict(_) => forall n | 0 <= n < |key.selector| ::
              !HoldsScalar(files[key.path].content, key.selector[..n])
            case Scalar(text) => text == "null" || (text == "" && codec.Yaml?)
  {
    if key.path in files && key.selector != [] {
      ReadUnlessScalarAbove(files[key.path].content, key.selector);
    }
  }

  lemma ParentsAreReadable(files: Files, key: Key, codec: Codec)
    ensures MissingNow(files, key, codec).Ok? <==> key.selector == [] || Project(files, key, codec).Ok?
  {
    if key.selector != [] && Document(files, key.path, codec).Ok? {
      MissingParentsAreExact(Document(files, key.path, codec).value, key.selector);
    }
  }

  lemma KeyIsPlanned(files: Files, saved: Saved, wanted: map<Key, Wanted>, key: Key)
    requires key in OldItems(saved) || key in wanted
    ensures PlanKey(files, saved, wanted, key).Ok? <==> Readable(files, saved, wanted, key)
  {
    hide MissingNow, Project, KnownFile;
    if key in OldItems(saved) {
      ParentsAreReadable(files, key, OldItems(saved)[key].codec);
    } else {
      ParentsAreReadable(files, key, wanted[key].codec);
      assert key.selector == [] ==> Project(files, key, wanted[key].codec).Ok? by {
        WholeIsReadable(files, key, wanted[key].codec);
      }
    }
  }

  lemma WholeIsReadable(files: Files, key: Key, codec: Codec)
    ensures key.selector == [] ==> Project(files, key, codec).Ok?
  {
  }

  lemma {:induction false} TallyIsMade(files: Files, saved: Saved, wanted: map<Key, Wanted>, order: seq<Key>)
    requires Known(saved, wanted, order)
    ensures TallyOver(files, saved, wanted, order).Ok? <==>
            forall i | 0 <= i < |order| :: Readable(files, saved, wanted, order[i])
    decreases |order|
  {
    hide PlanKey, Readable;
    if order != [] {
      var front, key := order[..|order| - 1], order[|order| - 1];
      TallyIsMade(files, saved, wanted, front);
      KeyIsPlanned(files, saved, wanted, key);
      assert forall i | 0 <= i < |front| :: front[i] == order[i];
    }
  }

  // There is a plan exactly if the instance is not bound elsewhere, by its owner or by what is deployed, no two
  // wanted selectors of a file lie one above the other, and every recorded or wanted key can be read; it carries
  // the generation, binding and launch it was asked for.
  lemma PlanIsMade(files: Files, saved: Saved, candidate: Candidate, binding: string, launch: Launch, order: seq<Key>)
    requires Lists(order, saved, candidate.wanted) && Known(saved, candidate.wanted, order)
    ensures PlanAll(files, saved, candidate, binding, launch, order).Ok? <==>
            && (saved.owner.Some? ==> saved.owner.value.binding == binding)
            && (saved.current.Some? ==> saved.current.value.binding == binding)
            && (forall a, b | a in candidate.wanted && b in candidate.wanted && a != b && a.path == b.path ::
                  !(a.selector <= b.selector))
            && (forall key | key in OldItems(saved) || key in candidate.wanted ::
                  Readable(files, saved, candidate.wanted, key))
    ensures PlanAll(files, saved, candidate, binding, launch, order).Ok? ==>
            var m := PlanAll(files, saved, candidate, binding, launch, order).value.manifest;
            m.generation == candidate.generation && m.binding == binding && m.launch == launch
  {
    hide Readable, TallyOver;
    TallyIsMade(files, saved, candidate.wanted, order);
    assert (forall key | key in OldItems(saved) || key in candidate.wanted ::
      Readable(files, saved, candidate.wanted, key)) <==>
      forall i | 0 <= i < |order| :: Readable(files, saved, candidate.wanted, order[i]) by {
      assert forall key | key in OldItems(saved) || key in candidate.wanted :: key in order;
    }
    assert Disjoint(candidate.wanted.Keys) <==>
      forall a, b | a in candidate.wanted && b in candidate.wanted && a != b && a.path == b.path ::
        !(a.selector <= b.selector);
  }

  // ---- Keys recorded for the first time ----

  // A key that is not recorded, over a file with text in it that nothing saved speaks for, is a conflict:
  // for a whole file whatever is recorded, for a field where no field of the file is recorded or shared.
  lemma UnclaimedIsConflict(files: Files, saved: Saved, candidate: Candidate, binding: string, launch: Launch,
      order: seq<Key>, key: Key)
    requires Lists(order, saved, candidate.wanted) && Known(saved, candidate.wanted, order)
    requires PlanAll(files, saved, candidate, binding, launch, order).Ok?
    requires key in candidate.wanted && key !in OldItems(saved) && Filled(files, key.path)
    requires key.selector == [] || Unclaimed(saved, key.path)
    ensures var plan := PlanAll(files, saved, candidate, binding, launch, order).value;
            key in plan.conflicts && key !in plan.manifest.items && Unchanging(plan, key)
  {
    VerdictShows(files, saved, candidate, binding, launch, order, key);
  }

  // A field of a file that is claimed: absent it is set, present it is a conflict, and a present
  // initialize field is recorded without a baseline and left alone.
  lemma ClaimedFieldIsTaken(files: Files, saved: Saved, candidate: Candidate, binding: string, launch: Launch,
      order: seq<Key>, key: Key)
    requires Lists(order, saved, candidate.wanted) && Known(saved, candidate.wanted, order)
    requires PlanAll(files, saved, candidate, binding, launch, order).Ok?
    requires key in candidate.wanted && key !in OldItems(saved) && Filled(files, key.path)
    requires key.selector != [] && !Unclaimed(saved, key.path)
    ensures var plan := PlanAll(files, saved, candidate, binding, launch, order).value;
            var w := candidate.wanted[key];
            var now := Project(files, key, w.codec);
            && now.Ok?
            && (key in plan.conflicts <==> now.value.Some? && w.ownership != Initialize)
            && (now.value.None? ==> Changes(plan, key, None, Some(w.desired)))
            && (now.value.Some? ==> Unchanging(plan, key))
            && (key in plan.manifest.items <==> key !in plan.conflicts)
            && (key in plan.manifest.items ==>
                  var item := plan.manifest.items[key];
                  item.codec == w.codec && item.ownership == w.ownership &&
                  item.baseline == if now.value.None? then Some(w.desired) else None)
  {
    VerdictShows(files, saved, candidate, binding, launch, order, key);
    if saved.owner.None? || key.path !in saved.owner.value.shared {
      var k :| k in OldItems(saved) && k.path == key.path && k.selector != [];
      assert k in OldItems(saved).Keys;
    }
  }

  // Where there is no file, or an empty one, an absent place is set; only a whole empty file is there to
  // be in the way, and is in the way unless it is what is wanted.
  lemma EmptyFileIsTaken(files: Files, saved: Saved, candidate: Candidate, binding: string, launch: Launch,
      order: seq<Key>, key: Key)
    requires Lists(order, saved, candidate.wanted) && Known(saved, candidate.wanted, order)
    requires PlanAll(files, saved, candidate, binding, launch, order).Ok?
    requires key in candidate.wanted && key !in OldItems(saved) && !Filled(files, key.path)
    ensures var plan := PlanAll(files, saved, candidate, binding, launch, order).value;
            var w := candidate.wanted[key];
            var there := key.selector == [] && key.path in files;
            && (key in plan.conflicts <==> there && Whole(files[key.path]) != w.desired)
            && (!there ==> Changes(plan, key, None, Some(w.desired)))
            && (there ==> Unchanging(plan, key))
            && (key !in plan.conflicts ==>
                  key in plan.manifest.items &&
                  plan.manifest.items[key].ownership == w.ownership &&
                  plan.manifest.items[key].baseline == Some(w.desired))
  {
    VerdictShows(files, saved, candidate, binding, launch, order, key);
  }

  // ---- Recorded keys ----

  // The candidate wants the key kept in another way.
  predicate Recast(item: Item, wanted: map<Key, Wanted>, key: Key) {
    key in wanted && (wanted[key].codec != item.codec || wanted[key].ownership != item.ownership)
  }

  // Base, disk and wish of a recorded key. Two of the three being equal always leaves a way; an
  // initialize item is only ever kept as it is.
  lemma ThreeWay(files: Files, saved: Saved, candidate: Candidate, binding: string, launch: Launch,
      order: seq<Key>, key: Key)
    requires Lists(order, saved, candidate.wanted) && Known(saved, candidate.wanted, order)
    requires PlanAll(files, saved, candidate, binding, launch, order).Ok? && key in OldItems(saved)
    ensures var plan := PlanAll(files, saved, candidate, binding, launch, order).value;
            var item := OldItems(saved)[key];
            var base, wish := item.baseline, Desired(candidate.wanted, key);
            var disk := Project(files, key, item.codec);
            && disk.Ok?
            && (Recast(item, candidate.wanted, key) ==> key in plan.conflicts)
            && (!Recast(item, candidate.wanted, key) && item.ownership == Initialize ==>
                  key !in plan.conflicts && key !in plan.drift && Unchanging(plan, key) &&
                  key in plan.manifest.items && plan.manifest.items[key] == item)
            && (!Recast(item, candidate.wanted, key) && item.ownership != Initialize ==>
                  && (key in plan.conflicts <==> disk.value != wish && disk.value != base && wish != base)
                  && (key in plan.drift <==> disk.value != wish && disk.value != base && wish == base)
                  && (disk.value != wish && disk.value == base ==> Changes(plan, key, base, wish))
                  && (Unchanging(plan, key) <==> disk.value == wish || disk.value != base)
                  && (key in plan.manifest.items <==>
                        key !in plan.conflicts && (key in candidate.wanted || disk.value.Some?))
                  && (key in plan.manifest.items ==> plan.manifest.items[key].baseline == wish))
  {
    VerdictShows(files, saved, candidate, binding, launch, order, key);
  }

  // ---- Over whole histories ----

  lemma ConflictStopsCommit(d: Disk, e: Event)
    requires e.Commit? && Enabled(d, e) && PlanOf(d, e).Ok? && PlanOf(d, e).value.conflicts != []
    ensures Next(d, e) == d
  {
  }

  // In any history, a commit that would take over a file that holds text and that nothing saved speaks
  // for is refused as a whole, before a single write.
  lemma TakeoverIsRefused(d: Disk, es: seq<Event>, i: nat, key: Key)
    requires Sound(d) && EnabledAll(d, es) && i < |es| && es[i].Commit? && key in es[i].candidate.wanted
    requires var now := Reached(d, es, i);
             key !in OldItems(now.saved) && Filled(now.files, key.path) &&
             (key.selector == [] || Unclaimed(now.saved, key.path))
    ensures var now := Reached(d, es, i); Enabled(now, es[i]) && Next(now, es[i]) == now
  {
    hide PlanAll, CommitRun, Shaped;
    ReachedIsSound(d, es, i);
    var now, e := Reached(d, es, i), es[i];
    if PlanOf(now, e).Ok? {
      UnclaimedIsConflict(now.files, now.saved, e.candidate, e.binding, e.launch, e.order, key);
      ConflictStopsCommit(now, e);
    }
  }

  // Nothing of the file is recorded, and it is not shared.
  ghost predicate Untaken(d: Disk, path: string) {
    Filled(d.files, path) && Unclaimed(d.saved, path) && forall k | k in OldItems(d.saved) :: k.path != path
  }

  lemma UntakenIsUnchanged(d: Disk, e: Event, path: string)
    requires e.Commit? && Sound(d) && Enabled(d, e) && Untaken(d, path)
    ensures Agree(d.files, Next(d, e).files, path)
    ensures PlanOf(d, e).Ok? && (exists k :: k in e.candidate.wanted && k.path == path) ==> Next(d, e) == d
  {
    hide PlanAll, CommitRun, Shaped;
    if PlanOf(d, e).Ok? && exists k :: k in e.candidate.wanted && k.path == path {
      var k :| k in e.candidate.wanted && k.path == path;
      UnclaimedIsConflict(d.files, d.saved, e.candidate, e.binding, e.launch, e.order, k);
      ConflictStopsCommit(d, e);
    } else if !Agree(d.files, Next(d, e).files, path) {
      var whole := Key(path, []);
      forall c | c in Recorded(d, e) ensures c.key.path != path {
        ChangeOfKnownKey(d, e, c);
      }
      assert Moves(d.files, Next(d, e).files, whole, Json) by {
        WholeTellsFile(d.files, Next(d, e).files, path);
      }
      MoveIsDisturbed(d, e, whole, Json);
    }
  }

  lemma ChangeOfKnownKey(d: Disk, e: Event, c: Change)
    requires e.Commit? && Enabled(d, e) && c in Recorded(d, e)
    ensures PlanOf(d, e).Ok? && (c.key in OldItems(d.saved) || c.key in e.candidate.wanted)
  {
    TallyChanges(d.files, d.saved, e.candidate.wanted, e.order);
    assert IsVerdictOf(d.files, d.saved, e.candidate.wanted, c);
  }

  lemma WholeTellsFile(a: Files, b: Files, path: string)
    ensures Project(a, Key(path, []), Json) == Project(b, Key(path, []), Json) ==> Agree(a, b, path)
  {
    if path in a && path in b && Whole(a[path]) == Whole(b[path]) {
      assert Whole(a[path]).entries["bytes"] == Whole(b[path]).entries["bytes"];
      assert Whole(a[path]).entries["mode"] == Whole(b[path]).entries["mode"];
    }
  }

  // In any history a commit, dying anywhere, leaves a file that holds text and that the manager has
  // nothing recorded of and does not share exactly as it was, mode included; a candidate that wants
  // anything in it is refused before a single write.
  lemma UntakenFileStays(d: Disk, es: seq<Event>, i: nat, path: string)
    requires Sound(d) && EnabledAll(d, es) && i < |es| && es[i].Commit?
    requires Untaken(Reached(d, es, i), path)
    ensures var now := Reached(d, es, i);
            Enabled(now, es[i]) && Agree(now.files, Next(now, es[i]).files, path) &&
            (PlanOf(now, es[i]).Ok? && (exists k :: k in es[i].candidate.wanted && k.path == path) ==>
              Next(now, es[i]) == now)
  {
    ReachedIsSound(d, es, i);
    UntakenIsUnchanged(Reached(d, es, i), es[i], path);
  }

  // ---- What is claimed stays claimed ----

  // The owner is there, for the same binding, with at least the shared files it had.
  ghost predicate Keeps(before: Saved, after: Saved) {
    before.owner.Some? ==>
      after.owner.Some? && after.owner.value.binding == before.owner.value.binding &&
      before.owner.value.shared <= after.owner.value.shared
  }

  // Every file with a recorded field is a shared file of the owner.
  ghost predicate Covered(s: Saved) {
    s.current.Some? ==> s.owner.Some? && forall k | k in OldItems(s) && k.selector != [] ::
      k.path in s.owner.value.shared
  }

  lemma NextSavedKeeps(saved: Saved, plan: Plan)
    ensures Keeps(saved, NextSaved(saved, plan)) && Covered(NextSaved(saved, plan))
  {
  }

  lemma OwnerStays(d: Disk, e: Event)
    requires Enabled(d, e)
    ensures Keeps(d.saved, Next(d, e).saved)
    ensures e.Commit? && Next(d, e).saved != d.saved ==> Covered(Next(d, e).saved)
  {
    hide RecoverRun, TransactRun, PlanAll, Shaped, Covered;
    match e
    case Edit(_) =>
    case Recovery(prepare, alive) =>
      RecoverStates(d, prepare, Landing(RecoverRun(d, prepare), alive));
    case Commit(_, _, _, _, prepare, alive) =>
      if PlanOf(d, e).Ok? {
        var plan := PlanOf(d, e).value;
        NextSavedKeeps(d.saved, plan);
        var after := if Unchanged(d.saved, plan) then d.saved else NextSaved(d.saved, plan);
        TransactStates(d, after, Recorded(d, e), prepare,
          Landing(TransactRun(d, after, Recorded(d, e), prepare), alive));
      }
    case Undoing(binding, prepare, alive) =>
      if d.pending.None? && d.saved.previous.Some? {
        var back := ReverseChanges(d.saved.previous.value.changes);
        TransactStates(d, RollbackSaved(d.saved), back, prepare,
          Landing(TransactRun(d, RollbackSaved(d.saved), back, prepare), alive));
      }
  }

  // A commit that gets through leaves the owner with exactly the files it had, or at first those the launch
  // declares, and those in which a field is recorded now.
  lemma OwnerAfterCommit(d: Disk, e: Event, path: string)
    requires e.Commit? && Enabled(d, e) && Next(d, e).saved != d.saved
    ensures PlanOf(d, e).Ok? && Next(d, e).saved.owner.Some?
    ensures var owner := Next(d, e).saved.owner.value;
            && owner.binding == (if d.saved.owner.Some? then d.saved.owner.value.binding else e.binding)
            && (path in owner.shared <==>
                 || path in (if d.saved.owner.Some? then d.saved.owner.value.shared else e.launch.shared)
                 || exists k | k in OldItems(Next(d, e).saved) && k.path == path :: k.selector != [])
  {
    hide RecoverRun, TransactRun, TallyOver, Shaped, Covered;
    var plan := PlanOf(d, e).value;
    TransactStates(d, NextSaved(d.saved, plan), Recorded(d, e), e.prepare,
      Landing(TransactRun(d, NextSaved(d.saved, plan), Recorded(d, e), e.prepare), e.alive));
    TransactStates(d, d.saved, [], e.prepare, Landing(TransactRun(d, d.saved, [], e.prepare), e.alive));
    assert Next(d, e).saved == NextSaved(d.saved, plan);
  }

  lemma {:induction false} OwnerStaysThrough(d: Disk, es: seq<Event>, i: nat)
    requires EnabledAll(d, es) && i <= |es|
    ensures Keeps(d.saved, Reached(d, es, i).saved)
    decreases i
  {
    hide Enabled;
    if i > 0 {
      OwnerStays(d, es[0]);
      OwnerStaysThrough(Next(d, es[0]), es[1..], i - 1);
    }
  }

  // An instance that has an owner is never planned for another binding, in any history: the commit
  // changes nothing at all. And a file once shared is never unclaimed again.
  lemma OwnershipLasts(d: Disk, es: seq<Event>, i: nat, path: string)
    requires EnabledAll(d, es) && i < |es| && d.saved.owner.Some? && Enabled(Reached(d, es, i), es[i])
    ensures es[i].Commit? && es[i].binding != d.saved.owner.value.binding ==>
      Next(Reached(d, es, i), es[i]) == Reached(d, es, i)
    ensures path in d.saved.owner.value.shared ==> !Unclaimed(Reached(d, es, i).saved, path)
  {
    OwnerStaysThrough(d, es, i);
  }
}
