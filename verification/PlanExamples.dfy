/** Small plans at which the deployer does less than one might hope: overlapping changes, and an
    inherited parent that meanwhile is the user's own empty object. */
module PlanExamples {
  import opened Wrappers
  import opened NativeDocument
  import opened DocumentLaws
  import R = Restoration
  import opened Deployment
  import opened DeploymentWrites
  import opened DeploymentPlan
  import opened PlanLaws
  import opened PlanLayers
  import opened ForwardWrites
  import opened PlanEffects
  import opened Convergence
  import Overlaps

  const ABOVE := Key("settings", ["a"])
  const BELOW := Key("settings", ["a", "b"])
  const BOTH := [ABOVE, BELOW]
  const HERE := Launch("l", {})

  // One json file, one manifest.
  function Deployed(content: Doc, items: Items): Disk {
    Disk(map["settings" := File(content, "0600")],
      Saved(Some(Manifest("g1", "m", HERE, items)), None, Some(Owner("m", {"settings"}))), None, [])
  }

  function PlanOf(d: Disk, wanted: map<Key, Wanted>): Result<Plan>
    requires Known(d.saved, wanted, BOTH)
  {
    PlanAll(d.files, d.saved, Candidate("g2", wanted), "m", HERE, BOTH)
  }

  lemma TwoKeys(d: Disk, wanted: map<Key, Wanted>)
    requires (ABOVE in OldItems(d.saved) || ABOVE in wanted) && (BELOW in OldItems(d.saved) || BELOW in wanted)
    requires Known(d.saved, wanted, BOTH) && Belongs(d.saved, "m") && Disjoint(wanted.Keys)
    ensures var a, b := PlanKey(d.files, d.saved, wanted, ABOVE), PlanKey(d.files, d.saved, wanted, BELOW);
            PlanOf(d, wanted) ==
              if a.Conflict? || b.Conflict? then Conflict
              else
                var t := Add(Add(NOTHING, ABOVE, a.value), BELOW, b.value);
                Ok(Plan(Manifest("g2", "m", HERE, t.items), t.changes, t.drift, t.conflicts))
  {
    hide PlanKey;
    var files, saved := d.files, d.saved;
    assert BOTH[..1] == [ABOVE] && [ABOVE][..0] == [];
    assert Known(saved, wanted, [ABOVE]) && Known(saved, wanted, []);
    assert TallyOver(files, saved, wanted, []) == Ok(NOTHING);
    if PlanKey(files, saved, wanted, ABOVE).Ok? {
      assert TallyOver(files, saved, wanted, [ABOVE]) ==
        Ok(Add(NOTHING, ABOVE, PlanKey(files, saved, wanted, ABOVE).value));
    } else {
      assert TallyOver(files, saved, wanted, [ABOVE]).Conflict?;
    }
  }

  lemma Reads(entries: map<string, Doc>)
    ensures var document := Dict(entries);
            Field(document, ["a"]) == Ok(if "a" in entries then Some(entries["a"]) else None) &&
              MissingParents(document, ["a"]) == Ok([]) &&
            ("a" in entries && entries["a"].Dict? ==>
              Field(document, ["a", "b"]) == Ok(if "b" in entries["a"].entries then Some(entries["a"].entries["b"])
                else None) &&
              MissingParents(document, ["a", "b"]) == Ok([])) &&
            ("a" in entries && entries["a"].Scalar? ==> Field(document, ["a", "b"]).Conflict?)
  {
    assert ["a", "b"][1..] == ["b"] && ["a"][1..] == [] && ["b"][1..] == [];
    if "a" in entries && entries["a"].Dict? {
      assert Field(entries["a"], ["b"]) == Ok(if "b" in entries["a"].entries then Some(entries["a"].entries["b"])
        else None);
      assert MissingFrom(entries["a"], ["a", "b"], 1) == Ok([]);
    }
  }

  // ---- Overlapping changes ----

  const INNER := Dict(map["c" := Scalar("1")])
  const REMOVAL := Change(ABOVE, Json, Some(INNER), None, false, [])
  const SETTING := Change(BELOW, Json, None, Some(Scalar("2")), false, [])

  function Overlapping(): Disk {
    Deployed(Dict(map["a" := INNER]), map[ABOVE := Item(Json, Fields, Some(INNER), [])])
  }

  const INSIDE := map[BELOW := Wanted(Json, Fields, Scalar("2"))]

  // A recorded object is dropped for a new field inside it: no conflict, and two overlapping changes.
  lemma PlanOverlaps()
    ensures var d := Overlapping();
            Known(d.saved, INSIDE, BOTH) && PlanOf(d, INSIDE).Ok? &&
            var plan := PlanOf(d, INSIDE).value;
            IsPlan(d, plan, Candidate("g2", INSIDE), "m", HERE, BOTH) && plan.changes == [REMOVAL, SETTING] &&
              !FieldsApart(plan.changes)
  {
    hide PlanKey, TallyOver, Shaped, Disjoint, Live;
    OverlapIsPlanned();
    OverlapIsAdmitted();
    var plan := PlanOf(Overlapping(), INSIDE).value;
    assert plan.changes[0] == REMOVAL && plan.changes[1] == SETTING;
    assert Overlap(REMOVAL.key, SETTING.key);
  }

  lemma OverlapIsPlanned()
    ensures var d := Overlapping();
            Known(d.saved, INSIDE, BOTH) && PlanOf(d, INSIDE).Ok? &&
            PlanOf(d, INSIDE).value.conflicts == [] && PlanOf(d, INSIDE).value.changes == [REMOVAL, SETTING]
  {
    var d := Overlapping();
    assert ABOVE in OldItems(d.saved) && BELOW in INSIDE;
    Reads(map["a" := INNER]);
    assert Dedup([]) == [];
    assert PlanKey(d.files, d.saved, INSIDE, ABOVE) ==
      Ok(Verdict(Some(Item(Json, Fields, None, [])), Some(REMOVAL), false, false));
    assert PlanKey(d.files, d.saved, INSIDE, BELOW) ==
      Ok(Verdict(Some(Item(Json, Fields, Some(Scalar("2")), [])), Some(SETTING), false, false));
    TwoKeys(d, INSIDE);
  }

  lemma OverlapIsAdmitted()
    ensures var saved := Overlapping().saved;
            Lists(BOTH, saved, INSIDE) && SortedKeys(BOTH) && Shaped(saved, INSIDE) && Disjoint(Live(OldItems(saved)))
  {
    hide Shaped;
    var saved := Overlapping().saved;
    assert BOTH[0] != BOTH[1] && !(BELOW.selector < ABOVE.selector);
    assert OldItems(saved).Keys == {ABOVE} && INSIDE.Keys == {BELOW};
    assert forall k :: k in BOTH <==> k == ABOVE || k == BELOW;
    assert Shaped(saved, INSIDE) by {
      OverlapIsShaped();
    }
  }

  lemma OverlapIsShaped()
    ensures Shaped(Overlapping().saved, INSIDE)
  {
  }

  // ---- A field set in a file that goes ----

  const WHOLE := Key("settings", [])
  const LISTED := [ABOVE, WHOLE]
  const OLD := Dict(map["c" := Scalar("1")])
  const FILE := Dict(map["bytes" := OLD, "mode" := Scalar("0600")])
  const SET := Change(ABOVE, Json, None, Some(Scalar("2")), false, [])
  const DROP := Change(WHOLE, Json, Some(FILE), None, false, [])
  const INTO := map[ABOVE := Wanted(Json, Fields, Scalar("2"))]

  // A json file recorded as a whole, whose path is declared shared.
  function Recorded(): Disk {
    Deployed(OLD, map[WHOLE := Item(Json, WholeFile, Some(FILE), [])])
  }

  lemma FileReads()
    ensures var d := Recorded();
            Project(d.files, WHOLE, Json) == Ok(Some(FILE)) && Project(d.files, ABOVE, Json) == Ok(None)
  {
    assert Whole(Recorded().files["settings"]).entries == FILE.entries;
    Reads(OLD.entries);
  }

  lemma FieldVerdicts()
    ensures var d := Recorded();
            WHOLE in OldItems(d.saved) && ABOVE in INTO &&
            PlanKey(d.files, d.saved, INTO, ABOVE) ==
              Ok(Verdict(Some(Item(Json, Fields, Some(Scalar("2")), [])), Some(SET), false, false)) &&
            PlanKey(d.files, d.saved, INTO, WHOLE) ==
              Ok(Verdict(Some(Item(Json, WholeFile, None, [])), Some(DROP), false, false))
  {
    FileReads();
    Reads(OLD.entries);
    assert Dedup([]) == [];
  }

  function TakingOver(): Plan {
    Plan(Manifest("g2", "m", HERE, map[ABOVE := Item(Json, Fields, Some(Scalar("2")), []),
      WHOLE := Item(Json, WholeFile, None, [])]), [SET, DROP], [], [])
  }

  lemma FieldAndFilePlanned()
    ensures var d := Recorded();
            Known(d.saved, INTO, LISTED) &&
            PlanAll(d.files, d.saved, Candidate("g2", INTO), "m", HERE, LISTED) == Ok(TakingOver())
  {
    hide PlanKey;
    var d := Recorded();
    FieldVerdicts();
    assert LISTED[..1] == [ABOVE] && [ABOVE][..0] == [];
    assert TallyOver(d.files, d.saved, INTO, []) == Ok(NOTHING);
    var first := Add(NOTHING, ABOVE, PlanKey(d.files, d.saved, INTO, ABOVE).value);
    assert TallyOver(d.files, d.saved, INTO, [ABOVE]) == Ok(first);
    var both := Add(first, WHOLE, PlanKey(d.files, d.saved, INTO, WHOLE).value);
    assert TallyOver(d.files, d.saved, INTO, LISTED) == Ok(both);
    assert both.items == TakingOver().manifest.items && both.changes == [SET, DROP];
    assert INTO.Keys == {ABOVE} && Disjoint(INTO.Keys) && Belongs(d.saved, "m");
  }

  lemma FieldAndFileAdmitted()
    ensures var saved := Recorded().saved;
            Lists(LISTED, saved, INTO) && SortedKeys(LISTED) && Shaped(saved, INTO) && Disjoint(Live(OldItems(saved)))
  {
    var saved := Recorded().saved;
    assert OldItems(saved).Keys == {WHOLE} && INTO.Keys == {ABOVE};
    assert forall k :: k in LISTED <==> k == ABOVE || k == WHOLE;
  }

  lemma TakingOverIsPlan()
    ensures IsPlan(Recorded(), TakingOver(), Candidate("g2", INTO), "m", HERE, LISTED)
  {
    hide PlanAll, Shaped;
    FieldAndFilePlanned();
    FieldAndFileAdmitted();
  }

  // A field wanted in a file that was recorded as a whole: the plan has no conflict and records the field
  // as set, and its run ends with the file deleted. An immediate rollback gets through.
  lemma FieldIsLostWithFile(prepare: Prepare)
    requires prepare.Some? ==> prepare.value(HERE)
    ensures IsPlan(Recorded(), TakingOver(), Candidate("g2", INTO), "m", HERE, LISTED) &&
      !NoneOverlap(TakingOver().changes) && FieldsApart(TakingOver().changes)
    ensures var applied := CommitRun(Recorded(), TakingOver(), prepare);
            applied.outcome.Done? && "settings" !in applied.End().files &&
            RollbackRun(applied.End(), "m", prepare).outcome.Done?
  {
    hide CommitRun, RollbackRun, IsPlan, Stands, Steady, AllReadable, KeepsReadable, Governed, AllAfter;
    TakingOverIsPlan();
    OnlyFileStands();
    FirstApply(Recorded(), TakingOver(), Candidate("g2", INTO), "m", HERE, LISTED, prepare);
    var end := CommitRun(Recorded(), TakingOver(), prepare).End();
    assert At(end.files, TakingOver().changes[1], None);
    Overlaps.RollbackNeedsDisjointFields(Recorded(), TakingOver(), Candidate("g2", INTO), "m", HERE, LISTED, prepare);
  }

  lemma OnlyFileStands()
    ensures var cs := TakingOver().changes;
            !NoneOverlap(cs) && FieldsApart(cs) && !Stands(cs, 0) && Stands(cs, 1) && !Unchanged(Recorded().saved,
              TakingOver())
  {
    assert TakingOver().changes[0] == SET && TakingOver().changes[1] == DROP && Overlap(SET.key, DROP.key);
  }

  // ---- INITIALIZE fields under overlapping changes ----

  // A new initialize field inside a recorded object that goes: the plan records the field as given and
  // removes the value it has.
  lemma OverlapRemovesInitialized()
    ensures var value := Dict(map["b" := Scalar("1")]);
            var d := Deployed(Dict(map["a" := value]), map[ABOVE := Item(Json, Fields, Some(value), [])]);
            var wanted := map[BELOW := Wanted(Json, Initialize, Scalar("2"))];
            Known(d.saved, wanted, BOTH) && PlanOf(d, wanted).Ok? &&
            var plan := PlanOf(d, wanted).value;
            plan.conflicts == [] && plan.changes == [Change(ABOVE, Json, Some(value), None, false, [])] &&
            BELOW in plan.manifest.items && plan.manifest.items[BELOW].ownership == Initialize &&
            Project(d.files, BELOW, Json) == Ok(Some(Scalar("1"))) &&
            forall after: Files | At(after, plan.changes[0], plan.changes[0].after) &&
              Project(after, BELOW, Json).Ok? ::
              Project(after, BELOW, Json) == Ok(None)
  {
    var value := Dict(map["b" := Scalar("1")]);
    var d := Deployed(Dict(map["a" := value]), map[ABOVE := Item(Json, Fields, Some(value), [])]);
    var wanted := map[BELOW := Wanted(Json, Initialize, Scalar("2"))];
    assert ABOVE in OldItems(d.saved) && BELOW in wanted;
    Reads(map["a" := value]);
    assert Dedup([]) == [];
    var removal := Change(ABOVE, Json, Some(value), None, false, []);
    assert PlanKey(d.files, d.saved, wanted, ABOVE) ==
      Ok(Verdict(Some(Item(Json, Fields, None, [])), Some(removal), false, false));
    assert PlanKey(d.files, d.saved, wanted, BELOW) == Ok(Keep(Item(Json, Initialize, None, [])));
    TwoKeys(d, wanted);
    forall after: Files | At(after, removal, None) && Project(after, BELOW, Json).Ok?
      ensures Project(after, BELOW, Json) == Ok(None) {
      AbsentAboveIsAbsent(after, ABOVE, BELOW, Json);
    }
  }

  // A scalar wanted above a recorded initialize field that is gone: the plan has no conflict and keeps
  // the field recorded.
  lemma OverlapHidesInitialized()
    ensures var d := Deployed(EMPTY, map[BELOW := Item(Json, Initialize, None, [])]);
            var wanted := map[ABOVE := Wanted(Json, Fields, Scalar("1"))];
            Known(d.saved, wanted, BOTH) && PlanOf(d, wanted).Ok? &&
            PlanOf(d, wanted).value.conflicts == [] && BELOW in PlanOf(d, wanted).value.manifest.items &&
            PlanOf(d, wanted).value.changes == [Change(ABOVE, Json, None, Some(Scalar("1")), false, [])] &&
            !KeepsReadable(PlanOf(d, wanted).value)
  {
    var d := Deployed(EMPTY, map[BELOW := Item(Json, Initialize, None, [])]);
    var wanted := map[ABOVE := Wanted(Json, Fields, Scalar("1"))];
    assert BELOW in OldItems(d.saved) && ABOVE in wanted;
    Reads(map[]);
    assert ["a", "b"][1..] == ["b"];
    assert Field(EMPTY, ["a", "b"]) == Ok(None);
    assert Dedup([]) == [];
    assert PlanKey(d.files, d.saved, wanted, ABOVE) ==
      Ok(Verdict(Some(Item(Json, Fields, Some(Scalar("1")), [])),
        Some(Change(ABOVE, Json, None, Some(Scalar("1")), false, [])), false, false));
    assert PlanKey(d.files, d.saved, wanted, BELOW) == Ok(Keep(Item(Json, Initialize, None, [])));
    TwoKeys(d, wanted);
    assert BELOW.selector == ABOVE.selector + ["b"];
    assert Hides(PlanOf(d, wanted).value.changes[0], BELOW);
  }

  // With such a change in place no plan of any candidate is possible.
  lemma HiddenFieldStopsPlanning(d: Disk, wanted: map<Key, Wanted>)
    requires BELOW in OldItems(d.saved) && OldItems(d.saved)[BELOW].codec == Json && Known(d.saved, wanted, BOTH)
    requires Project(d.files, ABOVE, Json) == Ok(Some(Scalar("1")))
    ensures PlanOf(d, wanted).Conflict?
  {
    ProjectIsField(d.files, ABOVE, Json);
    ProjectIsField(d.files, BELOW, Json);
    assert BELOW.selector == ABOVE.selector + ["b"];
    FieldCompose(Document(d.files, "settings", Json).value, ["a"], ["b"]);
    assert Project(d.files, BELOW, Json).Conflict?;
    if PlanOf(d, wanted).Ok? {
      TallyMissesNoChange(d.files, d.saved, wanted, BOTH, BELOW);
    }
  }

  // ---- An inherited parent ----

  const ONE := [BELOW]

  function PlanOne(d: Disk, wanted: map<Key, Wanted>): Result<Plan>
    requires Known(d.saved, wanted, ONE)
  {
    PlanAll(d.files, d.saved, Candidate("g2", wanted), "m", HERE, ONE)
  }

  lemma OneKey(d: Disk, wanted: map<Key, Wanted>)
    requires BELOW in OldItems(d.saved) || BELOW in wanted
    requires Known(d.saved, wanted, ONE) && Belongs(d.saved, "m") && Disjoint(wanted.Keys) &&
      PlanKey(d.files, d.saved, wanted, BELOW).Ok?
    ensures var t := Add(NOTHING, BELOW, PlanKey(d.files, d.saved, wanted, BELOW).value);
            PlanOne(d, wanted) == Ok(Plan(Manifest("g2", "m", HERE, t.items), t.changes, t.drift, t.conflicts))
  {
    hide PlanKey;
    assert ONE[..0] == [];
    assert TallyOver(d.files, d.saved, wanted, []) == Ok(NOTHING);
  }

  const DROPPING := Change(BELOW, Json, Some(Scalar("1")), None, false, [["a"]])
  const AGAIN := Change(BELOW, Json, None, Some(Scalar("2")), false, [["a"]])

  // The manager made a for its field a.b.
  function FirstGeneration(): Disk {
    Deployed(Dict(map["a" := Dict(map["b" := Scalar("1")])]),
      map[BELOW := Item(Json, Fields, Some(Scalar("1")), [["a"]])])
  }

  // The field was dropped and its record kept; then the user made an empty object a.
  function SecondGeneration(): Disk {
    Deployed(Dict(map["a" := EMPTY]), map[BELOW := Item(Json, Fields, None, [["a"]])])
  }

  lemma DedupOne(ps: seq<Selector>)
    requires ps == [["a"]]
    ensures Dedup(ps) == ps
  {
    assert ps[..0] == [];
  }

  // Dropping the field leaves the record that a was created; the next generation, after the user made
  // an empty object a, sets the field again without any conflict and inherits the record; and undoing
  // that takes the user's object away.
  lemma InheritedParentIsPruned()
    ensures var first, later := FirstGeneration(), SecondGeneration();
            var again := map[BELOW := Wanted(Json, Fields, Scalar("2"))];
            Known(first.saved, map[], ONE) && PlanOne(first, map[]).Ok? &&
            PlanOne(first, map[]).value.conflicts == [] && PlanOne(first, map[]).value.changes == [DROPPING] &&
            PlanOne(first, map[]).value.manifest.items == OldItems(later.saved) &&
            Known(later.saved, again, ONE) && PlanOne(later, again).Ok? &&
            PlanOne(later, again).value.conflicts == [] && PlanOne(later, again).value.changes == [AGAIN] &&
            var ours := later.files["settings"].content;
            !R.SparesEmpty(ours, [ToField(AGAIN)]) && R.Rewrite(ours, [ToField(AGAIN)]).Ok? &&
            R.Rewrite(R.Rewrite(ours, [ToField(AGAIN)]).value, R.ReverseAll([ToField(AGAIN)])) == Ok(EMPTY)
  {
    DropsField();
    SetsFieldAgain();
    UndoPrunesParent();
  }

  lemma DropsField()
    ensures var d := FirstGeneration();
            Known(d.saved, map[], ONE) && PlanOne(d, map[]).Ok? && PlanOne(d, map[]).value.conflicts == [] &&
            PlanOne(d, map[]).value.changes == [DROPPING] && PlanOne(d, map[]).value.manifest.items ==
              OldItems(SecondGeneration().saved)
  {
    hide PlanKey;
    DroppingIsDue();
    OneKey(FirstGeneration(), map[]);
  }

  lemma DroppingIsDue()
    ensures var d := FirstGeneration();
            BELOW in OldItems(d.saved) &&
            PlanKey(d.files, d.saved, map[], BELOW) ==
              Ok(Verdict(Some(Item(Json, Fields, None, [["a"]])), Some(DROPPING), false, false))
  {
    Reads(FirstGeneration().files["settings"].content.entries);
    assert [["a"]] + [] == [["a"]];
    DedupOne([["a"]]);
  }

  lemma SetsFieldAgain()
    ensures var d := SecondGeneration();
            var again := map[BELOW := Wanted(Json, Fields, Scalar("2"))];
            Known(d.saved, again, ONE) && PlanOne(d, again).Ok? && PlanOne(d, again).value.conflicts == [] &&
            PlanOne(d, again).value.changes == [AGAIN]
  {
    hide PlanKey;
    SettingIsDue();
    OneKey(SecondGeneration(), map[BELOW := Wanted(Json, Fields, Scalar("2"))]);
  }

  lemma SettingIsDue()
    ensures var d := SecondGeneration();
            var again := map[BELOW := Wanted(Json, Fields, Scalar("2"))];
            BELOW in again && PlanKey(d.files, d.saved, again, BELOW) ==
              Ok(Verdict(Some(Item(Json, Fields, Some(Scalar("2")), [["a"]])), Some(AGAIN), false, false))
  {
    Reads(SecondGeneration().files["settings"].content.entries);
    assert [["a"]] + [] == [["a"]];
    DedupOne([["a"]]);
  }

  lemma UndoPrunesParent()
    ensures var ours := Dict(map["a" := EMPTY]);
            !R.SparesEmpty(ours, [ToField(AGAIN)]) && R.Rewrite(ours, [ToField(AGAIN)]).Ok? &&
            R.Rewrite(R.Rewrite(ours, [ToField(AGAIN)]).value, R.ReverseAll([ToField(AGAIN)])) == Ok(EMPTY)
  {
    var ours, filled, c := Dict(map["a" := EMPTY]), Dict(map["a" := Dict(map["b" := Scalar("2")])]), ToField(AGAIN);
    Reads(ours.entries);
    Reads(filled.entries);
    assert Field(ours, ["a"]) == Ok(Some(EMPTY));
    assert ["a"] in c.parents && !R.BelowLater([c], 0, ["a"]);
    assert ["a", "b"][1..] == ["b"];
    assert Put(EMPTY, ["b"], Some(Scalar("2"))) == Ok(filled.entries["a"]) &&
      Put(filled.entries["a"], ["b"], None) == Ok(EMPTY);
    assert ours.entries["a" := filled.entries["a"]] == filled.entries && filled.entries["a" := EMPTY] == ours.entries;
    assert Put(ours, ["a", "b"], Some(Scalar("2"))) == Ok(Dict(ours.entries["a" := filled.entries["a"]]));
    assert Put(filled, ["a", "b"], None) == Ok(Dict(filled.entries["a" := EMPTY]));
    assert R.Step(ours, c) == Ok(filled);
    assert [c][1..] == [];
    assert R.Rewrite(ours, [c]) == Ok(filled);
    var back := R.ReverseAll([c]);
    assert back == [R.Reverse(c)] && back[1..] == [];
    assert DeepestFirst([["a"]]) == [["a"]];
    assert Prune(ours, ["a"]) == EMPTY && [["a"]][1..] == [];
    assert PruneEach(ours, [["a"]]) == EMPTY;
    assert R.Step(filled, back[0]) == Ok(EMPTY);
  }
}
