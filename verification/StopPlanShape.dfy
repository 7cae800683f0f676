/** What every stop plan that is built or passes its check looks like, list by list: its runs are the selected
    ones, their resources are there and are theirs, and nothing comes twice. */
module StopPlanShape {
  import opened Wrappers
  import opened StopPlan

  // Among the run's resources exactly one is of this kind.
  ghost predicate HasOne(c: Content, run: Run, kind: Kind) {
    exists rid :: IsOnly(c, run, kind, rid)
  }

  ghost predicate IsOnly(c: Content, run: Run, kind: Kind, rid: Id) {
    && rid in run.resources && rid in c.resources && c.resources[rid].kind == kind
    && forall other | other in run.resources && other in c.resources && c.resources[other].kind == kind :: other == rid
  }

  lemma OneOfKind(c: Content, run: Run, kind: Kind)
    requires |OfKind(c, run, kind)| == 1
    ensures HasOne(c, run, kind)
  {
    var all := OfKind(c, run, kind);
    var rid :| rid in all;
    forall other | other in all
      ensures other == rid
    {
      Fewer({rid, other}, all);
    }
    assert forall other | other in run.resources && other in c.resources && c.resources[other].kind == kind ::
      other in all;
    assert IsOnly(c, run, kind, rid);
  }

  lemma Fewer(some: set<Id>, all: set<Id>)
    requires some <= all
    ensures |some| <= |all|
  {
    if some != all {
      assert |all - some| == |all| - |some|;
    }
  }

  // A plan passes its own check, so its lists are unique, its content is sound and it is its own canonical form.
  lemma PlanIsCanonical(lib: Library, body: Body)
    requires Normalize(lib, body, None).Ok?
    ensures var plan := Normalize(lib, body, None).value.body;
            HasUniqueLists(plan) && IsContent(lib, ContentOf(plan)) && Canonical(plan) == plan
  {
    hide HasUniqueLists, IsContent, ContentOf, Canonical;
    CheckedIsItself(lib, body);
  }

  lemma MappedRun(runs: seq<Run>, k: nat)
    requires HaveUniqueRuns(runs) && k < |runs|
    ensures runs[k].id in RunMap(runs) && RunMap(runs)[runs[k].id] == TidyRun(runs[k])
  {
    RunMapHolds(runs);
  }

  // The runs are the selected ones, and all three lists ascend.
  lemma PlanListsAscend(lib: Library, body: Body)
    requires Normalize(lib, body, None).Ok?
    ensures var plan := Normalize(lib, body, None).value.body;
            && plan.selected != [] && IsAscending(plan.selected) && RunIds(plan.runs) == plan.selected
            && IsAscending(ResourceIds(plan.resources))
  {
    PlanIsCanonical(lib, body);
    var plan := Normalize(lib, body, None).value.body;
    hide Normalize, Sort, RunMap, ResourceMap, Blockers;
    RunIdsAreKeys(plan.runs);
    ListedRunsAgain(plan.runs);
    ListedResourcesAgain(plan.resources);
    ResourceIdsAreKeys(plan.resources);
    SortSorts(plan.selected);
    SortSorts(RunIds(plan.runs));
    SortSorts(ResourceIds(plan.resources));
    assert Elements(plan.selected) == Elements(RunIds(plan.runs));
    assert forall y :: y in plan.selected <==> y in Elements(plan.selected);
    assert forall y :: y in RunIds(plan.runs) <==> y in Elements(RunIds(plan.runs));
    AscendingIsUnique(RunIds(plan.runs), plan.selected);
    assert Elements(plan.selected) != {};
  }

  // Every run of a plan was digested as observed, lies in the plan's scope, lists its resources once and in
  // order, all of them in the plan, with one instance, one native home and at least one runtime. A run seen
  // active shows two processes; under a registry manager and host differ where both are known, and the run is
  // restored by hand.
  lemma RunStands(lib: Library, body: Body, k: nat)
    requires Normalize(lib, body, None).Ok? && k < |Normalize(lib, body, None).value.body.runs|
    ensures var plan := Normalize(lib, body, None).value.body;
            var c, run := ContentOf(plan), plan.runs[k];
            && run.digest == lib.hash(run.observation) && IsAscending(run.resources)
            && (forall rid | rid in run.resources :: rid in ResourceIds(plan.resources))
            && HasOne(c, run, Instance) && HasOne(c, run, NativeHome)
            && (exists rid :: rid in run.resources && rid in c.resources && c.resources[rid].kind == Runtime)
            && (plan.protocol.V1? ==>
                  lib.fits(plan.scope, run.scope) &&
                  (run.observation.unknown ||
                    (run.observation.manager.Some? && run.observation.host.Some? &&
                      run.observation.manager != run.observation.host)))
            && (plan.protocol.Registry? ==>
                  run.scope == plan.scope && run.restore.ByHand? &&
                  (run.observation.manager.Some? ==> run.observation.manager != run.observation.host))
  {
    PlanIsCanonical(lib, body);
    var plan := Normalize(lib, body, None).value.body;
    var c, run := ContentOf(plan), plan.runs[k];
    hide Normalize, Blockers, Canonical, Owners, Sort, RunMap, ResourceMap, OfKind;
    MappedRun(plan.runs, k);
    RunIsTidy(lib, body, k);
    assert IsRun(lib, c, run);
    OneOfKind(c, run, Instance);
    OneOfKind(c, run, NativeHome);
    SomeOfKind(c, run, Runtime);
    ResourceIdsAreKeys(plan.resources);
    assert forall rid | rid in run.resources :: rid in Elements(ResourceIds(plan.resources));
  }

  lemma SomeOfKind(c: Content, run: Run, kind: Kind)
    requires |OfKind(c, run, kind)| >= 1
    ensures exists rid :: rid in run.resources && rid in c.resources && c.resources[rid].kind == kind
  {
    var rid :| rid in OfKind(c, run, kind);
  }

  // In a plan each run's resources are sorted.
  lemma RunIsTidy(lib: Library, body: Body, k: nat)
    requires Normalize(lib, body, None).Ok? && k < |Normalize(lib, body, None).value.body.runs|
    ensures var run := Normalize(lib, body, None).value.body.runs[k];
            TidyRun(run) == run && IsAscending(run.resources)
  {
    PlanIsCanonical(lib, body);
    var plan := Normalize(lib, body, None).value.body;
    hide Normalize, Blockers, IsContent, Sort, RunMap, ResourceMap;
    RunIdsAreKeys(plan.runs);
    var id := Sort(RunIds(plan.runs))[k];
    assert plan.runs[k] == RunMap(plan.runs)[id];
    ListedRun(plan.runs, id);
    SortSorts(plan.runs[k].resources);
  }

  lemma ResourceIsTidy(lib: Library, body: Body, k: nat)
    requires Normalize(lib, body, None).Ok? && k < |Normalize(lib, body, None).value.body.resources|
    ensures var plan := Normalize(lib, body, None).value.body;
            var r := plan.resources[k];
            IsAscending(r.references) && r.id in ResourceMap(plan.resources) && ResourceMap(plan.resources)[r.id] == r
  {
    PlanIsCanonical(lib, body);
    var plan := Normalize(lib, body, None).value.body;
    hide Normalize, Blockers, IsContent, Sort, RunMap, ResourceMap;
    ResourceIdsAreKeys(plan.resources);
    var id := Sort(ResourceIds(plan.resources))[k];
    assert plan.resources[k] == ResourceMap(plan.resources)[id];
    ListedResource(plan.resources, id);
    SortSorts(plan.resources[k].references);
  }

  // Every resource of a plan is some selected run's, and of the selected runs it refers to exactly those that
  // list it; no two share a physical object, and in the first protocol all lie in one domain.
  lemma ResourceStands(lib: Library, body: Body, k: nat, l: nat)
    requires Normalize(lib, body, None).Ok? && k < |Normalize(lib, body, None).value.body.resources|
    requires l < |Normalize(lib, body, None).value.body.resources|
    ensures var plan := Normalize(lib, body, None).value.body;
            var r, other := plan.resources[k], plan.resources[l];
            && IsAscending(r.references)
            && (exists n :: 0 <= n < |plan.runs| && r.id in plan.runs[n].resources)
            && (forall n | 0 <= n < |plan.runs| :: r.id in plan.runs[n].resources <==> plan.runs[n].id in r.references)
            && (k != l ==> r.id != other.id && r.physical != other.physical)
            && (plan.protocol.V1? ==> r.domain == other.domain)
  {
    PlanIsCanonical(lib, body);
    PlanListsAscend(lib, body);
    ResourceIsTidy(lib, body, k);
    ResourceIsTidy(lib, body, l);
    var plan := Normalize(lib, body, None).value.body;
    var c, r, other := ContentOf(plan), plan.resources[k], plan.resources[l];
    forall n | 0 <= n < |plan.runs|
      ensures plan.runs[n].id in c.selected && plan.runs[n].id in c.runs && c.runs[plan.runs[n].id] == plan.runs[n]
    {
      RunIsTidy(lib, body, n);
      MappedRun(plan.runs, n);
      assert RunIds(plan.runs)[n] in plan.selected;
    }
    hide Normalize, Blockers, Canonical, IsRun, Sort, RunMap, ResourceMap, IsAscending;
    var id :| id in Owners(c, r.id);
    assert id in Elements(plan.selected);
    var n :| 0 <= n < |plan.selected| && plan.selected[n] == id;
    assert plan.runs[n].id == id;
    forall m | 0 <= m < |plan.runs|
      ensures r.id in plan.runs[m].resources <==> plan.runs[m].id in r.references
    {
      assert plan.runs[m].id in Owners(c, r.id) <==> r.id in plan.runs[m].resources;
    }
  }
}
