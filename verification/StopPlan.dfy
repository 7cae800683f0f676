/** The canonical stop plans of maintenance.py and, for runs under a run registry, dsh_stop_plan.py:
    whatever order runs, resources and id lists come in, building gives the same plan, and checking
    a built plan changes nothing. */
module StopPlan {
  import opened Wrappers

  // Ids are fixed-width lower-case hexadecimal, so their text order is their numeric order.
  type Id = nat
  type Digest = string

  datatype Kind = Instance | NativeHome | Runtime | OtherKind
  datatype Operation = StopOnly | Setup
  // The registry protocol names its coordinator and says whether it can stop runs; V1 has neither.
  datatype Protocol = V1 | Registry(coordinator: string, supported: bool)
  datatype Observation = Observation(unknown: bool, manager: Option<int>, host: Option<int>, rest: string)
  datatype Restore = ByHand | Automatic(supported: bool, sealed: bool)
  datatype Run = Run(id: Id, scope: string, observation: Observation, digest: Digest, resources: seq<Id>,
    restore: Restore)
  datatype Resource = Resource(id: Id, kind: Kind, physical: int, domain: string, complete: bool, references: seq<Id>)
  datatype Blocker = ControlUnknown | RestoreUnavailable | SessionUnsealed | CoverageUnknown | UnselectedReference
                   | StopUnavailable
  datatype Body = Body(protocol: Protocol, scope: string, operation: Operation, selected: seq<Id>, runs: seq<Run>,
    resources: seq<Resource>,
                       ready: bool, blockers: set<Blocker>)
  datatype Plan = Plan(body: Body, id: Digest)

  // Hashes of canonical JSON; only their determinism is used. fits: the run's scope lies in the plan's;
  // binds: the coordinator is the instance registry of the scope's agent, bound to machine, path and profile.
  datatype Library = Library(hash: Observation -> Digest, digest: Body -> Digest, fits: (string, string) -> bool,
    binds: (string, string) -> bool)

  // ---- Sorting lists without repetitions ----

  predicate IsAscending(s: seq<Id>) {
    forall i, j | 0 <= i < j < |s| :: s[i] < s[j]
  }

  predicate AreUnique(s: seq<Id>) {
    forall i, j | 0 <= i < j < |s| :: s[i] != s[j]
  }

  function Elements(s: seq<Id>): set<Id> {
    set x | x in s
  }

  function Insert(x: Id, s: seq<Id>): seq<Id> {
    if s == [] || x <= s[0] then [x] + s else [s[0]] + Insert(x, s[1..])
  }

  function Sort(s: seq<Id>): seq<Id> {
    if s == [] then [] else Insert(s[0], Sort(s[1..]))
  }

  lemma {:induction false} InsertSorts(x: Id, s: seq<Id>)
    requires IsAscending(s) && x !in s
    ensures IsAscending(Insert(x, s)) && |Insert(x, s)| == |s| + 1
    ensures forall y :: y in Insert(x, s) <==> y == x || y in s
    decreases |s|
  {
    if s != [] && x > s[0] {
      InsertSorts(x, s[1..]);
      var rest := Insert(x, s[1..]);
      forall k | 0 <= k < |rest| ensures s[0] < rest[k] {
        assert rest[k] in rest;
      }
    }
  }

  lemma {:induction false} SortSorts(s: seq<Id>)
    requires AreUnique(s)
    ensures IsAscending(Sort(s)) && |Sort(s)| == |s| && Elements(Sort(s)) == Elements(s)
    ensures forall y :: y in Sort(s) <==> y in s
    decreases |s|
  {
    if s != [] {
      SortSorts(s[1..]);
      InsertSorts(s[0], Sort(s[1..]));
    }
  }

  lemma {:induction false} AscendingIsUnique(a: seq<Id>, b: seq<Id>)
    requires IsAscending(a) && IsAscending(b) && forall y :: y in a <==> y in b
    ensures a == b
    decreases |a|
  {
    if b != [] {
      assert b[0] in b && b[0] in a;
    }
    if a != [] {
      assert a[0] in b && b != [] && b[0] in a;
      assert a[0] == b[0];
      forall y ensures y in a[1..] <==> y in b[1..] {
        if y in a[1..] {
          assert y in a && y != a[0];
        }
        if y in b[1..] {
          assert y in b && y != b[0];
        }
      }
      AscendingIsUnique(a[1..], b[1..]);
    }
  }

  // Sorting forgets the order and nothing else, and a sorted list stays.
  lemma SortIsCanonical(a: seq<Id>, b: seq<Id>)
    requires AreUnique(a) && AreUnique(b) && Elements(a) == Elements(b)
    ensures Sort(a) == Sort(b) && AreUnique(Sort(a)) && Sort(Sort(a)) == Sort(a)
  {
    SortSorts(a);
    SortSorts(b);
    SortSorts(Sort(a));
    forall y ensures y in Sort(a) <==> y in Sort(b) {
      assert y in Elements(a) <==> y in Elements(b);
    }
    AscendingIsUnique(Sort(a), Sort(b));
    AscendingIsUnique(Sort(Sort(a)), Sort(a));
  }

  // ---- Catalogues: lists of records with unique ids ----

  predicate HaveUniqueRuns(runs: seq<Run>) {
    (forall i, j | 0 <= i < j < |runs| :: runs[i].id != runs[j].id) &&
      forall i | 0 <= i < |runs| :: AreUnique(runs[i].resources)
  }

  // No id and no physical object twice.
  predicate HaveUniqueResources(rs: seq<Resource>) {
    (forall i, j | 0 <= i < j < |rs| :: rs[i].id != rs[j].id && rs[i].physical != rs[j].physical) &&
    forall i | 0 <= i < |rs| :: AreUnique(rs[i].references)
  }

  function TidyRun(run: Run): Run {
    run.(resources := Sort(run.resources))
  }

  function TidyResource(r: Resource): Resource {
    r.(references := Sort(r.references))
  }

  // By id, each with its own id list sorted.
  function RunMap(runs: seq<Run>): map<Id, Run> {
    if runs == [] then map[] else RunMap(runs[..|runs| - 1])[runs[|runs| - 1].id := TidyRun(runs[|runs| - 1])]
  }

  function ResourceMap(rs: seq<Resource>): map<Id, Resource> {
    if rs == [] then map[] else ResourceMap(rs[..|rs| - 1])[rs[|rs| - 1].id := TidyResource(rs[|rs| - 1])]
  }

  lemma {:induction false} RunMapHolds(runs: seq<Run>)
    requires HaveUniqueRuns(runs)
    ensures forall k | 0 <= k < |runs| :: runs[k].id in RunMap(runs) && RunMap(runs)[runs[k].id] == TidyRun(runs[k])
    ensures forall id | id in RunMap(runs) :: exists k :: 0 <= k < |runs| && runs[k].id == id
    decreases |runs|
  {
    hide TidyRun, AreUnique;
    if runs != [] {
      var front := runs[..|runs| - 1];
      RunMapHolds(front);
      forall id | id in RunMap(runs) ensures exists k :: 0 <= k < |runs| && runs[k].id == id {
        if id in RunMap(front) {
          var k :| 0 <= k < |front| && front[k].id == id;
          assert runs[k].id == id;
        }
      }
    }
  }

  lemma {:induction false} ResourceMapHolds(rs: seq<Resource>)
    requires HaveUniqueResources(rs)
    ensures forall k | 0 <= k < |rs| :: rs[k].id in ResourceMap(rs) && ResourceMap(rs)[rs[k].id] == TidyResource(rs[k])
    ensures forall id | id in ResourceMap(rs) :: exists k :: 0 <= k < |rs| && rs[k].id == id
    decreases |rs|
  {
    hide TidyResource, AreUnique;
    if rs != [] {
      var front := rs[..|rs| - 1];
      ResourceMapHolds(front);
      forall id | id in ResourceMap(rs) ensures exists k :: 0 <= k < |rs| && rs[k].id == id {
        if id in ResourceMap(front) {
          var k :| 0 <= k < |front| && front[k].id == id;
          assert rs[k].id == id;
        }
      }
    }
  }

  // ---- What a plan says, without any order ----

  datatype Content = Content(protocol: Protocol, scope: string, operation: Operation, selected: set<Id>, runs: map<Id,
    Run>, resources: map<Id, Resource>)

  function Owners(c: Content, rid: Id): set<Id> {
    set id | id in c.runs.Keys && rid in c.runs[id].resources
  }

  function OfKind(c: Content, run: Run, kind: Kind): set<Id> {
    set rid | rid in run.resources && rid in c.resources && c.resources[rid].kind == kind
  }

  predicate IsInScope(lib: Library, protocol: Protocol, scope: string, run: Run) {
    match protocol
    case V1 => lib.fits(scope, run.scope)
    case Registry(_, _) => run.scope == scope && run.restore.ByHand?
  }

  // In V1 a run seen active names two processes; a registry may show a run whose processes it does not know.
  predicate IsObservation(protocol: Protocol, o: Observation) {
    match protocol
    case V1 => o.unknown || (o.manager.Some? && o.host.Some? && o.manager != o.host)
    case Registry(_, _) => o.manager.None? || o.manager != o.host
  }

  predicate IsRun(lib: Library, c: Content, run: Run) {
    && IsInScope(lib, c.protocol, c.scope, run) && run.digest == lib.hash(run.observation) &&
      IsObservation(c.protocol, run.observation)
    && (forall rid | rid in run.resources :: rid in c.resources)
    && |OfKind(c, run, Instance)| == 1 && |OfKind(c, run, NativeHome)| == 1 && |OfKind(c, run, Runtime)| >= 1
  }

  predicate IsContent(lib: Library, c: Content) {
    && c.selected != {} && c.runs.Keys == c.selected
    && (forall id | id in c.runs.Keys :: IsRun(lib, c, c.runs[id]))
    && (forall rid | rid in c.resources.Keys ::
          Owners(c, rid) != {} && Owners(c, rid) == Elements(c.resources[rid].references) * c.selected)
    && (match c.protocol
        case V1 => forall a, b | a in c.resources.Keys && b in c.resources.Keys ::
          c.resources[a].domain == c.resources[b].domain
        case Registry(coordinator, _) => lib.binds(c.scope, coordinator))
  }

  predicate PlanBlocks(protocol: Protocol, b: Blocker) {
    b.StopUnavailable? && protocol.Registry? && !protocol.supported
  }

  predicate RunBlocks(protocol: Protocol, run: Run, b: Blocker) {
    match b
    case ControlUnknown => run.observation.unknown ||
      (protocol.Registry? && (run.observation.manager.None? || run.observation.host.None?))
    case RestoreUnavailable => protocol.V1? && run.restore.Automatic? && !run.restore.supported
    case SessionUnsealed => protocol.V1? && run.restore.Automatic? && !run.restore.sealed
    case _ => false
  }

  predicate ResourceBlocks(c: Content, r: Resource, b: Blocker) {
    match b
    case CoverageUnknown => !r.complete && (c.protocol.V1? || c.operation.Setup?)
    case UnselectedReference => c.operation.Setup? && Elements(r.references) - c.selected != {}
    case _ => false
  }

  predicate Blocks(c: Content, b: Blocker) {
    PlanBlocks(c.protocol, b) ||
    (exists id :: id in c.runs.Keys && RunBlocks(c.protocol, c.runs[id], b)) ||
    (exists rid :: rid in c.resources.Keys && ResourceBlocks(c, c.resources[rid], b))
  }

  function Blockers(c: Content): set<Blocker> {
    set b | b in {ControlUnknown, RestoreUnavailable, SessionUnsealed, CoverageUnknown, UnselectedReference,
      StopUnavailable} && Blocks(c, b)
  }

  // ---- The canonical plan ----

  function ContentOf(body: Body): Content {
    Content(body.protocol, body.scope, body.operation, Elements(body.selected), RunMap(body.runs),
      ResourceMap(body.resources))
  }

  // The ids in order, then the records in the order of their ids.
  function ListedRuns(m: map<Id, Run>, ids: seq<Id>): (r: seq<Run>)
    requires forall id | id in ids :: id in m
    ensures |r| == |ids| && forall k | 0 <= k < |ids| :: r[k] == m[ids[k]]
  {
    seq(|ids|, k requires 0 <= k < |ids| => m[ids[k]])
  }

  function ListedResources(m: map<Id, Resource>, ids: seq<Id>): (r: seq<Resource>)
    requires forall id | id in ids :: id in m
    ensures |r| == |ids| && forall k | 0 <= k < |ids| :: r[k] == m[ids[k]]
  {
    seq(|ids|, k requires 0 <= k < |ids| => m[ids[k]])
  }

  function RunIds(runs: seq<Run>): (ids: seq<Id>)
    ensures |ids| == |runs| && forall k | 0 <= k < |runs| :: ids[k] == runs[k].id
  {
    seq(|runs|, k requires 0 <= k < |runs| => runs[k].id)
  }

  function ResourceIds(rs: seq<Resource>): (ids: seq<Id>)
    ensures |ids| == |rs| && forall k | 0 <= k < |rs| :: ids[k] == rs[k].id
  {
    seq(|rs|, k requires 0 <= k < |rs| => rs[k].id)
  }

  predicate HasUniqueLists(body: Body) {
    AreUnique(body.selected) && HaveUniqueRuns(body.runs) && HaveUniqueResources(body.resources)
  }

  lemma RunIdsAreKeys(runs: seq<Run>)
    requires HaveUniqueRuns(runs)
    ensures AreUnique(RunIds(runs)) && Elements(RunIds(runs)) == RunMap(runs).Keys
    ensures forall id | id in Sort(RunIds(runs)) :: id in RunMap(runs)
  {
    hide RunMap;
    RunMapHolds(runs);
    forall id ensures id in Elements(RunIds(runs)) <==> id in RunMap(runs).Keys {
      if id in RunMap(runs) {
        var k :| 0 <= k < |runs| && runs[k].id == id;
        assert RunIds(runs)[k] == id;
      }
    }
    SortSorts(RunIds(runs));
    assert forall id | id in Sort(RunIds(runs)) :: id in Elements(RunIds(runs));
  }

  lemma ResourceIdsAreKeys(rs: seq<Resource>)
    requires HaveUniqueResources(rs)
    ensures AreUnique(ResourceIds(rs)) && Elements(ResourceIds(rs)) == ResourceMap(rs).Keys
    ensures forall id | id in Sort(ResourceIds(rs)) :: id in ResourceMap(rs)
  {
    hide ResourceMap;
    ResourceMapHolds(rs);
    forall id ensures id in Elements(ResourceIds(rs)) <==> id in ResourceMap(rs).Keys {
      if id in ResourceMap(rs) {
        var k :| 0 <= k < |rs| && rs[k].id == id;
        assert ResourceIds(rs)[k] == id;
      }
    }
    SortSorts(ResourceIds(rs));
    assert forall id | id in Sort(ResourceIds(rs)) :: id in Elements(ResourceIds(rs));
  }

  // Sort every list, recompute blockers and readiness.
  function Canonical(body: Body): Body
    requires HasUniqueLists(body)
  {
    RunIdsAreKeys(body.runs);
    ResourceIdsAreKeys(body.resources);
    var c := ContentOf(body);
    Body(body.protocol, body.scope, body.operation, Sort(body.selected), ListedRuns(c.runs, Sort(RunIds(body.runs))),
         ListedResources(c.resources, Sort(ResourceIds(body.resources))), Blockers(c) == {}, Blockers(c))
  }

  // _plan and normalize; claimed is the plan id to verify, or None where a built plan is computed.
  function Normalize(lib: Library, body: Body, claimed: Option<Digest>): Result<Plan> {
    if !HasUniqueLists(body) || !IsContent(lib, ContentOf(body)) then Conflict
    else
      var canonical := Canonical(body);
      if claimed.Some? && (body.blockers != canonical.blockers || body.ready != canonical.ready ||
        claimed.value != lib.digest(canonical)) then Conflict
      else Ok(Plan(canonical, lib.digest(canonical)))
  }

  // ---- Order does not matter ----

  // The same run or resource with its ids in another order.
  predicate SameRun(x: Run, y: Run) {
    x.(resources := []) == y.(resources := []) && Elements(x.resources) == Elements(y.resources)
  }

  predicate SameResource(x: Resource, y: Resource) {
    x.(references := []) == y.(references := []) && Elements(x.references) == Elements(y.references)
  }

  ghost predicate CoversRuns(a: seq<Run>, b: seq<Run>) {
    forall k | 0 <= k < |a| :: exists l :: 0 <= l < |b| && SameRun(a[k], b[l])
  }

  ghost predicate SameRuns(a: seq<Run>, b: seq<Run>) {
    CoversRuns(a, b) && CoversRuns(b, a)
  }

  ghost predicate CoversResources(a: seq<Resource>, b: seq<Resource>) {
    forall k | 0 <= k < |a| :: exists l :: 0 <= l < |b| && SameResource(a[k], b[l])
  }

  ghost predicate SameResources(a: seq<Resource>, b: seq<Resource>) {
    CoversResources(a, b) && CoversResources(b, a)
  }

  lemma SameRunSameTidy(x: Run, y: Run)
    requires SameRun(x, y)
    ensures x.id == y.id && (AreUnique(x.resources) && AreUnique(y.resources) ==> TidyRun(x) == TidyRun(y))
  {
    if AreUnique(x.resources) && AreUnique(y.resources) {
      SortIsCanonical(x.resources, y.resources);
    }
  }

  lemma CoveredRuns(a: seq<Run>, b: seq<Run>)
    requires HaveUniqueRuns(a) && HaveUniqueRuns(b) && CoversRuns(a, b)
    ensures forall id | id in RunMap(a) :: id in RunMap(b) && RunMap(b)[id] == RunMap(a)[id]
  {
    hide RunMap, Sort, TidyRun, SameRun, AreUnique;
    RunMapHolds(a);
    RunMapHolds(b);
    forall id | id in RunMap(a) ensures id in RunMap(b) && RunMap(b)[id] == RunMap(a)[id] {
      var k :| 0 <= k < |a| && a[k].id == id;
      var l :| 0 <= l < |b| && SameRun(a[k], b[l]);
      SameRunSameTidy(a[k], b[l]);
      assert AreUnique(a[k].resources) && AreUnique(b[l].resources);
    }
  }

  lemma SameRunsSameMap(a: seq<Run>, b: seq<Run>)
    requires HaveUniqueRuns(a) && HaveUniqueRuns(b) && SameRuns(a, b)
    ensures RunMap(a) == RunMap(b)
  {
    hide RunMap, HaveUniqueRuns, CoversRuns;
    CoveredRuns(a, b);
    CoveredRuns(b, a);
  }

  lemma SameResourceSameTidy(x: Resource, y: Resource)
    requires SameResource(x, y)
    ensures x.id == y.id && (AreUnique(x.references) && AreUnique(y.references) ==> TidyResource(x) == TidyResource(y))
  {
    if AreUnique(x.references) && AreUnique(y.references) {
      SortIsCanonical(x.references, y.references);
    }
  }

  lemma CoveredResources(a: seq<Resource>, b: seq<Resource>)
    requires HaveUniqueResources(a) && HaveUniqueResources(b) && CoversResources(a, b)
    ensures forall id | id in ResourceMap(a) :: id in ResourceMap(b) && ResourceMap(b)[id] == ResourceMap(a)[id]
  {
    hide ResourceMap, Sort, TidyResource, SameResource, AreUnique;
    ResourceMapHolds(a);
    ResourceMapHolds(b);
    forall id | id in ResourceMap(a) ensures id in ResourceMap(b) && ResourceMap(b)[id] == ResourceMap(a)[id] {
      var k :| 0 <= k < |a| && a[k].id == id;
      var l :| 0 <= l < |b| && SameResource(a[k], b[l]);
      SameResourceSameTidy(a[k], b[l]);
      assert AreUnique(a[k].references) && AreUnique(b[l].references);
    }
  }

  lemma SameResourcesSameMap(a: seq<Resource>, b: seq<Resource>)
    requires HaveUniqueResources(a) && HaveUniqueResources(b) && SameResources(a, b)
    ensures ResourceMap(a) == ResourceMap(b)
  {
    hide ResourceMap, HaveUniqueResources, CoversResources;
    CoveredResources(a, b);
    CoveredResources(b, a);
  }

  lemma ContentDecides(a: Body, b: Body)
    requires HasUniqueLists(a) && HasUniqueLists(b) && ContentOf(a) == ContentOf(b)
    ensures Canonical(a) == Canonical(b)
  {
    hide RunMap, ResourceMap, Sort, Blockers;
    RunIdsAreKeys(a.runs);
    RunIdsAreKeys(b.runs);
    ResourceIdsAreKeys(a.resources);
    ResourceIdsAreKeys(b.resources);
    SortIsCanonical(a.selected, b.selected);
    SortIsCanonical(RunIds(a.runs), RunIds(b.runs));
    SortIsCanonical(ResourceIds(a.resources), ResourceIds(b.resources));
  }

  // ---- Checking a canonical plan changes nothing ----

  lemma ListedAscending(ids: seq<Id>)
    requires AreUnique(ids)
    ensures AreUnique(Sort(ids)) && Elements(Sort(ids)) == Elements(ids)
  {
    SortSorts(ids);
  }

  lemma TidyIsTidy(run: Run, r: Resource)
    ensures AreUnique(run.resources) ==> TidyRun(TidyRun(run)) == TidyRun(run) && AreUnique(TidyRun(run).resources)
    ensures AreUnique(r.references) ==>
      TidyResource(TidyResource(r)) == TidyResource(r) && AreUnique(TidyResource(r).references)
  {
    if AreUnique(run.resources) {
      SortIsCanonical(run.resources, run.resources);
    }
    if AreUnique(r.references) {
      SortIsCanonical(r.references, r.references);
    }
  }

  lemma ListedRunsAgain(runs: seq<Run>)
    requires HaveUniqueRuns(runs)
    ensures forall id | id in Sort(RunIds(runs)) :: id in RunMap(runs)
    ensures var listed := ListedRuns(RunMap(runs), Sort(RunIds(runs)));
            HaveUniqueRuns(listed) && RunMap(listed) == RunMap(runs) && RunIds(listed) == Sort(RunIds(runs))
  {
    hide RunMap, Sort, TidyRun;
    RunIdsAreKeys(runs);
    RunMapHolds(runs);
    var ids := Sort(RunIds(runs));
    ListedAscending(RunIds(runs));
    var listed := ListedRuns(RunMap(runs), ids);
    forall k | 0 <= k < |listed| ensures listed[k].id == ids[k] && AreUnique(listed[k].resources) &&
      TidyRun(listed[k]) == listed[k] {
      var id := ids[k];
      assert id in ids;
      var at :| 0 <= at < |runs| && runs[at].id == id;
      TidyIsTidy(runs[at], Resource(0, OtherKind, 0, "", true, []));
      TidyKeepsId(runs[at]);
    }
    RunMapHolds(listed);
    forall id ensures id in RunMap(listed) <==> id in RunMap(runs) {
      if id in RunMap(listed) {
        var k :| 0 <= k < |listed| && listed[k].id == id;
        assert ids[k] in Elements(ids);
      }
      if id in RunMap(runs) {
        assert id in Elements(ids);
        var k :| 0 <= k < |ids| && ids[k] == id;
        assert listed[k].id == id;
      }
    }
    forall id | id in RunMap(listed) ensures RunMap(listed)[id] == RunMap(runs)[id] {
      var k :| 0 <= k < |listed| && listed[k].id == id;
    }
  }

  lemma TidyKeepsId(run: Run)
    ensures TidyRun(run).id == run.id
  {
  }

  lemma ListedResource(rs: seq<Resource>, id: Id)
    requires HaveUniqueResources(rs) && id in ResourceMap(rs)
    ensures var r := ResourceMap(rs)[id];
            r.id == id && AreUnique(r.references) && TidyResource(r) == r && exists at ::
              0 <= at < |rs| && rs[at].id == id && rs[at].physical == r.physical
  {
    hide ResourceMap, Sort, TidyResource;
    ResourceMapHolds(rs);
    var at :| 0 <= at < |rs| && rs[at].id == id;
    TidyIsTidy(Run(0, "", Observation(true, None, None, ""), "", [], ByHand), rs[at]);
    TidyKeepsPhysical(rs[at]);
  }

  lemma ListedUnique(rs: seq<Resource>, listed: seq<Resource>)
    requires HaveUniqueResources(rs) && AreUnique(ResourceIds(listed))
    requires forall k | 0 <= k < |listed| ::
      listed[k].id in ResourceMap(rs) && listed[k] == ResourceMap(rs)[listed[k].id]
    ensures HaveUniqueResources(listed)
  {
    hide ResourceMap, Sort, TidyResource, AreUnique;
    forall i, j | 0 <= i < j < |listed| ensures listed[i].id != listed[j].id &&
      listed[i].physical != listed[j].physical {
      ListedResource(rs, listed[i].id);
      ListedResource(rs, listed[j].id);
      var at :| 0 <= at < |rs| && rs[at].id == listed[i].id && rs[at].physical == listed[i].physical;
      var to :| 0 <= to < |rs| && rs[to].id == listed[j].id && rs[to].physical == listed[j].physical;
      assert ResourceIds(listed)[i] != ResourceIds(listed)[j] by {
        UniqueAt(ResourceIds(listed), i, j);
      }
    }
    forall k | 0 <= k < |listed| ensures AreUnique(listed[k].references) {
      ListedResource(rs, listed[k].id);
    }
  }

  lemma UniqueAt(s: seq<Id>, i: nat, j: nat)
    requires AreUnique(s) && i < j < |s|
    ensures s[i] != s[j]
  {
  }

  lemma ListedSameMap(rs: seq<Resource>, listed: seq<Resource>)
    requires HaveUniqueResources(rs) && HaveUniqueResources(listed)
    requires forall k | 0 <= k < |listed| ::
      listed[k].id in ResourceMap(rs) && listed[k] == ResourceMap(rs)[listed[k].id]
    requires forall id | id in ResourceMap(rs) :: exists k :: 0 <= k < |listed| && listed[k].id == id
    ensures ResourceMap(listed) == ResourceMap(rs)
  {
    hide ResourceMap, Sort, TidyResource, HaveUniqueResources;
    ResourceMapHolds(listed);
    forall id | id in ResourceMap(listed) ensures id in ResourceMap(rs) &&
      ResourceMap(listed)[id] == ResourceMap(rs)[id] {
      var k :| 0 <= k < |listed| && listed[k].id == id;
      ListedResource(rs, id);
    }
  }

  lemma ListedResourcesAgain(rs: seq<Resource>)
    requires HaveUniqueResources(rs)
    ensures forall id | id in Sort(ResourceIds(rs)) :: id in ResourceMap(rs)
    ensures var listed := ListedResources(ResourceMap(rs), Sort(ResourceIds(rs)));
            HaveUniqueResources(listed) && ResourceMap(listed) == ResourceMap(rs) &&
              ResourceIds(listed) == Sort(ResourceIds(rs))
  {
    hide ResourceMap, Sort, TidyResource, HaveUniqueResources, AreUnique;
    ResourceIdsAreKeys(rs);
    var ids := Sort(ResourceIds(rs));
    ListedAscending(ResourceIds(rs));
    var listed := ListedResources(ResourceMap(rs), ids);
    forall k | 0 <= k < |listed| ensures listed[k].id == ids[k] {
      assert ids[k] in ids;
      ListedResource(rs, ids[k]);
    }
    assert ResourceIds(listed) == ids;
    ListedUnique(rs, listed);
    forall id | id in ResourceMap(rs) ensures exists k :: 0 <= k < |listed| && listed[k].id == id {
      assert id in Elements(ids);
      var k :| 0 <= k < |ids| && ids[k] == id;
      assert listed[k].id == id;
    }
    ListedSameMap(rs, listed);
  }

  lemma TidyKeepsPhysical(r: Resource)
    ensures TidyResource(r).id == r.id && TidyResource(r).physical == r.physical
  {
  }

  // What building gives, checking gives back: a decoded encoding is the plan itself.
  lemma CheckedIsItself(lib: Library, body: Body)
    requires Normalize(lib, body, None).Ok?
    ensures var plan := Normalize(lib, body, None).value;
            Normalize(lib, plan.body, Some(plan.id)) == Ok(plan)
  {
    hide RunMap, ResourceMap, Sort, Blockers, IsContent;
    var canonical := Canonical(body);
    ListedRunsAgain(body.runs);
    ListedResourcesAgain(body.resources);
    ListedAscending(body.selected);
    assert ContentOf(canonical) == ContentOf(body);
    ContentDecides(canonical, body);
  }

  // ---- Building ----

  datatype Supplied = Supplied(protocol: Protocol, scope: string, operation: Operation, selected: seq<Id>,
    runs: seq<Run>, resources: seq<Resource>)

  // Only the chosen runs, with their observation digests, and exactly the resources they need.
  function Chosen(lib: Library, runs: map<Id, Run>, ids: seq<Id>): (r: seq<Run>)
    requires forall id | id in ids :: id in runs
    ensures |r| == |ids| && forall k | 0 <= k < |ids| ::
      r[k] == runs[ids[k]].(digest := lib.hash(runs[ids[k]].observation))
  {
    seq(|ids|, k requires 0 <= k < |ids| => runs[ids[k]].(digest := lib.hash(runs[ids[k]].observation)))
  }

  function Required(runs: map<Id, Run>, ids: set<Id>): set<Id>
    requires ids <= runs.Keys
  {
    set id, rid | id in ids && rid in runs[id].resources :: rid
  }

  // Every run supplied names known resources, each of which lists it back.
  predicate AreLinked(runs: map<Id, Run>, resources: map<Id, Resource>) {
    forall id | id in runs.Keys :: forall rid | rid in runs[id].resources ::
      rid in resources && id in resources[rid].references
  }

  predicate HasUniqueSupply(s: Supplied) {
    s.selected != [] && AreUnique(s.selected) && HaveUniqueRuns(s.runs) && HaveUniqueResources(s.resources)
  }

  // The registry protocol takes no run of another scope, selected or not.
  predicate IsBuildable(lib: Library, s: Supplied) {
    (s.protocol.Registry? ==> forall id | id in RunMap(s.runs).Keys ::
      IsInScope(lib, s.protocol, s.scope, RunMap(s.runs)[id])) &&
    HasUniqueSupply(s) && Elements(s.selected) <= RunMap(s.runs).Keys &&
      AreLinked(RunMap(s.runs), ResourceMap(s.resources)) &&
    Required(RunMap(s.runs), Elements(s.selected)) <= ResourceMap(s.resources).Keys
  }

  // The source lists the required resources in whatever order its set yields them.
  ghost predicate IsDraft(lib: Library, s: Supplied, body: Body)
    requires IsBuildable(lib, s)
  {
    var runs, resources := RunMap(s.runs), ResourceMap(s.resources);
    && body.protocol == s.protocol && body.scope == s.scope && body.operation == s.operation &&
      body.selected == s.selected
    && body.runs == Chosen(lib, runs, s.selected)
    && AreUnique(ResourceIds(body.resources)) && Elements(ResourceIds(body.resources)) ==
      Required(runs, Elements(s.selected))
    && forall k | 0 <= k < |body.resources| ::
         body.resources[k].id in resources && body.resources[k] == resources[body.resources[k].id]
  }

  lemma ListedRun(runs: seq<Run>, id: Id)
    requires HaveUniqueRuns(runs) && id in RunMap(runs)
    ensures var run := RunMap(runs)[id]; run.id == id && AreUnique(run.resources) && TidyRun(run) == run
  {
    hide RunMap, Sort, TidyRun;
    RunMapHolds(runs);
    var at :| 0 <= at < |runs| && runs[at].id == id;
    TidyIsTidy(runs[at], Resource(0, OtherKind, 0, "", true, []));
    TidyKeepsId(runs[at]);
  }

  lemma DraftIsUnique(lib: Library, s: Supplied, body: Body)
    requires IsBuildable(lib, s) && IsDraft(lib, s, body)
    ensures HasUniqueLists(body)
  {
    hide RunMap, ResourceMap, Sort, TidyRun, AreUnique;
    ListedUnique(s.resources, body.resources);
    forall k | 0 <= k < |body.runs| ensures body.runs[k].id == s.selected[k] && AreUnique(body.runs[k].resources) {
      assert s.selected[k] in Elements(s.selected);
      ListedRun(s.runs, s.selected[k]);
    }
    forall i, j | 0 <= i < j < |body.runs| ensures body.runs[i].id != body.runs[j].id {
      UniqueAt(s.selected, i, j);
    }
  }

  lemma DraftRuns(lib: Library, s: Supplied, body: Body)
    requires IsBuildable(lib, s) && IsDraft(lib, s, body) && HaveUniqueRuns(body.runs)
    ensures var runs, ids := RunMap(s.runs), Elements(s.selected);
            RunMap(body.runs) == map id | id in ids :: runs[id].(digest := lib.hash(runs[id].observation))
  {
    hide RunMap, ResourceMap, TidyRun, AreUnique, HaveUniqueResources, HaveUniqueRuns, AreLinked, Required;
    var runs, ids := RunMap(s.runs), Elements(s.selected);
    RunMapHolds(body.runs);
    forall k | 0 <= k < |body.runs| ensures body.runs[k].id == s.selected[k] && TidyRun(body.runs[k]) == body.runs[k] {
      assert s.selected[k] in ids;
      ListedRun(s.runs, s.selected[k]);
      TidyIgnoresDigest(runs[s.selected[k]], body.runs[k].digest);
    }
    forall id ensures id in RunMap(body.runs) <==> id in ids {
      if id in RunMap(body.runs) {
        var k :| 0 <= k < |body.runs| && body.runs[k].id == id;
        assert s.selected[k] in ids;
      }
      if id in ids {
        var k :| 0 <= k < |s.selected| && s.selected[k] == id;
        assert body.runs[k].id == id;
      }
    }
  }

  lemma DraftResources(lib: Library, s: Supplied, body: Body)
    requires IsBuildable(lib, s) && IsDraft(lib, s, body) && HaveUniqueResources(body.resources)
    ensures var resources, required := ResourceMap(s.resources), Required(RunMap(s.runs), Elements(s.selected));
            ResourceMap(body.resources) == map rid | rid in required :: resources[rid]
  {
    hide RunMap, ResourceMap, TidyResource, AreUnique, HaveUniqueRuns, AreLinked, Required;
    ResourceMapHolds(body.resources);
    ResourceIdsAreKeys(body.resources);
    forall rid | rid in ResourceMap(body.resources) ensures ResourceMap(body.resources)[rid] ==
      ResourceMap(s.resources)[rid] {
      var k :| 0 <= k < |body.resources| && body.resources[k].id == rid;
      ListedResource(s.resources, rid);
    }
  }

  // The content of a draft depends on the supplied sets and maps alone.
  lemma DraftContent(lib: Library, s: Supplied, body: Body)
    requires IsBuildable(lib, s) && IsDraft(lib, s, body) && HasUniqueLists(body)
    ensures var runs, resources, ids := RunMap(s.runs), ResourceMap(s.resources), Elements(s.selected);
            ContentOf(body) == Content(s.protocol, s.scope, s.operation, ids,
              map id | id in ids :: runs[id].(digest := lib.hash(runs[id].observation)),
              map rid | rid in Required(runs, ids) :: resources[rid])
  {
    hide RunMap, ResourceMap, Required, HaveUniqueRuns, HaveUniqueResources, AreLinked, AreUnique, Elements;
    DraftRuns(lib, s, body);
    DraftResources(lib, s, body);
  }

  lemma TidyIgnoresDigest(run: Run, digest: Digest)
    ensures TidyRun(run.(digest := digest)) == TidyRun(run).(digest := digest)
  {
  }

  // Building is canonical in either protocol: for any order of the selection, the runs, the resources and the
  // ids inside them, and any order the required resources are drafted in, the result is the same.
  lemma BuildIgnoresOrder(lib: Library, s: Supplied, t: Supplied, body: Body, other: Body)
    requires IsBuildable(lib, s) && IsDraft(lib, s, body) && HasUniqueSupply(t)
    requires t.protocol == s.protocol && t.scope == s.scope && t.operation == s.operation &&
      Elements(t.selected) == Elements(s.selected)
    requires SameRuns(s.runs, t.runs) && SameResources(s.resources, t.resources)
    ensures IsBuildable(lib, t) && (IsDraft(lib, t, other) ==>
      Normalize(lib, other, None) == Normalize(lib, body, None))
  {
    hide RunMap, ResourceMap, SameRuns, SameResources, HaveUniqueRuns, HaveUniqueResources, IsContent, Canonical,
      IsDraft, ContentOf;
    SameRunsSameMap(s.runs, t.runs);
    SameResourcesSameMap(s.resources, t.resources);
    if IsDraft(lib, t, other) {
      DraftIsUnique(lib, s, body);
      DraftIsUnique(lib, t, other);
      DraftContent(lib, s, body);
      DraftContent(lib, t, other);
      ContentDecides(body, other);
    }
  }

  // ---- Readiness ----

  lemma CanonicalHasContent(body: Body)
    requires HasUniqueLists(body)
    ensures HasUniqueLists(Canonical(body)) && ContentOf(Canonical(body)) == ContentOf(body)
  {
    hide RunMap, ResourceMap, Sort, Blockers;
    ListedRunsAgain(body.runs);
    ListedResourcesAgain(body.resources);
    ListedAscending(body.selected);
  }

  lemma BlockersBlock(c: Content, b: Blocker)
    ensures b in Blockers(c) <==> Blocks(c, b)
  {
    hide Blocks;
  }

  // A plan is ready exactly when nothing blocks it; and in a ready setup plan the runs a resource
  // lists are exactly the selected runs that list the resource.
  lemma ReadyMeansUnblocked(lib: Library, body: Body, b: Blocker, rid: Id)
    requires Normalize(lib, body, None).Ok?
    ensures var plan := Normalize(lib, body, None).value;
            var c := ContentOf(plan.body);
            (plan.body.ready ==> !Blocks(c, b)) && (b in plan.body.blockers <==> Blocks(c, b)) &&
              (plan.body.ready <==> plan.body.blockers == {}) &&
            (plan.body.ready && c.operation.Setup? && rid in c.resources ==>
              Elements(c.resources[rid].references) == Owners(c, rid))
  {
    hide RunMap, ResourceMap, Sort, IsRun, Blockers;
    CanonicalHasContent(body);
    var c := ContentOf(body);
    BlockersBlock(c, b);
    if Blockers(c) == {} && c.operation.Setup? && rid in c.resources {
      BlockersBlock(c, UnselectedReference);
      assert rid in c.resources.Keys;
      var listed := Elements(c.resources[rid].references);
      assert listed - c.selected == {};
      assert forall x | x in listed :: x in c.selected by {
        assert forall x | x in listed && x !in c.selected :: x in listed - c.selected;
      }
      assert listed * c.selected == listed;
      assert Owners(c, rid) == Elements(c.resources[rid].references) * c.selected;
    }
  }

  lemma RunCauses(c: Content)
    ensures Blocks(c, ControlUnknown) <==> exists id | id in c.runs :: var o := c.runs[id].observation;
              o.unknown || (c.protocol.Registry? && (o.manager.None? || o.host.None?))
    ensures Blocks(c, RestoreUnavailable) <==>
              c.protocol.V1? && exists id | id in c.runs ::
                c.runs[id].restore.Automatic? && !c.runs[id].restore.supported
    ensures Blocks(c, SessionUnsealed) <==>
              c.protocol.V1? && exists id | id in c.runs :: c.runs[id].restore.Automatic? && !c.runs[id].restore.sealed
  {
    if id :| id in c.runs.Keys && RunBlocks(c.protocol, c.runs[id], ControlUnknown) {
      assert id in c.runs;
    }
    if id :| id in c.runs.Keys && RunBlocks(c.protocol, c.runs[id], RestoreUnavailable) {
      assert id in c.runs;
    }
    if id :| id in c.runs.Keys && RunBlocks(c.protocol, c.runs[id], SessionUnsealed) {
      assert id in c.runs;
    }
  }

  lemma ResourceCauses(c: Content)
    ensures Blocks(c, CoverageUnknown) <==>
              (c.protocol.V1? || c.operation.Setup?) && exists rid | rid in c.resources :: !c.resources[rid].complete
    ensures Blocks(c, UnselectedReference) <==>
              c.operation.Setup? && exists rid, id | rid in c.resources && id in c.resources[rid].references ::
                id !in c.selected
    ensures Blocks(c, StopUnavailable) <==> c.protocol.Registry? && !c.protocol.supported
  {
    if rid :| rid in c.resources.Keys && ResourceBlocks(c, c.resources[rid], CoverageUnknown) {
      assert rid in c.resources;
    }
    if rid :| rid in c.resources.Keys && ResourceBlocks(c, c.resources[rid], UnselectedReference) {
      var id :| id in Elements(c.resources[rid].references) - c.selected;
      assert rid in c.resources && id in c.resources[rid].references && id !in c.selected;
    }
    if c.operation.Setup? {
      forall rid, id | rid in c.resources && id in c.resources[rid].references && id !in c.selected
        ensures ResourceBlocks(c, c.resources[rid], UnselectedReference)
      {
        assert id in Elements(c.resources[rid].references) - c.selected;
      }
    }
  }

  // Which runs and resources each blocker of a plan comes from: an unseen process; in the first protocol a
  // run to be restored automatically that cannot be or whose session is open; a resource not fully seen,
  // unless a registry only stops runs; a setup's resource that an unselected run refers to; and a
  // coordinator that cannot stop runs.
  lemma BlockersHaveCauses(lib: Library, body: Body)
    requires Normalize(lib, body, None).Ok?
    ensures var plan := Normalize(lib, body, None).value.body;
            var c := ContentOf(plan);
            && (ControlUnknown in plan.blockers <==> exists id | id in c.runs :: var o := c.runs[id].observation;
                  o.unknown || (c.protocol.Registry? && (o.manager.None? || o.host.None?)))
            && (RestoreUnavailable in plan.blockers <==>
                  (c.protocol.V1? &&
                    exists id | id in c.runs :: c.runs[id].restore.Automatic? && !c.runs[id].restore.supported))
            && (SessionUnsealed in plan.blockers <==>
                  (c.protocol.V1? &&
                    exists id | id in c.runs :: c.runs[id].restore.Automatic? && !c.runs[id].restore.sealed))
            && (CoverageUnknown in plan.blockers <==>
                  ((c.protocol.V1? || c.operation.Setup?) &&
                    exists rid | rid in c.resources :: !c.resources[rid].complete))
            && (UnselectedReference in plan.blockers <==>
                  (c.operation.Setup? &&
                    exists rid, id | rid in c.resources && id in c.resources[rid].references :: id !in c.selected))
            && (StopUnavailable in plan.blockers <==> c.protocol.Registry? && !c.protocol.supported)
  {
    hide RunMap, ResourceMap, Sort, IsContent, Blockers, Blocks;
    CanonicalHasContent(body);
    var c := ContentOf(body);
    RunCauses(c);
    ResourceCauses(c);
    forall b: Blocker ensures b in Blockers(c) <==> Blocks(c, b) {
      BlockersBlock(c, b);
    }
  }

  lemma UnblockedMeansReady(c: Content)
    ensures Blockers(c) == {} <==> forall b :: !Blocks(c, b)
  {
    hide Blocks;
    forall b: Blocker ensures b in Blockers(c) <==> Blocks(c, b) {
      BlockersBlock(c, b);
    }
  }

  // The run is active and its manager and host are two known processes.
  predicate IsKnown(o: Observation) {
    !o.unknown && o.manager.Some? && o.host.Some? && o.manager != o.host
  }

  lemma StopOnlyBlocks(lib: Library, c: Content, b: Blocker)
    requires IsContent(lib, c) && c.protocol.Registry? && c.operation.StopOnly?
    ensures Blocks(c, b) <==>
      (b.StopUnavailable? && !c.protocol.supported) ||
        (b.ControlUnknown? && exists id :: id in c.runs.Keys && !IsKnown(c.runs[id].observation))
  {
    hide OfKind, Owners;
    forall id | id in c.runs.Keys ensures RunBlocks(c.protocol, c.runs[id], b) <==>
      b.ControlUnknown? && !IsKnown(c.runs[id].observation) {
      assert IsRun(lib, c, c.runs[id]);
    }
  }

  // A plan that only stops runs under a registry waits for no resource: an unselected run sharing one,
  // or a resource not fully seen, never blocks it.
  lemma StopOnlyNeedsItsRuns(lib: Library, c: Content)
    requires IsContent(lib, c) && c.protocol.Registry? && c.operation.StopOnly?
    ensures Blockers(c) == {} <==>
      c.protocol.supported && forall id | id in c.runs.Keys :: IsKnown(c.runs[id].observation)
  {
    hide IsContent, Blocks, Blockers, IsKnown;
    UnblockedMeansReady(c);
    StopOnlyBlocks(lib, c, StopUnavailable);
    StopOnlyBlocks(lib, c, ControlUnknown);
    forall b ensures Blocks(c, b) ==> b.StopUnavailable? || b.ControlUnknown? {
      StopOnlyBlocks(lib, c, b);
    }
  }

  lemma SetupBlocksAgree(lib: Library, c: Content, coordinator: string, supported: bool, b: Blocker)
    requires c.operation.Setup? && IsContent(lib, c.(protocol := V1)) &&
      IsContent(lib, c.(protocol := Registry(coordinator, supported)))
    ensures Blocks(c.(protocol := Registry(coordinator, supported)), b) <==>
      Blocks(c.(protocol := V1), b) || (b.StopUnavailable? && !supported)
  {
    hide OfKind, Owners;
    var first, second := c.(protocol := V1), c.(protocol := Registry(coordinator, supported));
    forall id | id in c.runs.Keys ensures RunBlocks(second.protocol, c.runs[id], b) <==>
      RunBlocks(first.protocol, c.runs[id], b) {
      assert IsRun(lib, first, first.runs[id]) && IsRun(lib, second, second.runs[id]);
    }
  }

  // For a setup both protocols are ready for the same plans, save for the coordinator's capability.
  lemma SetupReadinessAgrees(lib: Library, c: Content, coordinator: string, supported: bool)
    requires c.operation.Setup? && IsContent(lib, c.(protocol := V1)) &&
      IsContent(lib, c.(protocol := Registry(coordinator, supported)))
    ensures Blockers(c.(protocol := Registry(coordinator, supported))) == {} <==>
      supported && Blockers(c.(protocol := V1)) == {}
  {
    hide IsContent, Blocks, Blockers;
    var first, second := c.(protocol := V1), c.(protocol := Registry(coordinator, supported));
    UnblockedMeansReady(first);
    UnblockedMeansReady(second);
    forall b ensures Blocks(second, b) <==> Blocks(first, b) || (b.StopUnavailable? && !supported) {
      SetupBlocksAgree(lib, c, coordinator, supported, b);
    }
    assert Blocks(second, StopUnavailable) <==> Blocks(first, StopUnavailable) || !supported;
  }

  ghost predicate Collected(c: Content, runs: set<Id>, resources: set<Id>, blockers: set<Blocker>)
    requires runs <= c.runs.Keys && resources <= c.resources.Keys
  {
    forall b :: b in blockers <==>
      PlanBlocks(c.protocol, b) ||
      (exists id :: id in c.runs.Keys - runs && RunBlocks(c.protocol, c.runs[id], b)) ||
      (exists rid :: rid in c.resources.Keys - resources && ResourceBlocks(c, c.resources[rid], b))
  }

  lemma CollectRun(c: Content, runs: set<Id>, resources: set<Id>, blockers: set<Blocker>, id: Id, more: set<Blocker>)
    requires runs <= c.runs.Keys && resources <= c.resources.Keys && Collected(c, runs, resources, blockers) &&
      id in runs
    requires forall b :: b in more <==> RunBlocks(c.protocol, c.runs[id], b)
    ensures Collected(c, runs - {id}, resources, blockers + more)
  {
  }

  lemma CollectResource(c: Content, runs: set<Id>, resources: set<Id>, blockers: set<Blocker>, rid: Id,
      more: set<Blocker>)
    requires runs <= c.runs.Keys && resources <= c.resources.Keys && Collected(c, runs, resources, blockers) &&
      rid in resources
    requires forall b :: b in more <==> ResourceBlocks(c, c.resources[rid], b)
    ensures Collected(c, runs, resources - {rid}, blockers + more)
  {
  }

  lemma NothingCollected(c: Content, blockers: set<Blocker>)
    requires forall b :: b in blockers <==> PlanBlocks(c.protocol, b)
    ensures Collected(c, c.runs.Keys, c.resources.Keys, blockers)
  {
  }

  lemma CollectedAll(c: Content, blockers: set<Blocker>)
    requires Collected(c, {}, {}, blockers)
    ensures blockers == Blockers(c)
  {
    forall b: Blocker ensures b in blockers <==> b in Blockers(c) {
      BlockersBlock(c, b);
    }
  }

  method FromRun(protocol: Protocol, run: Run) returns (more: set<Blocker>)
    ensures forall b :: b in more <==> RunBlocks(protocol, run, b)
  {
    more := {};
    if run.observation.unknown || (protocol.Registry? &&
      (run.observation.manager.None? || run.observation.host.None?)) {
      more := more + {ControlUnknown};
    }
    if protocol.V1? && run.restore.Automatic? {
      if !run.restore.supported {
        more := more + {RestoreUnavailable};
      }
      if !run.restore.sealed {
        more := more + {SessionUnsealed};
      }
    }
  }

  method FromResource(c: Content, r: Resource) returns (more: set<Blocker>)
    ensures forall b :: b in more <==> ResourceBlocks(c, r, b)
  {
    more := {};
    if !r.complete && (c.protocol.V1? || c.operation.Setup?) {
      more := more + {CoverageUnknown};
    }
    if c.operation.Setup? && Elements(r.references) - c.selected != {} {
      more := more + {UnselectedReference};
    }
  }

  // The loops of _plan and normalize over runs and resources, adding to one set of blockers.
  method CollectBlockers(c: Content) returns (blockers: set<Blocker>)
    ensures blockers == Blockers(c)
  {
    hide Collected, RunBlocks, ResourceBlocks;
    blockers := if c.protocol.Registry? && !c.protocol.supported then {StopUnavailable} else {};
    var runs, resources := c.runs.Keys, c.resources.Keys;
    NothingCollected(c, blockers);
    while runs != {}
      invariant runs <= c.runs.Keys && Collected(c, runs, resources, blockers)
      decreases |runs|
    {
      var id :| id in runs;
      var more := FromRun(c.protocol, c.runs[id]);
      CollectRun(c, runs, resources, blockers, id, more);
      blockers := blockers + more;
      runs := runs - {id};
    }
    while resources != {}
      invariant resources <= c.resources.Keys && Collected(c, {}, resources, blockers)
      decreases |resources|
    {
      var rid :| rid in resources;
      var more := FromResource(c, c.resources[rid]);
      CollectResource(c, {}, resources, blockers, rid, more);
      blockers := blockers + more;
      resources := resources - {rid};
    }
    CollectedAll(c, blockers);
  }
}
