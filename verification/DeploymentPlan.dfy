/** The three-way plan of deployment.py: for every key the value on disk, the recorded baseline and
    the desired value decide between nothing, a change, drift and a conflict. */
module DeploymentPlan {
  import opened Wrappers
  import opened NativeDocument
  import opened Deployment
  import opened DeploymentWrites

  datatype Candidate = Candidate(generation: string, wanted: map<Key, Wanted>)
  datatype Plan = Plan(manifest: Manifest, changes: seq<Change>, drift: seq<Key>, conflicts: seq<Key>)

  // What one key contributes to the plan.
  datatype Verdict = Verdict(keep: Option<Item>, change: Option<Change>, drift: bool, conflict: bool)

  const CLASH := Verdict(None, None, false, true)

  function Keep(item: Item): Verdict {
    Verdict(Some(item), None, false, false)
  }

  function Dedup(ps: seq<Selector>): seq<Selector> {
    if ps == [] then []
    else
      var front := Dedup(ps[..|ps| - 1]);
      var last := ps[|ps| - 1];
      if last in front then front else front + [last]
  }

  function OldItems(saved: Saved): Items {
    if saved.current.Some? then saved.current.value.items else map[]
  }

  // A file this manager already writes to by field, or one declared as shared.
  predicate KnownFile(saved: Saved, key: Key) {
    key.selector != [] &&
    ((exists k :: k in OldItems(saved).Keys && k.path == key.path && k.selector != []) ||
     (saved.owner.Some? && key.path in saved.owner.value.shared))
  }

  function MissingNow(files: Files, key: Key, codec: Codec): Result<seq<Selector>> {
    if key.selector == [] then Ok([])
    else
      var document :- Document(files, key.path, codec);
      MissingParents(document, key.selector)
  }

  function Blank(f: File): bool {
    f.content == Scalar("")
  }

  function PlanKey(files: Files, saved: Saved, wanted: map<Key, Wanted>, key: Key): Result<Verdict>
    requires key in OldItems(saved) || key in wanted
  {
    var recorded := OldItems(saved);
    var prior := if key in recorded then Some(recorded[key]) else None;
    var codec := if key in wanted then wanted[key].codec else recorded[key].codec;
    var ownership := if key in wanted then wanted[key].ownership else recorded[key].ownership;
    var created :- if prior.Some? then Ok(prior.value.created) else MissingNow(files, key, codec);
    var current :- Project(files, key, if prior.Some? then prior.value.codec else codec);
    var baseline := if prior.Some? then prior.value.baseline else None;
    var desired := if key in wanted then Some(wanted[key].desired) else None;
    if prior.Some? && (prior.value.codec != codec || prior.value.ownership != ownership) then Ok(CLASH)
    else if prior.None? && key.path in files && KnownFile(saved, key) && current.Some? && ownership == Initialize then
      Ok(Keep(Item(codec, ownership, None, created)))
    else if prior.None? && key.path in files && !Blank(files[key.path]) &&
      (!KnownFile(saved, key) || current.Some?) then
      Ok(CLASH)
    else if ownership == Initialize && prior.Some? then Ok(Keep(prior.value))
    else
      var kept := Item(codec, ownership, desired, created);
      if current == desired then Ok(Verdict(if key in wanted then Some(kept) else None, None, false, false))
      else if current == baseline then
        var missing :- MissingNow(files, key, codec);
        Ok(Verdict(Some(kept), Some(Change(key, codec, current, desired, key.path !in files, Dedup(created + missing))),
          false, false))
      else if desired == baseline then Ok(Verdict(Some(kept), None, true, false))
      else Ok(CLASH)
  }

  // The accumulators of the loop over the keys.
  datatype Tally = Tally(items: Items, changes: seq<Change>, drift: seq<Key>, conflicts: seq<Key>)

  const NOTHING := Tally(map[], [], [], [])

  function Add(tally: Tally, key: Key, v: Verdict): Tally {
    Tally(if v.keep.Some? then tally.items[key := v.keep.value] else tally.items,
          if v.change.Some? then tally.changes + [v.change.value] else tally.changes,
          if v.drift then tally.drift + [key] else tally.drift,
          if v.conflict then tally.conflicts + [key] else tally.conflicts)
  }

  predicate Known(saved: Saved, wanted: map<Key, Wanted>, order: seq<Key>) {
    forall i | 0 <= i < |order| :: order[i] in OldItems(saved) || order[i] in wanted
  }

  function TallyOver(files: Files, saved: Saved, wanted: map<Key, Wanted>, order: seq<Key>): Result<Tally>
    requires Known(saved, wanted, order)
  {
    if order == [] then Ok(NOTHING)
    else
      var front :- TallyOver(files, saved, wanted, order[..|order| - 1]);
      var key := order[|order| - 1];
      var verdict :- PlanKey(files, saved, wanted, key);
      Ok(Add(front, key, verdict))
  }

  // desired_items refuses a candidate whose own selectors overlap.
  predicate Disjoint(keys: set<Key>) {
    forall a, b | a in keys && b in keys && a != b :: !Overlap(a, b)
  }

  predicate Belongs(saved: Saved, binding: string) {
    (saved.owner.Some? ==> saved.owner.value.binding == binding) &&
    (saved.current.Some? ==> saved.current.value.binding == binding)
  }

  function PlanAll(files: Files, saved: Saved, candidate: Candidate, binding: string, launch: Launch,
      order: seq<Key>): Result<Plan>
    requires Known(saved, candidate.wanted, order)
  {
    if !Belongs(saved, binding) || !Disjoint(candidate.wanted.Keys) then Conflict
    else
      var tally :- TallyOver(files, saved, candidate.wanted, order);
      Ok(Plan(Manifest(candidate.generation, binding, launch, tally.items), tally.changes, tally.drift,
        tally.conflicts))
  }

  // order is the union of recorded and wanted keys; how it is sorted matters only where changes overlap.
  ghost predicate Lists(order: seq<Key>, saved: Saved, wanted: map<Key, Wanted>) {
    (forall k :: k in order <==> k in OldItems(saved) || k in wanted) &&
    (forall i, j | 0 <= i < j < |order| :: order[i] != order[j])
  }

  // ---- The state a committed apply records ----

  function NextOwner(saved: Saved, plan: Plan): Owner {
    var owner := if saved.owner.Some? then saved.owner.value
      else Owner(plan.manifest.binding, plan.manifest.launch.shared);
    owner.(shared := owner.shared + set k | k in plan.manifest.items.Keys && k.selector != [] :: k.path)
  }

  // The single backup is rotated when something changed on disk or the launch is another one.
  function NextSaved(saved: Saved, plan: Plan): Saved {
    var moved := plan.changes != [] || saved.current.None? || saved.current.value.launch != plan.manifest.launch;
    Saved(Some(plan.manifest), if moved then Some(Backup(saved.current, plan.changes))
      else saved.previous, Some(NextOwner(saved, plan)))
  }

  predicate Unchanged(saved: Saved, plan: Plan) {
    saved.current == Some(plan.manifest) && plan.changes == [] && saved.owner == Some(NextOwner(saved, plan))
  }

  // apply after its own recovery: plan, refuse conflicts, then one transaction or nothing at all.
  function CommitRun(disk: Disk, plan: Plan, prepare: Prepare): (r: Run)
    ensures r.disks != [] && r.disks[0] == disk
  {
    if plan.conflicts != [] then Run([disk], Refused)
    else if Unchanged(disk.saved, plan) then
      if prepare.Some? then TransactRun(disk, disk.saved, [], prepare) else Run([disk], Done)
    else TransactRun(disk, NextSaved(disk.saved, plan), plan.changes, prepare)
  }

  // rollback after its own recovery: every backed-up change must still be at one of its two values.
  function RollbackSaved(saved: Saved): Saved
    requires saved.previous.Some?
  {
    Saved(saved.previous.value.current, None, saved.owner)
  }

  function RollbackRun(disk: Disk, binding: string, prepare: Prepare): (r: Run)
    ensures r.disks != [] && r.disks[0] == disk
  {
    if disk.saved.current.None? || disk.saved.current.value.binding != binding ||
      disk.saved.previous.None? then Run([disk], Refused)
    else
      var back := ReverseChanges(disk.saved.previous.value.changes);
      if exists i | 0 <= i < |back| ::
        Project(disk.files, back[i].key, back[i].codec) != Ok(back[i].before) &&
          Project(disk.files, back[i].key, back[i].codec) != Ok(back[i].after)
      then Run([disk], Refused)
      else TransactRun(disk, RollbackSaved(disk.saved), back, prepare)
  }

  // The two calls as their users see them: both finish any pending transaction first.
  function ApplyRun(disk: Disk, candidate: Candidate, binding: string, launch: Launch, order: seq<Key>,
      prepare: Prepare): (r: Run)
    requires Known(disk.saved, candidate.wanted, order)
    ensures r.disks != []
  {
    var first := RecoverRun(disk, prepare);
    if first.outcome.Refused? then first
    else
      RecoveryKeepsSaved(disk, prepare);
      match PlanAll(first.End().files, disk.saved, candidate, binding, launch, order)
      case Conflict => Run(first.disks, Refused)
      case Ok(plan) => Run(first.disks + CommitRun(first.End(), plan, prepare).disks[1..],
        CommitRun(first.End(), plan, prepare).outcome)
  }

  function UndoRun(disk: Disk, binding: string, prepare: Prepare): (r: Run)
    ensures r.disks != []
  {
    var first := RecoverRun(disk, prepare);
    if first.outcome.Refused? then first
    else Run(first.disks + RollbackRun(first.End(), binding, prepare).disks[1..],
      RollbackRun(first.End(), binding, prepare).outcome)
  }

  lemma {:induction false} WriteKeepsState(disk: Disk, cs: seq<Change>, paths: seq<string>)
    requires forall p | p in paths :: p in Paths(cs)
    ensures forall n | 0 <= n < |WriteRun(disk, cs, paths).disks| ::
      OnlyFilesDiffer(WriteRun(disk, cs, paths).disks[n], disk)
    decreases |paths|
  {
    if paths != [] {
      GroupNonempty(cs, paths[0]);
      match WriteGroup(disk.files, paths[0], Group(cs, paths[0]))
      case Conflict =>
      case Ok(None) => WriteKeepsState(disk, cs, paths[1..]);
      case Ok(Some(files)) => WriteKeepsState(disk.(files := files), cs, paths[1..]);
    }
  }

  lemma RecoveryKeepsSaved(disk: Disk, prepare: Prepare)
    ensures RecoverRun(disk, prepare).End().saved == disk.saved
  {
    if disk.pending.Some? && disk.saved != disk.pending.value.after {
      var back := ReverseChanges(disk.pending.value.changes);
      WriteKeepsState(disk, back, Paths(back));
    }
  }
}
