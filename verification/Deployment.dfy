/** The three-way deployer of deployment.py on values: what one call computes, and every durable
    state it passes through. The class in Deployer.dfy performs these steps in place. */
module Deployment {
  import opened Wrappers
  import opened NativeDocument
  import opened Restoration

  // A file is its content and its mode. Dict is text that decodes to an object; Scalar("") is an
  // empty file; Scalar("null") decodes to nothing; any other scalar does not decode to an object.
  datatype File = File(content: Doc, mode: string)
  type Files = map<string, File>

  datatype Codec = Json | Yaml
  datatype Ownership = WholeFile | Fields | Initialize

  // The empty selector manages the whole file.
  datatype Key = Key(path: string, selector: Selector)

  datatype Wanted = Wanted(codec: Codec, ownership: Ownership, desired: Doc)
  datatype Item = Item(codec: Codec, ownership: Ownership, baseline: Projection, created: seq<Selector>)
  type Items = map<Key, Item>

  datatype Launch = Launch(identity: string, shared: set<string>)
  datatype Manifest = Manifest(generation: string, binding: string, launch: Launch, items: Items)
  datatype Owner = Owner(binding: string, shared: set<string>)

  datatype Change = Change(key: Key, codec: Codec, before: Projection, after: Projection,
                           createdFile: bool, parents: seq<Selector>)

  datatype Backup = Backup(current: Option<Manifest>, changes: seq<Change>)
  datatype Saved = Saved(current: Option<Manifest>, previous: Option<Backup>, owner: Option<Owner>)
  datatype Journal = Journal(after: Saved, changes: seq<Change>, prepares: bool)

  // Everything that survives the process: the instance files, deployment.json, pending.json, and the
  // launches whose resources were prepared, in order.
  datatype Disk = Disk(files: Files, saved: Saved, pending: Option<Journal>, prepared: seq<Launch>)

  // ---- Reading ----

  function Parse(content: Doc, codec: Codec): Result<Doc> {
    match content
    case Dict(_) => Ok(content)
    case Scalar(text) =>
      if text == "null" || (text == "" && codec == Yaml) then Ok(EMPTY) else Conflict
  }

  function Document(files: Files, path: string, codec: Codec): Result<Doc> {
    if path in files then Parse(files[path].content, codec) else Ok(EMPTY)
  }

  function Whole(f: File): Doc {
    Dict(map["bytes" := f.content, "mode" := Scalar(f.mode)])
  }

  predicate IsWhole(value: Doc) {
    value.Dict? && value.entries.Keys == {"bytes", "mode"} && value.entries["mode"].Scalar?
  }

  function Project(files: Files, key: Key, codec: Codec): Result<Projection> {
    if key.path !in files then Ok(None)
    else if key.selector == [] then Ok(Some(Whole(files[key.path])))
    else
      var document :- Parse(files[key.path].content, codec);
      Field(document, key.selector)
  }

  // ---- Writing ----

  function ReverseChange(c: Change): Change {
    c.(before := c.after, after := c.before)
  }

  function ReverseChanges(cs: seq<Change>): (r: seq<Change>)
    ensures |r| == |cs| && forall i | 0 <= i < |cs| :: r[i] == ReverseChange(cs[i])
  {
    seq(|cs|, i requires 0 <= i < |cs| => ReverseChange(cs[i]))
  }

  function ToField(c: Change): FieldChange {
    FieldChange(c.key.selector, c.before, c.after, c.parents)
  }

  // The paths of a change list, in order of first appearance.
  function Paths(cs: seq<Change>): seq<string> {
    if cs == [] then []
    else
      var rest := Paths(cs[..|cs| - 1]);
      var path := cs[|cs| - 1].key.path;
      if path in rest then rest else rest + [path]
  }

  function Group(cs: seq<Change>, path: string): seq<Change> {
    if cs == [] then []
    else
      var rest := Group(cs[..|cs| - 1], path);
      if cs[|cs| - 1].key.path == path then rest + [cs[|cs| - 1]] else rest
  }

  // The accumulators of the loop over one group.
  datatype Draft = Draft(document: Doc, changed: bool, content: Option<Doc>, mode: string)

  function DraftStep(files: Files, draft: Draft, c: Change): Result<Draft> {
    var current :- if c.key.selector != [] then Field(draft.document, c.key.selector)
      else Project(files, c.key, c.codec);
    if current == c.after then Ok(draft)
    else if current != c.before then Conflict
    else if c.key.selector != [] then
      var document :- Write(draft.document, ToField(c));
      Ok(draft.(document := document, changed := true))
    else if c.after.None? then Ok(draft.(changed := true))
    else if !IsWhole(c.after.value) then Conflict
    else Ok(draft.(changed := true, content := Some(c.after.value.entries["bytes"]),
      mode := c.after.value.entries["mode"].text))
  }

  function DraftAll(files: Files, draft: Draft, group: seq<Change>): Result<Draft>
    decreases |group|
  {
    if group == [] then Ok(draft)
    else
      var next :- DraftStep(files, draft, group[0]);
      DraftAll(files, next, group[1..])
  }

  function AnyCreated(group: seq<Change>): bool {
    exists i | 0 <= i < |group| :: group[i].createdFile
  }

  function Finish(draft: Draft, group: seq<Change>): Option<File>
    requires group != []
  {
    if group[|group| - 1].key.selector != [] then
      if draft.document == EMPTY && AnyCreated(group) then None else Some(File(draft.document, "0600"))
    else if draft.content.Some? then Some(File(draft.content.value, draft.mode))
    else None
  }

  function SetFile(files: Files, path: string, f: Option<File>): Files {
    if f.Some? then files[path := f.value] else files - {path}
  }

  // One group is read, rewritten in memory and replaced as one file, or left alone.
  function WriteGroup(files: Files, path: string, group: seq<Change>): Result<Option<Files>>
    requires group != []
  {
    var document :- if group[0].key.selector != [] then Document(files, path, group[0].codec) else Ok(EMPTY);
    var draft :- DraftAll(files, Draft(document, false, None, "0600"), group);
    Ok(if draft.changed then Some(SetFile(files, path, Finish(draft, group))) else None)
  }

  // ---- Durable runs: every state on disk between the start of a call and its end ----

  datatype Outcome = Done | Refused

  // disks lists the durable states in order, the starting one first; a crash leaves any one of them.
  datatype Run = Run(disks: seq<Disk>, outcome: Outcome)
  {
    function End(): Disk
      requires disks != []
    {
      disks[|disks| - 1]
    }
  }

  function Then(before: seq<Disk>, run: Run): Run {
    Run(before + run.disks, run.outcome)
  }

  lemma GroupNonempty(cs: seq<Change>, path: string)
    ensures path in Paths(cs) <==> Group(cs, path) != []
    ensures forall c :: c in Group(cs, path) <==> c in cs && c.key.path == path
  {
  }

  function WriteRun(disk: Disk, cs: seq<Change>, paths: seq<string>): (r: Run)
    requires forall p | p in paths :: p in Paths(cs)
    ensures r.disks != [] && r.disks[0] == disk
    decreases |paths|
  {
    if paths == [] then Run([disk], Done)
    else
      GroupNonempty(cs, paths[0]);
      match WriteGroup(disk.files, paths[0], Group(cs, paths[0]))
      case Conflict => Run([disk], Refused)
      case Ok(None) => WriteRun(disk, cs, paths[1..])
      case Ok(Some(files)) => Then([disk], WriteRun(disk.(files := files), cs, paths[1..]))
  }

  // prepare is the caller's hook; it may be missing, and it may refuse a launch.
  type Prepare = Option<Launch -> bool>

  function RecoverRun(disk: Disk, prepare: Prepare): (r: Run)
    ensures r.disks != [] && r.disks[0] == disk
  {
    if disk.pending.None? then Run([disk], Done)
    else
      var journal := disk.pending.value;
      if journal.prepares && prepare.None? then Run([disk], Refused)
      else
        var back := ReverseChanges(journal.changes);
        var written := if disk.saved == journal.after then Run([disk], Done) else WriteRun(disk, back, Paths(back));
        if written.outcome.Refused? then written
        else
          var end := written.End();
          if journal.prepares && end.saved.current.Some? then
            var launch := end.saved.current.value.launch;
            if !prepare.value(launch) then Run(written.disks, Refused)
            else
              var ready := end.(prepared := end.prepared + [launch]);
              Run(written.disks + [ready, ready.(pending := None)], Done)
          else Run(written.disks + [end.(pending := None)], Done)
  }

  // What a failed transaction does before the failure reaches its caller.
  function Abandon(run: Run, prepare: Prepare): (r: Run)
    requires run.disks != []
    ensures r.disks != [] && r.disks[0] == run.disks[0]
  {
    Run(run.disks + RecoverRun(run.End(), prepare).disks[1..], Refused)
  }

  function TransactRun(disk: Disk, after: Saved, changes: seq<Change>, prepare: Prepare): (r: Run)
    ensures r.disks != [] && r.disks[0] == disk
  {
    var journaled := disk.(pending := Some(Journal(after, changes, prepare.Some?)));
    if prepare.Some? && after.current.Some? && !prepare.value(after.current.value.launch) then
      Abandon(Run([disk, journaled], Refused), prepare)
    else
      var ready := if prepare.Some? && after.current.Some?
                   then journaled.(prepared := journaled.prepared + [after.current.value.launch]) else journaled;
      var opening := if prepare.Some? && after.current.Some? then [disk, journaled, ready] else [disk, journaled];
      var written := WriteRun(ready, changes, Paths(changes));
      var body := opening + written.disks[1..];
      if written.outcome.Refused? then Abandon(Run(body, Refused), prepare)
      else
        var committed := written.End().(saved := after);
        Then(body, RecoverRun(committed, prepare))
  }
}
