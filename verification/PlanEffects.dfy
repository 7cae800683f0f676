/** What a write pass does to each place, read off the changes alone: which changes end at their after
    values, which places move, and which become unreadable. */
module PlanEffects {
  import opened Wrappers
  import opened NativeDocument
  import opened DocumentLaws
  import R = Restoration
  import opened Deployment
  import opened DeploymentWrites
  import opened PlanLaws
  import opened PlanLayers
  import opened ForwardWrites

  // ---- One document ----

  ghost predicate OwnParentsEach(cs: seq<R.FieldChange>) {
    forall i | 0 <= i < |cs| :: R.OwnParents(cs[i])
  }

  lemma FieldReadIn(d: Doc, above: Selector, s: Selector, codec: Codec)
    requires above != [] && above <= s && Field(d, above).Ok?
    ensures Field(d, s) == ReadIn(Field(d, above).value, above, s, codec)
  {
    assert s == above + s[|above|..];
    FieldCompose(d, above, s[|above|..]);
  }

  lemma StepReads(d: Doc, c: R.FieldChange, s: Selector, codec: Codec)
    requires R.OwnParents(c) && R.Step(d, c).Ok? && c.selector <= s
    ensures Field(R.Step(d, c).value, s) == ReadIn(c.after, c.selector, s, codec)
  {
    var next := R.Step(d, c).value;
    if Field(d, c.selector) != Ok(c.after) {
      PutThenField(d, c.selector, c.after);
      PruneCreatedFrame(Put(d, c.selector, c.after).value, c.parents, c.selector);
    }
    FieldReadIn(next, c.selector, s, codec);
  }

  lemma {:induction false} RewriteKeeps(d: Doc, cs: seq<R.FieldChange>, s: Selector)
    requires OwnParentsEach(cs) && R.Rewrite(d, cs).Ok? && R.Apart(s, cs)
    ensures Field(R.Rewrite(d, cs).value, s) == Field(d, s)
    decreases |cs|
  {
    if cs != [] {
      R.StepFrame(d, cs[0], s);
      RewriteKeeps(R.Step(d, cs[0]).value, cs[1..], s);
    }
  }

  // The last change related to a place decides it, if it lies at or above the place.
  lemma {:induction false} LastRewriteDecides(d: Doc, cs: seq<R.FieldChange>, m: nat, s: Selector, codec: Codec)
    requires OwnParentsEach(cs) && R.Rewrite(d, cs).Ok? && m < |cs| && cs[m].selector <= s && R.Apart(s, cs[m + 1..])
    ensures Field(R.Rewrite(d, cs).value, s) == ReadIn(cs[m].after, cs[m].selector, s, codec)
    decreases m
  {
    var next := R.Step(d, cs[0]).value;
    if m == 0 {
      StepReads(d, cs[0], s, codec);
      RewriteKeeps(next, cs[1..], s);
    } else {
      assert cs[1..][m - 1] == cs[m] && cs[1..][m..] == cs[m + 1..];
      LastRewriteDecides(next, cs[1..], m - 1, s, codec);
    }
  }

  // The change lies below the place, or reads differently there before and after.
  ghost predicate Shifts(c: R.FieldChange, s: Selector, codec: Codec) {
    s < c.selector || (c.selector <= s && ReadIn(c.before, c.selector, s, codec) !=
      ReadIn(c.after, c.selector, s, codec))
  }

  lemma {:induction false} RewriteMoves(d: Doc, cs: seq<R.FieldChange>, s: Selector, codec: Codec) returns (i: nat)
    requires OwnParentsEach(cs) && R.Rewrite(d, cs).Ok? && Field(R.Rewrite(d, cs).value, s) != Field(d, s)
    ensures i < |cs| && Shifts(cs[i], s, codec)
    decreases |cs|
  {
    var c, next := cs[0], R.Step(d, cs[0]).value;
    if Field(next, s) == Field(d, s) {
      i := RewriteMoves(next, cs[1..], s, codec);
      i := i + 1;
    } else {
      i := 0;
      if !Related(c.selector, s) {
        R.StepFrame(d, c, s);
      } else if c.selector <= s {
        StepReads(d, c, s, codec);
        FieldReadIn(d, c.selector, s, codec);
      }
    }
  }

  // A place becomes unreadable only below a value that holds no object there.
  lemma {:induction false} RewriteHides(d: Doc, cs: seq<R.FieldChange>, s: Selector, codec: Codec) returns (i: nat)
    requires d.Dict? && OwnParentsEach(cs) && R.Rewrite(d, cs).Ok?
    requires Field(d, s).Ok? && Field(R.Rewrite(d, cs).value, s).Conflict?
    ensures i < |cs| && cs[i].selector < s && ReadIn(cs[i].after, cs[i].selector, s, codec).Conflict?
    decreases |cs|
  {
    var c, next := cs[0], R.Step(d, cs[0]).value;
    R.RewriteKeepsObject(d, [c]) by {
      assert [c][1..] == [];
    }
    if Field(next, s).Ok? {
      i := RewriteHides(next, cs[1..], s, codec);
      i := i + 1;
    } else {
      i := 0;
      StepReads(d, c, c.selector, codec);
      if !Related(c.selector, s) {
        R.StepFrame(d, c, s);
      } else if c.selector <= s {
        StepReads(d, c, s, codec);
      } else {
        R.AncestorOfReadable(next, c.selector, s);
      }
    }
  }

  // ---- One file ----

  // From any files: the document of a written group of fields is the rewrite of the one it found.
  lemma WrittenIsRewritten(files: Files, path: string, g: seq<Change>)
    requires OneFileLayered(g, path) && FieldGroup(g) && WriteGroup(files, path, g).Ok?
    ensures Document(files, path, g[0].codec).Ok? && OwnParentsEach(ToFields(g))
    ensures var document := Document(files, path, g[0].codec).value;
            document.Dict? && R.Rewrite(document, ToFields(g)).Ok? &&
            Document(FilesAfter(files, path, g), path, g[0].codec) == R.Rewrite(document, ToFields(g))
  {
    var document := Document(files, path, g[0].codec).value;
    forall i | 0 <= i < |g| ensures R.OwnParents(ToFields(g)[i]) {
      assert ValidChange(g[i]);
    }
    DraftIsRewrite(files, StartOf(files, path, g), g);
    R.RewriteKeepsObject(document, ToFields(g));
  }

  lemma LastInGroupDecides(files: Files, path: string, g: seq<Change>, m: nat, key: Key)
    requires OneFileLayered(g, path) && key.path == path && WriteGroup(files, path, g).Ok?
    requires m < |g| && g[m].key.selector <= key.selector && forall n | m < n < |g| :: !Overlap(g[n].key, key)
    ensures Project(FilesAfter(files, path, g), key, g[m].codec) ==
      ReadIn(g[m].after, g[m].key.selector, key.selector, g[m].codec)
  {
    GroupShape(g, path);
    var next := FilesAfter(files, path, g);
    if WholeLast(g) {
      WholeLastWrites(files, path, g);
      ReadThrough(next, g[m].key, key, g[m].codec);
    } else {
      WrittenIsRewritten(files, path, g);
      var fields := ToFields(g);
      var later := fields[m + 1..];
      forall i | 0 <= i < |later| ensures !Related(later[i].selector, key.selector) {
        assert later[i] == ToField(g[m + 1 + i]) && !Overlap(g[m + 1 + i].key, key);
      }
      LastRewriteDecides(Document(files, path, g[0].codec).value, fields, m, key.selector, g[0].codec);
      ProjectIsField(next, key, g[0].codec);
    }
  }

  // The change can move the place: it lies below it, or reads differently there before and after.
  ghost predicate Disturbs(c: Change, key: Key) {
    c.key.path == key.path && Shifts(ToField(c), key.selector, c.codec)
  }

  // Some change that is not in vain disturbs the place.
  ghost predicate Disturbed(cs: seq<Change>, key: Key) {
    exists i :: 0 <= i < |cs| && !Vain(cs, i) && Disturbs(cs[i], key)
  }

  // From any files: a group moves a place only if one of its changes disturbs it.
  lemma GroupMoves(files: Files, path: string, g: seq<Change>, key: Key)
    requires OneFileLayered(g, path) && key.path == path && WriteGroup(files, path, g).Ok?
    requires Project(FilesAfter(files, path, g), key, g[0].codec) != Project(files, key, g[0].codec)
    ensures Disturbed(g, key)
  {
    GroupShape(g, path);
    var i := |g| - 1;
    if WholeLast(g) {
      var next := FilesAfter(files, path, g);
      WholeLastWrites(files, path, g);
      if At(files, g[i], g[i].after) {
        SameFileReads(files, next, key, g[0].codec);
      }
      ReadThrough(files, g[i].key, key, g[0].codec);
      ReadThrough(next, g[i].key, key, g[0].codec);
    } else if key.selector != [] {
      WrittenIsRewritten(files, path, g);
      ProjectIsField(files, key, g[0].codec);
      ProjectIsField(FilesAfter(files, path, g), key, g[0].codec);
      i := RewriteMoves(Document(files, path, g[0].codec).value, ToFields(g), key.selector, g[0].codec);
    }
    assert !Vain(g, i) && Disturbs(g[i], key);
  }

  // The change leaves a value above the place that cannot be read there.
  ghost predicate Hides(c: Change, key: Key) {
    c.key.path == key.path && c.key.selector < key.selector &&
    ReadIn(c.after, c.key.selector, key.selector, c.codec).Conflict?
  }

  lemma GroupHides(files: Files, path: string, g: seq<Change>, key: Key)
    requires OneFileLayered(g, path) && key.path == path && WriteGroup(files, path, g).Ok?
    requires Project(files, key, g[0].codec).Ok? && Project(FilesAfter(files, path, g), key, g[0].codec).Conflict?
    ensures exists i :: 0 <= i < |g| && !Vain(g, i) && Hides(g[i], key)
  {
    GroupShape(g, path);
    var i := |g| - 1;
    var next := FilesAfter(files, path, g);
    if WholeLast(g) {
      WholeLastWrites(files, path, g);
      ReadThrough(next, g[i].key, key, g[0].codec);
    } else {
      WrittenIsRewritten(files, path, g);
      ProjectIsField(files, key, g[0].codec);
      ProjectIsField(next, key, g[0].codec);
      i := RewriteHides(Document(files, path, g[0].codec).value, ToFields(g), key.selector, g[0].codec);
    }
    assert !Vain(g, i) && Hides(g[i], key);
  }

  // ---- The whole pass ----

  lemma ChangeOfGroup(cs: seq<Change>, path: string, k: nat) returns (i: nat)
    requires k < |Group(cs, path)|
    ensures i < |cs| && cs[i] == Group(cs, path)[k] && cs[i].key.path == path
    ensures Vain(cs, i) <==> Vain(Group(cs, path), k)
  {
    GroupOfPath(cs, path);
    i :| 0 <= i < |cs| && cs[i] == Group(cs, path)[k];
    VainInGroup(cs, path, i, k);
  }

  lemma GroupCodec(cs: seq<Change>, path: string, codec: Codec)
    requires OneCodec(cs, path, codec)
    ensures forall k | 0 <= k < |Group(cs, path)| :: Group(cs, path)[k].codec == codec
  {
    GroupOfPath(cs, path);
  }

  // From any files, at any durable state: a place has moved only if a change disturbs it.
  lemma RunMoves(disk: Disk, cs: seq<Change>, key: Key, codec: Codec, n: nat)
    requires Layered(cs) && OneCodec(cs, key.path, codec) && n < |WriteRun(disk, cs, Paths(cs)).disks|
    requires Project(WriteRun(disk, cs, Paths(cs)).disks[n].files, key, codec) != Project(disk.files, key, codec)
    ensures Disturbed(cs, key)
  {
    hide WriteRun, WriteGroup, Layered, Group, Disturbs;
    MovedMeansWritten(disk, cs, key, codec, n);
    GroupIsLayered(cs, key.path);
    GroupOfPath(cs, key.path);
    GroupCodec(cs, key.path, codec);
    GroupMoves(disk.files, key.path, Group(cs, key.path), key);
    var k :| 0 <= k < |Group(cs, key.path)| && !Vain(Group(cs, key.path), k) && Disturbs(Group(cs, key.path)[k], key);
    var i := ChangeOfGroup(cs, key.path, k);
  }

  ghost predicate NoneHides(cs: seq<Change>, key: Key) {
    forall i | 0 <= i < |cs| && !Vain(cs, i) :: !Hides(cs[i], key)
  }

  // From any files: a place stays readable where no change hides it.
  lemma RunHides(disk: Disk, cs: seq<Change>, key: Key, codec: Codec, n: nat)
    requires Layered(cs) && OneCodec(cs, key.path, codec) && n < |WriteRun(disk, cs, Paths(cs)).disks|
    requires Project(disk.files, key, codec).Ok?
    requires Project(WriteRun(disk, cs, Paths(cs)).disks[n].files, key, codec).Conflict?
    ensures !NoneHides(cs, key)
  {
    hide WriteRun, WriteGroup, Layered, Group, Hides;
    MovedMeansWritten(disk, cs, key, codec, n);
    GroupIsLayered(cs, key.path);
    GroupOfPath(cs, key.path);
    GroupCodec(cs, key.path, codec);
    GroupHides(disk.files, key.path, Group(cs, key.path), key);
    var k :| 0 <= k < |Group(cs, key.path)| && !Vain(Group(cs, key.path), k) && Hides(Group(cs, key.path)[k], key);
    var i := ChangeOfGroup(cs, key.path, k);
  }

  ghost predicate ComesAfter(cs: seq<Change>, j: nat, c: Change) {
    exists k :: j < k < |cs| && cs[k] == c
  }

  lemma {:induction false} GroupPosition(cs: seq<Change>, path: string, j: nat) returns (m: nat)
    requires j < |cs| && cs[j].key.path == path
    ensures m < |Group(cs, path)| && Group(cs, path)[m] == cs[j]
    ensures forall n | m < n < |Group(cs, path)| :: ComesAfter(cs, j, Group(cs, path)[n])
    decreases |cs|
  {
    var front, last := cs[..|cs| - 1], cs[|cs| - 1];
    var rest := Group(front, path);
    if j == |cs| - 1 {
      m := |rest|;
    } else {
      m := GroupPosition(front, path, j);
      forall n | m < n < |Group(cs, path)| ensures ComesAfter(cs, j, Group(cs, path)[n]) {
        if n < |rest| {
          assert ComesAfter(front, j, rest[n]);
          var k :| j < k < |front| && front[k] == rest[n];
          assert cs[k] == Group(cs, path)[n];
        } else {
          assert cs[|cs| - 1] == Group(cs, path)[n];
        }
      }
    }
  }

  ghost predicate LastAt(cs: seq<Change>, l: nat, key: Key) {
    l < |cs| && Overlap(cs[l].key, key) && forall j | l < j < |cs| :: !Overlap(cs[j].key, key)
  }

  // The change stands: none after it overlaps it.
  ghost predicate Stands(cs: seq<Change>, i: nat)
    requires i < |cs|
  {
    LastAt(cs, i, cs[i].key)
  }

  lemma {:induction false} LastOverlap(cs: seq<Change>, i: nat, key: Key) returns (l: nat)
    requires i < |cs| && Overlap(cs[i].key, key)
    ensures i <= l && LastAt(cs, l, key)
    decreases |cs| - i
  {
    if j :| i < j < |cs| && Overlap(cs[j].key, key) {
      l := LastOverlap(cs, j, key);
    } else {
      l := i;
    }
  }

  // At the end of a pass the last overlapping change decides what is at and below it.
  lemma LastDecides(start: Disk, cs: seq<Change>, l: nat, key: Key)
    requires Layered(cs) && WriteRun(start, cs, Paths(cs)).outcome.Done?
    requires LastAt(cs, l, key) && cs[l].key.selector <= key.selector
    ensures Project(WriteRun(start, cs, Paths(cs)).End().files, key, cs[l].codec) ==
      ReadIn(cs[l].after, cs[l].key.selector, key.selector, cs[l].codec)
  {
    hide WriteRun, WriteGroup, Layered, Overlap, Project, ReadIn;
    var path, end := key.path, WriteRun(start, cs, Paths(cs)).End().files;
    assert cs[l].key.path == path by {
      OverlapsOnPath(cs[l].key, key);
    }
    var m := GroupPosition(cs, path, l);
    GroupNonempty(cs, path);
    GroupIsLayered(cs, path);
    GroupOfPath(cs, path);
    PathsDistinct(cs);
    EachFileNew(start, cs, Paths(cs), path);
    var g := Group(cs, path);
    forall n | m < n < |g| ensures !Overlap(g[n].key, key) {
      assert ComesAfter(cs, l, g[n]);
    }
    LastInGroupDecides(start.files, path, g, m, key);
    SameFileReads(FilesAfter(start.files, path, g), end, key, cs[l].codec);
  }

  lemma OverlapsOnPath(a: Key, b: Key)
    requires Overlap(a, b)
    ensures a.path == b.path
  {
  }

  // ---- Exactly what a plan does ----

  // A change of a plan ends at its after value if and only if no later change overlaps it: if the plan
  // neither drops its whole file nor sets something below it.
  lemma EndsAtAfter(start: Disk, cs: seq<Change>, i: nat)
    requires Staged(start.files, cs) && WriteRun(start, cs, Paths(cs)).outcome.Done? && i < |cs|
    ensures At(WriteRun(start, cs, Paths(cs)).End().files, cs[i], cs[i].after) <==> Stands(cs, i)
  {
    hide WriteRun, Project;
    StagedIsLayered(start.files, cs);
    var c, end := cs[i], WriteRun(start, cs, Paths(cs)).End().files;
    var l := LastOverlap(cs, i, c.key);
    var z := cs[l];
    if l == i {
      LastDecides(start, cs, i, c.key);
    } else if z.key.selector == [] {
      LastDecides(start, cs, l, c.key);
    } else {
      assert Shadows(c, z);
      assert LastAt(cs, l, z.key) by {
        ShadowStands(cs, i, l);
      }
      LastDecides(start, cs, l, z.key);
      if At(end, c, c.after) {
        AbsentAboveIsAbsent(end, c.key, z.key, c.codec);
      }
    }
  }

  lemma ShadowStands(cs: seq<Change>, i: nat, l: nat)
    requires Stacked(cs) && i < l < |cs| && Shadows(cs[i], cs[l]) && LastAt(cs, l, cs[i].key)
    ensures Stands(cs, l)
  {
    forall j | l < j < |cs| ensures !Overlap(cs[l].key, cs[j].key) {
      assert !Overlap(cs[j].key, cs[i].key);
    }
  }

  // A completed pass moves a place if and only if some change, not in vain, disturbs it: one set below
  // it, or one above it or there that takes away or replaces what the place holds.
  lemma MovesExactly(start: Disk, cs: seq<Change>, key: Key, codec: Codec)
    requires Staged(start.files, cs) && WriteRun(start, cs, Paths(cs)).outcome.Done? && OneCodec(cs, key.path, codec)
    ensures Project(WriteRun(start, cs, Paths(cs)).End().files, key, codec) != Project(start.files, key, codec) <==>
      Disturbed(cs, key)
  {
    hide WriteRun, Project;
    StagedIsLayered(start.files, cs);
    var run := WriteRun(start, cs, Paths(cs));
    if Disturbed(cs, key) {
      var i :| 0 <= i < |cs| && !Vain(cs, i) && Disturbs(cs[i], key);
      DisturbedMoves(start, cs, i, key);
    } else if Project(run.End().files, key, codec) != Project(start.files, key, codec) {
      RunMoves(start, cs, key, codec, |run.disks| - 1);
    }
  }

  // The last change at the place, or the one that stands below it, moves it.
  lemma DisturbedMoves(start: Disk, cs: seq<Change>, i: nat, key: Key)
    requires Staged(start.files, cs) && Layered(cs) && WriteRun(start, cs, Paths(cs)).outcome.Done?
    requires i < |cs| && !Vain(cs, i) && Disturbs(cs[i], key)
    ensures Project(WriteRun(start, cs, Paths(cs)).End().files, key, cs[i].codec) !=
      Project(start.files, key, cs[i].codec)
  {
    hide WriteRun, Project, ReadIn;
    var c := cs[i];
    var l := LastOverlap(cs, i, key);
    var z := cs[l];
    assert At(start.files, c, c.before) && At(start.files, z, z.before) && z.codec == c.codec;
    if z.key.selector <= key.selector {
      ReadThrough(start.files, z.key, key, c.codec);
      LastDecides(start, cs, l, key);
      if l != i {
        EarlierLeaves(start.files, cs, i, l, key);
      }
    } else {
      BelowStands(cs, l, key);
      EndsAtAfter(start, cs, l);
      SameAboveIsSameBelow(start.files, WriteRun(start, cs, Paths(cs)).End().files, key, z);
    }
  }

  lemma BelowStands(cs: seq<Change>, l: nat, key: Key)
    requires LastAt(cs, l, key) && key.selector <= cs[l].key.selector
    ensures Stands(cs, l)
  {
    forall j | l < j < |cs| ensures !Overlap(cs[j].key, cs[l].key) {
      if Overlap(cs[j].key, cs[l].key) {
        assert !Overlap(cs[j].key, key);
        PrefixesRelate(cs[j].key.selector, key.selector, cs[l].key.selector);
      }
    }
  }

  lemma PrefixesRelate(a: Selector, b: Selector, s: Selector)
    requires b <= s && Related(a, s)
    ensures Related(a, b)
  {
    if a <= s {
      assert if |a| <= |b| then a == b[..|a|] else b == a[..|b|];
    }
  }

  // A change before the last one at a place is in vain or leaves the place as it was.
  lemma EarlierLeaves(files: Files, cs: seq<Change>, i: nat, l: nat, key: Key)
    requires Staged(files, cs) && i < l < |cs| && cs[i].key.path == key.path
    requires Overlap(cs[l].key, key) && cs[l].key.selector <= key.selector
    requires Project(files, key, cs[i].codec) == ReadIn(cs[l].before, cs[l].key.selector, key.selector, cs[i].codec)
    ensures Vain(cs, i) || !Disturbs(cs[i], key)
  {
    var c, z := cs[i], cs[l];
    if z.key.selector == [] {
      assert z.key == Key(key.path, []) && Overlap(c.key, z.key);
    } else if Overlap(c.key, z.key) {
      assert Shadows(c, z);
      if c.key.selector <= key.selector {
        ReadThrough(files, c.key, key, c.codec);
      }
    } else if c.key.selector <= key.selector {
      PrefixesRelate(c.key.selector, z.key.selector, key.selector);
    }
  }

  lemma SameAboveIsSameBelow(files: Files, now: Files, key: Key, z: Change)
    requires z.key.path == key.path && key.selector <= z.key.selector && z.before != z.after
    requires At(files, z, z.before) && At(now, z, z.after)
    ensures Project(now, key, z.codec) != Project(files, key, z.codec)
  {
    if Project(now, key, z.codec) == Project(files, key, z.codec) {
      ReadableAbove(files, key, z.key, z.codec);
      ReadThrough(files, key, z.key, z.codec);
      ReadThrough(now, key, z.key, z.codec);
    }
  }

  lemma ReadableAbove(files: Files, above: Key, key: Key, codec: Codec)
    requires above.path == key.path && above.selector <= key.selector && Project(files, key, codec).Ok?
    ensures Project(files, above, codec).Ok?
  {
    if above.selector != [] && above.path in files {
      assert key.selector == above.selector + key.selector[|above.selector|..];
      FieldCompose(Document(files, key.path, codec).value, above.selector, key.selector[|above.selector|..]);
    }
  }

  // A place that could be read becomes unreadable if and only if a change, not in vain, hides it.
  lemma HidesExactly(start: Disk, cs: seq<Change>, key: Key, codec: Codec)
    requires Staged(start.files, cs) && WriteRun(start, cs, Paths(cs)).outcome.Done? && OneCodec(cs, key.path, codec)
    requires Project(start.files, key, codec).Ok?
    ensures Project(WriteRun(start, cs, Paths(cs)).End().files, key, codec).Ok? <==> NoneHides(cs, key)
  {
    hide WriteRun, Project, ReadIn;
    StagedIsLayered(start.files, cs);
    var run := WriteRun(start, cs, Paths(cs));
    if i :| 0 <= i < |cs| && !Vain(cs, i) && Hides(cs[i], key) {
      assert Stands(cs, i) by {
        HidingStands(cs, i, key);
      }
      EndsAtAfter(start, cs, i);
      ReadThrough(run.End().files, cs[i].key, key, codec);
    } else if Project(run.End().files, key, codec).Conflict? {
      RunHides(start, cs, key, codec, |run.disks| - 1);
    }
  }

  lemma HidingStands(cs: seq<Change>, i: nat, key: Key)
    requires Stacked(cs) && i < |cs| && !Vain(cs, i) && Hides(cs[i], key)
    ensures Stands(cs, i)
  {
    forall j | i < j < |cs| ensures !Overlap(cs[i].key, cs[j].key) {
    }
  }
}
