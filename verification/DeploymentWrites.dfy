/** What write_changes does to the instance: it always completes from any mixture of done and not
    done, settles exactly its own fields, and every durable state in between is such a mixture. */
module DeploymentWrites {
  import opened Wrappers
  import opened NativeDocument
  import opened DocumentLaws
  import R = Restoration
  import opened Deployment

  predicate Overlap(a: Key, b: Key) {
    a.path == b.path && Related(a.selector, b.selector)
  }

  // validate_item_guard on the recorded parents, and the shape desired_items gives whole files.
  ghost predicate ValidChange(c: Change) {
    if c.key.selector == [] then (c.before.Some? ==> IsWhole(c.before.value)) &&
      (c.after.Some? ==> IsWhole(c.after.value))
    else R.OwnParents(ToField(c))
  }

  // What a key reads in a file where the key at or above it holds v.
  function ReadIn(v: Projection, above: Selector, s: Selector, codec: Codec): Result<Projection>
    requires above <= s
  {
    if v.None? then Ok(None)
    else if s == above then Ok(v)
    else if above != [] then Field(v.value, s[|above|..])
    else if v.value.Scalar? || "bytes" !in v.value.entries then Conflict
    else
      var document :- Parse(v.value.entries["bytes"], codec);
      Field(document, s)
  }

  lemma ReadThrough(files: Files, above: Key, key: Key, codec: Codec)
    requires above.path == key.path && above.selector <= key.selector && Project(files, above, codec).Ok?
    ensures Project(files, key, codec) ==
      ReadIn(Project(files, above, codec).value, above.selector, key.selector, codec)
  {
    if above.selector != [] && key.path in files {
      var below := key.selector[|above.selector|..];
      assert key.selector == above.selector + below;
      FieldCompose(Document(files, key.path, codec).value, above.selector, below);
    }
  }

  // A field set while its whole file goes, or taken back while the file returns: in either state of the
  // file the field reads nothing.
  ghost predicate Drops(a: Change, b: Change) {
    && a.key.selector != [] && b.key.selector == []
    && (a.before.Some? <==> b.after.Some?) && (a.after.Some? <==> b.before.Some?)
    && (b.before.Some? <==> b.after.None?)
    && ReadIn(b.before, [], a.key.selector, a.codec) == Ok(None)
    && ReadIn(b.after, [], a.key.selector, a.codec) == Ok(None)
  }

  ghost predicate Clear(a: Change, b: Change) {
    && (a.key.path == b.key.path ==> a.codec == b.codec)
    && (Overlap(a.key, b.key) ==> Drops(a, b))
  }

  // No two field changes overlap, one file is decoded by one codec, and a whole file that comes with
  // changes of its fields comes last, appears or goes, and never holds those fields.
  ghost predicate Compatible(cs: seq<Change>) {
    (forall i | 0 <= i < |cs| :: ValidChange(cs[i])) &&
    (forall i, j | 0 <= i < j < |cs| :: Clear(cs[i], cs[j]))
  }

  // A field whose whole file is changed with it is set in vain.
  ghost predicate Vain(cs: seq<Change>, i: nat)
    requires i < |cs|
  {
    cs[i].key.selector != [] && exists j :: 0 <= j < |cs| && cs[j].key == Key(cs[i].key.path, [])
  }

  // The values the changes have when none, and when all, of them are done.
  ghost function Starts(cs: seq<Change>, i: nat): Projection
    requires i < |cs|
  {
    if Vain(cs, i) then None else cs[i].before
  }

  ghost function Ends(cs: seq<Change>, i: nat): Projection
    requires i < |cs|
  {
    if Vain(cs, i) then None else cs[i].after
  }

  // Changes may overlap in two ways: a field comes before one below it, or a whole file comes after a
  // field that it drops.
  ghost predicate Nests(a: Change, b: Change) {
    && (a.key.path == b.key.path ==> a.codec == b.codec)
    && (Overlap(a.key, b.key) ==> Drops(a, b) || (a.key.selector != [] && a.key.selector < b.key.selector))
  }

  ghost predicate Layered(cs: seq<Change>) {
    (forall i | 0 <= i < |cs| :: ValidChange(cs[i])) && (forall i, j | 0 <= i < j < |cs| :: Nests(cs[i], cs[j]))
  }

  lemma CompatibleIsLayered(cs: seq<Change>)
    requires Compatible(cs)
    ensures Layered(cs)
  {
    hide ValidChange;
    assert forall i, j | 0 <= i < j < |cs| :: Clear(cs[i], cs[j]);
  }

  lemma ReversalIsLayered(cs: seq<Change>)
    requires Layered(cs)
    ensures Layered(ReverseChanges(cs))
  {
    var back := ReverseChanges(cs);
    forall i | 0 <= i < |back| ensures ValidChange(back[i]) {
      assert ValidChange(cs[i]);
    }
    forall i, j | 0 <= i < j < |back| ensures Nests(back[i], back[j]) {
      assert Nests(cs[i], cs[j]);
    }
  }

  lemma {:induction false} GroupIsLayered(cs: seq<Change>, path: string)
    requires Layered(cs)
    ensures Layered(Group(cs, path))
  {
    hide Nests, ValidChange;
    if cs != [] {
      var front, last := cs[..|cs| - 1], cs[|cs| - 1];
      GroupIsLayered(front, path);
      GroupNonempty(front, path);
      var rest := Group(front, path);
      forall i | 0 <= i < |rest| ensures Nests(rest[i], last) {
        assert rest[i] in front;
        var a :| 0 <= a < |front| && front[a] == rest[i];
        assert Nests(cs[a], cs[|cs| - 1]);
      }
    }
  }

  ghost predicate OneFileLayered(g: seq<Change>, path: string) {
    g != [] && Layered(g) && forall i | 0 <= i < |g| :: g[i].key.path == path
  }

  ghost predicate At(files: Files, c: Change, v: Projection) {
    Project(files, c.key, c.codec) == Ok(v)
  }

  ghost predicate AtEither(files: Files, cs: seq<Change>) {
    forall i | 0 <= i < |cs| :: At(files, cs[i], cs[i].before) || At(files, cs[i], cs[i].after)
  }

  ghost predicate AllBefore(files: Files, cs: seq<Change>) {
    forall i | 0 <= i < |cs| :: At(files, cs[i], Starts(cs, i))
  }

  ghost predicate AllAfter(files: Files, cs: seq<Change>) {
    forall i | 0 <= i < |cs| :: At(files, cs[i], Ends(cs, i))
  }

  function ToFields(g: seq<Change>): (r: seq<R.FieldChange>)
    ensures |r| == |g| && forall i | 0 <= i < |g| :: r[i] == ToField(g[i])
  {
    seq(|g|, i requires 0 <= i < |g| => ToField(g[i]))
  }

  ghost predicate FieldGroup(g: seq<Change>) {
    forall i | 0 <= i < |g| :: g[i].key.selector != []
  }

  // A managed field is read from the decoded document, also when there is no file.
  lemma ProjectIsField(files: Files, key: Key, codec: Codec)
    requires key.selector != []
    ensures Project(files, key, codec) ==
            if Document(files, key.path, codec).Conflict? then Conflict
            else Field(Document(files, key.path, codec).value, key.selector)
  {
  }

  // The loop over the changes of one file is the document rewrite, and it notices every change.
  lemma {:induction false} DraftIsRewrite(files: Files, draft: Draft, g: seq<Change>)
    requires FieldGroup(g)
    ensures DraftAll(files, draft, g).Ok? <==> R.Rewrite(draft.document, ToFields(g)).Ok?
    ensures DraftAll(files, draft, g).Ok? ==>
              var end := DraftAll(files, draft, g).value;
              end.document == R.Rewrite(draft.document, ToFields(g)).value &&
              end.content == draft.content && end.mode == draft.mode && (!end.changed ==> end == draft)
    decreases |g|
  {
    var fields := ToFields(g);
    if g != [] {
      assert fields[1..] == ToFields(g[1..]);
      var step := DraftStep(files, draft, g[0]);
      assert step.Ok? <==> R.Step(draft.document, fields[0]).Ok?;
      if step.Ok? {
        DraftIsRewrite(files, step.value, g[1..]);
      }
    }
  }

  lemma {:induction false} GroupIsCompatible(cs: seq<Change>, path: string)
    requires Compatible(cs)
    ensures Compatible(Group(cs, path))
  {
    hide Overlap, ValidChange;
    if cs != [] {
      var front := cs[..|cs| - 1];
      var last := cs[|cs| - 1];
      GroupIsCompatible(front, path);
      GroupNonempty(front, path);
      var rest := Group(front, path);
      forall i | 0 <= i < |rest| ensures Clear(rest[i], last) {
        assert rest[i] in front;
        var a :| 0 <= a < |front| && front[a] == rest[i];
        assert Clear(cs[a], cs[|cs| - 1]);
      }
    }
  }

  lemma {:induction false} DraftAppend(files: Files, draft: Draft, g: seq<Change>, c: Change)
    ensures DraftAll(files, draft, g + [c]) ==
      if DraftAll(files, draft, g).Conflict? then Conflict else DraftStep(files, DraftAll(files, draft, g).value, c)
    decreases |g|
  {
    if g == [] {
      assert (g + [c])[1..] == [];
    } else {
      assert (g + [c])[1..] == g[1..] + [c];
      var step := DraftStep(files, draft, g[0]);
      if step.Ok? {
        DraftAppend(files, step.value, g[1..], c);
      }
    }
  }

  predicate WholeLast(g: seq<Change>) {
    g != [] && g[|g| - 1].key.selector == []
  }

  // A file is managed field by field, or as a whole by the last change of its group.
  lemma GroupShape(g: seq<Change>, path: string)
    requires OneFileLayered(g, path)
    ensures FieldGroup(g[..|g| - 1]) && (WholeLast(g) || FieldGroup(g))
    ensures forall i | 0 <= i < |g| :: g[i].codec == g[0].codec
    ensures WholeLast(g) ==> forall i | 0 <= i < |g| - 1 :: Drops(g[i], g[|g| - 1])
  {
    var last := g[|g| - 1];
    forall i | 0 <= i < |g| - 1
      ensures g[i].key.selector != [] && g[i].codec == last.codec && (last.key.selector == [] ==> Drops(g[i], last))
    {
      assert Nests(g[i], g[|g| - 1]);
    }
  }

  function FilesAfter(files: Files, path: string, g: seq<Change>): Files
    requires g != []
  {
    match WriteGroup(files, path, g)
    case Ok(Some(next)) => next
    case _ => files
  }

  ghost predicate SameElsewhere(files: Files, next: Files, path: string) {
    forall p | p != path :: (p in next <==> p in files) && (p in files ==> next[p] == files[p])
  }

  ghost predicate Agree(a: Files, b: Files, path: string) {
    (path in a <==> path in b) && (path in a ==> a[path] == b[path])
  }

  ghost predicate Found(files: Files, c: Change) {
    At(files, c, c.before) || At(files, c, c.after)
  }

  lemma FieldGroupRewrites(files: Files, path: string, g: seq<Change>)
    requires g != [] && FieldGroup(g) && Compatible(g) && AtEither(files, g)
    requires forall i | 0 <= i < |g| :: g[i].key.path == path && g[i].codec == g[0].codec
    ensures Document(files, path, g[0].codec).Ok?
    ensures var document := Document(files, path, g[0].codec).value;
            document.Dict? && R.WellFormed(ToFields(g)) && R.Rewrite(document, ToFields(g)).Ok? &&
            (forall i | 0 <= i < |g| :: Field(R.Rewrite(document, ToFields(g)).value, g[i].key.selector) ==
              Ok(g[i].after)) &&
            WriteGroup(files, path, g).Ok? && SameElsewhere(files, FilesAfter(files, path, g), path) &&
            Document(FilesAfter(files, path, g), path, g[0].codec) == R.Rewrite(document, ToFields(g))
  {
    ProjectIsField(files, g[0].key, g[0].codec);
    var document := Document(files, path, g[0].codec).value;
    var fields := ToFields(g);
    forall i | 0 <= i < |fields| ensures R.AtEither(document, fields[i]) && R.OwnParents(fields[i]) {
      ProjectIsField(files, g[i].key, g[i].codec);
      assert ValidChange(g[i]);
    }
    forall i, j | 0 <= i < j < |fields| ensures !Related(fields[i].selector, fields[j].selector) {
      assert Clear(g[i], g[j]);
    }
    R.RewriteSettles(document, fields);
    DraftIsRewrite(files, Draft(document, false, None, "0600"), g);
    forall i | 0 <= i < |g| ensures Field(R.Rewrite(document, fields).value, g[i].key.selector) == Ok(g[i].after) {
      assert fields[i] == ToField(g[i]);
    }
  }

  lemma WholeShows(f: File, value: Doc)
    requires IsWhole(value) && f == File(value.entries["bytes"], value.entries["mode"].text)
    ensures Whole(f) == value
  {
    assert Whole(f).entries == value.entries;
  }

  // The document and the drafts of a group that ends with its whole file.
  function StartOf(files: Files, path: string, g: seq<Change>): Draft
    requires g != [] && (g[0].key.selector != [] ==> Document(files, path, g[0].codec).Ok?)
  {
    Draft(if g[0].key.selector != [] then Document(files, path, g[0].codec).value else EMPTY, false, None, "0600")
  }

  // Where nothing is due nothing changes.
  lemma {:induction false} NothingMoves(files: Files, draft: Draft, g: seq<Change>)
    requires FieldGroup(g) && DraftAll(files, draft, g).Ok? &&
      forall i | 0 <= i < |g| :: !R.IsDue(draft.document, ToField(g[i]))
    ensures DraftAll(files, draft, g) == Ok(draft)
    decreases |g|
  {
    if g != [] {
      NothingMoves(files, draft, g[1..]);
    }
  }

  // Where the whole file already holds its new value, its fields read nothing and none is written.
  lemma FieldsAreSkipped(files: Files, path: string, g: seq<Change>)
    requires OneFileLayered(g, path) && WholeLast(g) && WriteGroup(files, path, g).Ok?
    requires At(files, g[|g| - 1], g[|g| - 1].after) && g[|g| - 1].after.Some?
    ensures DraftAll(files, StartOf(files, path, g), g[..|g| - 1]) == Ok(StartOf(files, path, g))
  {
    GroupShape(g, path);
    var w, fields, start := g[|g| - 1], g[..|g| - 1], StartOf(files, path, g);
    assert g == fields + [w];
    DraftAppend(files, start, fields, w);
    forall i | 0 <= i < |fields| ensures !R.IsDue(start.document, ToField(fields[i])) {
      assert Drops(g[i], w);
      ReadThrough(files, w.key, g[i].key, g[i].codec);
      ProjectIsField(files, g[i].key, g[i].codec);
    }
    NothingMoves(files, start, fields);
  }

  function Replaced(files: Files, path: string, end: Draft): Files {
    if !end.changed then files
    else SetFile(files, path, if end.content.Some? then Some(File(end.content.value, end.mode)) else None)
  }

  // Such a group drafts its fields, then decides about the file.
  lemma WholeLastUnfolds(files: Files, path: string, g: seq<Change>) returns (mid: Draft)
    requires OneFileLayered(g, path) && WholeLast(g) && WriteGroup(files, path, g).Ok?
    ensures g[0].key.selector != [] ==> Document(files, path, g[0].codec).Ok?
    ensures DraftAll(files, StartOf(files, path, g), g[..|g| - 1]) == Ok(mid)
    ensures mid.content.None? && DraftStep(files, mid, g[|g| - 1]).Ok?
    ensures FilesAfter(files, path, g) == Replaced(files, path, DraftStep(files, mid, g[|g| - 1]).value)
  {
    GroupShape(g, path);
    var w, fields, start := g[|g| - 1], g[..|g| - 1], StartOf(files, path, g);
    assert g == fields + [w];
    DraftAppend(files, start, fields, w);
    DraftIsRewrite(files, start, fields);
    mid := DraftAll(files, start, fields).value;
  }

  // From any files: a written group that ends with its whole file found it at one of its two values,
  // leaves it at the new one, and if it was there already leaves the file alone.
  lemma WholeLastWrites(files: Files, path: string, g: seq<Change>)
    requires OneFileLayered(g, path) && WholeLast(g) && WriteGroup(files, path, g).Ok?
    ensures var w, next := g[|g| - 1], FilesAfter(files, path, g);
            Found(files, w) && At(next, w, w.after) && SameElsewhere(files, next, path) &&
            (At(files, w, w.after) ==> Agree(files, next, path))
  {
    var mid := WholeLastUnfolds(files, path, g);
    if At(files, g[|g| - 1], g[|g| - 1].after) && g[|g| - 1].after.Some? {
      FieldsAreSkipped(files, path, g);
    }
    assert ValidChange(g[|g| - 1]);
    hide WriteGroup, DraftAll, FilesAfter, Document, Layered;
    WholeStepReplaces(files, path, mid, g[|g| - 1]);
  }

  lemma WholeStepReplaces(files: Files, path: string, mid: Draft, w: Change)
    requires w.key == Key(path, []) && ValidChange(w) && mid.content.None? && DraftStep(files, mid, w).Ok?
    requires At(files, w, w.after) && w.after.Some? ==> !mid.changed
    ensures var next := Replaced(files, path, DraftStep(files, mid, w).value);
            Found(files, w) && At(next, w, w.after) && SameElsewhere(files, next, path) &&
            (At(files, w, w.after) ==> Agree(files, next, path))
  {
    if !At(files, w, w.after) && w.after.Some? {
      var value := w.after.value;
      WholeShows(File(value.entries["bytes"], value.entries["mode"].text), value);
    }
  }

  lemma FrontIsCompatible(files: Files, g: seq<Change>)
    requires g != [] && Compatible(g) && AtEither(files, g)
    ensures Compatible(g[..|g| - 1]) && AtEither(files, g[..|g| - 1])
  {
    hide ValidChange, Clear, At;
    var front := g[..|g| - 1];
    assert forall i | 0 <= i < |front| :: front[i] == g[i];
  }

  lemma WholeLastIsWritten(files: Files, path: string, g: seq<Change>)
    requires OneFileLayered(g, path) && WholeLast(g) && Compatible(g) && AtEither(files, g)
    ensures WriteGroup(files, path, g).Ok?
  {
    GroupShape(g, path);
    var w, fields := g[|g| - 1], g[..|g| - 1];
    assert g == fields + [w] && ValidChange(w) && (At(files, w, w.before) || At(files, w, w.after));
    if fields != [] {
      FrontIsCompatible(files, g);
      FieldGroupRewrites(files, path, fields);
    }
    hide Compatible, Layered, Clear, AtEither, Drops;
    DraftAppend(files, StartOf(files, path, g), fields, w);
  }

  lemma WholeLastSettles(files: Files, path: string, g: seq<Change>)
    requires OneFileLayered(g, path) && WholeLast(g) && WriteGroup(files, path, g).Ok?
    ensures AllAfter(FilesAfter(files, path, g), g)
  {
    GroupShape(g, path);
    WholeLastWrites(files, path, g);
    var w, next := g[|g| - 1], FilesAfter(files, path, g);
    hide WriteGroup, FilesAfter, OneFileLayered;
    forall i | 0 <= i < |g| - 1 ensures Vain(g, i) && At(next, g[i], None) {
      assert w.key == Key(g[i].key.path, []);
      ReadThrough(next, w.key, g[i].key, g[i].codec);
    }
  }

  // One file replaced settles all its changes and touches no other file.
  lemma GroupSettles(files: Files, path: string, g: seq<Change>)
    requires g != [] && Compatible(g) && AtEither(files, g)
    requires forall i | 0 <= i < |g| :: g[i].key.path == path
    ensures WriteGroup(files, path, g).Ok? && SameElsewhere(files, FilesAfter(files, path, g), path)
    ensures AllAfter(FilesAfter(files, path, g), g)
  {
    CompatibleIsLayered(g);
    GroupShape(g, path);
    if WholeLast(g) {
      WholeLastIsWritten(files, path, g);
      WholeLastSettles(files, path, g);
      WholeLastWrites(files, path, g);
    } else {
      FieldGroupRewrites(files, path, g);
      var next := FilesAfter(files, path, g);
      forall i | 0 <= i < |g| ensures At(next, g[i], Ends(g, i)) {
        ProjectIsField(next, g[i].key, g[i].codec);
      }
    }
  }

  // A managed field of the same file that no change touches reads the same afterwards.
  lemma GroupFrame(files: Files, path: string, g: seq<Change>, key: Key)
    requires g != [] && Compatible(g) && AtEither(files, g)
    requires forall i | 0 <= i < |g| :: g[i].key.path == path
    requires forall i | 0 <= i < |g| :: !Overlap(g[i].key, key)
    ensures Project(FilesAfter(files, path, g), key, g[0].codec) == Project(files, key, g[0].codec)
  {
    GroupSettles(files, path, g);
    if key.path == path {
      CompatibleIsLayered(g);
      GroupShape(g, path);
      assert !Overlap(g[|g| - 1].key, key);
      FieldGroupRewrites(files, path, g);
      var document := Document(files, path, g[0].codec).value;
      forall i | 0 <= i < |g| ensures !Related(ToFields(g)[i].selector, key.selector) {
        assert !Overlap(g[i].key, key);
      }
      R.RewriteFrame(document, ToFields(g), key.selector);
      ProjectIsField(files, key, g[0].codec);
      ProjectIsField(FilesAfter(files, path, g), key, g[0].codec);
    }
  }

  // ---- Whole runs ----

  lemma {:induction false} PathsDistinct(cs: seq<Change>)
    ensures forall i, j | 0 <= i < j < |Paths(cs)| :: Paths(cs)[i] != Paths(cs)[j]
  {
    if cs != [] {
      PathsDistinct(cs[..|cs| - 1]);
    }
  }

  lemma SubGroup(files: Files, cs: seq<Change>, path: string)
    requires Compatible(cs) && AtEither(files, cs) && path in Paths(cs)
    ensures Group(cs, path) != [] && Compatible(Group(cs, path)) && AtEither(files, Group(cs, path))
    ensures forall i | 0 <= i < |Group(cs, path)| :: Group(cs, path)[i].key.path == path && Group(cs, path)[i] in cs
  {
    GroupIsCompatible(cs, path);
    GroupNonempty(cs, path);
    var g := Group(cs, path);
    forall i | 0 <= i < |g| ensures At(files, g[i], g[i].before) || At(files, g[i], g[i].after) {
      assert g[i] in g;
      var k :| 0 <= k < |cs| && cs[k] == g[i];
    }
  }

  lemma ToFieldsWellFormed(g: seq<Change>)
    requires Compatible(g) && FieldGroup(g) && forall i | 0 <= i < |g| :: g[i].key.path == g[0].key.path
    ensures R.WellFormed(ToFields(g))
  {
    var fields := ToFields(g);
    forall i | 0 <= i < |fields| ensures R.OwnParents(fields[i]) {
      assert ValidChange(g[i]);
    }
    forall i, j | 0 <= i < j < |fields| ensures !Related(fields[i].selector, fields[j].selector) {
      assert Clear(g[i], g[j]);
    }
  }

  lemma VainInGroup(cs: seq<Change>, path: string, i: nat, k: nat)
    requires i < |cs| && k < |Group(cs, path)| && Group(cs, path)[k] == cs[i] && cs[i].key.path == path
    ensures Vain(cs, i) <==> Vain(Group(cs, path), k)
  {
    var g := Group(cs, path);
    GroupNonempty(cs, path);
    if j :| 0 <= j < |cs| && cs[j].key == Key(path, []) {
      assert cs[j] in g;
    }
    if j :| 0 <= j < |g| && g[j].key == Key(path, []) {
      assert g[j] in cs;
    }
  }

  // A change done, or not done, is at one of its two values.
  lemma VainIsEither(cs: seq<Change>, i: nat)
    requires Compatible(cs) && i < |cs|
    ensures Ends(cs, i) in {cs[i].before, cs[i].after} && Starts(cs, i) in {cs[i].before, cs[i].after}
  {
    if Vain(cs, i) {
      var j :| 0 <= j < |cs| && cs[j].key == Key(cs[i].key.path, []);
      if j < i {
        assert false;
      }
      assert Clear(cs[i], cs[j]);
    }
  }

  lemma SettledAtEither(files: Files, cs: seq<Change>)
    requires Compatible(cs) && (AllBefore(files, cs) || AllAfter(files, cs))
    ensures AtEither(files, cs)
  {
    forall i | 0 <= i < |cs| ensures At(files, cs[i], cs[i].before) || At(files, cs[i], cs[i].after) {
      VainIsEither(cs, i);
    }
  }

  // Replacing one file settles its own changes and moves no other.
  lemma OneFile(files: Files, cs: seq<Change>, path: string)
    requires Compatible(cs) && AtEither(files, cs) && path in Paths(cs)
    ensures Group(cs, path) != [] && WriteGroup(files, path, Group(cs, path)).Ok?
    ensures var next := FilesAfter(files, path, Group(cs, path));
            SameElsewhere(files, next, path) && AtEither(next, cs) &&
            (forall i | 0 <= i < |cs| && cs[i].key.path == path :: At(next, cs[i], Ends(cs, i))) &&
            (forall i | 0 <= i < |cs| && cs[i].key.path != path ::
              Project(next, cs[i].key, cs[i].codec) == Project(files, cs[i].key, cs[i].codec))
  {
    SubGroup(files, cs, path);
    var g := Group(cs, path);
    GroupSettles(files, path, g);
    var next := FilesAfter(files, path, g);
    forall i | 0 <= i < |cs| && cs[i].key.path == path ensures At(next, cs[i], Ends(cs, i)) {
      GroupNonempty(cs, path);
      var k :| 0 <= k < |g| && g[k] == cs[i];
      VainInGroup(cs, path, i, k);
      assert At(next, g[k], Ends(g, k));
    }
    hide WriteGroup, Group;
    OneFileMixes(files, next, cs, path);
  }

  lemma OneFileMixes(files: Files, next: Files, cs: seq<Change>, path: string)
    requires Compatible(cs) && AtEither(files, cs) && SameElsewhere(files, next, path)
    requires forall i | 0 <= i < |cs| && cs[i].key.path == path :: At(next, cs[i], Ends(cs, i))
    ensures AtEither(next, cs)
    ensures forall i | 0 <= i < |cs| && cs[i].key.path != path ::
              Project(next, cs[i].key, cs[i].codec) == Project(files, cs[i].key, cs[i].codec)
  {
    forall i | 0 <= i < |cs| ensures At(next, cs[i], cs[i].before) || At(next, cs[i], cs[i].after) {
      VainIsEither(cs, i);
    }
  }

  ghost predicate Untouched(key: Key, codec: Codec, cs: seq<Change>) {
    forall i | 0 <= i < |cs| :: !Overlap(cs[i].key, key) && (cs[i].key.path == key.path ==> cs[i].codec == codec)
  }

  lemma OneFileFrame(files: Files, cs: seq<Change>, path: string, key: Key, codec: Codec)
    requires Compatible(cs) && AtEither(files, cs) && path in Paths(cs) && Untouched(key, codec, cs)
    ensures Group(cs, path) != [] && Project(FilesAfter(files, path, Group(cs, path)), key, codec) ==
      Project(files, key, codec)
  {
    SubGroup(files, cs, path);
    var g := Group(cs, path);
    forall i | 0 <= i < |g| ensures !Overlap(g[i].key, key) && (g[i].key.path == key.path ==> g[i].codec == codec) {
      assert g[i] in cs;
    }
    if key.path == path {
      GroupFrame(files, path, g, key);
    } else {
      GroupSettles(files, path, g);
    }
  }

  ghost predicate OnlyFilesDiffer(a: Disk, b: Disk) {
    a.saved == b.saved && a.pending == b.pending && a.prepared == b.prepared
  }

  lemma SettledAlready(disk: Disk, cs: seq<Change>)
    requires AtEither(disk.files, cs) && forall i | 0 <= i < |cs| :: At(disk.files, cs[i], Ends(cs, i))
    ensures var run := WriteRun(disk, cs, []);
            run == Run([disk], Done) && AllAfter(run.End().files, cs) && OnlyFilesDiffer(disk, disk)
  {
  }

  // A run whose first group can be written is that group's state, if it changed anything, and the rest.
  lemma OneFileUnfolds(disk: Disk, cs: seq<Change>, paths: seq<string>)
    requires paths != [] && (forall p | p in paths :: p in Paths(cs))
    requires Group(cs, paths[0]) != [] && WriteGroup(disk.files, paths[0], Group(cs, paths[0])).Ok?
    ensures var next := disk.(files := FilesAfter(disk.files, paths[0], Group(cs, paths[0])));
            var rest := WriteRun(next, cs, paths[1..]);
            WriteRun(disk, cs, paths) == rest || WriteRun(disk, cs, paths) == Then([disk], rest)
  {
    hide WriteGroup, Group;
  }

  // The run completes, and every durable state of it is a mixture.
  ghost predicate Settles(run: Run, disk: Disk, cs: seq<Change>) {
    run.disks != [] && run.outcome == Done && AllAfter(run.End().files, cs) &&
    forall n | 0 <= n < |run.disks| :: AtEither(run.disks[n].files, cs) && OnlyFilesDiffer(run.disks[n], disk)
  }

  lemma ThenSettles(run: Run, disk: Disk, next: Disk, cs: seq<Change>)
    requires Settles(run, next, cs) && OnlyFilesDiffer(next, disk) && AtEither(disk.files, cs)
    ensures Settles(run, disk, cs) && Settles(Then([disk], run), disk, cs)
  {
    hide AtEither, AllAfter;
  }

  lemma LeftToSettle(disk: Disk, next: Disk, cs: seq<Change>, paths: seq<string>)
    requires paths != [] && forall i | 0 <= i < |cs| && cs[i].key.path !in paths :: At(disk.files, cs[i], Ends(cs, i))
    requires forall i | 0 <= i < |cs| && cs[i].key.path == paths[0] :: At(next.files, cs[i], Ends(cs, i))
    requires forall i | 0 <= i < |cs| && cs[i].key.path != paths[0] ::
               Project(next.files, cs[i].key, cs[i].codec) == Project(disk.files, cs[i].key, cs[i].codec)
    ensures forall i | 0 <= i < |cs| && cs[i].key.path !in paths[1..] :: At(next.files, cs[i], Ends(cs, i))
  {
    forall i | 0 <= i < |cs| && cs[i].key.path !in paths[1..] ensures At(next.files, cs[i], Ends(cs, i)) {
      if cs[i].key.path != paths[0] {
        assert cs[i].key.path !in paths;
      }
    }
  }

  // Every durable state of a write run is a mixture, and the run itself always completes.
  lemma {:induction false} WriteRunSettles(disk: Disk, cs: seq<Change>, paths: seq<string>)
    requires Compatible(cs) && AtEither(disk.files, cs)
    requires forall p | p in paths :: p in Paths(cs)
    requires forall i | 0 <= i < |cs| && cs[i].key.path !in paths :: At(disk.files, cs[i], Ends(cs, i))
    ensures Settles(WriteRun(disk, cs, paths), disk, cs)
    decreases |paths|
  {
    if paths == [] {
      SettledAlready(disk, cs);
    } else {
      hide Compatible, At, AtEither, DraftAll, WriteGroup, Group, WriteRun, Settles;
      var path := paths[0];
      assert path in paths;
      OneFile(disk.files, cs, path);
      OneFileUnfolds(disk, cs, paths);
      var next := disk.(files := FilesAfter(disk.files, path, Group(cs, path)));
      LeftToSettle(disk, next, cs, paths);
      WriteRunSettles(next, cs, paths[1..]);
      ThenSettles(WriteRun(next, cs, paths[1..]), disk, next, cs);
    }
  }

  lemma {:induction false} WriteRunFrame(disk: Disk, cs: seq<Change>, paths: seq<string>, key: Key, codec: Codec,
      n: nat)
    requires Compatible(cs) && AtEither(disk.files, cs) && Untouched(key, codec, cs)
    requires forall p | p in paths :: p in Paths(cs)
    requires n < |WriteRun(disk, cs, paths).disks|
    ensures Project(WriteRun(disk, cs, paths).disks[n].files, key, codec) == Project(disk.files, key, codec)
    decreases |paths|
  {
    if paths != [] {
      var path := paths[0];
      assert path in paths;
      OneFile(disk.files, cs, path);
      OneFileFrame(disk.files, cs, path, key, codec);
      var next := FilesAfter(disk.files, path, Group(cs, path));
      if WriteGroup(disk.files, path, Group(cs, path)).value.None? {
        WriteRunFrame(disk, cs, paths[1..], key, codec, n);
      } else if n > 0 {
        WriteRunFrame(disk.(files := next), cs, paths[1..], key, codec, n - 1);
      }
    }
  }

  // ---- Values nobody recorded are never lost, also when the run is refused half way ----

  lemma FieldsTopDown(g: seq<Change>, path: string)
    requires Layered(g) && FieldGroup(g) && forall i | 0 <= i < |g| :: g[i].key.path == path
    ensures R.TopDown(ToFields(g))
  {
    var fields := ToFields(g);
    forall i | 0 <= i < |fields| ensures R.OwnParents(fields[i]) {
      assert ValidChange(g[i]);
    }
    forall i, j | 0 <= i < j < |fields| && Related(fields[i].selector, fields[j].selector)
      ensures fields[i].selector < fields[j].selector {
      assert Nests(g[i], g[j]);
    }
  }

  ghost predicate Overwrites(files: Files, c: Change, key: Key) {
    Overlap(c.key, key) && At(files, c, c.before) && c.before != c.after
  }

  ghost predicate NoneOverwrites(files: Files, g: seq<Change>, key: Key) {
    forall i | 0 <= i < |g| :: !Overwrites(files, g[i], key)
  }

  lemma DraftReads(files: Files, draft: Draft, g: seq<Change>, path: string, key: Key)
    requires Layered(g) && FieldGroup(g) && (forall i | 0 <= i < |g| :: g[i].key.path == path) && key.path == path
    requires draft.document.Dict? && DraftAll(files, draft, g).Ok?
    requires forall i | 0 <= i < |g| && Overlap(g[i].key, key) :: !R.IsDue(draft.document, ToField(g[i]))
    ensures var end := DraftAll(files, draft, g).value;
            end.document.Dict? && (!end.changed ==> end == draft) &&
            if key.selector == [] then end == draft
            else Field(end.document, key.selector) == Field(draft.document, key.selector)
  {
    var fields := ToFields(g);
    DraftIsRewrite(files, draft, g);
    FieldsTopDown(g, path);
    R.RewriteKeepsObject(draft.document, fields);
    forall i | 0 <= i < |fields| && Related(fields[i].selector, key.selector)
      ensures !R.IsDue(draft.document, fields[i]) {
      assert Overlap(g[i].key, key);
    }
    R.OnlyBeforeIsOverwritten(draft.document, fields, key.selector);
    if key.selector == [] {
      NothingMoves(files, draft, g);
    }
  }

  lemma FieldsOverwriteOnlyRecorded(files: Files, path: string, g: seq<Change>, key: Key)
    requires OneFileLayered(g, path) && FieldGroup(g) && key.path == path && WriteGroup(files, path, g).Ok?
    requires NoneOverwrites(files, g, key)
    ensures Project(FilesAfter(files, path, g), key, g[0].codec) == Project(files, key, g[0].codec)
  {
    var start := Draft(Document(files, path, g[0].codec).value, false, None, "0600");
    GroupShape(g, path);
    forall i | 0 <= i < |g| && Overlap(g[i].key, key) ensures !R.IsDue(start.document, ToField(g[i])) {
      ProjectIsField(files, g[i].key, g[i].codec);
      assert !Overwrites(files, g[i], key);
    }
    DraftReads(files, start, g, path, key);
    if key.selector != [] {
      ProjectIsField(files, key, g[0].codec);
      ProjectIsField(FilesAfter(files, path, g), key, g[0].codec);
    }
  }

  lemma GroupOverwritesOnlyRecorded(files: Files, path: string, g: seq<Change>, key: Key)
    requires OneFileLayered(g, path) && key.path == path && WriteGroup(files, path, g).Ok? &&
      NoneOverwrites(files, g, key)
    ensures Project(FilesAfter(files, path, g), key, g[0].codec) == Project(files, key, g[0].codec)
  {
    GroupShape(g, path);
    if WholeLast(g) {
      assert Overlap(g[|g| - 1].key, key) && !Overwrites(files, g[|g| - 1], key);
      WholeLastWrites(files, path, g);
    } else {
      FieldsOverwriteOnlyRecorded(files, path, g, key);
    }
  }

  lemma {:induction false} OtherFilesStay(disk: Disk, cs: seq<Change>, paths: seq<string>, path: string, n: nat)
    requires (forall p | p in paths :: p in Paths(cs)) && path !in paths
    requires n < |WriteRun(disk, cs, paths).disks|
    ensures var files := WriteRun(disk, cs, paths).disks[n].files;
            (path in files <==> path in disk.files) && (path in files ==> files[path] == disk.files[path])
    decreases |paths|
  {
    hide DraftAll, Finish, Group, Paths, Document;
    if paths != [] {
      assert paths[0] in paths;
      GroupNonempty(cs, paths[0]);
      var written := WriteGroup(disk.files, paths[0], Group(cs, paths[0]));
      if written.Ok? && written.value.None? {
        OtherFilesStay(disk, cs, paths[1..], path, n);
      } else if written.Ok? && n > 0 {
        OtherFilesStay(disk.(files := written.value.value), cs, paths[1..], path, n - 1);
      }
    }
  }

  ghost predicate SomeOverwrites(files: Files, cs: seq<Change>, key: Key) {
    exists i :: 0 <= i < |cs| && Overwrites(files, cs[i], key)
  }

  ghost predicate OneCodec(cs: seq<Change>, path: string, codec: Codec) {
    forall i | 0 <= i < |cs| && cs[i].key.path == path :: cs[i].codec == codec
  }

  // ---- A file that was written had its changes found in place ----

  lemma {:induction false} DraftReadsOwnFile(a: Files, b: Files, path: string, draft: Draft, g: seq<Change>)
    requires Agree(a, b, path) && forall i | 0 <= i < |g| :: g[i].key.path == path
    ensures DraftAll(a, draft, g) == DraftAll(b, draft, g)
    decreases |g|
  {
    if g != [] {
      var step := DraftStep(a, draft, g[0]);
      assert step == DraftStep(b, draft, g[0]);
      if step.Ok? {
        DraftReadsOwnFile(a, b, path, step.value, g[1..]);
      }
    }
  }

  // Writing a group reads and replaces its own file alone.
  lemma GroupReadsOwnFile(a: Files, b: Files, path: string, g: seq<Change>)
    requires Agree(a, b, path) && g != [] && forall i | 0 <= i < |g| :: g[i].key.path == path
    ensures WriteGroup(a, path, g).Ok? <==> WriteGroup(b, path, g).Ok?
    ensures Agree(FilesAfter(a, path, g), FilesAfter(b, path, g), path)
    ensures SameElsewhere(a, FilesAfter(a, path, g), path)
  {
    assert Document(a, path, g[0].codec) == Document(b, path, g[0].codec);
    var document := if g[0].key.selector != [] then Document(a, path, g[0].codec) else Ok(EMPTY);
    if document.Ok? {
      DraftReadsOwnFile(a, b, path, Draft(document.value, false, None, "0600"), g);
    }
  }

  // Each change of a written group, or one above it, was at one of its two values before.
  lemma WrittenWasFound(files: Files, path: string, g: seq<Change>, i: nat) returns (k: nat)
    requires OneFileLayered(g, path) && WriteGroup(files, path, g).Ok? && i < |g|
    ensures k < |g| && g[k].key.selector <= g[i].key.selector && Found(files, g[k])
  {
    GroupShape(g, path);
    if WholeLast(g) {
      k := |g| - 1;
      WholeLastWrites(files, path, g);
    } else {
      var document := Document(files, path, g[0].codec).value;
      DraftIsRewrite(files, Draft(document, false, None, "0600"), g);
      FieldsTopDown(g, path);
      k := R.CompletedMeansFound(document, ToFields(g), i);
      ProjectIsField(files, g[k].key, g[k].codec);
    }
  }

  // ---- Whole runs, from any files ----

  // At every durable state of a run a file is as it was, or as its own group leaves it.
  ghost predicate OldOrNew(files: Files, cs: seq<Change>, path: string, now: Files) {
    Agree(files, now, path) || (path in Paths(cs) && Group(cs, path) != [] &&
      WriteGroup(files, path, Group(cs, path)).Ok? && Agree(FilesAfter(files, path, Group(cs, path)), now, path))
  }

  lemma {:induction false} EachFileOldOrNew(disk: Disk, cs: seq<Change>, paths: seq<string>, path: string, n: nat)
    requires (forall p | p in paths :: p in Paths(cs)) && n < |WriteRun(disk, cs, paths).disks|
    requires forall i, j | 0 <= i < j < |paths| :: paths[i] != paths[j]
    ensures OldOrNew(disk.files, cs, path, WriteRun(disk, cs, paths).disks[n].files)
    decreases |paths|
  {
    hide DraftAll, Finish, Document, Group, Paths;
    if paths != [] {
      var first, rest := paths[0], paths[1..];
      assert first in paths;
      GroupNonempty(cs, first);
      var g := Group(cs, first);
      var written := WriteGroup(disk.files, first, g);
      if written.Ok? && (written.value.None? || n > 0) {
        var next := disk.(files := FilesAfter(disk.files, first, g));
        var m := if written.value.None? then n else n - 1;
        if path == first {
          OtherFilesStay(next, cs, rest, path, m);
        } else {
          EachFileOldOrNew(next, cs, rest, path, m);
          GroupOfPath(cs, first);
          GroupReadsOwnFile(disk.files, disk.files, first, g);
          StillOldOrNew(disk.files, next.files, cs, path, WriteRun(next, cs, rest).disks[m].files);
        }
      }
    }
  }

  lemma StillOldOrNew(files: Files, next: Files, cs: seq<Change>, path: string, now: Files)
    requires Agree(files, next, path) && OldOrNew(next, cs, path, now)
    ensures OldOrNew(files, cs, path, now)
  {
    hide WriteGroup, FilesAfter, Group, Paths;
    GroupOfPath(cs, path);
    if Group(cs, path) != [] {
      GroupReadsOwnFile(files, next, path, Group(cs, path));
    }
  }

  // At the end of a finished run each file is as its own group leaves it.
  lemma {:induction false} EachFileNew(disk: Disk, cs: seq<Change>, paths: seq<string>, path: string)
    requires (forall p | p in paths :: p in Paths(cs)) && path in paths && WriteRun(disk, cs, paths).outcome.Done?
    requires forall i, j | 0 <= i < j < |paths| :: paths[i] != paths[j]
    ensures Group(cs, path) != [] && WriteGroup(disk.files, path, Group(cs, path)).Ok?
    ensures Agree(FilesAfter(disk.files, path, Group(cs, path)), WriteRun(disk, cs, paths).End().files, path)
    decreases |paths|
  {
    hide DraftAll, Finish, Document, Group, Paths;
    var first, rest := paths[0], paths[1..];
    GroupNonempty(cs, first);
    GroupNonempty(cs, path);
    var next := disk.(files := FilesAfter(disk.files, first, Group(cs, first)));
    var end := WriteRun(next, cs, rest);
    assert WriteRun(disk, cs, paths).End() == end.End();
    if first == path {
      OtherFilesStay(next, cs, rest, path, |end.disks| - 1);
    } else {
      EachFileNew(next, cs, rest, path);
      GroupOfPath(cs, first);
      GroupOfPath(cs, path);
      GroupReadsOwnFile(disk.files, disk.files, first, Group(cs, first));
      GroupReadsOwnFile(disk.files, next.files, path, Group(cs, path));
    }
  }

  // A place only moves where its file was written, and to what its group leaves there.
  lemma MovedMeansWritten(disk: Disk, cs: seq<Change>, key: Key, codec: Codec, n: nat)
    requires n < |WriteRun(disk, cs, Paths(cs)).disks|
    requires Project(WriteRun(disk, cs, Paths(cs)).disks[n].files, key, codec) != Project(disk.files, key, codec)
    ensures var g := Group(cs, key.path);
            key.path in Paths(cs) && g != [] && WriteGroup(disk.files, key.path, g).Ok? &&
            Project(WriteRun(disk, cs, Paths(cs)).disks[n].files, key, codec) ==
              Project(FilesAfter(disk.files, key.path, g), key, codec)
  {
    hide WriteRun, WriteGroup, FilesAfter, Group;
    PathsDistinct(cs);
    EachFileOldOrNew(disk, cs, Paths(cs), key.path, n);
  }

  lemma GroupOfPath(cs: seq<Change>, path: string)
    ensures forall i | 0 <= i < |Group(cs, path)| :: Group(cs, path)[i].key.path == path && Group(cs, path)[i] in cs
  {
    GroupNonempty(cs, path);
    forall i | 0 <= i < |Group(cs, path)| ensures Group(cs, path)[i].key.path == path && Group(cs, path)[i] in cs {
      assert Group(cs, path)[i] in Group(cs, path);
    }
  }

  lemma SameFileReads(a: Files, b: Files, key: Key, codec: Codec)
    requires Agree(a, b, key.path)
    ensures Project(a, key, codec) == Project(b, key, codec)
  {
  }

  lemma OneGroupOverwrites(files: Files, cs: seq<Change>, key: Key, codec: Codec)
    requires Layered(cs) && OneCodec(cs, key.path, codec)
    requires Group(cs, key.path) != [] && WriteGroup(files, key.path, Group(cs, key.path)).Ok?
    requires Project(FilesAfter(files, key.path, Group(cs, key.path)), key, codec) != Project(files, key, codec)
    ensures SomeOverwrites(files, cs, key)
  {
    var g := Group(cs, key.path);
    GroupIsLayered(cs, key.path);
    GroupOfPath(cs, key.path);
    if !SomeOverwrites(files, cs, key) {
      forall i | 0 <= i < |g| ensures !Overwrites(files, g[i], key) {
        var k :| 0 <= k < |cs| && cs[k] == g[i];
      }
      GroupOverwritesOnlyRecorded(files, key.path, g, key);
    }
  }

  // Over any run of write_changes, from any files and up to any crash point: a readable place
  // changes only if a change overlapping it found its recorded before value there at the start.
  lemma UnrecordedSurvives(disk: Disk, cs: seq<Change>, key: Key, codec: Codec, n: nat)
    requires Layered(cs) && OneCodec(cs, key.path, codec) && n < |WriteRun(disk, cs, Paths(cs)).disks|
    requires Project(WriteRun(disk, cs, Paths(cs)).disks[n].files, key, codec) != Project(disk.files, key, codec)
    ensures SomeOverwrites(disk.files, cs, key)
  {
    hide WriteRun, WriteGroup, Layered;
    MovedMeansWritten(disk, cs, key, codec, n);
    OneGroupOverwrites(disk.files, cs, key, codec);
  }

  // ---- Modes ----

  // The content and mode a whole-file change of the group gives, or private.
  ghost predicate IsGiven(f: File, cs: seq<Change>, path: string) {
    f.mode == "0600" || exists c :: c in cs && c.key == Key(path, []) && c.after == Some(Whole(f))
  }

  ghost predicate IsHeldBy(draft: Draft, cs: seq<Change>) {
    draft.content.Some? ==>
      exists c | c in cs && c.key.selector == [] :: c.after == Some(Whole(File(draft.content.value, draft.mode)))
  }

  lemma {:induction false} DraftHolds(files: Files, draft: Draft, group: seq<Change>, cs: seq<Change>)
    requires DraftAll(files, draft, group).Ok? && IsHeldBy(draft, cs) && forall c | c in group :: c in cs
    ensures IsHeldBy(DraftAll(files, draft, group).value, cs)
    decreases |group|
  {
    if group != [] {
      var c, next := group[0], DraftStep(files, draft, group[0]).value;
      if next.content != draft.content || next.mode != draft.mode {
        assert c in cs && c.key.selector == [] && c.after.Some? && IsWhole(c.after.value);
        assert c.after.value == Whole(File(next.content.value, next.mode));
      }
      DraftHolds(files, next, group[1..], cs);
    }
  }

  lemma GroupModes(files: Files, path: string, g: seq<Change>)
    requires g != [] && (forall c | c in g :: c.key.path == path) && WriteGroup(files, path, g).Ok?
    ensures var next := WriteGroup(files, path, g).value;
            next.Some? && path in next.value ==> IsGiven(next.value[path], g, path)
  {
    var document := if g[0].key.selector != [] then Document(files, path, g[0].codec).value else EMPTY;
    var start := Draft(document, false, None, "0600");
    DraftHolds(files, start, g, g);
    var draft := DraftAll(files, start, g).value;
    hide DraftAll;
    if draft.content.Some? {
      var c :| c in g && c.key.selector == [] && c.after == Some(Whole(File(draft.content.value, draft.mode)));
      assert c.key == Key(path, []);
    }
  }

  // At every durable state of a write pass each file is as it was, or private, or what a recorded change
  // of the whole file says, mode included.
  lemma {:induction false} WrittenFilesAreGiven(disk: Disk, cs: seq<Change>, paths: seq<string>, n: nat, path: string)
    requires (forall p | p in paths :: p in Paths(cs)) && n < |WriteRun(disk, cs, paths).disks|
    ensures var files := WriteRun(disk, cs, paths).disks[n].files;
            path in files ==> (path in disk.files && files[path] == disk.files[path]) || IsGiven(files[path], cs, path)
    decreases |paths|
  {
    if paths != [] {
      var p := paths[0];
      GroupNonempty(cs, p);
      var g := Group(cs, p);
      var written := WriteGroup(disk.files, p, g);
      if written.Ok? {
        GroupModes(disk.files, p, g);
        if written.value.None? {
          WrittenFilesAreGiven(disk, cs, paths[1..], n, path);
        } else if n > 0 {
          WrittenFilesAreGiven(disk.(files := written.value.value), cs, paths[1..], n - 1, path);
          if path == p && path in written.value.value {
            assert IsGiven(written.value.value[path], cs, path);
          }
        }
      }
    }
  }
}
