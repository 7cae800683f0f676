/** The layer merge of merge.py: a recursive merge of mappings that keeps, in place, the table of
    which layer wrote each leaf. Its meaning is given path by path. */
module LayeredMerge {
  import opened Wrappers

  type Path = seq<string>

  // Missing is the explicit omission; lists and scalars are leaves, replaced as a whole.
  datatype Value = Missing | Leaf(text: string) | Node(children: map<string, Value>)
  datatype Layer = Layer(name: string, values: Value)

  // ---- What a value holds at a path ----

  datatype Kind = Absent | LeafAt(text: string) | NodeAt

  function KindAt(v: Value, p: Path): Kind
    decreases |p|
  {
    match v
    case Missing => Absent
    case Leaf(text) => if p == [] then LeafAt(text) else Absent
    case Node(children) => if p == [] then NodeAt else if p[0] in children then KindAt(children[p[0]], p[1..])
      else Absent
  }

  predicate Mentions(v: Value, p: Path) {
    !KindAt(v, p).Absent?
  }

  // A layer decides a path by mentioning it, or by a leaf above it.
  predicate Decides(v: Value, p: Path)
    decreases |p|
  {
    match v
    case Missing => false
    case Leaf(_) => true
    case Node(children) => p == [] || (p[0] in children && Decides(children[p[0]], p[1..]))
  }

  // Leaves are scalars, lists and empty mappings.
  predicate IsLeafPath(v: Value, p: Path)
    decreases |p|
  {
    match v
    case Missing => false
    case Leaf(_) => p == []
    case Node(children) =>
      if p == [] then children.Keys == {} else p[0] in children && IsLeafPath(children[p[0]], p[1..])
  }

  // Merged data holds no omission.
  predicate IsSolid(v: Value) {
    match v
    case Missing => false
    case Leaf(_) => true
    case Node(children) => forall k | k in children.Keys :: IsSolid(children[k])
  }

  // ---- The merge on values ----

  function Given(children: map<string, Value>): set<string> {
    set k | k in children.Keys && !children[k].Missing?
  }

  function Child(v: Value, k: string): Value {
    if v.Node? && k in v.children then v.children[k] else Missing
  }

  function Merged(older: Value, newer: Value): Value
    decreases newer
  {
    match newer
    case Missing => older
    case Leaf(_) => newer
    case Node(children) =>
      var base := if older.Node? then older.children else map[];
      Node(map k | k in base.Keys + Given(children) ::
             if k in Given(children) then Merged(Child(older, k), children[k]) else base[k])
  }

  // The merge of the keys done so far.
  function MergedOver(older: Value, newer: Value, done: set<string>): map<string, Value>
    requires newer.Node? && done <= newer.children.Keys
  {
    var base := if older.Node? then older.children else map[];
    map k | k in base.Keys + done :: if k in done then Merged(Child(older, k), newer.children[k]) else base[k]
  }

  lemma MergedOverGrows(older: Value, newer: Value, done: set<string>, key: string)
    requires newer.Node? && done <= newer.children.Keys && key in newer.children
    ensures MergedOver(older, newer, {}) == if older.Node? then older.children else map[]
    ensures MergedOver(older, newer, done + {key}) ==
      MergedOver(older, newer, done)[key := Merged(Child(older, key), newer.children[key])]
  {
  }

  lemma MergedOverAll(older: Value, newer: Value)
    requires newer.Node?
    ensures Node(MergedOver(older, newer, Given(newer.children))) == Merged(older, newer)
    ensures MergedOver(older, newer, {}) == if older.Node? then older.children else map[]
  {
  }

  function MergedAll(layers: seq<Layer>): Value {
    if layers == [] then Node(map[]) else Merged(MergedAll(layers[..|layers| - 1]), layers[|layers| - 1].values)
  }

  // A layer's name must be known and its values a mapping.
  predicate IsLayer(l: Layer) {
    l.name in {"registry", "defaults", "profile", "local", "request"} && l.values.Node?
  }

  // ---- Its meaning, path by path ----

  lemma {:induction false} MergedAt(older: Value, newer: Value, p: Path)
    ensures KindAt(Merged(older, newer), p) == if Decides(newer, p) then KindAt(newer, p) else KindAt(older, p)
    decreases |p|
  {
    if newer.Node? && p != [] {
      MergedAt(Child(older, p[0]), Child(newer, p[0]), p[1..]);
    }
  }

  lemma {:induction false} MergedIsSolid(older: Value, newer: Value)
    requires older.Missing? || IsSolid(older)
    ensures IsSolid(Merged(older, newer)) || newer.Missing?
    decreases newer
  {
    if newer.Node? {
      var result := Merged(older, newer);
      forall k | k in result.children.Keys ensures IsSolid(result.children[k]) {
        if k in Given(newer.children) {
          MergedIsSolid(Child(older, k), newer.children[k]);
        }
      }
    }
  }

  // No layer after i decides the path.
  ghost predicate LastToDecide(layers: seq<Layer>, i: nat, p: Path) {
    i < |layers| && Decides(layers[i].values, p) && forall j | i < j < |layers| :: !Decides(layers[j].values, p)
  }

  ghost predicate Undecided(layers: seq<Layer>, p: Path) {
    forall i | 0 <= i < |layers| :: !Decides(layers[i].values, p)
  }

  // The last layer that decides a path says what is there; a path nobody decides is absent.
  lemma {:induction false} LastLayerDecides(layers: seq<Layer>, i: nat, p: Path)
    ensures LastToDecide(layers, i, p) ==> KindAt(MergedAll(layers), p) == KindAt(layers[i].values, p)
    ensures Undecided(layers, p) && p != [] ==> KindAt(MergedAll(layers), p).Absent?
    decreases |layers|
  {
    if layers != [] {
      var front := layers[..|layers| - 1];
      MergedAt(MergedAll(front), layers[|layers| - 1].values, p);
      LastLayerDecides(front, i, p);
      if LastToDecide(layers, i, p) && i < |front| {
        assert LastToDecide(front, i, p);
      }
    }
  }

  // Kinds at all paths determine solid data.
  lemma {:induction false} KindsDetermine(v: Value, u: Value)
    requires (v.Missing? || IsSolid(v)) && (u.Missing? || IsSolid(u)) && forall p :: KindAt(v, p) == KindAt(u, p)
    ensures v == u
    decreases v
  {
    assert KindAt(v, []) == KindAt(u, []);
    if v.Node? {
      forall k ensures k in v.children <==> k in u.children {
        assert [k][0] == k && [k][1..] == [];
        assert KindAt(v, [k]) == KindAt(u, [k]);
        assert k in v.children ==> IsSolid(v.children[k]) && KindAt(v, [k]) == KindAt(v.children[k], []);
        assert k in u.children ==> IsSolid(u.children[k]) && KindAt(u, [k]) == KindAt(u.children[k], []);
      }
      forall k | k in v.children ensures v.children[k] == u.children[k] {
        forall p ensures KindAt(v.children[k], p) == KindAt(u.children[k], p) {
          assert ([k] + p)[1..] == p;
          assert KindAt(v, [k] + p) == KindAt(u, [k] + p);
        }
        assert IsSolid(v.children[k]) && IsSolid(u.children[k]);
        KindsDetermine(v.children[k], u.children[k]);
      }
      assert v.children == u.children;
    }
  }

  lemma {:induction false} MergedAllIsSolid(layers: seq<Layer>)
    ensures IsSolid(MergedAll(layers))
    decreases |layers|
  {
    if layers != [] {
      MergedAllIsSolid(layers[..|layers| - 1]);
      MergedIsSolid(MergedAll(layers[..|layers| - 1]), layers[|layers| - 1].values);
    }
  }

  // ---- Provenance ----

  type Sources = map<Path, string>

  ghost predicate LastToMention(layers: seq<Layer>, i: int, p: Path) {
    0 <= i < |layers| && Mentions(layers[i].values, p) && forall j | i < j < |layers| :: !Mentions(layers[j].values, p)
  }

  // The table names exactly the leaves of the merged data, each with the layer that last wrote it.
  ghost predicate IsProvenance(layers: seq<Layer>, sources: Sources) {
    (forall p :: p in sources <==> p != [] && IsLeafPath(MergedAll(layers), p)) &&
    forall p | p in sources :: exists i :: LastToMention(layers, i, p) && sources[p] == layers[i].name
  }

  // Merging the last layer again changes neither the data nor the table.
  lemma RemergeChangesNothing(layers: seq<Layer>, sources: Sources)
    requires layers != [] && IsProvenance(layers, sources)
    ensures var again := layers + [layers[|layers| - 1]];
            MergedAll(again) == MergedAll(layers) && IsProvenance(again, sources)
  {
    var last := layers[|layers| - 1];
    var again := layers + [last];
    assert again[..|again| - 1] == layers;
    MergedAllIsSolid(layers);
    MergedAllIsSolid(again);
    forall p ensures KindAt(MergedAll(again), p) == KindAt(MergedAll(layers), p) {
      MergedAt(MergedAll(layers), last.values, p);
      MergedAt(MergedAll(layers[..|layers| - 1]), last.values, p);
    }
    KindsDetermine(MergedAll(again), MergedAll(layers));
    forall p | p in sources ensures exists i :: LastToMention(again, i, p) && sources[p] == again[i].name {
      var i :| LastToMention(layers, i, p) && sources[p] == layers[i].name;
      if Mentions(last.values, p) {
        assert i == |layers| - 1;
        assert LastToMention(again, |layers|, p);
      } else {
        assert LastToMention(again, i, p);
      }
    }
  }

  // ---- The merge in place ----

  // The table holds exactly the leaves of v below path; the root itself is never a key.
  ghost predicate Tracks(sources: Sources, v: Value, path: Path) {
    forall q | path <= q && q != [] :: q in sources <==> IsLeafPath(v, q[|path|..])
  }

  ghost predicate SameElsewhere(before: Sources, after: Sources, path: Path) {
    forall q | !(path <= q) :: (q in after <==> q in before) && (q in after ==> after[q] == before[q])
  }

  // Below path, what the new value mentions is the layer's and the rest is as it was.
  ghost predicate Credits(before: Sources, after: Sources, newer: Value, path: Path, layer: string) {
    forall q | path <= q && q in after && q != [] ::
      if Mentions(newer, q[|path|..]) then after[q] == layer else q in before && after[q] == before[q]
  }

  // The same two, inside the loop over the keys: strictly below path, and for the keys done so far.
  ghost predicate TracksBelow(sources: Sources, children: map<string, Value>, path: Path) {
    forall q | path < q :: q in sources <==> q[|path|] in children && IsLeafPath(children[q[|path|]], q[|path| + 1..])
  }

  ghost predicate CreditsBelow(before: Sources, after: Sources, newer: Value, done: set<string>, path: Path,
      layer: string)
    requires newer.Node? && done <= newer.children.Keys
  {
    forall q | path < q && q in after ::
      if q[|path|] in done && Mentions(newer.children[q[|path|]], q[|path| + 1..]) then after[q] == layer
      else q in before && after[q] == before[q]
  }

  lemma PathStep(path: Path, key: string, q: Path)
    ensures path + [key] <= q <==> path < q && q[|path|] == key
    ensures path < q ==> q[|path|..][1..] == q[|path| + 1..] && q[|path|..] != [] && q[|path|..][0] == q[|path|]
  {
    if path < q && q[|path|] == key {
      assert q[..|path| + 1] == path + [key];
    }
  }

  lemma ChildTracks(sources: Sources, children: map<string, Value>, path: Path, key: string)
    requires TracksBelow(sources, children, path)
    ensures Tracks(sources, if key in children then children[key] else Missing, path + [key])
  {
    forall q | path + [key] <= q && q != []
      ensures q in sources <==> IsLeafPath(if key in children then children[key] else Missing, q[|path + [key]|..])
    {
      PathStep(path, key, q);
    }
  }

  // One key merged: the loop's picture moves on by that key.
  lemma KeyMerged(start: Sources, before: Sources, after: Sources, newer: Value, children: map<string, Value>,
      child: Value,
                  done: set<string>, path: Path, key: string, layer: string)
    requires newer.Node? && done <= newer.children.Keys && key in newer.children && key !in done
    requires TracksBelow(before, children, path) && CreditsBelow(start, before, newer, done, path, layer) &&
      SameElsewhere(start, before, path)
    requires Tracks(after, child, path + [key]) && SameElsewhere(before, after, path + [key])
    requires Credits(before, after, newer.children[key], path + [key], layer)
    ensures TracksBelow(after, children[key := child], path) && SameElsewhere(start, after, path)
    ensures CreditsBelow(start, after, newer, done + {key}, path, layer)
  {
    forall q | path < q
      ensures q in after <==>
        q[|path|] in children[key := child] && IsLeafPath(children[key := child][q[|path|]], q[|path| + 1..])
    {
      PathStep(path, key, q);
    }
    forall q | !(path <= q) ensures (q in after <==> q in start) && (q in after ==> after[q] == start[q]) {
      PathStep(path, key, q);
    }
    forall q | path < q && q in after
      ensures if q[|path|] in done + {key} && Mentions(newer.children[q[|path|]], q[|path| + 1..]) then
        after[q] == layer
              else q in start && after[q] == start[q]
    {
      PathStep(path, key, q);
    }
  }

  lemma LastKeyMerged(start: Sources, before: Sources, after: Sources, newer: Value, children: map<string, Value>,
      path: Path, layer: string)
    requires newer.Node? && TracksBelow(before, children, path) && SameElsewhere(start, before, path)
    requires CreditsBelow(start, before, newer, Given(newer.children), path, layer)
    requires after == if children.Keys != {} then before - {path} else if path != [] then before[path := layer]
      else before
    ensures Tracks(after, Node(children), path) && SameElsewhere(start, after, path) &&
      Credits(start, after, newer, path, layer)
  {
    forall q | path <= q && q != [] ensures q in after <==> IsLeafPath(Node(children), q[|path|..]) {
      if q != path {
        assert path < q;
        PathStep(path, q[|path|], q);
      }
    }
    forall q | path <= q && q in after && q != []
      ensures if Mentions(newer, q[|path|..]) then after[q] == layer else q in start && after[q] == start[q]
    {
      if q == path {
        assert q[|path|..] == [];
      } else {
        assert path < q;
        PathStep(path, q[|path|], q);
        assert KindAt(newer, q[|path|..]) == if q[|path|] in newer.children then
          KindAt(newer.children[q[|path|]], q[|path| + 1..]) else Absent;
      }
    }
  }

  class Merging {
    var sources: Sources

    constructor ()
      ensures sources == map[]
    {
      sources := map[];
    }

    method Discard(path: Path)
      modifies this
      ensures SameElsewhere(old(sources), sources, path)
      ensures forall q | path <= q :: q !in sources
    {
      var before := sources;
      var todo := before.Keys;
      while todo != {}
        invariant todo <= before.Keys
        invariant forall q :: q in sources <==> q in before && (q in todo || !(path <= q))
        invariant forall q | q in sources :: sources[q] == before[q]
        decreases |todo|
      {
        var key :| key in todo;
        if path <= key {
          sources := sources - {key};
        }
        todo := todo - {key};
      }
    }

    method Merge(older: Value, newer: Value, path: Path, layer: string) returns (result: Value)
      requires Tracks(sources, older, path) && (path == [] ==> older.Node? && newer.Node?)
      modifies this
      ensures result == Merged(older, newer)
      ensures Tracks(sources, result, path) && SameElsewhere(old(sources), sources, path)
      ensures Credits(old(sources), sources, newer, path, layer)
      ensures path == [] && [] !in old(sources) ==> [] !in sources
      decreases newer, 1
    {
      hide Tracks, TracksBelow, Credits, CreditsBelow, SameElsewhere, IsLeafPath;
      ghost var start := sources;
      NothingMerged(start, older, newer, path, layer);
      if newer.Missing? {
        return older;
      }
      if !newer.Node? || !older.Node? {
        if !older.Missing? {
          Discard(path);
        }
      }
      if newer.Leaf? {
        LeafWritten(start, sources, older, newer, path, layer);
        sources := sources[path := layer];
        return newer;
      }
      LoopStarts(start, sources, older, newer, path, layer);
      var children := MergeKeys(older, newer, path, layer, start);
      result := Node(children);
      LastKeyMerged(start, sources, if children.Keys != {} then sources - {path}
        else if path != [] then sources[path := layer] else sources,
                    newer, children, path, layer);
      if children.Keys != {} {
        sources := sources - {path};
      } else if path != [] {
        sources := sources[path := layer];
      }
    }

    // The loop over the given keys of a mapping.
    method MergeKeys(older: Value, newer: Value, path: Path, layer: string, ghost start: Sources)
        returns (children: map<string, Value>)
      requires newer.Node? && TracksBelow(sources, if older.Node? then older.children else map[], path)
      requires SameElsewhere(start, sources, path) && CreditsBelow(start, sources, newer, {}, path, layer)
      modifies this
      ensures Node(children) == Merged(older, newer)
      ensures TracksBelow(sources, children, path) && SameElsewhere(start, sources, path)
      ensures CreditsBelow(start, sources, newer, Given(newer.children), path, layer)
      ensures [] in sources ==> [] in old(sources)
      decreases newer, 0
    {
      hide Tracks, TracksBelow, Credits, CreditsBelow, SameElsewhere, IsLeafPath, MergedOver, Merged;
      MergedOverAll(older, newer);
      children := if older.Node? then older.children else map[];
      var todo := Given(newer.children);
      ghost var done: set<string> := {};
      while todo != {}
        invariant todo + done == Given(newer.children) && todo * done == {}
        invariant children == MergedOver(older, newer, done)
        invariant TracksBelow(sources, children, path) && SameElsewhere(start, sources, path)
        invariant CreditsBelow(start, sources, newer, done, path, layer)
        invariant [] in sources ==> [] in old(sources)
        decreases |todo|
      {
        var key :| key in todo;
        ghost var before := sources;
        ChildTracks(sources, children, path, key);
        NotYetMerged(older, newer, done, key);
        var child := Merge(if key in children then children[key]
          else Missing, newer.children[key], path + [key], layer);
        RootUntouched(before, sources, path, key);
        KeyMerged(start, before, sources, newer, children, child, done, path, key, layer);
        MergedOverGrows(older, newer, done, key);
        children := children[key := child];
        done := done + {key};
        todo := todo - {key};
      }
      assert done == Given(newer.children);
    }
  }

  lemma NotYetMerged(older: Value, newer: Value, done: set<string>, key: string)
    requires newer.Node? && done <= newer.children.Keys && key in newer.children && key !in done
    ensures var children := MergedOver(older, newer, done);
            (if key in children then children[key] else Missing) == Child(older, key)
  {
  }

  lemma RootUntouched(before: Sources, after: Sources, path: Path, key: string)
    requires SameElsewhere(before, after, path + [key])
    ensures [] in after ==> [] in before
  {
    assert !(path + [key] <= []);
  }

  lemma NothingMerged(start: Sources, older: Value, newer: Value, path: Path, layer: string)
    ensures SameElsewhere(start, start, path)
    ensures newer.Missing? ==> Credits(start, start, newer, path, layer)
  {
  }

  lemma LeafWritten(start: Sources, cleared: Sources, older: Value, newer: Value, path: Path, layer: string)
    requires newer.Leaf? && path != [] && SameElsewhere(start, cleared, path) && Tracks(start, older, path)
    requires if older.Missing? then cleared == start else forall q | path <= q :: q !in cleared
    ensures var after := cleared[path := layer];
            Tracks(after, newer, path) && SameElsewhere(start, after, path) && Credits(start, after, newer, path, layer)
  {
    var after := cleared[path := layer];
    forall q | path <= q ensures q in after <==> q[|path|..] == [] {
      if q[|path|..] == [] {
        assert q == path;
      }
    }
  }

  lemma LoopStarts(start: Sources, cleared: Sources, older: Value, newer: Value, path: Path, layer: string)
    requires newer.Node? && SameElsewhere(start, cleared, path) && Tracks(start, older, path)
    requires if older.Missing? || older.Node? then cleared == start else forall q | path <= q :: q !in cleared
    ensures TracksBelow(cleared, if older.Node? then older.children else map[], path)
    ensures CreditsBelow(start, cleared, newer, {}, path, layer)
  {
    forall q | path < q
      ensures older.Node? ==> q[|path|..] != [] && q[|path|..][0] == q[|path|] && q[|path|..][1..] == q[|path| + 1..]
    {
      PathStep(path, q[|path|], q);
    }
  }

  predicate AllLayers(layers: seq<Layer>) {
    forall i | 0 <= i < |layers| :: IsLayer(layers[i])
  }

  // Every leaf still left was credited to the last layer that mentions it.
  lemma LayerCredited(layers: seq<Layer>, n: nat, before: Sources, after: Sources)
    requires n < |layers| && layers[n].values.Node? && IsProvenance(layers[..n], before)
    requires Tracks(after, MergedAll(layers[..n + 1]), []) && [] !in after
    requires Credits(before, after, layers[n].values, [], layers[n].name)
    ensures IsProvenance(layers[..n + 1], after)
  {
    hide MergedAll, Mentions, IsLeafPath;
    var longer := layers[..n + 1];
    assert forall q: Path :: q[0..] == q && [] <= q;
    forall p | p in after ensures exists i :: LastToMention(longer, i, p) && after[p] == longer[i].name {
      assert p[0..] == p;
      if Mentions(layers[n].values, p) {
        assert LastToMention(longer, n, p);
      } else {
        var i :| LastToMention(layers[..n], i, p) && before[p] == layers[..n][i].name;
        LastStays(layers, n, i, p);
      }
    }
  }

  lemma LastStays(layers: seq<Layer>, n: nat, i: int, p: Path)
    requires n < |layers| && LastToMention(layers[..n], i, p) && !Mentions(layers[n].values, p)
    ensures LastToMention(layers[..n + 1], i, p) && layers[..n + 1][i].name == layers[..n][i].name
  {
    var longer := layers[..n + 1];
    assert forall j | 0 <= j < n :: longer[j] == layers[..n][j];
  }

  // merge_layers: the data is the path-by-path merge, and the table is its provenance; a bad layer
  // refuses everything.
  method MergeLayers(layers: seq<Layer>) returns (r: Result<(Value, Sources)>)
    ensures r.Ok? <==> AllLayers(layers)
    ensures r.Ok? ==> r.value.0 == MergedAll(layers) && IsProvenance(layers, r.value.1)
  {
    hide Tracks, Credits, IsProvenance, SameElsewhere, Merged;
    var merging := new Merging();
    var data := Node(map[]);
    assert layers[..0] == [];
    NothingYet();
    for i := 0 to |layers|
      invariant fresh(merging) && data == MergedAll(layers[..i]) && data.Node? && [] !in merging.sources
      invariant Tracks(merging.sources, data, []) && IsProvenance(layers[..i], merging.sources)
      invariant forall j | 0 <= j < i :: IsLayer(layers[j])
    {
      if !IsLayer(layers[i]) {
        return Conflict;
      }
      assert layers[..i + 1][..i] == layers[..i];
      ghost var before := merging.sources;
      MergedNode(data, layers[i].values);
      data := merging.Merge(data, layers[i].values, [], layers[i].name);
      LayerCredited(layers, i, before, merging.sources);
    }
    assert layers[..|layers|] == layers;
    r := Ok((data, merging.sources));
  }

  lemma NothingYet()
    ensures Tracks(map[], Node(map[]), []) && IsProvenance([], map[])
  {
  }

  lemma MergedNode(older: Value, newer: Value)
    requires newer.Node?
    ensures Merged(older, newer).Node?
  {
  }
}
