/** Laws of the selector operations: write then read, frame conditions, idempotence, and the exact
    rule for which pairs of selectors may be managed together. */
module DocumentLaws {
  import opened Wrappers
  import opened NativeDocument

  lemma {:induction false} PutThenField(d: Doc, s: Selector, v: Projection)
    requires s != []
    ensures Put(d, s, v).Ok? <==> Field(d, s).Ok?
    ensures Put(d, s, v).Ok? ==> Put(d, s, v).value.Dict? && Field(Put(d, s, v).value, s) == Ok(v)
    decreases |s|
  {
    if d.Dict? && |s| > 1 {
      var child := if s[0] in d.entries then d.entries[s[0]] else EMPTY;
      PutThenField(child, s[1..], v);
    }
  }

  lemma {:induction false} PutSameIsIdentity(d: Doc, s: Selector, v: Projection)
    requires s != []
    requires Field(d, s) == Ok(v)
    ensures Put(d, s, v) == Ok(d)
    decreases |s|
  {
    if |s| == 1 {
      if v.Some? {
        assert s[1..] == [];
        assert d.entries[s[0] := v.value] == d.entries;
      } else {
        assert d.entries - {s[0]} == d.entries;
      }
    } else if s[0] in d.entries {
      PutSameIsIdentity(d.entries[s[0]], s[1..], v);
      assert d.entries[s[0] := d.entries[s[0]]] == d.entries;
    }
  }

  lemma {:induction false} PutFrame(d: Doc, s: Selector, v: Projection, t: Selector)
    requires s != [] && !Related(s, t)
    requires Put(d, s, v).Ok?
    ensures Field(Put(d, s, v).value, t) == Field(d, t)
    decreases |s|
  {
    if t[0] == s[0] && |s| > 1 && !(s[0] !in d.entries && v.None?) {
      var child := if s[0] in d.entries then d.entries[s[0]] else EMPTY;
      assert s == [s[0]] + s[1..] && t == [t[0]] + t[1..];
      PutFrame(child, s[1..], v, t[1..]);
    }
  }

  // The rule that desired_items enforces is exact: managing two fields together is safe for every
  // document and every value if and only if neither selector is a prefix of the other.
  ghost predicate Independent(s: Selector, t: Selector)
    requires s != []
  {
    forall d: Doc, v: Projection :: Put(d, s, v).Ok? ==> Field(Put(d, s, v).value, t) == Field(d, t)
  }

  lemma {:induction false} OverlapRuleIsExact(s: Selector, t: Selector)
    requires s != [] && t != []
    ensures Independent(s, t) <==> !Related(s, t)
  {
    if !Related(s, t) {
      forall d: Doc, v: Projection | Put(d, s, v).Ok? ensures Field(Put(d, s, v).value, t) == Field(d, t) {
        PutFrame(d, s, v, t);
      }
    } else if t <= s {
      var v := Some(Scalar(""));
      PutThenField(EMPTY, s, v);
      SpineAbove(EMPTY, s, v, t);
      assert Put(EMPTY, s, v).Ok? && Field(EMPTY, t) == Ok(None);
    } else {
      var below := t[|s|..];
      var v := Some(Spine(below));
      assert t == s + below;
      PutThenField(EMPTY, s, v);
      SpineReaches(below);
      FieldCompose(Put(EMPTY, s, v).value, s, below);
      assert Put(EMPTY, s, v).Ok? && Field(EMPTY, t) == Ok(None);
    }
  }

  // The document that holds only the path s, ending in a scalar.
  function Spine(s: Selector): Doc {
    if s == [] then Scalar("") else Dict(map[s[0] := Spine(s[1..])])
  }

  lemma {:induction false} SpineReaches(s: Selector)
    ensures Field(Spine(s), s) == Ok(Some(Scalar("")))
  {
    if s != [] {
      SpineReaches(s[1..]);
    }
  }

  lemma {:induction false} SpineAbove(d: Doc, s: Selector, v: Projection, t: Selector)
    requires s != [] && t <= s && v.Some? && Put(d, s, v).Ok?
    ensures Field(Put(d, s, v).value, t).Ok? && Field(Put(d, s, v).value, t).value.Some?
    decreases |s|
  {
    if |s| > 1 && t != [] {
      var child := if s[0] in d.entries then d.entries[s[0]] else EMPTY;
      SpineAbove(child, s[1..], v, t[1..]);
    }
  }

  // Reading along a concatenated path is reading twice.
  lemma {:induction false} FieldCompose(d: Doc, s: Selector, t: Selector)
    ensures Field(d, s + t) ==
            if Field(d, s).Conflict? then Conflict
            else if Field(d, s).value.None? then Ok(None)
            else Field(Field(d, s).value.value, t)
  {
    if s == [] {
      assert s + t == t;
    } else if d.Dict? && s[0] in d.entries {
      assert (s + t)[1..] == s[1..] + t;
      FieldCompose(d.entries[s[0]], s[1..], t);
    }
  }

  // Pruning one recorded parent is removing it, and happens only when it is an empty object.
  lemma {:induction false} PruneIsRemoval(d: Doc, p: Selector)
    ensures p != [] && Field(d, p) == Ok(Some(EMPTY)) ==> Put(d, p, None) == Ok(Prune(d, p))
    ensures p == [] || Field(d, p) != Ok(Some(EMPTY)) ==> Prune(d, p) == d
    decreases |p|
  {
    if d.Dict? && p != [] && p[0] in d.entries {
      var child := d.entries[p[0]];
      if |p| == 1 {
        assert Field(child, p[1..]) == Ok(Some(child));
      } else {
        PruneIsRemoval(child, p[1..]);
        assert d.entries[p[0] := child] == d.entries;
      }
    }
  }

  lemma PruneFrame(d: Doc, p: Selector, t: Selector)
    requires !(t <= p)
    ensures Field(Prune(d, p), t) == Field(d, t)
  {
    PruneIsRemoval(d, p);
    if p != [] && Field(d, p) == Ok(Some(EMPTY)) {
      if p <= t {
        var rest := t[|p|..];
        assert t == p + rest && rest != [];
        PutThenField(d, p, None);
        FieldCompose(d, p, rest);
        FieldCompose(Prune(d, p), p, rest);
      } else {
        PutFrame(d, p, None, t);
      }
    }
  }

  ghost predicate Below(ps: seq<Selector>, t: Selector) {
    forall i | 0 <= i < |ps| :: !(t <= ps[i])
  }

  lemma {:induction false} PruneEachFrame(d: Doc, ps: seq<Selector>, t: Selector)
    requires Below(ps, t)
    ensures Field(PruneEach(d, ps), t) == Field(d, t)
    decreases |ps|
  {
    if ps != [] {
      PruneFrame(d, ps[0], t);
      PruneEachFrame(Prune(d, ps[0]), ps[1..], t);
    }
  }

  ghost predicate Descending(ps: seq<Selector>) {
    forall i, j | 0 <= i < j < |ps| :: |ps[i]| >= |ps[j]|
  }

  lemma {:induction false} InsertDescending(p: Selector, ps: seq<Selector>)
    requires Descending(ps)
    ensures Descending(Insert(p, ps))
    ensures forall q :: q in Insert(p, ps) <==> q == p || q in ps
    ensures |Insert(p, ps)| > 0
  {
    if ps != [] && |ps[0]| > |p| {
      InsertDescending(p, ps[1..]);
      var rest := Insert(p, ps[1..]);
      forall j | 0 <= j < |rest| ensures |rest[j]| <= |ps[0]| {
        assert rest[j] in rest;
      }
      assert ps == [ps[0]] + ps[1..];
    }
  }

  lemma {:induction false} DeepestFirstSorts(ps: seq<Selector>)
    ensures Descending(DeepestFirst(ps))
    ensures forall q :: q in DeepestFirst(ps) <==> q in ps
  {
    if ps != [] {
      DeepestFirstSorts(ps[1..]);
      InsertDescending(ps[0], DeepestFirst(ps[1..]));
      assert ps == [ps[0]] + ps[1..];
    }
  }

  ghost predicate HoldsEmpty(d: Doc, p: Selector) {
    Field(d, p) == Ok(Some(EMPTY))
  }

  // Deepest first is what makes one pass enough: no recorded parent is left empty.
  lemma {:induction false} PruneEachLeavesNoneEmpty(d: Doc, ps: seq<Selector>, p: Selector)
    requires Descending(ps) && p != []
    requires p in ps || (!HoldsEmpty(d, p) && forall i | 0 <= i < |ps| :: |ps[i]| <= |p|)
    ensures !HoldsEmpty(PruneEach(d, ps), p)
    decreases |ps|
  {
    if ps != [] {
      var d' := Prune(d, ps[0]);
      if p == ps[0] {
        PruneIsRemoval(d, p);
        if HoldsEmpty(d, p) {
          PutThenField(d, p, None);
        }
      } else if p !in ps[1..] {
        assert !(p <= ps[0]);
        PruneFrame(d, ps[0], p);
      }
      PruneEachLeavesNoneEmpty(d', ps[1..], p);
    }
  }

  lemma PruneCreatedLeavesNoneEmpty(d: Doc, ps: seq<Selector>, p: Selector)
    requires p in ps && p != []
    ensures !HoldsEmpty(PruneCreated(d, ps), p)
  {
    DeepestFirstSorts(ps);
    PruneEachLeavesNoneEmpty(d, DeepestFirst(ps), p);
  }

  lemma PruneCreatedFrame(d: Doc, ps: seq<Selector>, t: Selector)
    requires Below(ps, t)
    ensures Field(PruneCreated(d, ps), t) == Field(d, t)
  {
    DeepestFirstSorts(ps);
    var sorted := DeepestFirst(ps);
    forall i | 0 <= i < |sorted| ensures !(t <= sorted[i]) {
      assert sorted[i] in ps;
    }
    PruneEachFrame(d, sorted, t);
  }

  // From some depth on, the list holds exactly the prefixes of s that are not in the document.
  ghost predicate ListsMissing(root: Doc, s: Selector, depth: nat, r: Result<seq<Selector>>) {
    (r.Ok? <==> Field(root, s).Ok?) &&
    (r.Ok? ==>
      (forall k | depth < k < |s| :: s[..k] in r.value <==> Field(root, s[..k]) == Ok(None)) &&
      forall p | p in r.value :: depth < |p| < |s| && p <= s)
  }

  lemma AddMissing(root: Doc, s: Selector, depth: nat, r: Result<seq<Selector>>)
    requires depth + 1 < |s| && ListsMissing(root, s, depth + 1, r) && Field(root, s[..depth + 1]) == Ok(None)
    ensures ListsMissing(root, s, depth, if r.Ok? then Ok([s[..depth + 1]] + r.value) else Conflict)
  {
    forall k | depth < k < |s| && r.Ok? ensures s[..k] in [s[..depth + 1]] + r.value <==>
      Field(root, s[..k]) == Ok(None) {
      if k > depth + 1 {
        assert |s[..k]| != |s[..depth + 1]|;
      }
    }
  }

  lemma AddPresent(root: Doc, s: Selector, depth: nat, r: Result<seq<Selector>>)
    requires depth + 1 < |s| && ListsMissing(root, s, depth + 1, r) && Field(root, s[..depth + 1]).Ok? &&
      Field(root, s[..depth + 1]) != Ok(None)
    ensures ListsMissing(root, s, depth, r)
  {
    assert |s[..depth + 1]| == depth + 1;
  }

  // What plan records about a new field: exactly the proper ancestors that are not in the document.
  lemma {:induction false} MissingFromIsExact(root: Doc, current: Doc, s: Selector, depth: nat)
    requires depth < |s| && current.Dict?
    requires Field(root, s[..depth]) == Ok(Some(current)) ||
             (current == EMPTY && depth > 0 && Field(root, s[..depth]) == Ok(None))
    ensures ListsMissing(root, s, depth, MissingFrom(current, s, depth))
    decreases |s| - depth
  {
    assert s[..depth] + s[depth..] == s;
    FieldCompose(root, s[..depth], s[depth..]);
    if depth + 1 < |s| {
      var key := s[depth];
      assert s[..depth] + [key] == s[..depth + 1];
      FieldCompose(root, s[..depth], [key]);
      hide ListsMissing;
      if key !in current.entries {
        MissingFromIsExact(root, EMPTY, s, depth + 1);
        AddMissing(root, s, depth, MissingFrom(EMPTY, s, depth + 1));
      } else if current.entries[key].Dict? {
        assert Field(current.entries[key], [key][1..]) == Ok(Some(current.entries[key]));
        MissingFromIsExact(root, current.entries[key], s, depth + 1);
        AddPresent(root, s, depth, MissingFrom(current.entries[key], s, depth + 1));
      } else {
        NothingBelowScalar(root, s, depth);
      }
    }
  }

  lemma NothingBelowScalar(root: Doc, s: Selector, depth: nat)
    requires depth + 1 < |s| && Field(root, s[..depth + 1]).Ok? && Field(root, s[..depth + 1]).value.Some? &&
      Field(root, s[..depth + 1]).value.value.Scalar?
    ensures ListsMissing(root, s, depth, Conflict)
  {
    assert s[..depth + 1] + s[depth + 1..] == s;
    FieldCompose(root, s[..depth + 1], s[depth + 1..]);
  }

  lemma MissingParentsAreExact(d: Doc, s: Selector)
    requires d.Dict? && s != []
    ensures MissingParents(d, s).Ok? <==> Field(d, s).Ok?
    ensures MissingParents(d, s).Ok? ==>
              forall p :: p in MissingParents(d, s).value <==>
                p != [] && p < s && Field(d, p) == Ok(None)
  {
    assert s[..0] == [];
    MissingFromIsExact(d, d, s, 0);
    forall p | p != [] && p < s ensures p == s[..|p|] && 0 < |p| < |s| {
    }
  }

  // Writing below an object never removes it.
  lemma {:induction false} PutKeepsAncestors(d: Doc, s: Selector, v: Projection, p: Selector)
    requires s != [] && p < s && Put(d, s, v).Ok?
    requires Field(d, p).Ok? && (v.Some? || Field(d, p).value.Some?)
    ensures Field(Put(d, s, v).value, p).Ok? && Field(Put(d, s, v).value, p).value.Some?
    decreases |s|
  {
    if p != [] {
      assert p == [p[0]] + p[1..] && s == [s[0]] + s[1..];
      var child := if s[0] in d.entries then d.entries[s[0]] else EMPTY;
      if s[0] !in d.entries && |p| > 1 {
        assert Field(EMPTY, p[1..]) == Ok(None);
      }
      if s[0] in d.entries || v.Some? {
        PutKeepsAncestors(child, s[1..], v, p[1..]);
      }
    }
  }

  lemma PruneKeepsOthers(d: Doc, q: Selector, p: Selector)
    requires p != q && Field(d, p).Ok? && Field(d, p).value.Some?
    ensures Field(Prune(d, q), p).Ok? && Field(Prune(d, q), p).value.Some?
  {
    PruneIsRemoval(d, q);
    if q != [] && HoldsEmpty(d, q) {
      if p <= q {
        PutKeepsAncestors(d, q, None, p);
      } else {
        PruneFrame(d, q, p);
      }
    }
  }

  lemma {:induction false} PruneEachKeepsOthers(d: Doc, ps: seq<Selector>, p: Selector)
    requires p !in ps && Field(d, p).Ok? && Field(d, p).value.Some?
    ensures Field(PruneEach(d, ps), p).Ok? && Field(PruneEach(d, ps), p).value.Some?
    decreases |ps|
  {
    if ps != [] {
      PruneKeepsOthers(d, ps[0], p);
      PruneEachKeepsOthers(Prune(d, ps[0]), ps[1..], p);
    }
  }
}
