/** The in-place document operations of deployment.py: each walks the key path step by step and is
    proved to compute the function of the same name in NativeDocument. */
module DocumentEditor {
  import opened Wrappers
  import opened NativeDocument
  import opened DocumentLaws

  class NativeFile {
    var root: Doc

    constructor (document: Doc)
      requires document.Dict?
      ensures root == document
    {
      root := document;
    }

    method GetField(s: Selector) returns (r: Result<Projection>)
      ensures r == Field(root, s)
    {
      var current := root;
      for i := 0 to |s|
        invariant Field(root, s) == Field(current, s[i..])
      {
        assert s[i..][1..] == s[i + 1..];
        if current.Scalar? {
          return Conflict;
        }
        if s[i] !in current.entries {
          return Ok(None);
        }
        current := current.entries[s[i]];
      }
      r := Ok(Some(current));
    }

    method FindMissingParents(s: Selector) returns (r: Result<seq<Selector>>)
      requires root.Dict? && s != []
      ensures r == MissingParents(root, s)
    {
      var result: seq<Selector> := [];
      var current := root;
      ghost var rest := MissingFrom(current, s, 0);
      assert rest.Ok? ==> result + rest.value == rest.value;
      for i := 0 to |s| - 1
        invariant current.Dict? && rest == MissingFrom(current, s, i)
        invariant rest.Conflict? ==> MissingParents(root, s) == Conflict
        invariant rest.Ok? ==> MissingParents(root, s) == Ok(result + rest.value)
      {
        if s[i] !in current.entries {
          rest := MissingFrom(EMPTY, s, i + 1);
          assert rest.Ok? ==> result + ([s[..i + 1]] + rest.value) == result + [s[..i + 1]] + rest.value;
          result := result + [s[..i + 1]];
          current := EMPTY;
        } else {
          current := current.entries[s[i]];
          if current.Scalar? {
            return Conflict;
          }
          rest := MissingFrom(current, s, i + 1);
        }
      }
      assert result + [] == result;
      r := Ok(result);
    }

    // Walks down creating missing parents, writes the last key, and stores the changed objects
    // back on the way up.
    method PutField(s: Selector, v: Projection) returns (ok: bool)
      requires root.Dict? && s != []
      modifies this
      ensures ok <==> Put(old(root), s, v).Ok?
      ensures root == if ok then Put(old(root), s, v).value else old(root)
    {
      var spine: seq<map<string, Doc>> := [];
      var current := root.entries;
      for i := 0 to |s| - 1
        invariant root == old(root) && |spine| == i
        invariant Put(root, s, v) ==
                  if Put(Dict(current), s[i..], v).Conflict? then Conflict
                  else Ok(Rebuild(spine, s, Put(Dict(current), s[i..], v).value))
      {
        var key := s[i];
        assert s[i..][0] == key && s[i..][1..] == s[i + 1..];
        var child := EMPTY;
        if key in current {
          child := current[key];
        } else if v.None? {
          root := Store(spine, s, Dict(current));
          return true;
        }
        if child.Scalar? {
          return false;
        }
        if Put(child, s[i + 1..], v).Ok? {
          RebuildStep(spine, s, current, Put(child, s[i + 1..], v).value);
        }
        spine := spine + [current];
        current := child.entries;
      }
      var last := s[|s| - 1];
      assert s[|s| - 1..] == [last];
      root := Store(spine, s, Dict(if v.Some? then current[last := v.value] else current - {last}));
      ok := true;
    }

    method PruneCreatedParents(ps: seq<Selector>)
      modifies this
      ensures root == PruneCreated(old(root), ps)
    {
      var sorted := DeepestFirst(ps);
      for i := 0 to |sorted|
        invariant PruneEach(root, sorted[i..]) == PruneCreated(old(root), ps)
      {
        assert sorted[i..][0] == sorted[i] && sorted[i..][1..] == sorted[i + 1..];
        var held := GetField(sorted[i]);
        PruneIsRemoval(root, sorted[i]);
        if sorted[i] != [] && held == Ok(Some(EMPTY)) {
          root := Put(root, sorted[i], None).value;
        }
      }
    }
  }

  // Put child at the end of the key path whose objects are spine.
  function Rebuild(spine: seq<map<string, Doc>>, keys: Selector, child: Doc): Doc
    requires |spine| <= |keys|
  {
    if spine == [] then child
    else
      var n := |spine| - 1;
      Rebuild(spine[..n], keys, Dict(spine[n][keys[n] := child]))
  }

  lemma RebuildStep(spine: seq<map<string, Doc>>, keys: Selector, current: map<string, Doc>, child: Doc)
    requires |spine| < |keys|
    ensures Rebuild(spine + [current], keys, child) == Rebuild(spine, keys, Dict(current[keys[|spine|] := child]))
  {
    assert (spine + [current])[..|spine|] == spine;
  }

  method Store(spine: seq<map<string, Doc>>, keys: Selector, child: Doc) returns (document: Doc)
    requires |spine| <= |keys|
    ensures document == Rebuild(spine, keys, child)
  {
    document := child;
    var i := |spine|;
    assert spine[..i] == spine;
    while i > 0
      invariant 0 <= i <= |spine|
      invariant Rebuild(spine[..i], keys, document) == Rebuild(spine, keys, child)
    {
      i := i - 1;
      assert spine[..i + 1][..i] == spine[..i];
      document := Dict(spine[i][keys[i] := document]);
    }
  }
}
