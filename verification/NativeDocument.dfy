/** Native configuration documents and the selector operations of deployment.py: read a field,
    write a field creating its parents, list the missing parents, prune recorded empty parents. */
module NativeDocument {
  import opened Wrappers

  // Lists and scalars are opaque to the deployer; only objects have structure.
  datatype Doc = Scalar(text: string) | Dict(entries: map<string, Doc>)

  const EMPTY := Dict(map[])

  // A selector is the key path of a JSON pointer. The empty path stands for the whole document.
  type Selector = seq<string>

  // What a managed field holds: nothing, or a value.
  type Projection = Option<Doc>

  predicate Related(s: Selector, t: Selector) {
    s <= t || t <= s
  }

  function Field(current: Doc, s: Selector): Result<Projection> {
    if s == [] then Ok(Some(current))
    else if current.Scalar? then Conflict
    else if s[0] !in current.entries then Ok(None)
    else Field(current.entries[s[0]], s[1..])
  }

  function Put(current: Doc, s: Selector, v: Projection): Result<Doc>
    requires s != []
    decreases |s|
  {
    if current.Scalar? then Conflict
    else if |s| == 1 then
      Ok(Dict(if v.Some? then current.entries[s[0] := v.value] else current.entries - {s[0]}))
    else if s[0] !in current.entries && v.None? then Ok(current)
    else
      var child :- Put(if s[0] in current.entries then current.entries[s[0]] else EMPTY, s[1..], v);
      Ok(Dict(current.entries[s[0] := child]))
  }

  // The nonempty proper prefixes of s, shortest first, from the first one that is not in the document.
  function MissingFrom(current: Doc, s: Selector, depth: nat): Result<seq<Selector>>
    requires depth < |s|
    decreases |s| - depth
  {
    if depth + 1 == |s| then Ok([])
    else if current.Scalar? then Conflict
    else if s[depth] !in current.entries then
      var rest :- MissingFrom(EMPTY, s, depth + 1);
      Ok([s[..depth + 1]] + rest)
    else if current.entries[s[depth]].Scalar? then Conflict
    else MissingFrom(current.entries[s[depth]], s, depth + 1)
  }

  function MissingParents(document: Doc, s: Selector): Result<seq<Selector>>
    requires s != []
  {
    MissingFrom(document, s, 0)
  }

  function Prune(current: Doc, p: Selector): (r: Doc)
    ensures current.Dict? ==> r.Dict?
  {
    if current.Scalar? || p == [] || p[0] !in current.entries then current
    else if |p| == 1 then
      if current.entries[p[0]] == EMPTY then Dict(current.entries - {p[0]}) else current
    else Dict(current.entries[p[0] := Prune(current.entries[p[0]], p[1..])])
  }

  function PruneEach(document: Doc, ps: seq<Selector>): (r: Doc)
    ensures document.Dict? ==> r.Dict?
    decreases |ps|
  {
    if ps == [] then document else PruneEach(Prune(document, ps[0]), ps[1..])
  }

  // Stable insertion keeps equally deep selectors in their given order.
  function Insert(p: Selector, ps: seq<Selector>): seq<Selector> {
    if ps == [] || |ps[0]| <= |p| then [p] + ps else [ps[0]] + Insert(p, ps[1..])
  }

  function DeepestFirst(ps: seq<Selector>): seq<Selector> {
    if ps == [] then [] else Insert(ps[0], DeepestFirst(ps[1..]))
  }

  function PruneCreated(document: Doc, ps: seq<Selector>): (r: Doc)
    ensures document.Dict? ==> r.Dict?
  {
    PruneEach(document, DeepestFirst(ps))
  }
}
