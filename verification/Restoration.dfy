/** Applying a group of field changes to one document, undoing it, and what undoing gives back.
    A group is written by write_changes; undoing is the same pass over the reversed changes, in
    the same order, so it is not a stack discipline and needs its own argument. */
module Restoration {
  import opened Wrappers
  import opened NativeDocument
  import opened DocumentLaws

  datatype FieldChange = FieldChange(selector: Selector, before: Projection, after: Projection, parents: seq<Selector>)

  function Reverse(c: FieldChange): FieldChange {
    c.(before := c.after, after := c.before)
  }

  function ReverseAll(cs: seq<FieldChange>): (r: seq<FieldChange>)
    ensures |r| == |cs| && forall i | 0 <= i < |cs| :: r[i] == Reverse(cs[i])
  {
    seq(|cs|, i requires 0 <= i < |cs| => Reverse(cs[i]))
  }

  function Write(d: Doc, c: FieldChange): Result<Doc>
    requires c.selector != []
  {
    var put :- Put(d, c.selector, c.after);
    Ok(if c.after.None? then PruneCreated(put, c.parents) else put)
  }

  // One change: already done is skipped, a third value is refused.
  function Step(d: Doc, c: FieldChange): Result<Doc>
    requires c.selector != []
  {
    var current :- Field(d, c.selector);
    if current == c.after then Ok(d)
    else if current != c.before then Conflict
    else Write(d, c)
  }

  function Rewrite(d: Doc, cs: seq<FieldChange>): Result<Doc>
    requires forall i | 0 <= i < |cs| :: cs[i].selector != []
    decreases |cs|
  {
    if cs == [] then Ok(d)
    else
      var next :- Step(d, cs[0]);
      Rewrite(next, cs[1..])
  }

  // Recorded parents are proper ancestors of their own selector (validate_item_guard).
  ghost predicate OwnParents(c: FieldChange) {
    c.selector != [] && forall i | 0 <= i < |c.parents| :: c.parents[i] != [] && c.parents[i] < c.selector
  }

  ghost predicate WellFormed(cs: seq<FieldChange>) {
    (forall i | 0 <= i < |cs| :: OwnParents(cs[i])) &&
    (forall i, j | 0 <= i < j < |cs| :: !Related(cs[i].selector, cs[j].selector))
  }

  ghost predicate AtEither(d: Doc, c: FieldChange) {
    Field(d, c.selector) == Ok(c.before) || Field(d, c.selector) == Ok(c.after)
  }

  ghost predicate Apart(t: Selector, cs: seq<FieldChange>) {
    forall i | 0 <= i < |cs| :: !Related(cs[i].selector, t)
  }

  lemma StepSettles(d: Doc, c: FieldChange)
    requires OwnParents(c) && d.Dict? && AtEither(d, c)
    ensures Step(d, c).Ok? && Step(d, c).value.Dict? && Field(Step(d, c).value, c.selector) == Ok(c.after)
  {
    PutThenField(d, c.selector, c.after);
    if Field(d, c.selector) != Ok(c.after) {
      PruneCreatedFrame(Put(d, c.selector, c.after).value, c.parents, c.selector);
    }
  }

  lemma StepFrame(d: Doc, c: FieldChange, t: Selector)
    requires OwnParents(c) && Step(d, c).Ok? && !Related(c.selector, t)
    ensures Field(Step(d, c).value, t) == Field(d, t)
  {
    if Field(d, c.selector) != Ok(c.after) {
      PutFrame(d, c.selector, c.after, t);
      forall i | 0 <= i < |c.parents| ensures !(t <= c.parents[i]) {
      }
      PruneCreatedFrame(Put(d, c.selector, c.after).value, c.parents, t);
    }
  }

  // A group of independent changes always executes fully, from any mixture of done and not done.
  lemma {:induction false} RewriteSettles(d: Doc, cs: seq<FieldChange>)
    requires WellFormed(cs) && d.Dict? && forall i | 0 <= i < |cs| :: AtEither(d, cs[i])
    ensures Rewrite(d, cs).Ok? && Rewrite(d, cs).value.Dict?
    ensures forall i | 0 <= i < |cs| :: Field(Rewrite(d, cs).value, cs[i].selector) == Ok(cs[i].after)
    decreases |cs|
  {
    if cs != [] {
      StepSettles(d, cs[0]);
      var next := Step(d, cs[0]).value;
      var rest := cs[1..];
      forall i | 0 <= i < |rest| ensures AtEither(next, rest[i]) {
        StepFrame(d, cs[0], rest[i].selector);
      }
      RewriteSettles(next, rest);
      assert Apart(cs[0].selector, rest);
      RewriteFrame(next, rest, cs[0].selector);
      forall i | 0 < i < |cs| ensures Field(Rewrite(d, cs).value, cs[i].selector) == Ok(cs[i].after) {
        assert cs[i] == rest[i - 1];
      }
    }
  }

  lemma {:induction false} RewriteFrame(d: Doc, cs: seq<FieldChange>, t: Selector)
    requires WellFormed(cs) && Rewrite(d, cs).Ok? && Apart(t, cs)
    ensures Field(Rewrite(d, cs).value, t) == Field(d, t)
    decreases |cs|
  {
    if cs != [] {
      StepFrame(d, cs[0], t);
      RewriteFrame(Step(d, cs[0]).value, cs[1..], t);
    }
  }

  // Fields may lie below one another, the upper one first.
  ghost predicate TopDown(cs: seq<FieldChange>) {
    (forall i | 0 <= i < |cs| :: OwnParents(cs[i])) &&
    (forall i, j | 0 <= i < j < |cs| && Related(cs[i].selector, cs[j].selector) :: cs[i].selector < cs[j].selector)
  }

  // A pass that completes found each change, or one above it, at one of its two values at the start.
  lemma {:induction false} CompletedMeansFound(d: Doc, cs: seq<FieldChange>, i: nat) returns (k: nat)
    requires TopDown(cs) && Rewrite(d, cs).Ok? && i < |cs|
    ensures k <= i && cs[k].selector <= cs[i].selector && AtEither(d, cs[k])
    decreases |cs|
  {
    if i == 0 || Related(cs[0].selector, cs[i].selector) {
      k := 0;
    } else {
      k := CompletedMeansFound(Step(d, cs[0]).value, cs[1..], i - 1);
      k := k + 1;
      StepFrame(d, cs[0], cs[k].selector);
    }
  }

  ghost predicate IsDue(d: Doc, c: FieldChange) {
    Field(d, c.selector) == Ok(c.before) && c.before != c.after
  }

  // Only a field that stood at the recorded before value is overwritten.
  lemma {:induction false} OnlyBeforeIsOverwritten(d: Doc, cs: seq<FieldChange>, t: Selector)
    requires TopDown(cs) && Rewrite(d, cs).Ok?
    requires forall i | 0 <= i < |cs| && Related(cs[i].selector, t) :: !IsDue(d, cs[i])
    ensures Field(Rewrite(d, cs).value, t) == Field(d, t)
    decreases |cs|
  {
    if cs != [] {
      var c, rest := cs[0], cs[1..];
      var next := Step(d, c).value;
      forall i | 0 <= i < |rest| && Related(rest[i].selector, t) ensures !IsDue(next, rest[i]) {
        assert rest[i] == cs[i + 1];
        if !Related(c.selector, rest[i].selector) {
          StepFrame(d, c, rest[i].selector);
        }
      }
      if !Related(c.selector, t) {
        StepFrame(d, c, t);
      }
      OnlyBeforeIsOverwritten(next, rest, t);
    }
  }

  // ---- What undoing restores ----

  datatype Kind = Missing | Leaf(text: string) | Node

  function KindAt(d: Doc, t: Selector): Kind {
    match Field(d, t)
    case Ok(Some(Scalar(text))) => Leaf(text)
    case Ok(Some(Dict(_))) => Node
    case _ => Missing
  }

  lemma FieldOne(d: Doc, k: string)
    requires d.Dict?
    ensures Field(d, [k]) == Ok(if k in d.entries then Some(d.entries[k]) else None)
  {
    assert [k][1..] == [];
  }

  lemma {:induction false} Extensional(d: Doc, e: Doc)
    requires forall t :: KindAt(d, t) == KindAt(e, t)
    ensures d == e
    decreases d
  {
    assert KindAt(d, []) == KindAt(e, []);
    if d.Dict? {
      forall k ensures k in d.entries <==> k in e.entries {
        FieldOne(d, k);
        FieldOne(e, k);
        assert KindAt(d, [k]) == KindAt(e, [k]);
      }
      forall k | k in d.entries ensures d.entries[k] == e.entries[k] {
        forall t ensures KindAt(d.entries[k], t) == KindAt(e.entries[k], t) {
          assert ([k] + t)[1..] == t;
          assert KindAt(d, [k] + t) == KindAt(e, [k] + t);
        }
        Extensional(d.entries[k], e.entries[k]);
      }
      assert d.entries == e.entries;
    }
  }

  ghost predicate Present(d: Doc, t: Selector) {
    Field(d, t).Ok? && Field(d, t).value.Some?
  }

  // p is a proper ancestor of some managed field.
  ghost predicate Above(p: Selector, cs: seq<FieldChange>) {
    p != [] && exists i :: 0 <= i < |cs| && p < cs[i].selector
  }

  // Every change records at least the parents that were missing in the original, as plan does.
  ghost predicate RecordsMissing(origin: Doc, cs: seq<FieldChange>) {
    forall i, p | 0 <= i < |cs| && p != [] && p < cs[i].selector && Field(origin, p) == Ok(None) :: p in cs[i].parents
  }

  // A recorded parent that was already there and empty is left for a later change of the group to
  // clear away; the last change below it does not record it.
  ghost predicate SparesEmpty(origin: Doc, cs: seq<FieldChange>) {
    forall i, p | 0 <= i < |cs| && p in cs[i].parents && HoldsEmpty(origin, p) :: BelowLater(cs, i, p)
  }

  ghost predicate BelowLater(cs: seq<FieldChange>, i: nat, p: Selector) {
    exists j :: i < j < |cs| && p < cs[j].selector
  }

  // What holds of a document at every moment between the original and its restoration.
  ghost predicate Tracks(origin: Doc, cs: seq<FieldChange>, d: Doc) {
    && d.Dict?
    && (forall i | 0 <= i < |cs| :: Field(d, cs[i].selector).Ok?)
    && (forall t | Apart(t, cs) :: Field(d, t) == Field(origin, t))
    && (forall p | Above(p, cs) && Field(origin, p) == Ok(None) && Present(d, p) :: Occupied(d, cs, p))
    && (forall p | Above(p, cs) && HoldsEmpty(origin, p) :: Present(d, p))
  }

  // A created container is there only for a managed field that is there.
  ghost predicate Occupied(d: Doc, cs: seq<FieldChange>, p: Selector) {
    exists j :: 0 <= j < |cs| && p <= cs[j].selector && Present(d, cs[j].selector)
  }

  lemma AncestorOfReadable(d: Doc, s: Selector, p: Selector)
    requires d.Dict? && p < s && Field(d, s).Ok?
    ensures Field(d, p).Ok? && (Field(d, p).value.Some? ==> Field(d, p).value.value.Dict?)
    ensures Present(d, s) ==> Present(d, p)
  {
    var rest := s[|p|..];
    assert s == p + rest;
    FieldCompose(d, p, rest);
  }

  // Fields of disjoint selectors cannot both contain the same path.
  lemma OneOwner(cs: seq<FieldChange>, i: nat, j: nat, t: Selector)
    requires WellFormed(cs) && i < |cs| && j < |cs|
    requires cs[i].selector <= t && t <= cs[j].selector
    ensures i == j && t == cs[i].selector
  {
    if i != j {
      assert cs[i].selector <= cs[j].selector;
      assert Related(cs[i].selector, cs[j].selector) && Related(cs[j].selector, cs[i].selector);
      assert false;
    }
  }

  lemma OccupiedElsewhere(cs: seq<FieldChange>, before: Doc, d: Doc, i: nat, p: Selector)
    requires WellFormed(cs) && i < |cs| && Above(p, cs) && !(p < cs[i].selector)
    requires forall t | !Related(cs[i].selector, t) :: Field(d, t) == Field(before, t)
    requires Present(d, p) && (Present(before, p) ==> Occupied(before, cs, p))
    ensures Occupied(d, cs, p)
  {
    var k :| 0 <= k < |cs| && p < cs[k].selector;
    if cs[i].selector <= p {
      OneOwner(cs, i, k, p);
      assert false;
    }
    assert Field(d, p) == Field(before, p);
    var j :| 0 <= j < |cs| && p <= cs[j].selector && Present(before, cs[j].selector);
    assert j != i;
    assert Field(d, cs[j].selector) == Field(before, cs[j].selector);
    assert Present(d, cs[j].selector);
  }

  // The child of a created container leads to a managed field or to a deeper container.
  lemma ChildIsManaged(origin: Doc, cs: seq<FieldChange>, d: Doc, i: nat, p: Selector, key: string)
    requires WellFormed(cs) && i < |cs| && p < cs[i].selector
    requires Field(origin, p) == Ok(None)
    requires forall t | Apart(t, cs) :: Field(d, t) == Field(origin, t)
    requires Present(d, p) && Field(d, p).value.value.Dict? && key in Field(d, p).value.value.entries
    ensures Present(d, p + [key]) && Field(origin, p + [key]) == Ok(None)
    ensures (exists k :: 0 <= k < |cs| && cs[k].selector == p + [key]) || Above(p + [key], cs)
  {
    var q := p + [key];
    FieldCompose(d, p, [key]);
    FieldCompose(origin, p, [key]);
    FieldOne(Field(d, p).value.value, key);
    assert !Apart(q, cs);
    var k :| 0 <= k < |cs| && Related(cs[k].selector, q);
    hide Field, Apart;
    if cs[k].selector < q {
      StrictlyAbove(cs[k].selector, p, key);
      OneOwner(cs, k, i, p);
      assert false;
    }
  }

  lemma StrictlyAbove(s: Selector, p: Selector, key: string)
    requires s < p + [key]
    ensures s <= p
  {
    assert s == (p + [key])[..|s|] == p[..|s|];
  }

  lemma SomeChild(origin: Doc, cs: seq<FieldChange>, d: Doc, i: nat, p: Selector) returns (q: Selector)
    requires WellFormed(cs) && i < |cs| && d.Dict? && Field(d, cs[i].selector).Ok? && p != [] && p < cs[i].selector
    requires forall t | Apart(t, cs) :: Field(d, t) == Field(origin, t)
    requires (forall c | c in cs[i].parents :: !HoldsEmpty(d, c)) && RecordsMissing(origin, cs)
    requires Field(origin, p) == Ok(None) && Present(d, p)
    ensures |q| == |p| + 1 && p < q && Present(d, q) && Field(origin, q) == Ok(None)
    ensures (exists k :: 0 <= k < |cs| && cs[k].selector == q) || Above(q, cs)
  {
    AncestorOfReadable(d, cs[i].selector, p);
    assert p in cs[i].parents && !HoldsEmpty(d, p);
    var key :| key in Field(d, p).value.value.entries;
    ChildIsManaged(origin, cs, d, i, p, key);
    q := p + [key];
  }

  // After a removal and its pruning, a container that was not in the original still holds a field.
  lemma {:induction false} RemovalLeavesOccupied(origin: Doc, cs: seq<FieldChange>, before: Doc, d: Doc, i: nat,
      p: Selector)
    requires WellFormed(cs) && i < |cs| && d.Dict? && Field(d, cs[i].selector).Ok?
    requires forall q | Above(q, cs) && Field(origin, q) == Ok(None) && Present(before, q) :: Occupied(before, cs, q)
    requires forall t | !Related(cs[i].selector, t) :: Field(d, t) == Field(before, t)
    requires forall t | Apart(t, cs) :: Field(d, t) == Field(origin, t)
    requires forall q | q in cs[i].parents :: !HoldsEmpty(d, q)
    requires RecordsMissing(origin, cs)
    requires Above(p, cs) && Field(origin, p) == Ok(None) && Present(d, p)
    ensures Occupied(d, cs, p)
    decreases |cs[i].selector| - |p|
  {
    var s := cs[i].selector;
    if !(p < s) {
      OccupiedElsewhere(cs, before, d, i, p);
    } else {
      var q := SomeChild(origin, cs, d, i, p);
      hide Field, Present, HoldsEmpty, RecordsMissing;
      if Above(q, cs) {
        if |q| < |s| {
          RemovalLeavesOccupied(origin, cs, before, d, i, q);
        } else {
          OccupiedElsewhere(cs, before, d, i, q);
        }
        var j :| 0 <= j < |cs| && q <= cs[j].selector && Present(d, cs[j].selector);
        assert p <= cs[j].selector;
      }
    }
  }

  // ---- The invariant holds at the start, is kept by every step, and pins the restored document ----

  lemma TracksInitially(origin: Doc, cs: seq<FieldChange>)
    requires origin.Dict? && forall i | 0 <= i < |cs| :: Field(origin, cs[i].selector).Ok?
    ensures Tracks(origin, cs, origin)
  {
  }

  ghost predicate LaterInPlace(cs: seq<FieldChange>, d: Doc, i: nat) {
    forall j | i < j < |cs| :: Field(d, cs[j].selector) == Ok(cs[j].after)
  }

  // An empty object the user had survives: forward nothing below it is removed, and backward the
  // removals below it either do not record it or leave a later field in it.
  lemma EmptySurvives(origin: Doc, cs: seq<FieldChange>, d: Doc, i: nat, c: FieldChange, p: Selector)
    requires Planned(origin, cs) && i < |cs| && SparesEmpty(origin, cs)
    requires c == cs[i] || (c == Reverse(cs[i]) && LaterInPlace(cs, d, i))
    requires d.Dict? && Step(d, c).Ok? && Field(d, c.selector) != Ok(c.after)
    requires p != [] && p < c.selector && HoldsEmpty(origin, p) && Present(d, p)
    ensures Present(Step(d, c).value, p)
  {
    var s := c.selector;
    var put := Put(d, s, c.after).value;
    PutThenField(d, s, c.after);
    PutKeepsAncestors(d, s, c.after, p);
    if c.after.None? {
      DeepestFirstSorts(c.parents);
      if p !in c.parents {
        PruneEachKeepsOthers(put, DeepestFirst(c.parents), p);
      } else {
        AbsentBelowEmpty(origin, p, s);
        assert BelowLater(cs, i, p);
        var j :| i < j < |cs| && p < cs[j].selector;
        AbsentBelowEmpty(origin, p, cs[j].selector);
        StepFrame(d, c, cs[j].selector);
        PresentAbove(Step(d, c).value, p, cs[j].selector);
      }
    }
  }

  lemma AbsentBelowEmpty(d: Doc, p: Selector, t: Selector)
    requires HoldsEmpty(d, p) && p < t
    ensures Field(d, t) == Ok(None)
  {
    var rest := t[|p|..];
    assert t == p + rest;
    FieldCompose(d, p, rest);
  }

  lemma WriteKeepsEmpty(origin: Doc, cs: seq<FieldChange>, d: Doc, i: nat, c: FieldChange, p: Selector)
    requires Planned(origin, cs) && i < |cs| && SparesEmpty(origin, cs)
    requires c == cs[i] || (c == Reverse(cs[i]) && LaterInPlace(cs, d, i))
    requires Tracks(origin, cs, d) && Step(d, c).Ok? && Field(d, c.selector) != Ok(c.after)
    requires Above(p, cs) && HoldsEmpty(origin, p)
    ensures Present(Step(d, c).value, p)
  {
    hide SparesEmpty, Step, RecordsMissing;
    assert Present(d, p);
    if p < c.selector {
      EmptySurvives(origin, cs, d, i, c, p);
    } else {
      if c.selector <= p {
        var k :| 0 <= k < |cs| && p < cs[k].selector;
        OneOwner(cs, i, k, p);
      }
      StepFrame(d, c, p);
    }
  }

  lemma WriteFrames(origin: Doc, cs: seq<FieldChange>, d: Doc, i: nat, c: FieldChange)
    requires Planned(origin, cs) && i < |cs| && (c == cs[i] || c == Reverse(cs[i]))
    requires Tracks(origin, cs, d) && Step(d, c).Ok? && Field(d, c.selector) != Ok(c.after)
    ensures Step(d, c).value.Dict? && Field(Step(d, c).value, c.selector) == Ok(c.after)
    ensures forall t | !Related(c.selector, t) :: Field(Step(d, c).value, t) == Field(d, t)
  {
    StepSettles(d, c);
    forall t | !Related(c.selector, t) ensures Field(Step(d, c).value, t) == Field(d, t) {
      StepFrame(d, c, t);
    }
  }

  lemma SettingOccupies(origin: Doc, cs: seq<FieldChange>, d: Doc, i: nat, c: FieldChange, p: Selector)
    requires Planned(origin, cs) && i < |cs| && (c == cs[i] || c == Reverse(cs[i])) && c.after.Some?
    requires Tracks(origin, cs, d) && Step(d, c).Ok? && Field(d, c.selector) != Ok(c.after)
    requires Above(p, cs) && Field(origin, p) == Ok(None) && Present(Step(d, c).value, p)
    ensures Occupied(Step(d, c).value, cs, p)
  {
    hide Step;
    WriteFrames(origin, cs, d, i, c);
    if p <= c.selector {
      assert Present(Step(d, c).value, cs[i].selector);
    } else {
      OccupiedElsewhere(cs, d, Step(d, c).value, i, p);
    }
  }

  lemma RemovedLeavesNoneEmpty(d: Doc, c: FieldChange)
    requires c.selector != [] && Step(d, c).Ok? && Field(d, c.selector) != Ok(c.after) && c.after.None?
    requires forall q | q in c.parents :: q != []
    ensures forall q | q in c.parents :: !HoldsEmpty(Step(d, c).value, q)
  {
    forall q | q in c.parents ensures !HoldsEmpty(Step(d, c).value, q) {
      PruneCreatedLeavesNoneEmpty(Put(d, c.selector, c.after).value, c.parents, q);
    }
  }

  lemma RemovingOccupies(origin: Doc, cs: seq<FieldChange>, d: Doc, i: nat, c: FieldChange, p: Selector)
    requires Planned(origin, cs) && i < |cs| && (c == cs[i] || c == Reverse(cs[i])) && c.after.None?
    requires Tracks(origin, cs, d) && Step(d, c).Ok? && Field(d, c.selector) != Ok(c.after)
    requires Above(p, cs) && Field(origin, p) == Ok(None) && Present(Step(d, c).value, p)
    ensures Occupied(Step(d, c).value, cs, p)
  {
    hide Step;
    WriteFrames(origin, cs, d, i, c);
    RemovedLeavesNoneEmpty(d, c);
    RemovalLeavesOccupied(origin, cs, d, Step(d, c).value, i, p);
  }

  lemma WriteTracks(origin: Doc, cs: seq<FieldChange>, d: Doc, i: nat, c: FieldChange)
    requires Planned(origin, cs) && i < |cs| && SparesEmpty(origin, cs)
    requires c == cs[i] || (c == Reverse(cs[i]) && LaterInPlace(cs, d, i))
    requires Tracks(origin, cs, d) && Step(d, c).Ok? && Field(d, c.selector) != Ok(c.after)
    ensures Tracks(origin, cs, Step(d, c).value)
  {
    hide Step, SparesEmpty, Occupied, RecordsMissing;
    var e := Step(d, c).value;
    WriteFrames(origin, cs, d, i, c);
    forall p | Above(p, cs) && HoldsEmpty(origin, p) ensures Present(e, p) {
      WriteKeepsEmpty(origin, cs, d, i, c, p);
    }
    forall p | Above(p, cs) && Field(origin, p) == Ok(None) && Present(e, p) ensures Occupied(e, cs, p) {
      if c.after.Some? {
        SettingOccupies(origin, cs, d, i, c, p);
      } else {
        RemovingOccupies(origin, cs, d, i, c, p);
      }
    }
  }

  // todo is the tail, starting at from, of the group; or of its reversal, over a document in which
  // the changes still to be undone are in place.
  ghost predicate TailOf(todo: seq<FieldChange>, cs: seq<FieldChange>, from: nat, d: Doc, undo: bool) {
    from + |todo| == |cs| &&
    forall i | 0 <= i < |todo| ::
      if undo then todo[i] == Reverse(cs[from + i]) && Field(d, cs[from + i].selector) == Ok(cs[from + i].after)
      else todo[i] == cs[from + i]
  }

  lemma TailStep(cs: seq<FieldChange>, d: Doc, todo: seq<FieldChange>, from: nat, undo: bool)
    requires WellFormed(cs) && todo != [] && TailOf(todo, cs, from, d, undo) && Step(d, todo[0]).Ok?
    ensures TailOf(todo[1..], cs, from + 1, Step(d, todo[0]).value, undo)
  {
    var rest := todo[1..];
    forall i | 0 <= i < |rest|
      ensures if undo then rest[i] == Reverse(cs[from + 1 + i]) &&
                Field(Step(d, todo[0]).value, cs[from + 1 + i].selector) == Ok(cs[from + 1 + i].after)
              else rest[i] == cs[from + 1 + i]
    {
      assert rest[i] == todo[i + 1];
      assert OwnParents(cs[from]);
      StepFrame(d, todo[0], cs[from + (i + 1)].selector);
    }
  }

  lemma StepTracks(origin: Doc, cs: seq<FieldChange>, d: Doc, todo: seq<FieldChange>, from: nat, undo: bool)
    requires Planned(origin, cs) && SparesEmpty(origin, cs)
    requires todo != [] && TailOf(todo, cs, from, d, undo) && todo[0].selector != []
    requires Tracks(origin, cs, d) && Step(d, todo[0]).Ok?
    ensures Tracks(origin, cs, Step(d, todo[0]).value)
  {
    var c := todo[0];
    if Field(d, c.selector) != Ok(c.after) {
      if undo {
        forall j | from < j < |cs| ensures Field(d, cs[j].selector) == Ok(cs[j].after) {
          assert todo[j - from] == Reverse(cs[from + (j - from)]);
        }
      }
      WriteTracks(origin, cs, d, from, c);
    }
  }

  lemma {:induction false} RewriteTracks(origin: Doc, cs: seq<FieldChange>, d: Doc, todo: seq<FieldChange>, from: nat,
      undo: bool)
    requires Planned(origin, cs) && SparesEmpty(origin, cs)
    requires TailOf(todo, cs, from, d, undo) && (forall i | 0 <= i < |todo| :: todo[i].selector != [])
    requires Tracks(origin, cs, d) && Rewrite(d, todo).Ok?
    ensures Tracks(origin, cs, Rewrite(d, todo).value)
    decreases |todo|
  {
    hide Tracks, SparesEmpty, RecordsMissing, Related, Field;
    if todo != [] {
      StepTracks(origin, cs, d, todo, from, undo);
      TailStep(cs, d, todo, from, undo);
      RewriteTracks(origin, cs, Step(d, todo[0]).value, todo[1..], from + 1, undo);
    }
  }

  // Some evidence below a container: user content, a managed field, or an empty object.
  lemma {:induction false} Evidence(origin: Doc, cs: seq<FieldChange>, t: Selector, here: Doc) returns (u: Selector)
    requires origin.Dict? && Field(origin, t) == Ok(Some(here))
    requires forall i | 0 <= i < |cs| :: Field(origin, cs[i].selector).Ok?
    ensures t <= u && Present(origin, u)
    ensures Apart(u, cs) || (exists i :: 0 <= i < |cs| && cs[i].selector <= u) ||
      (Above(u, cs) && HoldsEmpty(origin, u)) || u == []
    decreases here
  {
    u := t;
    if Above(t, cs) {
      var i :| 0 <= i < |cs| && t < cs[i].selector;
      AncestorOfReadable(origin, cs[i].selector, t);
      if here.entries != map[] {
        var key :| key in here.entries;
        FieldCompose(origin, t, [key]);
        FieldOne(here, key);
        u := Evidence(origin, cs, t + [key], here.entries[key]);
      }
    }
  }

  lemma SameBelow(origin: Doc, d: Doc, s: Selector, t: Selector)
    requires s <= t && Field(d, s) == Field(origin, s)
    ensures Field(d, t) == Field(origin, t)
  {
    var rest := t[|s|..];
    assert t == s + rest;
    FieldCompose(d, s, rest);
    FieldCompose(origin, s, rest);
  }

  lemma PresentAbove(d: Doc, t: Selector, u: Selector)
    requires t <= u && Present(d, u)
    ensures Present(d, t)
  {
    var rest := u[|t|..];
    assert u == t + rest;
    FieldCompose(d, t, rest);
  }

  lemma RestoredKind(origin: Doc, cs: seq<FieldChange>, d: Doc, t: Selector)
    requires WellFormed(cs) && Tracks(origin, cs, d) && origin.Dict?
    requires forall i | 0 <= i < |cs| :: Field(d, cs[i].selector) == Field(origin, cs[i].selector)
    ensures KindAt(d, t) == KindAt(origin, t)
  {
    if i :| 0 <= i < |cs| && cs[i].selector <= t {
      SameBelow(origin, d, cs[i].selector, t);
    } else if Above(t, cs) {
      var i :| 0 <= i < |cs| && t < cs[i].selector;
      AncestorOfReadable(d, cs[i].selector, t);
      AncestorOfReadable(origin, cs[i].selector, t);
      if Present(d, t) && !Present(origin, t) {
        var j :| 0 <= j < |cs| && t <= cs[j].selector && Present(d, cs[j].selector);
        PresentAbove(origin, t, cs[j].selector);
      }
      if Present(origin, t) && !Present(d, t) {
        var u := Evidence(origin, cs, t, Field(origin, t).value.value);
        if j :| 0 <= j < |cs| && cs[j].selector <= u {
          SameBelow(origin, d, cs[j].selector, u);
        }
        PresentAbove(d, t, u);
      }
    } else if t != [] {
      assert Apart(t, cs);
    }
  }

  // The conditions plan establishes before it records a group for one document.
  ghost predicate Planned(origin: Doc, cs: seq<FieldChange>) {
    && WellFormed(cs) && origin.Dict?
    && (forall i | 0 <= i < |cs| :: Field(origin, cs[i].selector) == Ok(cs[i].before) && cs[i].before != cs[i].after)
    && RecordsMissing(origin, cs)
  }

  lemma PlannedExecutes(origin: Doc, cs: seq<FieldChange>)
    requires Planned(origin, cs)
    ensures Rewrite(origin, cs).Ok? && Rewrite(Rewrite(origin, cs).value, ReverseAll(cs)).Ok?
    ensures WellFormed(ReverseAll(cs)) && Rewrite(origin, cs).value.Dict?
    ensures forall i | 0 <= i < |cs| :: Field(Rewrite(origin, cs).value, cs[i].selector) == Ok(cs[i].after)
    ensures forall i | 0 <= i < |cs| ::
              Field(Rewrite(Rewrite(origin, cs).value, ReverseAll(cs)).value, cs[i].selector) ==
                Field(origin, cs[i].selector)
  {
    forall i | 0 <= i < |cs| ensures AtEither(origin, cs[i]) {
    }
    RewriteSettles(origin, cs);
    var back := ReverseAll(cs);
    forall i | 0 <= i < |back| ensures AtEither(Rewrite(origin, cs).value, back[i]) {
    }
    RewriteSettles(Rewrite(origin, cs).value, back);
    forall i | 0 <= i < |cs|
      ensures Field(Rewrite(Rewrite(origin, cs).value, back).value, cs[i].selector) == Field(origin, cs[i].selector)
    {
      assert back[i] == Reverse(cs[i]);
    }
  }

  lemma SparedIsRestored(origin: Doc, cs: seq<FieldChange>)
    requires Planned(origin, cs) && SparesEmpty(origin, cs)
    ensures Rewrite(origin, cs).Ok? && Rewrite(Rewrite(origin, cs).value, ReverseAll(cs)) == Ok(origin)
  {
    hide Rewrite, Related, Field, KindAt, RecordsMissing, SparesEmpty, Occupied, Above;
    PlannedExecutes(origin, cs);
    var written := Rewrite(origin, cs).value;
    var back := ReverseAll(cs);
    var restored := Rewrite(written, back).value;
    TracksInitially(origin, cs);
    RewriteTracks(origin, cs, origin, cs, 0, false);
    RewriteTracks(origin, cs, written, back, 0, true);
    forall t ensures KindAt(restored, t) == KindAt(origin, t) {
      RestoredKind(origin, cs, restored, t);
    }
    Extensional(restored, origin);
  }

  // Undoing a group gives back the original document, container for container, exactly when no
  // empty object the user already had is recorded by the last change below it.
  lemma UndoRestoresDocumentExactly(origin: Doc, cs: seq<FieldChange>)
    requires Planned(origin, cs)
    ensures Rewrite(origin, cs).Ok?
    ensures Rewrite(Rewrite(origin, cs).value, ReverseAll(cs)) == Ok(origin) <==> SparesEmpty(origin, cs)
  {
    hide Rewrite, Related, Field, RecordsMissing;
    PlannedExecutes(origin, cs);
    if SparesEmpty(origin, cs) {
      SparedIsRestored(origin, cs);
    } else {
      var i, p :| 0 <= i < |cs| && p in cs[i].parents && HoldsEmpty(origin, p) && !BelowLater(cs, i, p);
      AbsentBelowEmpty(origin, p, cs[i].selector);
      LastRemovalClears(Rewrite(origin, cs).value, ReverseAll(cs), i, p);
    }
  }

  // The last removal below a recorded parent clears it, and nothing after that touches it.
  lemma {:induction false} LastRemovalClears(d: Doc, cs: seq<FieldChange>, i: nat, p: Selector)
    requires WellFormed(cs) && i < |cs| && d.Dict? && Rewrite(d, cs).Ok?
    requires forall j | 0 <= j < |cs| :: Field(d, cs[j].selector) == Ok(cs[j].before)
    requires p in cs[i].parents && cs[i].before != cs[i].after && cs[i].after.None? && !BelowLater(cs, i, p)
    ensures !HoldsEmpty(Rewrite(d, cs).value, p)
    decreases |cs|
  {
    var c, rest := cs[0], cs[1..];
    var next := Step(d, c).value;
    assert AtEither(d, c);
    StepSettles(d, c);
    if i == 0 {
      var put := Put(d, c.selector, None).value;
      assert next == PruneCreated(put, c.parents);
      PruneCreatedLeavesNoneEmpty(put, c.parents, p);
      forall j | 0 <= j < |rest| ensures !Related(rest[j].selector, p) {
        assert rest[j] == cs[j + 1] && !Related(cs[0].selector, rest[j].selector);
      }
      RewriteFrame(next, rest, p);
    } else {
      forall j | 0 <= j < |rest| ensures Field(next, rest[j].selector) == Ok(rest[j].before) {
        StepFrame(d, c, rest[j].selector);
      }
      assert !BelowLater(rest, i - 1, p) by {
        forall j | i - 1 < j < |rest| ensures !(p < rest[j].selector) {
          assert rest[j] == cs[j + 1];
        }
      }
      LastRemovalClears(next, rest, i - 1, p);
    }
  }

  // Whatever was recorded, undoing gives back every value; only empty containers can differ.
  lemma UndoRestoresEveryValue(origin: Doc, cs: seq<FieldChange>, t: Selector, text: string)
    requires Planned(origin, cs)
    ensures Rewrite(origin, cs).Ok? && Rewrite(Rewrite(origin, cs).value, ReverseAll(cs)).Ok?
    ensures KindAt(Rewrite(Rewrite(origin, cs).value, ReverseAll(cs)).value, t) == Leaf(text) <==>
      KindAt(origin, t) == Leaf(text)
  {
    PlannedExecutes(origin, cs);
    var written := Rewrite(origin, cs).value;
    var restored := Rewrite(written, ReverseAll(cs)).value;
    if i :| 0 <= i < |cs| && cs[i].selector <= t {
      SameBelow(origin, restored, cs[i].selector, t);
    } else if i :| 0 <= i < |cs| && t < cs[i].selector {
      RewriteKeepsObject(origin, cs);
      RewriteKeepsObject(written, ReverseAll(cs));
      AncestorOfReadable(origin, cs[i].selector, t);
      AncestorOfReadable(restored, cs[i].selector, t);
    } else {
      RewriteFrame(origin, cs, t);
      RewriteFrame(written, ReverseAll(cs), t);
    }
  }

  lemma {:induction false} RewriteKeepsObject(d: Doc, cs: seq<FieldChange>)
    requires d.Dict? && (forall i | 0 <= i < |cs| :: cs[i].selector != []) && Rewrite(d, cs).Ok?
    ensures Rewrite(d, cs).value.Dict?
    decreases |cs|
  {
    if cs != [] {
      RewriteKeepsObject(Step(d, cs[0]).value, cs[1..]);
    }
  }
}
