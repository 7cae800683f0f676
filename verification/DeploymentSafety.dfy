/** Safety over whole histories: outside edits, commits, rollbacks and recoveries in any order, each
    of them possibly killed half way. A value that nobody recorded is never overwritten, a
    place moves only with a change that disturbs it, and a commit that gets through moves it exactly then. */
module DeploymentSafety {
  import opened Wrappers
  import opened NativeDocument
  import opened Deployment
  import opened DeploymentWrites
  import opened DeploymentCrash
  import opened DeploymentPlan
  import opened PlanLaws
  import opened PlanLayers
  import opened ForwardWrites
  import opened PlanEffects

  // Some change that overlaps the key found one of its two recorded values in place.
  ghost predicate FoundRecorded(files: Files, cs: seq<Change>, key: Key) {
    exists i :: 0 <= i < |cs| && Overlap(cs[i].key, key) &&
      (At(files, cs[i], cs[i].before) || At(files, cs[i], cs[i].after))
  }

  ghost predicate Moves(before: Files, after: Files, key: Key, codec: Codec) {
    Project(after, key, codec) != Project(before, key, codec)
  }

  lemma ForwardFinds(disk: Disk, cs: seq<Change>, key: Key, codec: Codec, n: nat)
    requires Layered(cs) && OneCodec(cs, key.path, codec) && n < |WriteRun(disk, cs, Paths(cs)).disks|
    requires Moves(disk.files, WriteRun(disk, cs, Paths(cs)).disks[n].files, key, codec)
    ensures FoundRecorded(disk.files, cs, key)
  {
    UnrecordedSurvives(disk, cs, key, codec, n);
    var i :| 0 <= i < |cs| && Overwrites(disk.files, cs[i], key);
  }

  lemma ReversalHasOneCodec(cs: seq<Change>, path: string, codec: Codec)
    ensures OneCodec(ReverseChanges(cs), path, codec) <==> OneCodec(cs, path, codec)
  {
    var back := ReverseChanges(cs);
    assert forall i | 0 <= i < |cs| :: back[i] == ReverseChange(cs[i]);
  }

  lemma BackwardFinds(disk: Disk, cs: seq<Change>, key: Key, codec: Codec, n: nat)
    requires Layered(cs) && OneCodec(cs, key.path, codec)
    requires n < |WriteRun(disk, ReverseChanges(cs), Paths(ReverseChanges(cs))).disks|
    requires Moves(disk.files, WriteRun(disk, ReverseChanges(cs), Paths(ReverseChanges(cs))).disks[n].files, key, codec)
    ensures FoundRecorded(disk.files, cs, key)
  {
    var back := ReverseChanges(cs);
    ReversalIsLayered(cs);
    ReversalHasOneCodec(cs, key.path, codec);
    ForwardFinds(disk, back, key, codec, n);
    var i :| 0 <= i < |back| && Overlap(back[i].key, key) &&
      (At(disk.files, back[i], back[i].before) || At(disk.files, back[i], back[i].after));
    assert back[i] == ReverseChange(cs[i]);
    assert At(disk.files, cs[i], cs[i].after) || At(disk.files, cs[i], cs[i].before);
  }

  // What recovery moves its backward pass moves.
  lemma RecoveryPass(disk: Disk, prepare: Prepare, key: Key, codec: Codec, n: nat) returns (m: nat)
    requires n < |RecoverRun(disk, prepare).disks| &&
      Moves(disk.files, RecoverRun(disk, prepare).disks[n].files, key, codec)
    ensures disk.pending.Some? && disk.saved != disk.pending.value.after
    ensures var back := ReverseChanges(disk.pending.value.changes);
            var run := WriteRun(disk, back, Paths(back));
            m < |run.disks| && Moves(disk.files, run.disks[m].files, key, codec)
  {
    hide WriteRun, Paths, Project;
    var back := ReverseChanges(disk.pending.value.changes);
    var run := WriteRun(disk, back, Paths(back));
    m := if n < |run.disks| then n else |run.disks| - 1;
  }

  // Recovery, from any files whatsoever.
  lemma RecoveryFinds(disk: Disk, prepare: Prepare, key: Key, codec: Codec, n: nat)
    requires disk.pending.Some? && Layered(disk.pending.value.changes) &&
      OneCodec(disk.pending.value.changes, key.path, codec)
    requires n < |RecoverRun(disk, prepare).disks| &&
      Moves(disk.files, RecoverRun(disk, prepare).disks[n].files, key, codec)
    ensures FoundRecorded(disk.files, disk.pending.value.changes, key)
  {
    var m := RecoveryPass(disk, prepare, key, codec, n);
    BackwardFinds(disk, disk.pending.value.changes, key, codec, m);
  }

  // Looking back over a forward pass: what is found after it was found before it.
  lemma FoundEarlier(disk: Disk, cs: seq<Change>, key: Key, n: nat)
    requires Layered(cs) && n < |WriteRun(disk, cs, Paths(cs)).disks|
    requires FoundRecorded(WriteRun(disk, cs, Paths(cs)).disks[n].files, cs, key)
    ensures FoundRecorded(disk.files, cs, key)
  {
    var mid := WriteRun(disk, cs, Paths(cs)).disks[n].files;
    var i :| 0 <= i < |cs| && Overlap(cs[i].key, key) && (At(mid, cs[i], cs[i].before) || At(mid, cs[i], cs[i].after));
    var c := cs[i];
    if Moves(disk.files, mid, c.key, c.codec) {
      MovedMeansWritten(disk, cs, c.key, c.codec, n);
      var g := Group(cs, key.path);
      GroupIsLayered(cs, key.path);
      GroupOfPath(cs, key.path);
      GroupNonempty(cs, key.path);
      assert c in g;
      var m :| 0 <= m < |g| && g[m] == c;
      var k := WrittenWasFound(disk.files, key.path, g, m);
      AboveRelated(g[k].key.selector, c.key.selector, key.selector);
      var at :| 0 <= at < |cs| && cs[at] == g[k];
    } else {
      assert At(disk.files, cs[i], cs[i].before) || At(disk.files, cs[i], cs[i].after);
    }
  }

  lemma AboveRelated(a: Selector, c: Selector, s: Selector)
    requires a <= c && Related(c, s)
    ensures Related(a, s)
  {
    if s <= c {
      assert |a| <= |s| ==> a == s[..|a|];
      assert |s| <= |a| ==> s == a[..|s|];
    }
  }

  // What a transaction moves its own write pass moves, or the backward pass that a refusal starts.
  ghost predicate Passes(disk: Disk, cs: seq<Change>, key: Key, codec: Codec, start: Disk, last: Disk, undo: bool,
      m: nat) {
    var there, back := WriteRun(start, cs, Paths(cs)), ReverseChanges(cs);
    var undone := WriteRun(last, back, Paths(back));
    start.files == disk.files &&
    if !undo then m < |there.disks| && Moves(disk.files, there.disks[m].files, key, codec)
    else
      (last.files == disk.files || last.files == there.End().files) && !Moves(disk.files, last.files, key, codec) &&
      m < |undone.disks| && Moves(last.files, undone.disks[m].files, key, codec)
  }

  lemma TransactionPass(disk: Disk, after: Saved, cs: seq<Change>, prepare: Prepare, key: Key, codec: Codec, n: nat)
      returns (start: Disk, last: Disk, undo: bool, m: nat)
    requires n < |TransactRun(disk, after, cs, prepare).disks|
    requires Moves(disk.files, TransactRun(disk, after, cs, prepare).disks[n].files, key, codec)
    ensures Passes(disk, cs, key, codec, start, last, undo, m)
  {
    hide Moves, RecoverRun, WriteRun, Paths;
    start := disk.(pending := Some(Journal(after, cs, prepare.Some?)));
    var hook := prepare.Some? && after.current.Some?;
    if hook && !prepare.value(after.current.value.launch) {
      assert !Moves(disk.files, disk.files, key, codec) by {
        NothingMoved(disk.files, key, codec);
      }
      last, undo := start, true;
      m := RecoveryPass(start, prepare, key, codec, n - 1);
    } else {
      var opening := if hook then [disk, start] else [disk];
      start := if hook then start.(prepared := start.prepared + [after.current.value.launch]) else start;
      last, undo, m := WritingPass(disk, opening, start, after, cs, prepare, key, codec, n);
    }
  }

  lemma NothingMoved(files: Files, key: Key, codec: Codec)
    ensures !Moves(files, files, key, codec)
  {
  }

  lemma WritingPass(disk: Disk, opening: seq<Disk>, start: Disk, after: Saved, cs: seq<Change>, prepare: Prepare,
      key: Key, codec: Codec, n: nat) returns (last: Disk, undo: bool, m: nat)
    requires start.files == disk.files && start.pending == Some(Journal(after, cs, prepare.Some?))
    requires opening != [] && forall i | 0 <= i < |opening| :: opening[i].files == disk.files
    requires var written := WriteRun(start, cs, Paths(cs));
             var body := opening + [start] + written.disks[1..];
             var states := if written.outcome.Refused? then body + RecoverRun(written.End(), prepare).disks[1..]
               else body + RecoverRun(written.End().(saved := after), prepare).disks;
             n < |states| && Moves(disk.files, states[n].files, key, codec)
    ensures Passes(disk, cs, key, codec, start, last, undo, m)
  {
    hide Moves, RecoverRun, WriteRun, Paths;
    var written := WriteRun(start, cs, Paths(cs));
    WriteKeepsState(start, cs, Paths(cs));
    NothingMoved(disk.files, key, codec);
    var body := opening + [start] + written.disks[1..];
    last, undo, m := start, false, |written.disks| - 1;
    if n < |body| {
      assert n >= |opening|;
      m := n - |opening|;
    } else if !Moves(disk.files, written.End().files, key, codec) {
      undo := true;
      last := if written.outcome.Refused? then written.End() else written.End().(saved := after);
      SameMoves(disk.files, last.files, key, codec);
      m := RecoveryPass(last, prepare, key, codec, if written.outcome.Refused? then n - |body| + 1 else n - |body|);
    }
  }

  lemma SameMoves(before: Files, files: Files, key: Key, codec: Codec)
    requires !Moves(before, files, key, codec)
    ensures forall next: Files :: Moves(before, next, key, codec) <==> Moves(files, next, key, codec)
  {
    hide Project;
  }

  lemma TransactionFinds(disk: Disk, after: Saved, cs: seq<Change>, prepare: Prepare, key: Key, codec: Codec, n: nat)
    requires Layered(cs) && OneCodec(cs, key.path, codec)
    requires n < |TransactRun(disk, after, cs, prepare).disks|
    requires Moves(disk.files, TransactRun(disk, after, cs, prepare).disks[n].files, key, codec)
    ensures FoundRecorded(disk.files, cs, key)
  {
    hide Layered, OneCodec, Project, TransactRun, FoundRecorded, WriteRun;
    var start, last, undo, m := TransactionPass(disk, after, cs, prepare, key, codec, n);
    if !undo {
      ForwardFinds(start, cs, key, codec, m);
    } else {
      BackwardFinds(last, cs, key, codec, m);
      if last.files != disk.files {
        FoundEarlier(start, cs, key, |WriteRun(start, cs, Paths(cs)).disks| - 1);
      }
    }
  }

  // ---- Histories ----

  // An apply call is a Recovery followed by a Commit; alive counts the durable steps it survives.
  datatype Event =
    | Edit(files: Files)
    | Recovery(prepare: Prepare, alive: nat)
    | Commit(candidate: Candidate, binding: string, launch: Launch, order: seq<Key>, prepare: Prepare, alive: nat)
    | Undoing(binding: string, prepare: Prepare, alive: nat)

  ghost predicate Enabled(d: Disk, e: Event) {
    e.Commit? ==>
      Known(d.saved, e.candidate.wanted, e.order) && Lists(e.order, d.saved, e.candidate.wanted) &&
        SortedKeys(e.order) &&
      Shaped(d.saved, e.candidate.wanted)
  }

  function PlanOf(d: Disk, e: Event): Result<Plan>
    requires e.Commit? && Known(d.saved, e.candidate.wanted, e.order)
  {
    if d.pending.Some? then Conflict else PlanAll(d.files, d.saved, e.candidate, e.binding, e.launch, e.order)
  }

  ghost function Next(d: Disk, e: Event): Disk
    requires Enabled(d, e)
  {
    match e
    case Edit(files) => d.(files := files)
    case Recovery(prepare, alive) => CrashAt(RecoverRun(d, prepare), alive)
    case Commit(_, _, _, _, prepare, alive) =>
      if PlanOf(d, e).Conflict? then d else CrashAt(CommitRun(d, PlanOf(d, e).value, prepare), alive)
    case Undoing(binding, prepare, alive) =>
      if d.pending.Some? then d else CrashAt(RollbackRun(d, binding, prepare), alive)
  }

  // The changes an event acts on.
  ghost function Recorded(d: Disk, e: Event): seq<Change>
    requires Enabled(d, e)
  {
    match e
    case Edit(_) => []
    case Recovery(_, _) => if d.pending.Some? then d.pending.value.changes else []
    case Commit(_, _, _, _, _, _) =>
      if PlanOf(d, e).Conflict? then []
      else if Unchanged(d.saved, PlanOf(d, e).value) then [] else PlanOf(d, e).value.changes
    case Undoing(_, _, _) => if d.pending.None? && d.saved.previous.Some? then d.saved.previous.value.changes else []
  }

  ghost predicate SoundManifest(m: Option<Manifest>) {
    m.Some? ==> Disjoint(Live(m.value.items))
  }

  // Live keys are disjoint and backed-up changes nest. Recorded selectors may overlap otherwise.
  ghost predicate SoundSaved(s: Saved) {
    SoundManifest(s.current) && (s.previous.Some? ==>
      SoundManifest(s.previous.value.current) && Layered(s.previous.value.changes))
  }

  ghost predicate Sound(d: Disk) {
    SoundSaved(d.saved) && (d.pending.Some? ==> Layered(d.pending.value.changes) && SoundSaved(d.pending.value.after))
  }

  lemma PlanIsSound(d: Disk, e: Event)
    requires e.Commit? && Sound(d) && Enabled(d, e) && PlanOf(d, e).Ok?
    ensures var plan := PlanOf(d, e).value; Layered(plan.changes) && SoundSaved(NextSaved(d.saved, plan))
  {
    hide PlanAll, Shaped, Disjoint, Layered, Live;
    NothingLive();
    PlanIsLayered(d.files, d.saved, e.candidate, e.binding, e.launch, e.order);
    LiveStaysDisjoint(d.files, d.saved, e.candidate, e.binding, e.launch, e.order);
  }

  lemma NothingLive()
    ensures Disjoint(Live(map[]))
  {
  }

  lemma RecoverStates(d: Disk, prepare: Prepare, n: nat)
    requires n < |RecoverRun(d, prepare).disks|
    ensures var x := RecoverRun(d, prepare).disks[n]; x.saved == d.saved && (x.pending == d.pending || x.pending.None?)
  {
    if d.pending.Some? && d.saved != d.pending.value.after {
      var back := ReverseChanges(d.pending.value.changes);
      WriteKeepsState(d, back, Paths(back));
    }
  }

  lemma TransactStates(d: Disk, after: Saved, cs: seq<Change>, prepare: Prepare, n: nat)
    requires n < |TransactRun(d, after, cs, prepare).disks|
    ensures var x := TransactRun(d, after, cs, prepare).disks[n];
            (x.saved == d.saved || x.saved == after) &&
            (x.pending == d.pending || x.pending.None? || x.pending == Some(Journal(after, cs, prepare.Some?)))
  {
    hide RecoverRun, WriteRun;
    var journaled := d.(pending := Some(Journal(after, cs, prepare.Some?)));
    var hook := prepare.Some? && after.current.Some?;
    if hook && !prepare.value(after.current.value.launch) {
      if n > 1 {
        RecoverStates(journaled, prepare, n - 1);
      }
    } else {
      var ready := if hook then journaled.(prepared := journaled.prepared + [after.current.value.launch])
        else journaled;
      var opening := if hook then [d, journaled, ready] else [d, journaled];
      var written := WriteRun(ready, cs, Paths(cs));
      WriteKeepsState(ready, cs, Paths(cs));
      var body := opening + written.disks[1..];
      if n >= |body| {
        if written.outcome == Refused {
          RecoverStates(written.End(), prepare, n - |body| + 1);
        } else {
          RecoverStates(written.End().(saved := after), prepare, n - |body|);
        }
      }
    }
  }

  function Landing(run: Run, alive: nat): nat
    requires run.disks != []
  {
    if alive < |run.disks| then alive else |run.disks| - 1
  }

  lemma SoundStays(d: Disk, e: Event)
    requires Sound(d) && Enabled(d, e)
    ensures Sound(Next(d, e))
  {
    hide RecoverRun, TransactRun, Shaped, Disjoint, Live, Layered, PlanAll;
    match e
    case Edit(_) =>
    case Recovery(prepare, alive) =>
      RecoverStates(d, prepare, Landing(RecoverRun(d, prepare), alive));
    case Commit(_, _, _, _, prepare, alive) =>
      if PlanOf(d, e).Ok? {
        PlanIsSound(d, e);
        var plan := PlanOf(d, e).value;
        if Unchanged(d.saved, plan) {
          NoChangesLayered();
          TransactStates(d, d.saved, [], prepare, Landing(TransactRun(d, d.saved, [], prepare), alive));
        } else {
          TransactStates(d, NextSaved(d.saved, plan), plan.changes, prepare,
            Landing(TransactRun(d, NextSaved(d.saved, plan), plan.changes, prepare), alive));
        }
      }
    case Undoing(binding, prepare, alive) =>
      if d.pending.None? && d.saved.previous.Some? {
        var back := ReverseChanges(d.saved.previous.value.changes);
        ReversalIsLayered(d.saved.previous.value.changes);
        TransactStates(d, RollbackSaved(d.saved), back, prepare,
          Landing(TransactRun(d, RollbackSaved(d.saved), back, prepare), alive));
      }
  }

  lemma NoChangesLayered()
    ensures Layered([])
  {
  }

  // One event other than an edit moves a managed place only if it found a recorded value there.
  lemma StepIsSafe(d: Disk, e: Event, key: Key, codec: Codec)
    requires Sound(d) && Enabled(d, e) && !e.Edit? && OneCodec(Recorded(d, e), key.path, codec)
    requires Moves(d.files, Next(d, e).files, key, codec)
    ensures FoundRecorded(d.files, Recorded(d, e), key)
  {
    hide RecoverRun, TransactRun, Shaped, Disjoint, Live, Layered, PlanAll, Project;
    match e
    case Recovery(prepare, alive) =>
      if d.pending.Some? {
        RecoveryFinds(d, prepare, key, codec, Landing(RecoverRun(d, prepare), alive));
      } else {
        NothingPending(d, prepare);
      }
    case Commit(_, _, _, _, prepare, alive) =>
      if PlanOf(d, e).Ok? {
        PlanIsSound(d, e);
        var plan := PlanOf(d, e).value;
        var cs := Recorded(d, e);
        var after := if Unchanged(d.saved, plan) then d.saved else NextSaved(d.saved, plan);
        NoChangesLayered();
        TransactionFinds(d, after, cs, prepare, key, codec, Landing(TransactRun(d, after, cs, prepare), alive));
      }
    case Undoing(binding, prepare, alive) =>
      if d.pending.None? && d.saved.previous.Some? {
        UndoingFinds(d, binding, prepare, key, codec, Landing(RollbackRun(d, binding, prepare), alive));
      }
  }

  lemma UndoingFinds(d: Disk, binding: string, prepare: Prepare, key: Key, codec: Codec, n: nat)
    requires d.saved.previous.Some? && Layered(d.saved.previous.value.changes) &&
      OneCodec(d.saved.previous.value.changes, key.path, codec)
    requires n < |RollbackRun(d, binding, prepare).disks| &&
      Moves(d.files, RollbackRun(d, binding, prepare).disks[n].files, key, codec)
    ensures FoundRecorded(d.files, d.saved.previous.value.changes, key)
  {
    var cs := d.saved.previous.value.changes;
    var back := ReverseChanges(cs);
    ReversalIsLayered(cs);
    forall i | 0 <= i < |back| && back[i].key.path == key.path ensures back[i].codec == codec {
      assert back[i] == ReverseChange(cs[i]);
    }
    TransactionFinds(d, RollbackSaved(d.saved), back, prepare, key, codec, n);
    var i :| 0 <= i < |back| && Overlap(back[i].key, key) &&
      (At(d.files, back[i], back[i].before) || At(d.files, back[i], back[i].after));
    assert back[i] == ReverseChange(cs[i]);
    assert At(d.files, cs[i], cs[i].after) || At(d.files, cs[i], cs[i].before);
  }

  ghost predicate EnabledAll(d: Disk, es: seq<Event>)
    decreases |es|
  {
    es == [] || (Enabled(d, es[0]) && EnabledAll(Next(d, es[0]), es[1..]))
  }

  // The disk before the i-th event.
  ghost function Reached(d: Disk, es: seq<Event>, i: nat): Disk
    requires EnabledAll(d, es) && i <= |es|
    decreases i
  {
    if i == 0 then d else Reached(Next(d, es[0]), es[1..], i - 1)
  }

  lemma {:induction false} ReachedIsSound(d: Disk, es: seq<Event>, i: nat)
    requires Sound(d) && EnabledAll(d, es) && i <= |es|
    ensures Sound(Reached(d, es, i)) && (i < |es| ==> Enabled(Reached(d, es, i), es[i]))
    decreases i
  {
    hide Sound, Enabled;
    if i > 0 {
      SoundStays(d, es[0]);
      ReachedIsSound(Next(d, es[0]), es[1..], i - 1);
    }
  }

  // User values survive. In any history, an event that is not an edit moves a place only if one of
  // the changes it acts on overlaps that place and found its before or after value on disk, and one of
  // them disturbs the place; and what a commit expects to find is the recorded baseline, or nothing at
  // all for a field it never managed.
  lemma UserValuesSurvive(d: Disk, es: seq<Event>, i: nat, key: Key, codec: Codec)
    requires Sound(d) && EnabledAll(d, es) && i < |es|
    ensures var now := Reached(d, es, i);
            Enabled(now, es[i]) &&
            ((!es[i].Edit? && OneCodec(Recorded(now, es[i]), key.path, codec) &&
              Moves(now.files, Next(now, es[i]).files, key, codec)) ==>
              FoundRecorded(now.files, Recorded(now, es[i]), key) && Disturbed(Recorded(now, es[i]), key)) &&
            (es[i].Commit? ==> forall c | c in Recorded(now, es[i]) ::
              c.before == if c.key in OldItems(now.saved) then OldItems(now.saved)[c.key].baseline else None)
  {
    ReachedIsSound(d, es, i);
    var now := Reached(d, es, i);
    if !es[i].Edit? && OneCodec(Recorded(now, es[i]), key.path, codec) &&
      Moves(now.files, Next(now, es[i]).files, key, codec) {
      StepIsSafe(now, es[i], key, codec);
      MoveIsDisturbed(now, es[i], key, codec);
    }
    if es[i].Commit? {
      CommitExpectsBaseline(now, es[i]);
    }
  }

  lemma CommitExpectsBaseline(d: Disk, e: Event)
    requires e.Commit? && Enabled(d, e)
    ensures forall c | c in Recorded(d, e) ::
              c.before == if c.key in OldItems(d.saved) then OldItems(d.saved)[c.key].baseline else None
  {
    forall c | c in Recorded(d, e)
      ensures c.before == if c.key in OldItems(d.saved) then OldItems(d.saved)[c.key].baseline else None
    {
      TallyChanges(d.files, d.saved, e.candidate.wanted, e.order);
      assert IsVerdictOf(d.files, d.saved, e.candidate.wanted, c);
      ChangeIsDue(d.files, d.saved, e.candidate.wanted, c.key);
    }
  }

  // ---- What an event moves ----

  lemma ReversalDisturbs(cs: seq<Change>, key: Key)
    requires Disturbed(ReverseChanges(cs), key)
    ensures Disturbed(cs, key)
  {
    var back := ReverseChanges(cs);
    var i :| 0 <= i < |back| && !Vain(back, i) && Disturbs(back[i], key);
    assert !Vain(cs, i) by {
      if j :| 0 <= j < |cs| && cs[j].key == Key(cs[i].key.path, []) {
        assert back[j].key == cs[j].key;
      }
    }
    assert Disturbs(cs[i], key);
  }

  lemma BackwardMoves(disk: Disk, cs: seq<Change>, key: Key, codec: Codec, m: nat)
    requires Layered(cs) && OneCodec(cs, key.path, codec)
    requires m < |WriteRun(disk, ReverseChanges(cs), Paths(ReverseChanges(cs))).disks|
    requires Moves(disk.files, WriteRun(disk, ReverseChanges(cs), Paths(ReverseChanges(cs))).disks[m].files, key, codec)
    ensures Disturbed(cs, key)
  {
    ReversalIsLayered(cs);
    ReversalHasOneCodec(cs, key.path, codec);
    RunMoves(disk, ReverseChanges(cs), key, codec, m);
    ReversalDisturbs(cs, key);
  }

  lemma TransactionMoves(disk: Disk, after: Saved, cs: seq<Change>, prepare: Prepare, key: Key, codec: Codec, n: nat)
    requires Layered(cs) && OneCodec(cs, key.path, codec)
    requires n < |TransactRun(disk, after, cs, prepare).disks|
    requires Moves(disk.files, TransactRun(disk, after, cs, prepare).disks[n].files, key, codec)
    ensures Disturbed(cs, key)
  {
    hide Layered, OneCodec, Project, TransactRun, Disturbed, WriteRun;
    var start, last, undo, m := TransactionPass(disk, after, cs, prepare, key, codec, n);
    if !undo {
      RunMoves(start, cs, key, codec, m);
    } else {
      BackwardMoves(last, cs, key, codec, m);
    }
  }

  // An event other than an edit, dying anywhere, moves a place only if one of its changes disturbs it.
  lemma MoveIsDisturbed(d: Disk, e: Event, key: Key, codec: Codec)
    requires Sound(d) && Enabled(d, e) && !e.Edit? && OneCodec(Recorded(d, e), key.path, codec)
    requires Moves(d.files, Next(d, e).files, key, codec)
    ensures Disturbed(Recorded(d, e), key)
  {
    hide RecoverRun, TransactRun, Shaped, Disjoint, Live, Layered, PlanAll, Project, Disturbed;
    match e
    case Recovery(prepare, alive) =>
      var m := RecoveryPass(d, prepare, key, codec, Landing(RecoverRun(d, prepare), alive));
      BackwardMoves(d, d.pending.value.changes, key, codec, m);
    case Commit(_, _, _, _, prepare, alive) =>
      if PlanOf(d, e).Ok? {
        PlanIsSound(d, e);
        NoChangesLayered();
        var plan := PlanOf(d, e).value;
        var after := if Unchanged(d.saved, plan) then d.saved else NextSaved(d.saved, plan);
        TransactionMoves(d, after, Recorded(d, e), prepare, key, codec,
          Landing(TransactRun(d, after, Recorded(d, e), prepare), alive));
      }
    case Undoing(binding, prepare, alive) =>
      if d.pending.None? && d.saved.previous.Some? {
        var cs := d.saved.previous.value.changes;
        var back := ReverseChanges(cs);
        ReversalIsLayered(cs);
        ReversalHasOneCodec(cs, key.path, codec);
        TransactionMoves(d, RollbackSaved(d.saved), back, prepare, key, codec,
          Landing(TransactRun(d, RollbackSaved(d.saved), back, prepare), alive));
        ReversalDisturbs(cs, key);
      }
  }

  // The commit gets through: no conflict, the hook accepts, and the process lives to the end.
  ghost predicate Finishes(d: Disk, e: Event)
    requires Enabled(d, e)
  {
    e.Commit? && PlanOf(d, e).Ok? && CommitRun(d, PlanOf(d, e).value, e.prepare).outcome.Done? &&
    |CommitRun(d, PlanOf(d, e).value, e.prepare).disks| <= e.alive + 1
  }

  // One commit that gets through moves a place, any place, exactly if one of its changes disturbs it.
  lemma CommitMovesExactly(d: Disk, e: Event, key: Key, codec: Codec)
    requires Sound(d) && Enabled(d, e) && Finishes(d, e) && OneCodec(Recorded(d, e), key.path, codec)
    ensures Moves(d.files, Next(d, e).files, key, codec) <==> Disturbed(Recorded(d, e), key)
  {
    hide TransactRun, Shaped, Disjoint, Live, PlanAll, Moves, Disturbed, Staged;
    var plan := PlanOf(d, e).value;
    if Unchanged(d.saved, plan) {
      if Moves(d.files, Next(d, e).files, key, codec) {
        MoveIsDisturbed(d, e, key, codec);
      }
      NothingDisturbs(key);
    } else {
      NothingLive();
      PlanIsStaged(d.files, d.saved, e.candidate, e.binding, e.launch, e.order);
      StagedMovesExactly(d, NextSaved(d.saved, plan), plan.changes, e.prepare, key, codec);
    }
  }

  lemma StagedMovesExactly(d: Disk, after: Saved, cs: seq<Change>, prepare: Prepare, key: Key, codec: Codec)
    requires Staged(d.files, cs) && TransactRun(d, after, cs, prepare).outcome.Done? && OneCodec(cs, key.path, codec)
    ensures Moves(d.files, TransactRun(d, after, cs, prepare).End().files, key, codec) <==> Disturbed(cs, key)
  {
    DoneIsAllowed(d, after, cs, prepare);
    hide TransactRun, WriteRun, Project, Disturbed, Staged, OneCodec;
    StagedTransactionCompletes(d, after, cs, prepare);
    MovesExactly(ToWrite(d, after, cs, prepare), cs, key, codec);
  }

  lemma NothingDisturbs(key: Key)
    ensures !Disturbed([], key)
  {
  }

  lemma DoneIsAllowed(d: Disk, after: Saved, cs: seq<Change>, prepare: Prepare)
    requires TransactRun(d, after, cs, prepare).outcome.Done?
    ensures Allows(prepare, after)
  {
  }

  // ---- INITIALIZE fields ----

  ghost predicate Holds(s: Saved, k: Key, item: Item) {
    k in OldItems(s) && OldItems(s)[k] == item && item.ownership == Initialize
  }

  // The field is recorded now and after any pending commit.
  ghost predicate Given(d: Disk, k: Key, item: Item) {
    Holds(d.saved, k, item) &&
    (d.pending.Some? ==>
      Holds(d.pending.value.after, k, item) && OneCodec(d.pending.value.changes, k.path, item.codec))
  }

  lemma PlanKeepsInitialized(d: Disk, e: Event, k: Key, item: Item)
    requires e.Commit? && Enabled(d, e) && Holds(d.saved, k, item) && PlanOf(d, e).Ok?
    ensures var plan := PlanOf(d, e).value;
            (plan.conflicts == [] ==> Holds(NextSaved(d.saved, plan), k, item)) &&
            OneCodec(plan.changes, k.path, item.codec) && forall c | c in plan.changes :: c.key != k
  {
    var wanted, cs := e.candidate.wanted, PlanOf(d, e).value.changes;
    TallyAt(d.files, d.saved, wanted, e.order, k);
    forall c | c in cs ensures c.key != k && (c.key.path == k.path ==> c.codec == item.codec) {
      TallyChanges(d.files, d.saved, wanted, e.order);
      assert IsVerdictOf(d.files, d.saved, wanted, c);
      ChangeIsDue(d.files, d.saved, wanted, c.key);
    }
  }

  lemma CommitKeepsGiven(d: Disk, e: Event, k: Key, item: Item)
    requires e.Commit? && Sound(d) && Enabled(d, e) && Given(d, k, item)
    ensures Given(Next(d, e), k, item) && OneCodec(Recorded(d, e), k.path, item.codec)
    ensures forall c | c in Recorded(d, e) :: c.key != k
  {
    hide RecoverRun, TransactRun, Shaped, Disjoint, PlanAll;
    if PlanOf(d, e).Ok? {
      PlanKeepsInitialized(d, e, k, item);
      var plan := PlanOf(d, e).value;
      var after := if Unchanged(d.saved, plan) then d.saved else NextSaved(d.saved, plan);
      TransactStates(d, after, Recorded(d, e), e.prepare,
        Landing(TransactRun(d, after, Recorded(d, e), e.prepare), e.alive));
    }
  }

  lemma InitializedStays(d: Disk, e: Event, k: Key, item: Item)
    requires Sound(d) && Enabled(d, e) && Given(d, k, item) && !e.Undoing?
    ensures Given(Next(d, e), k, item) && OneCodec(Recorded(d, e), k.path, item.codec)
    ensures e.Commit? ==> forall c | c in Recorded(d, e) :: c.key != k
  {
    hide RecoverRun, CommitRun, OneCodec;
    match e
    case Edit(_) =>
      NothingHasCodecs(k.path, item.codec);
    case Recovery(prepare, alive) =>
      NothingHasCodecs(k.path, item.codec);
      RecoverStates(d, prepare, Landing(RecoverRun(d, prepare), alive));
    case Commit(_, _, _, _, _, _) =>
      CommitKeepsGiven(d, e, k, item);
  }

  lemma NothingHasCodecs(path: string, codec: Codec)
    ensures OneCodec([], path, codec)
  {
  }

  // In any history without rollbacks a recorded INITIALIZE field stays recorded and no commit has a
  // change of its own for it. A call, dying anywhere, moves it only if another of its changes disturbs
  // it, and a commit that gets through does so exactly then: the plan sets something below the field, or
  // takes away or replaces above it the value it stands in.
  lemma {:induction false} InitializedMovesExactly(d: Disk, es: seq<Event>, i: nat, k: Key, item: Item)
    requires Sound(d) && EnabledAll(d, es) && i < |es| && Given(d, k, item)
    requires forall j | 0 <= j <= i :: !es[j].Undoing?
    ensures var now := Reached(d, es, i);
            Given(now, k, item) && Enabled(now, es[i]) &&
            var moved := Moves(now.files, Next(now, es[i]).files, k, item.codec);
            (moved && !es[i].Edit? ==> Disturbed(Recorded(now, es[i]), k)) &&
            (es[i].Commit? ==> forall c | c in Recorded(now, es[i]) :: c.key != k) &&
            (Finishes(now, es[i]) ==> (moved <==> Disturbed(Recorded(now, es[i]), k)))
    decreases i
  {
    hide Sound, Enabled, Given, Moves, OneCodec, Disturbed, Finishes;
    assert Reached(d, es, 0) == d;
    InitializedStays(d, es[0], k, item);
    if i > 0 {
      SoundStays(d, es[0]);
      InitializedMovesExactly(Next(d, es[0]), es[1..], i - 1, k, item);
    } else {
      if Moves(d.files, Next(d, es[0]).files, k, item.codec) && !es[0].Edit? {
        MoveIsDisturbed(d, es[0], k, item.codec);
      }
      if Finishes(d, es[0]) {
        CommitMovesExactly(d, es[0], k, item.codec);
      }
    }
  }
}
