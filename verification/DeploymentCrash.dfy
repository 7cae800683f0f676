/** Crash recovery of the deployer. A transaction may die at any durable state, and so may every
    later recovery; whatever the schedule, the instance ends wholly before or wholly after. */
module DeploymentCrash {
  import opened Wrappers
  import opened NativeDocument
  import opened Deployment
  import opened DeploymentWrites

  // start holds the files as the transaction found them.
  datatype Transaction = Transaction(prior: Saved, after: Saved, changes: seq<Change>, prepares: bool, start: Files)

  // The premises transact starts from: every change is at one of its two values (an apply finds all
  // at their before values, a rollback may find some undone by hand), and its result can be told
  // from the old state.
  ghost predicate Ready(d: Disk, t: Transaction) {
    Compatible(t.changes) && d.saved == t.prior && d.files == t.start && d.pending.None? &&
      AtEither(d.files, t.changes) &&
    (t.prior != t.after || t.changes == [])
  }

  // The journal is on disk; either nothing is committed and every change is at one of its two
  // values, or the commit is on disk and every change is at its after value.
  ghost predicate Recoverable(d: Disk, t: Transaction) {
    Compatible(t.changes) && d.pending == Some(Journal(t.after, t.changes, t.prepares)) &&
    (if d.saved == t.after then AllAfter(d.files, t.changes) else d.saved == t.prior && AtEither(d.files, t.changes))
  }

  // Nothing was committed: every change is back at its before value, or nothing was written at all.
  ghost predicate Reverted(d: Disk, t: Transaction) {
    d.saved == t.prior && (AllBefore(d.files, t.changes) || d.files == t.start)
  }

  ghost predicate Resolved(d: Disk, t: Transaction) {
    d.pending.None? &&
    (Reverted(d, t) || (d.saved == t.after && AllAfter(d.files, t.changes)))
  }

  // What recovery ends in, told from the durable state alone.
  ghost predicate EndsAs(d: Disk, t: Transaction, committed: bool) {
    d.pending.None? &&
    if committed then d.saved == t.after && AllAfter(d.files, t.changes)
    else Reverted(d, t)
  }

  lemma ReversalIsCompatible(cs: seq<Change>)
    requires Compatible(cs)
    ensures Compatible(ReverseChanges(cs))
    ensures AllReversed(cs)
  {
    var back := ReverseChanges(cs);
    forall i | 0 <= i < |back| ensures ValidChange(back[i]) {
      assert ValidChange(cs[i]);
    }
    forall i, j | 0 <= i < j < |back| ensures Clear(back[i], back[j]) {
      assert Clear(cs[i], cs[j]);
    }
    ReversalIsReversed(cs);
  }

  // All done backward is none done forward.
  ghost predicate AllReversed(cs: seq<Change>) {
    forall files: Files :: (AllAfter(files, ReverseChanges(cs)) <==> AllBefore(files, cs)) &&
      (AtEither(files, ReverseChanges(cs)) <==> AtEither(files, cs))
  }

  lemma ReversedValues(cs: seq<Change>, i: nat)
    requires i < |cs|
    ensures Ends(ReverseChanges(cs), i) == Starts(cs, i) && Starts(ReverseChanges(cs), i) == Ends(cs, i)
  {
    var back := ReverseChanges(cs);
    if j :| 0 <= j < |cs| && cs[j].key == Key(cs[i].key.path, []) {
      assert back[j].key == cs[j].key;
    }
    if j :| 0 <= j < |back| && back[j].key == Key(cs[i].key.path, []) {
      assert back[j].key == cs[j].key;
    }
  }

  lemma ReversalIsReversed(cs: seq<Change>)
    ensures AllReversed(cs)
  {
    var back := ReverseChanges(cs);
    forall files: Files
      ensures AllAfter(files, back) <==> AllBefore(files, cs)
      ensures AtEither(files, back) <==> AtEither(files, cs)
    {
      forall i | 0 <= i < |cs|
        ensures At(files, back[i], Ends(back, i)) <==> At(files, cs[i], Starts(cs, i))
        ensures At(files, back[i], back[i].before) <==> At(files, cs[i], cs[i].after)
        ensures At(files, back[i], back[i].after) <==> At(files, cs[i], cs[i].before)
      {
        ReversedValues(cs, i);
      }
      AtEachIndex(files, back, cs);
    }
  }

  lemma AtEachIndex(files: Files, back: seq<Change>, cs: seq<Change>)
    requires |back| == |cs| && forall i | 0 <= i < |cs| ::
      (At(files, back[i], Ends(back, i)) <==> At(files, cs[i], Starts(cs, i))) &&
      (At(files, back[i], back[i].before) <==> At(files, cs[i], cs[i].after)) &&
      (At(files, back[i], back[i].after) <==> At(files, cs[i], cs[i].before))
    ensures AllAfter(files, back) <==> AllBefore(files, cs)
    ensures AtEither(files, back) <==> AtEither(files, cs)
  {
    hide At, Ends, Starts;
  }

  function Wants(journal: Journal, saved: Saved): bool {
    journal.prepares && saved.current.Some?
  }

  // Recovery of a recoverable state: it is refused only by the hook, every state on the way is
  // recoverable or resolved, and the end has rolled back or kept the commit as the disk says.
  lemma RecoveryStep(d: Disk, t: Transaction, prepare: Prepare)
    requires Recoverable(d, t)
    ensures var run := RecoverRun(d, prepare);
            AllSafe(run.disks, t) && (forall n | 0 <= n < |run.disks| :: run.disks[n].saved == d.saved) &&
            (run.outcome == Done ==> EndsAs(run.End(), t, d.saved == t.after)) &&
            (run.outcome == Refused ==> Recoverable(run.End(), t)) &&
            (run.outcome == Refused <==>
              t.prepares && (prepare.None? || (d.saved.current.Some? && !prepare.value(d.saved.current.value.launch))))
  {
    hide Compatible, AtEither, AllAfter, AllBefore, WriteRun, Paths;
    var back := ReverseChanges(t.changes);
    if !(t.prepares && prepare.None?) {
      if d.saved != t.after {
        ReversalIsCompatible(t.changes);
        BackwardRun(d, t);
      }
    }
  }

  lemma EveryPathListed(cs: seq<Change>)
    ensures forall i | 0 <= i < |cs| :: cs[i].key.path in Paths(cs)
  {
    forall i | 0 <= i < |cs| ensures cs[i].key.path in Paths(cs) {
      assert cs[i] in cs;
      GroupNonempty(cs, cs[i].key.path);
    }
  }

  lemma BackwardRun(d: Disk, t: Transaction)
    requires Recoverable(d, t) && d.saved != t.after && Compatible(ReverseChanges(t.changes))
    ensures var back := ReverseChanges(t.changes);
            var run := WriteRun(d, back, Paths(back));
            run.outcome == Done && AllBefore(run.End().files, t.changes) &&
            forall n | 0 <= n < |run.disks| :: Recoverable(run.disks[n], t) && OnlyFilesDiffer(run.disks[n], d)
  {
    hide Compatible, AtEither, AllAfter, AllBefore, WriteRun, Paths;
    ReversalIsReversed(t.changes);
    var back := ReverseChanges(t.changes);
    EveryPathListed(back);
    WriteRunSettles(d, back, Paths(back));
  }

  lemma ForwardRun(d: Disk, t: Transaction)
    requires Compatible(t.changes) && AtEither(d.files, t.changes)
    ensures var run := WriteRun(d, t.changes, Paths(t.changes));
            run.outcome == Done && AllAfter(run.End().files, t.changes) &&
            forall n | 0 <= n < |run.disks| :: AtEither(run.disks[n].files, t.changes) &&
              OnlyFilesDiffer(run.disks[n], d)
  {
    EveryPathListed(t.changes);
    WriteRunSettles(d, t.changes, Paths(t.changes));
  }

  ghost predicate Safe(d: Disk, t: Transaction) {
    Recoverable(d, t) || Resolved(d, t)
  }

  ghost predicate AllSafe(disks: seq<Disk>, t: Transaction) {
    forall n | 0 <= n < |disks| :: Safe(disks[n], t)
  }

  // The journaled state, and the same after the hook has run.
  function Opening(d: Disk, t: Transaction, prepare: Prepare): seq<Disk> {
    var journaled := d.(pending := Some(Journal(t.after, t.changes, prepare.Some?)));
    if prepare.Some? && t.after.current.Some?
    then [d, journaled, journaled.(prepared := d.prepared + [t.after.current.value.launch])]
    else [d, journaled]
  }

  // There is no hook, or it accepts the launch of that state.
  predicate Allows(prepare: Prepare, saved: Saved) {
    prepare.Some? && saved.current.Some? ==> prepare.value(saved.current.value.launch)
  }

  lemma OpeningIsSafe(d: Disk, t: Transaction, prepare: Prepare)
    requires Ready(d, t) && t.prepares == prepare.Some?
    ensures AllSafe(Opening(d, t, prepare), t)
  {
  }

  // Every durable state of a transaction is untouched, recoverable or resolved.
  lemma TransactionStep(d: Disk, t: Transaction, prepare: Prepare)
    requires Ready(d, t) && t.prepares == prepare.Some?
    ensures var run := TransactRun(d, t.after, t.changes, prepare);
            AllSafe(run.disks, t) && (run.outcome == Done ==> EndsAs(run.End(), t, true)) &&
            (Allows(prepare, t.after) ==> run.outcome == Done)
  {
    hide Compatible, AtEither, AllBefore, AllAfter;
    OpeningIsSafe(d, t, prepare);
    var opening := Opening(d, t, prepare);
    if prepare.Some? && t.after.current.Some? && !prepare.value(t.after.current.value.launch) {
      assert opening[..2] == [opening[0], opening[1]];
      AbandonedStates(Run(opening[..2], Refused), t, prepare);
    } else {
      CommittedStates(d, t, prepare);
    }
  }

  lemma CommittedStates(d: Disk, t: Transaction, prepare: Prepare)
    requires Ready(d, t) && t.prepares == prepare.Some? && AllSafe(Opening(d, t, prepare), t)
    requires prepare.Some? && t.after.current.Some? ==> prepare.value(t.after.current.value.launch)
    ensures var run := TransactRun(d, t.after, t.changes, prepare);
            AllSafe(run.disks, t) && (run.outcome == Done ==> EndsAs(run.End(), t, true)) &&
            (Allows(prepare, t.after) ==> run.outcome == Done)
  {
    var opening := Opening(d, t, prepare);
    var ready := opening[|opening| - 1];
    ForwardRun(ready, t);
    var written := WriteRun(ready, t.changes, Paths(t.changes));
    WrittenIsSafe(d, ready, t, written);
    var committed := written.End().(saved := t.after);
    assert Recoverable(committed, t);
    RecoveryStep(committed, t, prepare);
    var recovery := RecoverRun(committed, prepare);
    var run := TransactRun(d, t.after, t.changes, prepare);
    assert run.disks == opening + written.disks[1..] + recovery.disks;
    assert AllSafe(recovery.disks, t);
  }

  lemma WrittenIsSafe(d: Disk, ready: Disk, t: Transaction, written: Run)
    requires Ready(d, t) && ready.saved == d.saved && ready.pending == Some(Journal(t.after, t.changes, t.prepares))
    requires forall n | 0 <= n < |written.disks| ::
      AtEither(written.disks[n].files, t.changes) && OnlyFilesDiffer(written.disks[n], ready)
    ensures AllSafe(written.disks, t)
  {
    hide Compatible, At;
    forall n | 0 <= n < |written.disks| ensures Recoverable(written.disks[n], t) {
      assert AtEither(written.disks[n].files, t.changes);
    }
  }

  lemma AbandonedStates(run: Run, t: Transaction, prepare: Prepare)
    requires run.disks != [] && Recoverable(run.End(), t) && AllSafe(run.disks, t)
    ensures AllSafe(Abandon(run, prepare).disks, t)
  {
    RecoveryStep(run.End(), t, prepare);
  }

  // ---- Any schedule of crashes ----

  // Each restart runs recovery until it ends or until the process dies after at most `alive` durable steps.
  datatype Restart = Restart(prepare: Prepare, alive: nat)

  function CrashAt(run: Run, alive: nat): Disk
    requires run.disks != []
  {
    if alive < |run.disks| then run.disks[alive] else run.End()
  }

  function AfterRestarts(d: Disk, schedule: seq<Restart>): Disk {
    if schedule == [] then d
    else
      var before := AfterRestarts(d, schedule[..|schedule| - 1]);
      var last := schedule[|schedule| - 1];
      CrashAt(RecoverRun(before, last.prepare), last.alive)
  }

  lemma {:induction false} RestartsKeep(d: Disk, t: Transaction, schedule: seq<Restart>)
    requires Safe(d, t)
    ensures Safe(AfterRestarts(d, schedule), t)
    ensures AfterRestarts(d, schedule).saved == d.saved
    decreases |schedule|
  {
    if schedule != [] {
      RestartsKeep(d, t, schedule[..|schedule| - 1]);
      var before := AfterRestarts(d, schedule[..|schedule| - 1]);
      if Recoverable(before, t) {
        RecoveryStep(before, t, schedule[|schedule| - 1].prepare);
      }
    }
  }

  // Crash atomicity. Kill transact after any number of durable steps, kill any number of recoveries
  // likewise: a recovery that completes leaves the old state with every change at its before value (or
  // with no file ever written), or the new state with every change at its after value, as the last
  // commit on disk says; and the journal is removed only after the surviving launch was prepared.
  lemma CrashAtomicity(d: Disk, t: Transaction, prepare: Prepare, alive: nat, schedule: seq<Restart>, last: Prepare)
    requires Ready(d, t) && t.prepares == prepare.Some?
    ensures var crashed := CrashAt(TransactRun(d, t.after, t.changes, prepare), alive);
            var survivor := AfterRestarts(crashed, schedule);
            var run := RecoverRun(survivor, last);
            (run.outcome == Done ==>
              (EndsAs(run.End(), t, true) || EndsAs(run.End(), t, false)) && run.End().saved == crashed.saved &&
              (survivor.pending.Some? && Wants(survivor.pending.value, crashed.saved) ==>
                run.End().prepared == survivor.prepared + [crashed.saved.current.value.launch])) &&
            (run.outcome == Refused ==>
              Recoverable(run.End(), t) && t.prepares &&
              (last.None? || (crashed.saved.current.Some? && !last.value(crashed.saved.current.value.launch))))
  {
    hide Compatible, AtEither, AllBefore, AllAfter, RecoverRun, TransactRun, AfterRestarts;
    var crashed := CrashAt(TransactRun(d, t.after, t.changes, prepare), alive);
    TransactionStep(d, t, prepare);
    RestartsKeep(crashed, t, schedule);
    var survivor := AfterRestarts(crashed, schedule);
    if Recoverable(survivor, t) {
      RecoveryStep(survivor, t, last);
      if RecoverRun(survivor, last).outcome == Done {
        RecoveryPrepares(survivor, t, last);
      }
    } else {
      NothingPending(survivor, last);
    }
  }

  lemma NothingPending(d: Disk, prepare: Prepare)
    requires d.pending.None?
    ensures RecoverRun(d, prepare) == Run([d], Done)
  {
  }

  lemma RecoveryPrepares(d: Disk, t: Transaction, prepare: Prepare)
    requires Recoverable(d, t) && RecoverRun(d, prepare).outcome == Done
    ensures RecoverRun(d, prepare).End().prepared ==
            if Wants(d.pending.value, d.saved) then d.prepared + [d.saved.current.value.launch] else d.prepared
  {
    if d.saved != t.after {
      ReversalIsCompatible(t.changes);
      BackwardRun(d, t);
    }
  }

  // ---- Fields nobody is changing read the same at every crash point ----

  ghost predicate ReadsAs(disks: seq<Disk>, key: Key, codec: Codec, v: Result<Projection>) {
    forall n | 0 <= n < |disks| :: Project(disks[n].files, key, codec) == v
  }

  lemma RecoveryFrame(d: Disk, t: Transaction, prepare: Prepare, key: Key, codec: Codec)
    requires Recoverable(d, t) && Untouched(key, codec, t.changes)
    ensures ReadsAs(RecoverRun(d, prepare).disks, key, codec, Project(d.files, key, codec))
  {
    var back := ReverseChanges(t.changes);
    if d.saved != t.after {
      ReversalIsCompatible(t.changes);
      assert Untouched(key, codec, back) by {
        forall i | 0 <= i < |back| ensures !Overlap(back[i].key, key) &&
          (back[i].key.path == key.path ==> back[i].codec == codec) {
          assert back[i] == ReverseChange(t.changes[i]);
        }
      }
      var run := WriteRun(d, back, Paths(back));
      forall n | 0 <= n < |run.disks| ensures Project(run.disks[n].files, key, codec) == Project(d.files, key, codec) {
        WriteRunFrame(d, back, Paths(back), key, codec, n);
      }
    }
  }

  lemma TransactionFrame(d: Disk, t: Transaction, prepare: Prepare, key: Key, codec: Codec)
    requires Ready(d, t) && t.prepares == prepare.Some? && Untouched(key, codec, t.changes)
    ensures ReadsAs(TransactRun(d, t.after, t.changes, prepare).disks, key, codec, Project(d.files, key, codec))
  {
    hide Compatible, Untouched, Project;
    var opening := Opening(d, t, prepare);
    assert ReadsAs(opening, key, codec, Project(d.files, key, codec));
    if prepare.Some? && t.after.current.Some? && !prepare.value(t.after.current.value.launch) {
      assert opening[..2] == [opening[0], opening[1]];
      OpeningIsSafe(d, t, prepare);
      RecoveryFrame(opening[1], t, prepare, key, codec);
    } else {
      CommitFrame(d, t, prepare, key, codec);
    }
  }

  lemma CommitFrame(d: Disk, t: Transaction, prepare: Prepare, key: Key, codec: Codec)
    requires Ready(d, t) && t.prepares == prepare.Some? && Untouched(key, codec, t.changes)
    requires ReadsAs(Opening(d, t, prepare), key, codec, Project(d.files, key, codec))
    requires prepare.Some? && t.after.current.Some? ==> prepare.value(t.after.current.value.launch)
    ensures ReadsAs(TransactRun(d, t.after, t.changes, prepare).disks, key, codec, Project(d.files, key, codec))
  {
    var opening := Opening(d, t, prepare);
    var ready := opening[|opening| - 1];
    ForwardRun(ready, t);
    var written := WriteRun(ready, t.changes, Paths(t.changes));
    forall n | 0 <= n < |written.disks| ensures Project(written.disks[n].files, key, codec) ==
      Project(d.files, key, codec) {
      WriteRunFrame(ready, t.changes, Paths(t.changes), key, codec, n);
    }
    var committed := written.End().(saved := t.after);
    RecoveryFrame(committed, t, prepare, key, codec);
    assert TransactRun(d, t.after, t.changes, prepare).disks ==
      opening + written.disks[1..] + RecoverRun(committed, prepare).disks;
  }

  lemma {:induction false} RestartsFrame(d: Disk, t: Transaction, schedule: seq<Restart>, key: Key, codec: Codec)
    requires Safe(d, t) && Untouched(key, codec, t.changes)
    ensures Project(AfterRestarts(d, schedule).files, key, codec) == Project(d.files, key, codec)
    decreases |schedule|
  {
    hide Compatible, Untouched, Project, RecoverRun;
    if schedule != [] {
      var last := schedule[|schedule| - 1];
      var before := AfterRestarts(d, schedule[..|schedule| - 1]);
      RestartsFrame(d, t, schedule[..|schedule| - 1], key, codec);
      RestartsKeep(d, t, schedule[..|schedule| - 1]);
      if Recoverable(before, t) {
        RecoveryFrame(before, t, last.prepare, key, codec);
      } else {
        NothingPending(before, last.prepare);
      }
    }
  }

  // Crash atomicity is about the changed fields; every other field is simply never moved.
  lemma CrashFrame(d: Disk, t: Transaction, prepare: Prepare, alive: nat, schedule: seq<Restart>, key: Key,
      codec: Codec)
    requires Ready(d, t) && t.prepares == prepare.Some? && Untouched(key, codec, t.changes)
    ensures Project(AfterRestarts(CrashAt(TransactRun(d, t.after, t.changes, prepare), alive), schedule).files, key,
      codec)
            == Project(d.files, key, codec)
  {
    hide Compatible, Untouched, Project, RecoverRun, TransactRun, AfterRestarts;
    TransactionFrame(d, t, prepare, key, codec);
    TransactionStep(d, t, prepare);
    RestartsFrame(CrashAt(TransactRun(d, t.after, t.changes, prepare), alive), t, schedule, key, codec);
  }
}
