/** The in-process rollback: changed paths are restored in reverse order behind durable
    intents, then the artifacts and the journal are removed. */
module Rollbacks {
  import opened Outcomes
  import opened Filesystem
  import opened Records
  import opened Replay
  import opened Disks
  import opened Slots
  import opened Protocol
  import opened Probes
  import opened Journaling
  import opened Cleanups

  /** `restore`: from whatever a commit left in one slot back to its before state. */
  method Restore(d: Disk, t: Transaction, i: nat) returns (o: Outcome)
    requires Staged(t, d.W()) && i < |t.paths|
    requires d.live[i] == After(t.paths[i]) || (t.paths[i].before.Absent? && d.live[i] == CreateLinked(t.paths[i]))
    modifies d
    ensures d.Valid() && Within(old(d.W()), d.W(), i, Undoing(t.paths[i]))
    ensures o.Done? ==> d.W().possible[i] <= Untouched(t.paths[i]) && Synced(d.W(), i)
    ensures o.Crashed? ==> AfterCrash(d.W())
    ensures !o.Crashed? ==> Local(old(d.W()), d.W(), i) && d.poisoned == old(d.poisoned)
    ensures o.Failed? ==> o.recoveryRequired
    ensures if o.Done? then d.faults <= old(d.faults) else d.faults < old(d.faults)
  {
    ghost var w := d.W();
    var p := t.paths[i];
    if p.before.Absent? {
      o := RemoveCreated(d, t, i);
    } else {
      o := Reinstall(d, t, i);
    }
    if !o.Done? { return; }
    ghost var x := d.W();
    o := d.SyncParent(i);
    if o.Crashed? { WithinCrash(w, x, d.W(), i, Undoing(p)); }
    if !o.Done? { return; }
    if p.before.Present? {
      RestoredProbes(d.volume, p);
      var restored := d.VerifySlot(i, RestoredEvidence(p));
      o := if restored then Done else Failed(true);
    }
  }

  /** The create case of `restore`: a linked install is reversed, a finished one removed. */
  method RemoveCreated(d: Disk, t: Transaction, i: nat) returns (o: Outcome)
    requires Staged(t, d.W()) && i < |t.paths| && t.paths[i].before.Absent?
    requires d.live[i] == After(t.paths[i]) || d.live[i] == CreateLinked(t.paths[i])
    modifies d
    ensures d.Valid() && Within(old(d.W()), d.W(), i, Undoing(t.paths[i]))
    ensures o.Done? ==> d.W().possible[i] <= Untouched(t.paths[i]) && d.live[i] in Untouched(t.paths[i])
    ensures o.Crashed? ==> AfterCrash(d.W())
    ensures !o.Crashed? ==> Local(old(d.W()), d.W(), i) && d.poisoned == old(d.poisoned)
    ensures o.Failed? ==> o.recoveryRequired
    ensures if o.Done? then d.faults <= old(d.faults) else d.faults < old(d.faults)
  {
    ghost var w := d.W();
    var p := t.paths[i];
    AfterProbes(d.volume, p);
    CreateLinkedProbes(d.volume, p);
    var same := d.ReadSameFile(i, Stage);
    if same == Found(true) {
      o := RollbackLinkedInstall(d, i, Stage);
    } else {
      o := RemoveExact(d, i, p.after.evidence);
    }
    WithinMore(w, d.W(), i, {w.live[i].(slot := None)}, Undoing(p));
  }

  /** The present case of `restore`: the exact backup goes back into the slot. */
  method Reinstall(d: Disk, t: Transaction, i: nat) returns (o: Outcome)
    requires Staged(t, d.W()) && i < |t.paths| && t.paths[i].before.Present?
    requires d.live[i] == After(t.paths[i])
    modifies d
    ensures d.Valid() && Within(old(d.W()), d.W(), i, Undoing(t.paths[i]))
    ensures o.Done? ==> d.live[i] == Restored(t.paths[i])
    ensures o.Crashed? ==> AfterCrash(d.W())
    ensures !o.Crashed? ==> Local(old(d.W()), d.W(), i) && d.poisoned == old(d.poisoned)
    ensures o.Failed? ==> o.recoveryRequired
    ensures if o.Done? then d.faults <= old(d.faults) else d.faults < old(d.faults)
  {
    ghost var w := d.W();
    var p := t.paths[i];
    AfterProbes(d.volume, p);
    var actual := d.ReadSlot(i);
    if actual == Found(Absent) {
      o := InstallAbsentFrom(d, i, Backup);
      WithinMore(w, d.W(), i, {RestoreLinked(p), Restored(p)}, Undoing(p));
    } else if actual == Found(p.after) {
      o := ReplaceFrom(d, i, Backup);
      WithinMore(w, d.W(), i, {Restored(p)}, Undoing(p));
    } else {
      o := Failed(true);
    }
  }

  /** A path a commit has changed, finished or at its two-link point. */
  ghost predicate ChangedPath(t: Transaction, w: World, i: nat) {
    && i < |t.paths| && i < |w.live| && i < |w.possible|
    && (w.live[i] == After(t.paths[i]) || (t.paths[i].before.Absent? && w.live[i] == CreateLinked(t.paths[i])))
  }

  /** `top` is the first path the rollback does not reach: every intended path is below
      it, or only the last intended one, which its failed commit left unchanged, is not. */
  ghost predicate Bounded(st: State, n: nat, top: nat) {
    && CommitsInOrder(st, n) && RollbacksFrom(st, top) && top <= n
    && (Started(st) == top || (Started(st) == top + 1 && top !in st.committed))
  }

  ghost predicate TopIntact(t: Transaction, w: World, st: State, top: nat) {
    Started(st) == top + 1 ==> top < |t.paths| == |w.possible| && w.possible[top] == {Initial(t.paths[top])}
  }

  /** A rollback of the paths below `top` has restored those from `j` upwards. */
  ghost predicate RollingBack(t: Transaction, w: World, st: State, top: nat, j: nat) {
    && Unfinished(t, w, st) && Bounded(st, |t.paths|, top) && TopIntact(t, w, st, top)
    && j <= top
    && (if j == top then st.lastRollbackIntent.None? else st.lastRollbackIntent == Some(j) && j in st.rolledBack)
    && (j == top > 0 ==> ChangedPath(t, w, top - 1))
  }

  /** The rollback of path `i` has a durable intent and no completion yet. */
  ghost predicate RollingPath(t: Transaction, w: World, st: State, top: nat, i: nat) {
    && Unfinished(t, w, st) && Bounded(st, |t.paths|, top) && TopIntact(t, w, st, top)
    && i < |t.paths| && st.lastRollbackIntent == Some(i) && i !in st.rolledBack
  }

  /** Where an interrupted rollback leaves the journal. */
  ghost predicate Interrupted(t: Transaction, w: World, st: State) {
    Unfinished(t, w, st) && (Resumable(st, |t.paths|) || Skipped(st, |t.paths|))
  }

  lemma BoundedInterrupted(t: Transaction, w: World, st: State, top: nat)
    requires Unfinished(t, w, st) && Bounded(st, |t.paths|, top)
    ensures Interrupted(t, w, st)
  {
  }

  lemma RollingValid(t: Transaction, w: World, st: State, top: nat, j: nat)
    requires RollingBack(t, w, st, top, j)
    ensures w.Valid() && Interrupted(t, w, st)
  {
    BoundedInterrupted(t, w, st, top);
  }

  lemma RollsDown(t: Transaction, w: World, st: State, top: nat, i: nat)
    requires RollingBack(t, w, st, top, i + 1)
    ensures i < |t.paths| && RollsNext(st, top, i) && ChangedPath(t, w, i) && i !in st.rolledBack
  {
    assert w.possible[i] <= Allowed(t.paths[i], st, i);
    assert w.live[i] in w.possible[i];
    if st.lastRollbackIntent.Some? {
      assert i in st.committed;
    }
  }

  method BeginRollback(d: Disk, t: Transaction, i: nat, ghost st: State, ghost top: nat)
    returns (o: Outcome, ghost next: State)
    requires RollingBack(t, d.W(), st, top, i + 1)
    modifies d
    ensures d.Valid() && SameStore(old(d.W()), d.W())
    ensures o.Done? ==> RollingPath(t, d.W(), next, top, i) && ChangedPath(t, d.W(), i)
    ensures !o.Done? ==> Interrupted(t, d.W(), next)
    ensures o.Failed? ==> o.recoveryRequired
    ensures o.Crashed? ==> AfterCrash(d.W())
    ensures o.Done? ==> d.poisoned == old(d.poisoned)
    ensures !o.Done? && !old(d.poisoned) ==> d.faults < old(d.faults)
    ensures d.faults <= old(d.faults)
    ensures old(d.poisoned) ==> !o.Done? && next == st
  {
    RollsDown(t, d.W(), st, top, i);
    NoteRollbackIntent(t, d.W(), st, top, i);
    o, next := AppendRecord(d, t, RollbackIntent(i), st, WithRollbackIntent(st, i));
    BoundedInterrupted(t, d.W(), next, top);
  }

  method EndRollback(d: Disk, t: Transaction, i: nat, ghost st: State, ghost top: nat)
    returns (o: Outcome, ghost next: State)
    requires RollingPath(t, d.W(), st, top, i)
    requires d.W().possible[i] <= Untouched(t.paths[i]) && Synced(d.W(), i)
    modifies d
    ensures d.Valid() && SameStore(old(d.W()), d.W())
    ensures o.Done? ==> RollingBack(t, d.W(), next, top, i)
    ensures !o.Done? ==> Interrupted(t, d.W(), next)
    ensures o.Failed? ==> o.recoveryRequired
    ensures o.Crashed? ==> AfterCrash(d.W())
    ensures o.Done? ==> d.poisoned == old(d.poisoned)
    ensures !o.Done? && !old(d.poisoned) ==> d.faults < old(d.faults)
    ensures d.faults <= old(d.faults)
  {
    NoteRollbackDone(t, d.W(), st, top, i);
    o, next := AppendRecord(d, t, RollbackDone(i), st, WithRollbackDone(st, i));
    BoundedInterrupted(t, d.W(), next, top);
  }

  /** The restore between the two records. */
  method RestoreJournaled(d: Disk, t: Transaction, i: nat, ghost st: State, ghost top: nat) returns (o: Outcome)
    requires RollingPath(t, d.W(), st, top, i) && ChangedPath(t, d.W(), i)
    modifies d
    ensures d.Valid() && SameStore(old(d.W()), d.W())
    ensures o.Done? ==> RollingPath(t, d.W(), st, top, i)
    ensures o.Done? ==> d.W().possible[i] <= Untouched(t.paths[i]) && Synced(d.W(), i)
    ensures !o.Done? ==> Interrupted(t, d.W(), st)
    ensures o.Crashed? ==> AfterCrash(d.W())
    ensures !o.Crashed? ==> d.poisoned == old(d.poisoned)
    ensures o.Failed? ==> o.recoveryRequired
    ensures if o.Done? then d.faults <= old(d.faults) else d.faults < old(d.faults)
  {
    ghost var w := d.W();
    assert i in st.rollbackIntents;
    o := Restore(d, t, i);
    UnfinishedWithin(t, w, d.W(), st, i, Undoing(t.paths[i]));
    BoundedInterrupted(t, d.W(), st, top);
  }

  /** One path of the rollback: intent, restore, completion. */
  method RollbackOne(d: Disk, t: Transaction, i: nat, ghost st: State, ghost top: nat)
    returns (o: Outcome, ghost next: State)
    requires RollingBack(t, d.W(), st, top, i + 1)
    modifies d
    ensures d.Valid() && SameStore(old(d.W()), d.W())
    ensures o.Done? ==> RollingBack(t, d.W(), next, top, i)
    ensures !o.Done? ==> Interrupted(t, d.W(), next)
    ensures o.Failed? ==> o.recoveryRequired
    ensures o.Crashed? ==> AfterCrash(d.W())
    ensures o.Done? ==> d.poisoned == old(d.poisoned)
    ensures !o.Done? && !old(d.poisoned) ==> d.faults < old(d.faults)
    ensures d.faults <= old(d.faults)
    ensures old(d.poisoned) ==> !o.Done? && next == st
  {
    o, next := BeginRollback(d, t, i, st, top);
    if !o.Done? { return; }
    o := RestoreJournaled(d, t, i, next, top);
    if !o.Done? { return; }
    o, next := EndRollback(d, t, i, next, top);
  }

  lemma AllRestored(t: Transaction, w: World, st: State, top: nat)
    requires RollingBack(t, w, st, top, 0)
    ensures EntriesFinishing(t, w, false, false) && AllSynced(w)
  {
    hide Parse, StagedWell, Journaled;
    forall i | 0 <= i < |t.paths|
      ensures w.possible[i] <= Finishing(t.paths[i], false, false) && Synced(w, i)
    {
      assert w.possible[i] <= Allowed(t.paths[i], st, i);
      assert w.live[i] in w.possible[i];
      if i < top {
        assert i in st.rolledBack;
      } else if i > top || Started(st) == top {
        assert i !in st.commitIntents && i !in st.rollbackIntents && i !in st.rolledBack;
      }
    }
  }

  /** The journal says the transaction was rolled back: properly, or with no intent. */
  ghost predicate Sealed(t: Transaction, w: World, st: State, next: State) {
    if st.commitIntents == {} then BareRollback(t, w, st)
    else next == WithFinish(st, RolledBack) && FinishedAs(t, w, next, false)
  }

  lemma SealedStill(t: Transaction, w: World, x: World, st: State, next: State)
    requires Sealed(t, w, st, next)
    requires x.records == w.records && x.volume == w.volume
    requires Staged(t, x) && FinishedDisk(t, x, false, false)
    ensures Sealed(t, x, st, next)
  {
  }

  /** The `Finished(RolledBack)` record of an in-process rollback. */
  method SealRollback(d: Disk, t: Transaction, ghost st: State) returns (o: Outcome)
    requires Interrupted(t, d.W(), st) && EntriesFinishing(t, d.W(), false, false)
    requires forall k | k in d.possibleControl :: !k.receipt
    modifies d
    ensures d.Valid() && SameStore(old(d.W()), d.W())
    ensures o.Done? ==> SameEntries(old(d.W()), d.W()) && Sealed(t, d.W(), st, WithFinish(st, RolledBack)) && JournalStays(d.W())
    ensures !o.Done? ==> Interrupted(t, d.W(), st) || Sealed(t, d.W(), st, WithFinish(st, RolledBack))
    ensures o.Failed? ==> o.recoveryRequired
    ensures o.Crashed? ==> AfterCrash(d.W())
    ensures o.Done? ==> d.poisoned == old(d.poisoned)
    ensures !o.Done? && !old(d.poisoned) ==> d.faults < old(d.faults)
    ensures d.faults <= old(d.faults)
  {
    ghost var w := d.W();
    ghost var written := w.(records := w.records + [Finished(RolledBack)]);
    SealsWith(t, w, st);
    o := d.Append(Finished(RolledBack));
    if o.Crashed? {
      if CrashOf(w, d.W()) {
        UnfinishedCrash(t, w, d.W(), st);
      } else {
        FinishedDiskCrash(t, written, d.W(), false, false);
        SealedStill(t, written, d.W(), st, WithFinish(st, RolledBack));
      }
    }
  }

  lemma SealsWith(t: Transaction, w: World, st: State)
    requires Unfinished(t, w, st) && EntriesFinishing(t, w, false, false)
    requires forall k | k in w.possibleControl :: !k.receipt
    ensures Sealed(t, w.(records := w.records + [Finished(RolledBack)]), st, WithFinish(st, RolledBack))
  {
    if st.commitIntents == {} {
      assert (w.records + [Finished(RolledBack)])[..|w.records|] == w.records;
    } else {
      NoteFinished(t, w, st, RolledBack, false);
    }
  }

  lemma RollingNone(t: Transaction, w: World, st: State, top: nat)
    requires RollingBack(t, w, st, top, top)
    ensures st.lastRollbackIntent.None?
  {
  }

  /** The loop of `rollback_changed`: every changed path restored, in reverse order. */
  method RestoreAll(d: Disk, t: Transaction, changed: seq<nat>, ghost st: State) returns (o: Outcome, ghost next: State)
    requires RollingBack(t, d.W(), st, |changed|, |changed|) && forall j | 0 <= j < |changed| :: changed[j] == j
    modifies d
    ensures d.Valid() && SameStore(old(d.W()), d.W())
    ensures o.Done? ==> RollingBack(t, d.W(), next, |changed|, 0)
    ensures !o.Done? ==> Interrupted(t, d.W(), next)
    ensures o.Failed? ==> o.recoveryRequired
    ensures o.Crashed? ==> AfterCrash(d.W())
    ensures o.Done? ==> d.poisoned == old(d.poisoned)
    ensures !o.Done? && !old(d.poisoned) ==> d.faults < old(d.faults)
    ensures d.faults <= old(d.faults)
    ensures !o.Done? && next.lastRollbackIntent.Some? ==> d.faults < old(d.faults)
    ensures o.Done? && changed != [] ==> !old(d.poisoned)
    ensures changed == [] ==> o.Done? && next == st
  {
    hide Unfinished, RollingBack, Interrupted;
    RollingValid(t, d.W(), st, |changed|, |changed|);
    RollingNone(t, d.W(), st, |changed|);
    var j := |changed|;
    next := st;
    while j > 0
      invariant 0 <= j <= |changed|
      invariant RollingBack(t, d.W(), next, |changed|, j) && d.Valid() && SameStore(old(d.W()), d.W())
      invariant d.faults <= old(d.faults) && d.poisoned == old(d.poisoned)
      invariant if j == |changed| then next == st else !old(d.poisoned)
    {
      o, next := RollbackOne(d, t, changed[j - 1], next, |changed|);
      if !o.Done? { return; }
      j := j - 1;
    }
    o := Done;
  }

  lemma SealedStaged(t: Transaction, w: World, st: State, next: State)
    requires Sealed(t, w, st, next)
    ensures Staged(t, w) && FinishedDisk(t, w, false, false)
  {
  }

  /** Cleanup and journal removal once the rollback is on record. */
  method RetireRollback(d: Disk, t: Transaction, ghost st: State) returns (o: Outcome)
    requires Sealed(t, d.W(), st, WithFinish(st, RolledBack)) && JournalStays(d.W()) && AllSynced(d.W())
    requires forall k | k in d.possibleControl :: !k.receipt
    modifies d
    ensures d.Valid()
    ensures o.Done? ==> Concluded(t, d.W(), false, false)
    ensures !o.Done? ==> Sealed(t, d.W(), st, WithFinish(st, RolledBack))
    ensures o.Failed? ==> o.recoveryRequired
    ensures o.Crashed? ==> AfterCrash(d.W())
    ensures if o.Done? then d.faults <= old(d.faults) else d.faults < old(d.faults)
  {
    hide Sealed, EntriesFinishing, EntriesFinal, Staged;
    ghost var w := d.W();
    SealedStaged(t, w, st, WithFinish(st, RolledBack));
    o := Cleanup(d, t, false);
    SealedStill(t, w, d.W(), st, WithFinish(st, RolledBack));
    if !o.Done? { return; }
    w := d.W();
    o := RemoveJournal(d, t, false, false);
    SealedStill(t, w, d.W(), st, WithFinish(st, RolledBack));
  }

  /** `rollback_changed`: every changed path restored in reverse order, then cleanup. */
  method RollbackChanged(d: Disk, t: Transaction, changed: seq<nat>, ghost st: State)
    returns (o: Outcome, ghost next: State)
    requires RollingBack(t, d.W(), st, |changed|, |changed|) && forall j | 0 <= j < |changed| :: changed[j] == j
    requires forall k | k in d.possibleControl :: !k.receipt
    modifies d
    ensures d.Valid()
    ensures o.Done? ==> Concluded(t, d.W(), false, false)
    ensures !o.Done? ==> Interrupted(t, d.W(), next) || Sealed(t, d.W(), next, WithFinish(next, RolledBack))
    ensures o.Failed? ==> o.recoveryRequired
    ensures o.Crashed? ==> AfterCrash(d.W())
    ensures !o.Done? && !old(d.poisoned) ==> d.faults < old(d.faults)
    ensures d.faults <= old(d.faults)
    ensures !o.Done? && next.lastRollbackIntent.Some? ==> d.faults < old(d.faults)
  {
    hide Sealed, EntriesFinishing, Staged, Unfinished, Interrupted, RollingBack;
    RollingNone(t, d.W(), st, |changed|);
    o, next := RestoreAll(d, t, changed, st);
    if !o.Done? { return; }
    RollingValid(t, d.W(), next, |changed|, 0);
    ghost var w := d.W();
    AllRestored(t, w, next, |changed|);
    o := SealRollback(d, t, next);
    if !o.Done? { return; }
    forall i | 0 <= i < |w.live| ensures Synced(d.W(), i) {
      assert Synced(w, i);
    }
    o := RetireRollback(d, t, next);
  }
}
