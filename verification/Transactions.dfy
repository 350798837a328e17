/** A prepared transaction's consuming operations: `commit` and `abort`. */
module Transactions {
  import opened Outcomes
  import opened Filesystem
  import opened Records
  import opened Indices
  import opened Replay
  import opened Disks
  import opened Slots
  import opened Protocol
  import opened Probes
  import opened Journaling
  import opened Cleanups
  import opened Commits
  import opened Rollbacks

  /** What recovery can start from. */
  ghost predicate Recoverable(t: Transaction, w: World, st: State) {
    Interrupted(t, w, st) || FinishedAs(t, w, st, false)
  }

  predicate NoReceipt(w: World) {
    forall k | k in w.possibleControl :: !k.receipt
  }

  /** A prepared transaction none of whose paths has a commit intent. */
  ghost predicate Ready(t: Transaction, w: World, st: State) {
    Unfinished(t, w, st) && Advancing(st, |t.paths|, 0) && NoReceipt(w)
  }

  /** Path `i` shows exactly the evidence staging recorded for it. */
  predicate ExactAt(v: Volume, e: Entries, p: StagedPath) {
    && SlotState(v, e) == Found(p.before)
    && (p.after.Present? ==> ArtifactState(v, e, Stage) == Found(p.after.evidence))
    && (p.backup.Some? ==> ArtifactState(v, e, Backup) == Found(p.backup.value))
  }

  /** `verify_all`, on whatever the disk holds: read faults aside, it accepts exactly the
      staged state of every slot and artifact. */
  method VerifyAll(d: Disk, t: Transaction) returns (ok: bool)
    requires d.Valid() && |d.live| == |t.paths|
    modifies d`faults
    ensures d.faults <= old(d.faults)
    ensures ok ==> forall i | 0 <= i < |t.paths| :: ExactAt(d.volume, d.live[i], t.paths[i])
    ensures !ok ==> d.faults < old(d.faults) || exists i | 0 <= i < |t.paths| :: !ExactAt(d.volume, d.live[i], t.paths[i])
  {
    var i := 0;
    while i < |t.paths|
      invariant 0 <= i <= |t.paths| && d.faults == old(d.faults)
      invariant forall j | 0 <= j < i :: ExactAt(d.volume, d.live[j], t.paths[j])
    {
      ok := d.VerifySlot(i, t.paths[i].before);
      if !ok { return; }
      if t.paths[i].after.Present? {
        var stage := d.ReadArtifact(i, Stage);
        if stage != Found(t.paths[i].after.evidence) { return false; }
      }
      if t.paths[i].backup.Some? {
        var backup := d.ReadArtifact(i, Backup);
        if backup != Found(t.paths[i].backup.value) { return false; }
      }
      i := i + 1;
    }
    ok := true;
  }

  lemma ReadyProbes(t: Transaction, w: World, st: State, i: nat)
    requires Ready(t, w, st) && i < |t.paths|
    ensures w.possible[i] == {Initial(t.paths[i])} && w.live[i] == Initial(t.paths[i])
    ensures ExactAt(w.volume, w.live[i], t.paths[i])
  {
    assert w.possible[i] <= Allowed(t.paths[i], st, i);
    assert i !in st.commitIntents;
    assert w.live[i] in w.possible[i];
    InitialProbes(w.volume, t.paths[i]);
  }

  lemma ReadyFinishing(t: Transaction, w: World, st: State)
    requires Ready(t, w, st)
    ensures AllSynced(w) && EntriesFinishing(t, w, false, false)
  {
    forall i | 0 <= i < |t.paths|
      ensures Synced(w, i) && w.possible[i] <= Finishing(t.paths[i], false, false)
    {
      ReadyProbes(t, w, st, i);
    }
  }

  /** Removes the artifacts and the journal of a finished transaction. */
  method Retire(d: Disk, t: Transaction, ghost st: State, ghost committed: bool) returns (o: Outcome)
    requires FinishedAs(t, d.W(), st, false) && JournalStays(d.W()) && AllSynced(d.W()) && NoReceipt(d.W())
    requires committed == (st.finished == Some(Committed))
    modifies d
    ensures d.Valid()
    ensures o.Done? ==> Concluded(t, d.W(), committed, false)
    ensures !o.Done? ==> FinishedAs(t, d.W(), st, false)
    ensures o.Failed? ==> o.recoveryRequired
    ensures o.Crashed? ==> AfterCrash(d.W())
    ensures if o.Done? then d.faults <= old(d.faults) else d.faults < old(d.faults)
  {
    hide EntriesFinishing, EntriesFinal, Staged, Journaled;
    o := Cleanup(d, t, committed);
    if !o.Done? { return; }
    o := RemoveJournal(d, t, committed, false);
  }

  /** `abort`; also `finish_without_changes`, which a failed revalidation runs. */
  method Abort(d: Disk, t: Transaction, ghost st: State) returns (o: Outcome, ghost next: State)
    requires Ready(t, d.W(), st)
    modifies d
    ensures d.Valid()
    ensures o.Done? ==> Concluded(t, d.W(), false, false)
    ensures !o.Done? ==> Recoverable(t, d.W(), next) && next.finished != Some(Committed)
    ensures o.Failed? ==> o.recoveryRequired
    ensures o.Crashed? ==> AfterCrash(d.W())
    ensures !o.Done? && !old(d.poisoned) ==> d.faults < old(d.faults)
    ensures d.faults <= old(d.faults)
    ensures !o.Done? ==> next == st || next.finished.Some?
  {
    ghost var w := d.W();
    ReadyFinishing(t, w, st);
    o, next := AppendFinished(d, t, Aborted, st, false);
    if !o.Done? { return; }
    forall i | 0 <= i < |w.live| ensures Synced(d.W(), i) {
      assert Synced(w, i);
    }
    o := Retire(d, t, next, false);
  }

  // Routing a failed `commit_one`

  lemma RollsFromUnchanged(t: Transaction, w: World, st: State, i: nat)
    requires StoppedAt(t, w, st, i, Unchanged) && i < |t.paths|
    ensures RollingBack(t, w, st, i, i)
  {
    assert Initial(t.paths[i]) != After(t.paths[i]) by {
      assert StagedWell(w.volume, t.paths[i]);
    }
    assert w.live[i] in w.possible[i] && w.possible[i] <= Allowed(t.paths[i], st, i);
    if i > 0 {
      assert i - 1 in st.committed;
      assert w.live[i - 1] in w.possible[i - 1] && w.possible[i - 1] <= Allowed(t.paths[i - 1], st, i - 1);
    }
  }

  lemma RollsFromChanged(t: Transaction, w: World, st: State, i: nat, state: MutationState)
    requires StoppedAt(t, w, st, i, state) && state in {HasChanged, LinkedInstall}
    ensures RollingBack(t, w, st, i + 1, i + 1)
  {
  }

  /** Every exit of `commit` that does not return success. */
  ghost predicate CommitStopped(t: Transaction, w: World, st: State, o: Outcome) {
    || (o.Failed? && Concluded(t, w, false, false))
    || (Recoverable(t, w, st) && o != Failed(false))
    || (BareRollback(t, w, st) && o != Failed(false))
  }

  lemma StoppedOpen(t: Transaction, w: World, st: State, i: nat, state: MutationState)
    requires StoppedAt(t, w, st, i, state)
    ensures st.finished.None?
  {
  }

  lemma StoppedAmbiguous(t: Transaction, w: World, st: State, i: nat)
    requires StoppedAt(t, w, st, i, Ambiguous)
    ensures w.Valid() && Interrupted(t, w, st) && st.finished.None?
  {
  }

  lemma SealedStops(t: Transaction, w: World, st: State, o: Outcome) returns (next: State)
    requires Interrupted(t, w, st) || Sealed(t, w, st, WithFinish(st, RolledBack))
    requires o.Crashed? || o == Failed(true)
    ensures CommitStopped(t, w, next, o) && next.finished != Some(Committed)
    ensures next == st || next.finished.Some?
  {
    next := if Interrupted(t, w, st) || st.commitIntents == {} then st else WithFinish(st, RolledBack);
  }

  /** An unfinished rollback has passed a path. */
  predicate GoneBelow(st: State) {
    st.lastRollbackIntent.Some? && st.finished.None?
  }

  lemma StoppedNone(t: Transaction, w: World, st: State, i: nat, state: MutationState)
    requires StoppedAt(t, w, st, i, state)
    ensures !GoneBelow(st)
  {
  }

  lemma SkippedGone(st: State, n: nat)
    requires Skipped(st, n) && st.finished.None?
    ensures GoneBelow(st)
  {
  }

  lemma ResumableNotSkipped(st: State, n: nat)
    requires Resumable(st, n)
    ensures !Skipped(st, n)
  {
    if st.lastRollbackIntent.Some? {
      assert Started(st) - 1 in st.rollbackIntents;
    }
  }

  /** What `commit` does once `commit_one` has failed at path `i`. */
  method RouteFailure(d: Disk, t: Transaction, changed: seq<nat>, i: nat, error: Outcome, state: MutationState, ghost st: State)
    returns (o: Outcome, ghost next: State)
    requires StoppedAt(t, d.W(), st, i, state) && i < |t.paths| && NoReceipt(d.W())
    requires error.Failed? && (state == Ambiguous ==> error.recoveryRequired)
    requires |changed| == i && forall j | 0 <= j < i :: changed[j] == j
    modifies d
    ensures d.Valid() && o != Done && CommitStopped(t, d.W(), next, o) && next.finished != Some(Committed)
    ensures o.Crashed? ==> AfterCrash(d.W())
    ensures d.faults <= old(d.faults)
    ensures GoneBelow(next) ==> d.faults < old(d.faults)
  {
    hide StoppedAt, RollingBack, FinishedAs, Interrupted, Sealed, BareRollback, Concluded;
    next := st;
    StoppedOpen(t, d.W(), st, i, state);
    StoppedNone(t, d.W(), st, i, state);
    if state == Ambiguous {
      StoppedAmbiguous(t, d.W(), st, i);
      return Failed(true), st;
    }
    var all := changed;
    if state == Unchanged {
      RollsFromUnchanged(t, d.W(), st, i);
    } else {
      RollsFromChanged(t, d.W(), st, i, state);
      all := changed + [i];
    }
    o, next := RollbackChanged(d, t, all, st);
    if o.Done? {
      return error, st;
    }
    next := SealedStops(t, d.W(), next, o);
  }

  // Committing every path

  lemma AllCommitted(t: Transaction, w: World, st: State)
    requires Unfinished(t, w, st) && Advancing(st, |t.paths|, |t.paths|) && NoReceipt(w)
    ensures ValidFinish(st, Committed) && EntriesFinishing(t, w, true, false) && AllSynced(w)
  {
    assert forall i: nat :: i in st.committed <==> i < |t.paths|;
    assert st.commitIntents == st.committed;
    IndexCount(st.committed, |t.paths|);
    forall i | 0 <= i < |t.paths|
      ensures Synced(w, i) && w.possible[i] <= Finishing(t.paths[i], true, false)
    {
      assert i in st.committed;
      assert w.live[i] in w.possible[i] && w.possible[i] <= Allowed(t.paths[i], st, i);
    }
  }

  lemma StillRecoverable(t: Transaction, w: World, st: State)
    requires Unfinished(t, w, st) && Resumable(st, |t.paths|)
    ensures w.Valid() && CommitStopped(t, w, st, Crashed) && st.finished.None?
  {
  }

  lemma NoReceiptStays(w: World, x: World)
    requires NoReceipt(w) && SameStore(w, x)
    ensures NoReceipt(x)
  {
  }

  /** The loop of `commit`: one path after the other, behind durable intents. */
  method CommitAll(d: Disk, t: Transaction, ghost st: State) returns (o: Outcome, ghost next: State)
    requires Ready(t, d.W(), st) && !d.poisoned
    modifies d
    ensures d.Valid()
    ensures o.Done? ==> Unfinished(t, d.W(), next) && Advancing(next, |t.paths|, |t.paths|) && NoReceipt(d.W())
    ensures !o.Done? ==> CommitStopped(t, d.W(), next, o) && d.faults < old(d.faults)
    ensures o.Crashed? ==> AfterCrash(d.W())
    ensures o.Done? ==> d.faults == old(d.faults) && !d.poisoned
    ensures !o.Done? && Skipped(next, |t.paths|) && next.finished.None? ==> d.faults + 2 <= old(d.faults)
  {
    hide Unfinished, CommitStopped, StoppedAt, Advancing, NoReceipt, Resumable, SameStore, Skipped;
    next := st;
    var changed: seq<nat> := [];
    var i := 0;
    while i < |t.paths|
      invariant 0 <= i <= |t.paths|
      invariant Unfinished(t, d.W(), next) && Advancing(next, |t.paths|, i) && NoReceipt(d.W())
      invariant |changed| == i && forall j | 0 <= j < i :: changed[j] == j
      invariant d.faults == old(d.faults) && !d.poisoned
    {
      var state;
      ghost var w := d.W();
      o, state, next := CommitOne(d, t, i, next);
      NoReceiptStays(w, d.W());
      if o.Crashed? {
        StillRecoverable(t, d.W(), next);
        ResumableNotSkipped(next, |t.paths|);
        return;
      }
      if o.Failed? {
        o, next := RouteFailure(d, t, changed, i, o, state, next);
        if Skipped(next, |t.paths|) && next.finished.None? { SkippedGone(next, |t.paths|); }
        return;
      }
      changed := changed + [i];
      i := i + 1;
    }
    assert d.Valid() by { UnfinishedValid(t, d.W(), next); }
    o := Done;
  }

  lemma UnfinishedValid(t: Transaction, w: World, st: State)
    requires Unfinished(t, w, st)
    ensures w.Valid() && |w.live| == |t.paths|
  {
  }

  /** The `Finished(Committed)` record and what follows it. */
  method EndTransaction(d: Disk, t: Transaction, ghost st: State) returns (o: Outcome, ghost next: State)
    requires Unfinished(t, d.W(), st) && Advancing(st, |t.paths|, |t.paths|) && NoReceipt(d.W()) && !d.poisoned
    modifies d
    ensures d.Valid()
    ensures o.Done? ==> Concluded(t, d.W(), true, false)
    ensures !o.Done? ==> Recoverable(t, d.W(), next) && d.faults < old(d.faults)
    ensures o.Failed? ==> o.recoveryRequired
    ensures o.Crashed? ==> AfterCrash(d.W())
    ensures d.faults <= old(d.faults)
    ensures !o.Done? ==> next == st || next.finished.Some?
  {
    ghost var w := d.W();
    AllCommitted(t, w, st);
    o, next := AppendFinished(d, t, Committed, st, false);
    if !o.Done? { return; }
    forall i | 0 <= i < |w.live| ensures Synced(d.W(), i) {
      assert Synced(w, i);
    }
    o := Retire(d, t, next, true);
  }

  lemma AdvancingNotSkipped(st: State, n: nat, i: nat)
    requires Advancing(st, n, i)
    ensures !Skipped(st, n)
  {
  }

  lemma ReadyNotSkipped(t: Transaction, w: World, st: State)
    requires Ready(t, w, st)
    ensures !Skipped(st, |t.paths|)
  {
  }

  /** `commit`.  Success means every slot holds its output and nothing is left over.  An
      error that does not ask for recovery means every slot is as before and nothing is
      left over.  Whatever else happens leaves a disk recovery can start from, except for
      the rollback recorded before any commit intent.  Without a fault it succeeds. */
  method Commit(d: Disk, t: Transaction, ghost st: State) returns (o: Outcome, ghost next: State)
    requires Ready(t, d.W(), st) && !d.poisoned
    modifies d
    ensures d.Valid()
    ensures o.Done? ==> Concluded(t, d.W(), true, false) && AllAfter(t, d.W())
    ensures o == Failed(false) ==> Concluded(t, d.W(), false, false) && AllBefore(t, d.W())
    ensures !o.Done? ==> CommitStopped(t, d.W(), next, o) && d.faults < old(d.faults)
    ensures o.Crashed? ==> AfterCrash(d.W())
    ensures !o.Done? && Skipped(next, |t.paths|) && next.finished.None? ==> d.faults + 2 <= old(d.faults)
  {
    hide Ready, CommitStopped, Unfinished, Concluded, Advancing, AllBefore, AllAfter, NoReceipt, Skipped;
    ReadyExact(t, d.W(), st);
    var intact := VerifyAll(d, t);
    if !intact {
      ReadyNotSkipped(t, d.W(), st);
      o, next := Abort(d, t, st);
      next := if o.Done? then st else next;
      o := if o.Done? then Failed(false) else o;
    } else {
      o, next := CommitAll(d, t, st);
      if o.Done? {
        AdvancingNotSkipped(next, |t.paths|, |t.paths|);
        o, next := EndTransaction(d, t, next);
      }
    }
    CommitEnds(t, d.W(), next, o);
  }

  lemma ReadyExact(t: Transaction, w: World, st: State)
    requires Ready(t, w, st)
    ensures w.Valid() && |w.live| == |t.paths|
    ensures forall i | 0 <= i < |t.paths| :: ExactAt(w.volume, w.live[i], t.paths[i])
  {
    forall i | 0 <= i < |t.paths| ensures ExactAt(w.volume, w.live[i], t.paths[i]) {
      ReadyProbes(t, w, st, i);
    }
  }

  lemma CommitEnds(t: Transaction, w: World, st: State, o: Outcome)
    requires o.Done? ==> Concluded(t, w, true, false)
    requires o == Failed(false) ==> Concluded(t, w, false, false) || CommitStopped(t, w, st, o)
    requires !o.Done? && o != Failed(false) ==> Recoverable(t, w, st) || CommitStopped(t, w, st, o)
    ensures o.Done? ==> AllAfter(t, w)
    ensures o == Failed(false) ==> Concluded(t, w, false, false) && AllBefore(t, w)
    ensures !o.Done? ==> CommitStopped(t, w, st, o)
  {
    if o.Done? {
      ConcludedTree(t, w, true, false);
    } else if o == Failed(false) {
      ConcludedTree(t, w, false, false);
    }
  }
}
