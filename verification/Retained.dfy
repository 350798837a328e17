/** `commit_retained`: a commit whose backups and receipt survive it. */
module Retained {
  import opened Outcomes
  import opened Filesystem
  import opened Records
  import opened Indices
  import opened Replay
  import opened Disks
  import opened Slots
  import opened Protocol
  import opened Probes
  import opened Journaling
  import opened Cleanups
  import opened Commits
  import opened Rollbacks
  import opened Transactions
  import opened Verdicts
  import opened Finishes
  import opened Settlements

  predicate AllReceipts(w: World) {
    forall k | k in w.possibleControl :: k.receipt
  }

  /** Changes of the state directory alone keep an unfinished transaction unfinished. */
  lemma UnfinishedControl(t: Transaction, w: World, x: World, st: State, extra: set<Control>)
    requires Unfinished(t, w, st) && ControlWithin(w, x, extra)
    requires forall k | k in extra :: k.operation && !k.undo && (k.receipt ==> w.receipt == Receipt(t.id, t.paths))
    ensures Unfinished(t, x, st)
  {
    forall i | 0 <= i < |t.paths|
      ensures x.possible[i] <= Allowed(t.paths[i], st, i)
      ensures i in st.rolledBack ==> Synced(x, i)
    {
      assert w.possible[i] <= Allowed(t.paths[i], st, i);
      assert x.live[i] in x.possible[i];
      assert i in st.rolledBack ==> Synced(w, i);
    }
  }

  lemma ReceiptReady(t: Transaction, w: World, st: State)
    requires Unfinished(t, w, st) && NoReceipt(w)
    ensures Unfinished(t, w.(receipt := Receipt(t.id, t.paths)), st)
    ensures w.control.operation && !w.control.undo && !w.control.receipt
  {
  }

  lemma ControlStarts(t: Transaction, w: World, st: State)
    requires Unfinished(t, w, st)
    ensures w.Valid() && w.control.operation && !w.control.undo
  {
  }

  /** `write_new`, with the receipt's bytes and its checksum written as one step.  A failed
      write takes the file away again as best it can; a failed directory synchronization
      leaves it. */
  method WriteReceipt(d: Disk, t: Transaction, ghost st: State) returns (o: Outcome)
    requires Unfinished(t, d.W(), st) && NoReceipt(d.W())
    modifies d
    ensures Unfinished(t, d.W(), st) && d.Valid() && d.receipt == Receipt(t.id, t.paths)
    ensures o.Done? ==> AllReceipts(d.W()) && d.faults == old(d.faults)
    ensures !o.Done? ==> d.faults < old(d.faults)
    ensures o.Failed? ==> o == Failed(false)
    ensures !o.Crashed? ==> d.poisoned == old(d.poisoned)
    ensures o.Crashed? ==> AfterCrash(d.W())
  {
    hide Unfinished;
    ReceiptReady(t, d.W(), st);
    d.receipt := Receipt(t.id, t.paths);
    ghost var w := d.W();
    ControlStarts(t, w, st);
    o := d.ChangeControl(d.control.(receipt := true));
    if o.Crashed? { CrashShrinks(w, d.W()); }
    UnfinishedControl(t, w, d.W(), st, {w.control.(receipt := true)});
    if o.Crashed? { return; }
    ghost var x := d.W();
    ControlStarts(t, x, st);
    if o.Failed? {
      o := ReplaceControl(d, d.control.(receipt := false));
      UnfinishedControl(t, x, d.W(), st, {x.control.(receipt := false)});
      o := if o.Crashed? then o else Failed(false);
      return;
    }
    o := d.SyncControl();
    if o.Crashed? { CrashShrinks(x, d.W()); }
    UnfinishedControl(t, x, d.W(), st, {});
    if o.Failed? {
      o := Failed(false);
    }
  }

  /** `discard_transitional_receipt` */
  method DiscardReceipt(d: Disk, t: Transaction, ghost st: State) returns (o: Outcome)
    requires Unfinished(t, d.W(), st)
    modifies d
    ensures Unfinished(t, d.W(), st) && d.Valid()
    ensures o.Done? ==> NoReceipt(d.W()) && d.live == old(d.live) && d.possible == old(d.possible) && d.volume == old(d.volume)
    ensures o.Failed? ==> o.recoveryRequired
    ensures !o.Crashed? ==> d.poisoned == old(d.poisoned)
    ensures o.Crashed? ==> AfterCrash(d.W())
    ensures if o.Done? then d.faults == old(d.faults) else d.faults < old(d.faults)
  {
    hide Unfinished;
    ghost var w := d.W();
    ControlStarts(t, w, st);
    o := ReplaceControl(d, d.control.(receipt := false));
    UnfinishedControl(t, w, d.W(), st, {w.control.(receipt := false)});
  }

  /** Every exit of `commit_retained` that does not return success.  `orphan` marks a run
      whose receipt outlived the failure to synchronize it. */
  ghost predicate RetainedStopped(t: Transaction, w: World, st: State, o: Outcome, orphan: bool) {
    || (o.Failed? && Concluded(t, w, false, orphan))
    || (o != Failed(false) && (|| Interrupted(t, w, st)
                               || FinishedAs(t, w, st, orphan || st.finished == Some(Committed))
                               || BareRollback(t, w, st)))
  }

  lemma OrphanReady(t: Transaction, w: World, st: State)
    requires Unfinished(t, w, st) && Advancing(st, |t.paths|, 0)
    ensures AllSynced(w) && EntriesFinishing(t, w, false, true)
  {
    forall i | 0 <= i < |t.paths|
      ensures Synced(w, i) && w.possible[i] <= Finishing(t.paths[i], false, true)
    {
      assert w.possible[i] <= Allowed(t.paths[i], st, i);
      assert i !in st.commitIntents;
      assert w.live[i] in w.possible[i];
    }
  }

  lemma OrphanCleanable(t: Transaction, w: World, st: State)
    requires FinishedAs(t, w, st, true) && JournalStays(w) && st.finished != Some(Committed)
    ensures Cleanable(t, w, false)
  {
  }

  lemma OrphanStill(t: Transaction, w: World, x: World, st: State)
    requires FinishedAs(t, w, st, true) && st.finished != Some(Committed) && x.records == w.records && x.volume == w.volume
    requires Staged(t, x) && (FinishedDisk(t, x, false, false) || FinishedDisk(t, x, false, true))
    ensures FinishedAs(t, x, st, true)
  {
  }

  /** `finish_without_changes` with a receipt that may be left over. */
  method AbortOrphan(d: Disk, t: Transaction, ghost st: State) returns (o: Outcome, ghost next: State)
    requires Unfinished(t, d.W(), st) && Advancing(st, |t.paths|, 0)
    modifies d
    ensures d.Valid()
    ensures o.Done? ==> Concluded(t, d.W(), false, true)
    ensures !o.Done? ==> o != Failed(false) && RetainedStopped(t, d.W(), next, o, true)
    ensures o.Crashed? ==> AfterCrash(d.W())
    ensures !o.Done? && !old(d.poisoned) ==> d.faults < old(d.faults)
    ensures d.faults <= old(d.faults)
    ensures !o.Done? ==> next == st || next.finished.Some?
  {
    hide Unfinished, FinishedAs, Cleanable, EntriesFinal, Concluded, BareRollback, Staged, FinishedDisk;
    ghost var w := d.W();
    OrphanReady(t, w, st);
    AdvancingInterrupted(t, w, st, 0);
    o, next := AppendFinished(d, t, Aborted, st, true);
    if !o.Done? { return; }
    AllSyncedAppend(w, d.W());
    OrphanCleanable(t, d.W(), next);
    ghost var x := d.W();
    o := Cleanup(d, t, false);
    CleanableFinished(t, d.W(), false);
    OrphanStill(t, x, d.W(), next);
    if !o.Done? { return; }
    FinalKeepless(t, d.W());
    x := d.W();
    o := RemoveJournal(d, t, false, true);
    OrphanStill(t, x, d.W(), next);
  }

  lemma AllSyncedAppend(w: World, x: World)
    requires AllSynced(w) && SameEntries(w, x)
    ensures AllSynced(x)
  {
    forall i | 0 <= i < |x.live| ensures Synced(x, i) {
      assert Synced(w, i);
    }
  }

  lemma CleanableFinished(t: Transaction, w: World, committed: bool)
    requires Cleanable(t, w, committed)
    ensures Staged(t, w) && FinishedDisk(t, w, committed, false) && JournalStays(w)
    ensures !committed ==> FinishedDisk(t, w, false, true)
  {
  }

  lemma FinalKeepless(t: Transaction, w: World)
    requires EntriesFinal(t, w, false, false)
    ensures EntriesFinal(t, w, false, true)
  {
  }

  lemma AdvancingInterrupted(t: Transaction, w: World, st: State, i: nat)
    requires Unfinished(t, w, st) && Advancing(st, |t.paths|, i)
    ensures Interrupted(t, w, st) && w.Valid()
  {
  }

  // The commit loop

  lemma AllReceiptsStay(w: World, x: World)
    requires AllReceipts(w) && SameStore(w, x)
    ensures AllReceipts(x)
  {
  }

  /** Discarding the receipt does not change what a failed `commit_one` left. */
  lemma StoppedControl(t: Transaction, w: World, x: World, st: State, i: nat, state: MutationState)
    requires StoppedAt(t, w, st, i, state) && Unfinished(t, x, st)
    requires x.live == w.live && x.possible == w.possible && x.volume == w.volume
    ensures StoppedAt(t, x, st, i, state)
  {
  }

  lemma StoppedUnfinished(t: Transaction, w: World, st: State, i: nat, state: MutationState)
    requires StoppedAt(t, w, st, i, state) && i < |t.paths|
    ensures Unfinished(t, w, st) && Interrupted(t, w, st)
  {
  }

  lemma RouteStopped(t: Transaction, w: World, st: State, o: Outcome)
    requires CommitStopped(t, w, st, o) && st.finished != Some(Committed)
    ensures RetainedStopped(t, w, st, o, false)
  {
  }

  /** What `commit_retained` does once `commit_one` has failed at path `i`. */
  method RouteRetained(d: Disk, t: Transaction, changed: seq<nat>, i: nat, error: Outcome, state: MutationState, ghost st: State)
    returns (o: Outcome, ghost next: State)
    requires StoppedAt(t, d.W(), st, i, state) && i < |t.paths|
    requires error.Failed? && (state == Ambiguous ==> error.recoveryRequired)
    requires |changed| == i && forall j | 0 <= j < i :: changed[j] == j
    modifies d
    ensures d.Valid() && o != Done && RetainedStopped(t, d.W(), next, o, false)
    ensures o.Crashed? ==> AfterCrash(d.W())
    ensures d.faults <= old(d.faults)
    ensures GoneBelow(next) ==> d.faults < old(d.faults)
  {
    hide StoppedAt, Unfinished, Interrupted, FinishedAs, BareRollback, Concluded, CommitStopped, NoReceipt;
    ghost var w := d.W();
    next := st;
    StoppedUnfinished(t, w, st, i, state);
    StoppedNone(t, w, st, i, state);
    UnfinishedValid(t, w, st);
    if state == Ambiguous {
      return Failed(true), st;
    }
    o := DiscardReceipt(d, t, st);
    if !o.Done? {
      InterruptedKept(t, w, d.W(), st);
      return;
    }
    StoppedControl(t, w, d.W(), st, i, state);
    o, next := RouteFailure(d, t, changed, i, error, state, st);
    RouteStopped(t, d.W(), next, o);
  }

  lemma InterruptedKept(t: Transaction, w: World, x: World, st: State)
    requires Interrupted(t, w, st) && Unfinished(t, x, st)
    ensures Interrupted(t, x, st)
  {
  }

  /** The loop of `commit_retained`. */
  method CommitAllRetained(d: Disk, t: Transaction, ghost st: State) returns (o: Outcome, ghost next: State)
    requires Unfinished(t, d.W(), st) && Advancing(st, |t.paths|, 0) && AllReceipts(d.W()) && !d.poisoned
    modifies d
    ensures d.Valid()
    ensures o.Done? ==> Unfinished(t, d.W(), next) && Advancing(next, |t.paths|, |t.paths|) && AllReceipts(d.W())
    ensures !o.Done? ==> RetainedStopped(t, d.W(), next, o, false) && d.faults < old(d.faults)
    ensures o.Crashed? ==> AfterCrash(d.W())
    ensures o.Done? ==> d.faults == old(d.faults) && !d.poisoned
    ensures !o.Done? && Skipped(next, |t.paths|) && next.finished.None? ==> d.faults + 2 <= old(d.faults)
  {
    hide Unfinished, RetainedStopped, StoppedAt, Advancing, AllReceipts, Resumable, SameStore, Skipped;
    next := st;
    var changed: seq<nat> := [];
    var i := 0;
    while i < |t.paths|
      invariant 0 <= i <= |t.paths|
      invariant Unfinished(t, d.W(), next) && Advancing(next, |t.paths|, i) && AllReceipts(d.W())
      invariant |changed| == i && forall j | 0 <= j < i :: changed[j] == j
      invariant d.faults == old(d.faults) && !d.poisoned
    {
      var state;
      ghost var w := d.W();
      o, state, next := CommitOne(d, t, i, next);
      AllReceiptsStay(w, d.W());
      if o.Crashed? {
        StillRecoverable(t, d.W(), next);
        RouteStopped(t, d.W(), next, o);
        ResumableNotSkipped(next, |t.paths|);
        return;
      }
      if o.Failed? {
        o, next := RouteRetained(d, t, changed, i, o, state, next);
        if Skipped(next, |t.paths|) && next.finished.None? { SkippedGone(next, |t.paths|); }
        return;
      }
      changed := changed + [i];
      i := i + 1;
    }
    assert d.Valid() by { UnfinishedValid(t, d.W(), next); }
    o := Done;
  }

  // After the last path

  lemma AllRetained(t: Transaction, w: World, st: State)
    requires Unfinished(t, w, st) && Advancing(st, |t.paths|, |t.paths|) && AllReceipts(w)
    ensures ValidFinish(st, Committed) && EntriesFinishing(t, w, true, true) && AllSynced(w)
  {
    assert forall i: nat :: i in st.committed <==> i < |t.paths|;
    assert st.commitIntents == st.committed;
    IndexCount(st.committed, |t.paths|);
    forall i | 0 <= i < |t.paths|
      ensures Synced(w, i) && w.possible[i] <= Finishing(t.paths[i], true, true)
    {
      assert i in st.committed;
      assert w.live[i] in w.possible[i] && w.possible[i] <= Allowed(t.paths[i], st, i);
    }
  }

  lemma StageGone(t: Transaction, w: World, x: World, i: nat)
    requires Settling(t, w, true, true) && i < |t.paths| && Within(w, x, i, {Repoint(w.live[i], Stage, None)})
    ensures Settling(t, x, true, true)
    ensures ArtifactState(w.volume, w.live[i], Stage) == NotFound
  {
    assert w.live[i] in w.possible[i] && w.possible[i] <= Finishing(t.paths[i], true, true);
    forall j | 0 <= j < |t.paths| ensures x.possible[j] <= Finishing(t.paths[j], true, true) {
      assert w.possible[j] <= Finishing(t.paths[j], true, true);
    }
    SettlingKept(t, w, x, true, true);
  }

  /** `cleanup_stages` */
  method CleanupStages(d: Disk, t: Transaction) returns (o: Outcome)
    requires Settling(t, d.W(), true, true) && AllSynced(d.W())
    modifies d
    ensures d.Valid() && Settling(t, d.W(), true, true) && OnlyEntries(old(d.W()), d.W())
    ensures o.Done? ==> AllSynced(d.W()) && d.control == old(d.control)
    ensures o.Failed? ==> o.recoveryRequired
    ensures o.Crashed? ==> AfterCrash(d.W())
    ensures if o.Done? then d.faults <= old(d.faults) else d.faults < old(d.faults)
  {
    hide Settling;
    SettlingValid(t, d.W());
    ghost var w := d.W();
    var i := 0;
    while i < |t.paths|
      invariant 0 <= i <= |t.paths| == |d.live| && d.Valid()
      invariant Settling(t, d.W(), true, true) && d.W() == w && d.faults <= old(d.faults)
    {
      if t.paths[i].after.Present? {
        var removed;
        StageGone(t, w, w, i) by { WithinEmpty(w, i, {Repoint(w.live[i], Stage, None)}); }
        o, removed := RemoveArtifact(d, i, Stage);
        StageGone(t, w, d.W(), i);
        if !o.Done? { return; }
      }
      i := i + 1;
    }
    o := Done;
  }

  lemma WithinEmpty(w: World, i: nat, extra: set<Entries>)
    requires w.Valid()
    ensures Within(w, w, i, extra)
  {
  }

  lemma SettlingValid(t: Transaction, w: World)
    requires Settling(t, w, true, true)
    ensures w.Valid() && |w.live| == |t.paths|
  {
  }

  lemma FinishedRetained(t: Transaction, w: World, st: State)
    requires FinishedAs(t, w, st, true) && JournalStays(w) && st.finished == Some(Committed)
    ensures Settling(t, w, true, true)
  {
  }

  lemma SettledRetained(t: Transaction, w: World, x: World, st: State)
    requires FinishedAs(t, w, st, true) && st.finished == Some(Committed) && x.records == w.records && x.volume == w.volume
    requires Settling(t, x, true, true) || (Staged(t, x) && FinishedDisk(t, x, true, true))
    ensures FinishedAs(t, x, st, true)
  {
  }

  lemma RelocatedKept(t: Transaction, w: World, x: World)
    requires Settling(t, w, true, true)
    ensures w.Valid() && |w.live| == |t.paths| && w.control.receipt
    ensures forall i | 0 <= i < |t.paths| && t.paths[i].backup.Some? :: Retainable(w.volume, w.live[i], t.paths[i].backup.value)
  {
    forall i | 0 <= i < |t.paths| && t.paths[i].backup.Some?
      ensures Retainable(w.volume, w.live[i], t.paths[i].backup.value)
    {
      assert w.live[i] in w.possible[i] && w.possible[i] <= Finishing(t.paths[i], true, true);
      FinishingRetains(t.paths[i], w.volume, w.live[i]);
    }
  }

  /** `retain_backups` and the removal of the journal. */
  method RetireRetained(d: Disk, t: Transaction, ghost st: State) returns (o: Outcome)
    requires FinishedAs(t, d.W(), st, true) && st.finished == Some(Committed) && Settling(t, d.W(), true, true) && AllSynced(d.W())
    modifies d
    ensures d.Valid()
    ensures o.Done? ==> Concluded(t, d.W(), true, true)
    ensures !o.Done? ==> FinishedAs(t, d.W(), st, true)
    ensures o.Failed? ==> o.recoveryRequired
    ensures o.Crashed? ==> AfterCrash(d.W())
    ensures if o.Done? then d.faults <= old(d.faults) else d.faults < old(d.faults)
  {
    hide FinishedAs, Settling, Retainable, Relocation, Staged, FinishedDisk, EntriesFinal, Concluded, JournalStays;
    ghost var w := d.W();
    RelocatedKept(t, w, w);
    o := RelocateBackups(d, t.paths);
    ghost var x := d.W();
    SettlingRelocated(t, w, x);
    SettledRetained(t, w, x, st);
    if !o.Done? { return; }
    SettlingRight(t, x);
    o := RemoveJournal(d, t, true, true);
    SettledRetained(t, x, d.W(), st);
  }

  lemma SettlingRight(t: Transaction, w: World)
    requires Settling(t, w, true, true)
    ensures Staged(t, w) && FinishedDisk(t, w, true, true) && JournalStays(w) && ReceiptLeft(w.control, true, true)
  {
  }

  /** `finish_retained` */
  method FinishRetained(d: Disk, t: Transaction, ghost st: State) returns (o: Outcome, ghost next: State)
    requires Unfinished(t, d.W(), st) && Advancing(st, |t.paths|, |t.paths|) && AllReceipts(d.W()) && !d.poisoned
    modifies d
    ensures d.Valid()
    ensures o.Done? ==> Concluded(t, d.W(), true, true)
    ensures !o.Done? ==> o != Failed(false) && RetainedStopped(t, d.W(), next, o, false) && d.faults < old(d.faults)
    ensures o.Crashed? ==> AfterCrash(d.W())
    ensures d.faults <= old(d.faults)
    ensures !o.Done? ==> next == st || next.finished.Some?
  {
    hide Unfinished, FinishedAs, Settling, BareRollback, Concluded, EntriesFinishing, Staged, FinishedDisk;
    ghost var w := d.W();
    AllRetained(t, w, st);
    AdvancingInterrupted(t, w, st, |t.paths|);
    o, next := AppendFinished(d, t, Committed, st, true);
    if !o.Done? { return; }
    AllSyncedAppend(w, d.W());
    FinishedRetained(t, d.W(), next);
    ghost var x := d.W();
    o := CleanupStages(d, t);
    SettledRetained(t, x, d.W(), next);
    if !o.Done? { return; }
    o := RetireRetained(d, t, next);
  }

  lemma AbortStopped(t: Transaction, w: World, st: State, o: Outcome)
    requires Recoverable(t, w, st) && st.finished != Some(Committed) && o != Failed(false)
    ensures RetainedStopped(t, w, st, o, false)
  {
  }

  lemma ReadyUnfinished(t: Transaction, w: World, st: State)
    requires Ready(t, w, st)
    ensures Unfinished(t, w, st) && Advancing(st, |t.paths|, 0) && NoReceipt(w)
  {
  }

  /** `commit_retained`; `room` is the verdict of the capacity check.  Success means every
      slot holds its output, every backup is in the state directory, and the receipt is
      there.  An error that does not ask for recovery means every slot is as before, and the
      receipt is gone unless synchronizing its directory was what failed. */
  method CommitRetained(d: Disk, t: Transaction, room: bool, ghost st: State)
    returns (o: Outcome, ghost next: State, ghost orphan: bool)
    requires Ready(t, d.W(), st) && !d.poisoned
    modifies d
    ensures d.Valid()
    ensures o.Done? ==> Concluded(t, d.W(), true, true) && AllAfter(t, d.W())
    ensures o == Failed(false) ==> Concluded(t, d.W(), false, orphan) && AllBefore(t, d.W())
    ensures !o.Done? ==> RetainedStopped(t, d.W(), next, o, orphan)
    ensures !o.Done? && (room || o != Failed(false)) ==> d.faults < old(d.faults)
    ensures !room ==> !o.Done?
    ensures o.Crashed? ==> AfterCrash(d.W())
    ensures d.faults <= old(d.faults)
    ensures !o.Done? && o != Failed(false) && Skipped(next, |t.paths|) && next.finished.None? ==> d.faults + 2 <= old(d.faults)
  {
    hide Ready, RetainedStopped, Unfinished, Concluded, Advancing, AllBefore, AllAfter, NoReceipt, Recoverable,
         AllReceipts, ExactAt, Skipped;
    ReadyExact(t, d.W(), st);
    ReadyNotSkipped(t, d.W(), st);
    ReadyUnfinished(t, d.W(), st);
    orphan := false;
    var intact := VerifyAll(d, t);
    if !intact || !room {
      o, next := Abort(d, t, st);
      if o.Done? {
        o := Failed(false);
        ConcludedStops(t, d.W(), next, false);
      } else {
        AbortStopped(t, d.W(), next, o);
      }
    } else {
      o, next, orphan := WriteAndCommit(d, t, st);
    }
    RetainedEnds(t, d.W(), next, o, orphan);
  }

  lemma ConcludedStops(t: Transaction, w: World, st: State, orphan: bool)
    requires Concluded(t, w, false, orphan)
    ensures RetainedStopped(t, w, st, Failed(false), orphan)
  {
  }

  /** From the receipt on. */
  method WriteAndCommit(d: Disk, t: Transaction, ghost st: State)
    returns (o: Outcome, ghost next: State, ghost orphan: bool)
    requires Ready(t, d.W(), st) && !d.poisoned
    modifies d
    ensures d.Valid()
    ensures o.Done? ==> Concluded(t, d.W(), true, true)
    ensures !o.Done? ==> RetainedStopped(t, d.W(), next, o, orphan) && d.faults < old(d.faults)
    ensures o.Crashed? ==> AfterCrash(d.W())
    ensures d.faults <= old(d.faults)
    ensures !o.Done? && o != Failed(false) && Skipped(next, |t.paths|) && next.finished.None? ==> d.faults + 2 <= old(d.faults)
  {
    hide Ready, RetainedStopped, Unfinished, Concluded, Advancing, NoReceipt, AllReceipts, Skipped;
    ReadyUnfinished(t, d.W(), st);
    ReadyNotSkipped(t, d.W(), st);
    orphan := false;
    next := st;
    o := WriteReceipt(d, t, st);
    if o.Crashed? {
      CrashedStops(t, d.W(), st);
      return;
    }
    if o.Failed? {
      orphan := true;
      o, next := AbortOrphan(d, t, st);
      if o.Done? {
        o := Failed(false);
        ConcludedStops(t, d.W(), next, true);
      }
      return;
    }
    o, next := CommitAllRetained(d, t, st);
    if !o.Done? { return; }
    AdvancingNotSkipped(next, |t.paths|, |t.paths|);
    o, next := FinishRetained(d, t, next);
  }

  lemma CrashedStops(t: Transaction, w: World, st: State)
    requires Unfinished(t, w, st) && Advancing(st, |t.paths|, 0)
    ensures RetainedStopped(t, w, st, Crashed, false)
  {
  }

  lemma RetainedEnds(t: Transaction, w: World, st: State, o: Outcome, orphan: bool)
    requires if o.Done? then Concluded(t, w, true, true) else RetainedStopped(t, w, st, o, orphan)
    ensures o.Done? ==> AllAfter(t, w)
    ensures o == Failed(false) ==> Concluded(t, w, false, orphan) && AllBefore(t, w)
  {
    if o.Done? {
      ConcludedTree(t, w, true, true);
    } else if o == Failed(false) {
      ConcludedTree(t, w, false, orphan);
    }
  }
}
