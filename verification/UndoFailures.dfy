/** The limit of the crash guarantee of undo: a run of the rollback, of recovery and of one power
    loss after which recovery refuses for good. */
module UndoFailures {
  import opened Outcomes
  import opened Filesystem
  import opened Records
  import opened Disks
  import opened Slots
  import opened Protocol
  import opened UndoReplay
  import opened Restores
  import opened UndoVerdicts
  import opened UndoSteps
  import opened UndoStates
  import opened Undos
  import opened UndoResumptions
  import opened Convergence
  import opened UndoRecovery

  // A disk recovery refuses

  /** Path `i` is on record as undone but does not show it, and no higher path is left to do. */
  ghost predicate Refused(t: Transaction, w: World, us: UndoState, i: nat) {
    && w.Valid() && |w.live| == |t.paths| && i < |t.paths| && w.receipt == Receipt(t.id, t.paths)
    && w.control.undo && w.undoRecords != [] && UndoParse(t.limits, w.undoRecords) == Ok(us)
    && Bound(w, us) && !us.finished && i in us.intents
    && UndoJudge(us, t.paths[i], i, w.volume, w.live[i]) == Conflict
    && forall k | i < k < |t.paths| :: UndoJudge(us, t.paths[k], k, w.volume, w.live[k]) == Leave
  }

  lemma {:induction false} LeavesConverged(us: UndoState, paths: seq<StagedPath>, w: World, i: nat)
    requires i <= |paths| == |w.live| == |w.possible|
    requires forall k | i <= k < |paths| :: UndoJudge(us, paths[k], k, w.volume, w.live[k]) == Leave
    ensures Converged(us, paths, w, i) == w
    decreases |paths| - i
  {
    hide UndoJudge;
    if i < |paths| { LeavesConverged(us, paths, w, i + 1); }
  }

  /** Every recovery of such a disk fails and changes nothing. */
  lemma RefusedStays(t: Transaction, w: World, x: World, us: UndoState, i: nat, o: Outcome)
    requires Refused(t, w, us, i) && UndoRecovered(t, w, x, o)
    ensures !o.Done? && x == w
  {
    hide UndoJudge, UndoContained, Converged, UndoParse, ShowsRestored;
    assert BoundRecovered(t, us, w, x, o);
    assert UndoJudge(us, t.paths[i], i, w.volume, w.live[i]) == Conflict;
    assert CompletionHalted(us, t.paths, w, x);
    var at: nat :| at < |t.paths| && UndoHalted(us, t.paths[at], Converged(us, t.paths, w, at + 1), x, at)
                   && forall k | at < k < |t.paths| :: UndoJudge(us, t.paths[k], k, w.volume, w.live[k]) != Conflict;
    assert at >= i;
    LeavesConverged(us, t.paths, w, at + 1);
  }

  // The run

  /** The entries of a path after the first directory change of its undo. */
  function Begun(p: StagedPath): Entries {
    if p.after.Absent? then UndoLinked(p) else Restored(p)
  }

  /** The undo of path `i` has made its first directory change and not synchronized it. */
  ghost predicate Stopped(t: Transaction, w: World, us: UndoState, i: nat) {
    && UndoOpen(t, w, us) && i < |t.paths| && i in us.intents && i !in us.rolledBack && DoneAbove(us, |t.paths|, i + 1)
    && i < |w.live| == |w.possible| && w.live[i] == Begun(t.paths[i]) && Relocated(t.paths[i]) in w.possible[i]
  }

  /** The directory change `restore_path` begins with. */
  method BeginRestore(d: Disk, p: StagedPath, i: nat) returns (o: Outcome)
    requires d.Valid() && i < |d.live|
    modifies d
    ensures d.Valid()
    ensures o.Done? ==>
              d.W() == Changed(old(d.W()), i, if p.before.Absent? then old(d.live[i]).(slot := None)
                                              else if p.after.Absent? then old(d.live[i]).(slot := old(d.live[i]).kept)
                                              else old(d.live[i]).(slot := old(d.live[i]).kept, kept := None))
    ensures !o.Done? ==> d.faults < old(d.faults)
    ensures o.Done? ==> d.faults == old(d.faults) && d.poisoned == old(d.poisoned)
  {
    var e := d.live[i];
    o := d.Change(i, if p.before.Absent? then e.(slot := None) else if p.after.Absent? then e.(slot := e.kept) else e.(slot := e.kept, kept := None));
  }

  lemma BegunFrom(v: Volume, p: StagedPath)
    requires StagedWell(v, p)
    ensures var e := Relocated(p);
            Begun(p) == if p.before.Absent? then e.(slot := None) else if p.after.Absent? then e.(slot := e.kept) else e.(slot := e.kept, kept := None)
    ensures Begun(p) in UndoReach(p)
  {
  }

  lemma BegunStops(t: Transaction, w: World, us: UndoState, i: nat)
    requires UndoOpen(t, w, us) && i < |t.paths| && i in us.intents && i !in us.rolledBack && DoneAbove(us, |t.paths|, i + 1)
    requires i < |w.live| == |w.possible| && w.live[i] == Relocated(t.paths[i])
    ensures Stopped(t, Changed(w, i, Begun(t.paths[i])), us, i)
  {
    OpenPossible(t, w, us, i);
    BegunFrom(w.volume, t.paths[i]);
    var x := Changed(w, i, Begun(t.paths[i]));
    assert w.live[i] in w.possible[i];
    forall j | 0 <= j < |t.paths| ensures x.possible[j] <= UndoAllowed(t.paths[j], us, j) {
      assert w.possible[j] <= UndoAllowed(t.paths[j], us, j);
    }
  }

  /** The undo itself, up to the directory change of path `i`.  There the process is killed, or the
      synchronization that would follow fails; neither changes the disk. */
  method StopUndo(d: Disk, t: Transaction, transaction: TransactionId, i: nat) returns (ghost us: UndoState)
    requires Retains(t, d.W()) && d.faults == 0 && i < |t.paths|
    modifies d
    ensures d.Valid() && d.faults == 0 && |d.live| == |t.paths| && Stopped(t, d.W(), us, i)
  {
    hide UndoOpen, UndoneFrom, Retains, Undoable, UndoIdle, Redone, Stopped, Redoable, RedoHalted, Restorable, DoneAbove;
    RetainsIdle(t, d.W());
    var exact := VerifyReceipt(d, t.paths);
    var o := OpenJournal(d, t, transaction);
    us := FreshUndo(d.receipt, |t.paths|);
    UndoneStarts(t, d.W(), us);
    var k := |t.paths|;
    while k > i + 1
      invariant i < k <= |t.paths| && d.Valid() && UndoneFrom(t, d.W(), us, k) && d.faults == 0 && !d.poisoned
    {
      UndoneNext(t, d.W(), us, k - 1);
      us := WithUndoDone(WithUndoIntent(us, k - 1), k - 1);
      o := RedoPath(d, t.paths[k - 1], k - 1, false);
      k := k - 1;
    }
    UndoneNext(t, d.W(), us, i);
    RedoableParts(t, d.W(), us, i);
    NoteUndoIntent(t, d.W(), us, i);
    o := Note(d, i, RollbackIntent(i));
    IntentParts(us, |t.paths|, i);
    us := WithUndoIntent(us, i);
    BegunStops(t, d.W(), us, i);
    OpenPossible(t, d.W(), us, i);
    BegunFrom(d.volume, t.paths[i]);
    o := BeginRestore(d, t.paths[i], i);
  }

  lemma RedoableParts(t: Transaction, w: World, us: UndoState, i: nat)
    requires Redoable(t, w, us, i)
    ensures UndoOpen(t, w, us) && w.live[i] == Relocated(t.paths[i]) && i !in us.rolledBack && DoneAbove(us, |t.paths|, i + 1)
    ensures |w.live| == |w.possible| == |t.paths|
  {
  }

  lemma IntentParts(us: UndoState, n: nat, i: nat)
    requires DoneAbove(us, n, i + 1) && i !in us.rolledBack
    ensures DoneAbove(WithUndoIntent(us, i), n, i + 1) && i in WithUndoIntent(us, i).intents && i !in WithUndoIntent(us, i).rolledBack
  {
  }

  /** What path `i` shows once the power is gone: its change was never durable, though the removal of
      the retained name was. */
  function Lost(p: StagedPath): Entries {
    if p.after.Absent? then Relocated(p).(kept := None) else Relocated(p)
  }

  /** What the recovery of a stopped undo has written by the time path `i` is on record as done. */
  lemma StoppedConverges(t: Transaction, w: World, us: UndoState, i: nat)
    requires Stopped(t, w, us, i)
    ensures |w.live| == |w.possible| == |t.paths| && w.Valid()
    ensures forall k | i <= k < |t.paths| ::
              UndoFeasible(us, t.paths[k], k, w.volume, w.live[k]) && UndoJudge(us, t.paths[k], k, w.volume, w.live[k]) != Conflict
    ensures var x := Converged(us, t.paths, w, i);
            && x == w.(live := x.live, possible := x.possible, possibleControl := x.possibleControl, undoRecords := w.undoRecords + [RollbackDone(i)])
            && |x.live| == |x.possible| == |w.live| && Lost(t.paths[i]) in x.possible[i]
            && forall k | i < k < |t.paths| :: x.live[k] == w.live[k] == Restored(t.paths[k])
  {
    hide UndoOpen, UndoJudge, UndoFeasible, Converged;
    OpenShape(t, w, us);
    forall k | i <= k < |t.paths|
      ensures UndoFeasible(us, t.paths[k], k, w.volume, w.live[k]) && UndoJudge(us, t.paths[k], k, w.volume, w.live[k]) != Conflict
      ensures k > i ==> UndoJudge(us, t.paths[k], k, w.volume, w.live[k]) == Leave && w.live[k] == Restored(t.paths[k])
    {
      JudgeOpen(t, w, us, k);
    }
    LeavesConverged(us, t.paths, w, i + 1);
    ConvergedStep(us, t.paths, w, i);
    JudgeOpen(t, w, us, i);
    BegunJudged(w.volume, t.paths[i]);
    PathUndoneAt(us, t.paths[i], w, i);
    if t.paths[i].after.Absent? {
      assert Relocated(t.paths[i]).(kept := None) in Unkept(w.possible[i]);
    }
  }

  lemma BegunJudged(v: Volume, p: StagedPath)
    requires StagedWell(v, p)
    ensures Begun(p) != Relocated(p) && (p.after.Present? ==> Begun(p) == Restored(p))
    ensures p.after.Absent? ==> Begun(p) == UndoLinked(p) && UndoLinked(p) != Restored(p)
  {
  }

  /** After the power loss the disk is one recovery refuses. */
  lemma LostRefused(t: Transaction, w: World, us: UndoState, i: nat, c: World)
    requires Stopped(t, w, us, i) && c.Valid() && |c.live| == |t.paths|
    requires c == w.(live := c.live, possible := c.possible, possibleControl := c.possibleControl, undoRecords := w.undoRecords + [RollbackDone(i)])
    requires c.live[i] == Lost(t.paths[i]) && forall k | i < k < |t.paths| :: c.live[k] == Restored(t.paths[k])
    ensures Refused(t, c, WithUndoDone(us, i), i)
    ensures SlotState(c.volume, c.live[i]) == Found(t.paths[i].after)
  {
    hide UndoParse;
    var now := WithUndoDone(us, i);
    StoppedParse(t, w, us, i);
    forall k | i <= k < |t.paths|
      ensures UndoJudge(now, t.paths[k], k, c.volume, c.live[k]) == if k == i then Conflict else Leave
      ensures k == i ==> SlotState(c.volume, c.live[k]) == Found(t.paths[k].after)
    {
      assert StagedWell(c.volume, t.paths[k]);
      RelocatedProbes(c.volume, t.paths[k]);
      UndoneProbes(c.volume, t.paths[k]);
    }
  }

  lemma StoppedParse(t: Transaction, w: World, us: UndoState, i: nat)
    requires Stopped(t, w, us, i)
    ensures UndoParse(t.limits, w.undoRecords + [RollbackDone(i)]) == Ok(WithUndoDone(us, i))
    ensures w.control.undo && w.control.receipt && w.receipt == Receipt(t.id, t.paths) && us.receipt == w.receipt && us.pathCount == |t.paths|
    ensures us.pathCount == |w.receipt.paths| && !us.finished
    ensures forall k | i < k < |t.paths| :: k in us.rolledBack
    ensures forall k | 0 <= k < |t.paths| :: StagedWell(w.volume, t.paths[k])
    ensures UndoParse(t.limits, w.undoRecords) == Ok(us)
  {
    OpenShape(t, w, us);
    UndoDoneStep(us, |t.paths|, i);
    UndoParseAppend(t.limits, w.undoRecords, RollbackDone(i));
  }

  /** Every path of every retained commit can be lost: the undo is stopped right after the directory
      change of path `i`, recovery in the same boot deals with the paths down to `i`, and then the
      power goes.  The slot shows its committed state again, while the journal says it was undone, so
      recovery refuses, now and every later time, with receipt and journal in place; and the bytes of
      a deleted file are under none of the path's names. */
  method UnsyncedUndo(d: Disk, t: Transaction, transaction: TransactionId, i: nat) returns (o: Outcome, ghost us: UndoState)
    requires Retains(t, d.W()) && d.faults == 0 && i < |t.paths|
    modifies d
    ensures d.Valid() && !o.Done? && Refused(t, d.W(), us, i) && i in us.rolledBack
    ensures d.control.undo && d.control.receipt
    ensures SlotState(d.volume, d.live[i]) == Found(t.paths[i].after)
    ensures t.paths[i].after.Absent? ==> d.live[i] == Entries(None, None, None, None)
  {
    hide Stopped, Refused, UndoRecovered, Retains, UndoOpen, UndoIdle, UndoParse, UndoJudge, UndoFeasible, Converged, SlotState, StagedWell;
    us := StopUndo(d, t, transaction, i);
    ghost var w := d.W();
    StoppedParse(t, w, us, i);
    StoppedConverges(t, w, us, i);
    var parsed := UndoParse(t.limits, d.undoRecords).value;
    d.poisoned := false;
    ghost var at;
    o, at := Complete(d, t.paths, parsed, i);
    d.LosePowerAt(i, Lost(t.paths[i]));
    LostRefused(t, w, us, i, d.W());
    us := WithUndoDone(us, i);
    RefusedParts(t, d.W(), us, i);
    ghost var c := d.W();
    ghost var next;
    o, next := RecoverUndo(d, t, us);
    RefusedStays(t, c, d.W(), us, i, o);
  }

  lemma RefusedParts(t: Transaction, w: World, us: UndoState, i: nat)
    requires Refused(t, w, us, i)
    ensures |w.live| == |t.paths| && w.receipt == Receipt(t.id, t.paths) && w.control.undo && w.control.receipt && w.undoRecords != []
  {
  }
}
