/** Whole runs of an undo: any crashes, failures and recoveries. */
module UndoRuns {
  import opened Outcomes
  import opened Filesystem
  import opened Records
  import opened Disks
  import opened Slots
  import opened Protocol
  import opened Cleanups
  import opened UndoReplay
  import opened Restores
  import opened UndoStates
  import opened Undos
  import opened UndoResumptions
  import opened UndoRecovery

  /** A power loss keeps an undo pending, and makes its disk steady. */
  lemma PendingLost(t: Transaction, w: World, x: World, us: UndoState)
    requires UndoPending(t, w, us) && PowerLost(w, x)
    ensures UndoPending(t, x, us) && Rebooted(x) && Steady(t, x, us) && (UndoIdle(t, w) <==> UndoIdle(t, x))
  {
    hide UndoIdle, UndoOpen, UndoClosed, Steady;
    LostWithin(w, x);
    PendingJournal(t, w, us);
    RebootedSteady(t, x, us);
    if UndoIdle(t, w) {
      UndoIdleControl(t, w, x, {});
    } else if UndoClosed(t, w, us) {
      UndoClosedControl(t, w, x, us, {});
      SoundNotIdle(t, x, us);
    } else {
      UndoOpenControl(t, w, x, us);
      SoundNotIdle(t, x, us);
    }
  }

  lemma LostWithin(w: World, x: World)
    requires PowerLost(w, x)
    ensures ControlWithin(w, x, {}) && Rebooted(x)
  {
  }

  lemma PendingStart(t: Transaction, w: World, us: UndoState)
    requires UndoIdle(t, w) || UndoSound(t, w, us)
    ensures UndoPending(t, w, us) && w.Valid() && |w.live| == |t.paths|
  {
  }

  /** A resolved undo whose state directory is synchronized. */
  lemma ResolvedDurable(t: Transaction, w: World, undone: bool)
    requires UndoResolved(t, w, undone) && w.possibleControl == {w.control}
    ensures if undone then Undone(t, w) else Retains(t, w)
  {
    if undone {
      RestoredUndone(t, w);
    } else {
      forall i | 0 <= i < |t.paths| ensures w.possible[i] <= {Relocated(t.paths[i])} {
      }
      assert UndoIdle(t, w);
      IdleRetains(t, w);
    }
  }

  lemma ResolvedReceipt(t: Transaction, w: World, undone: bool)
    requires UndoResolved(t, w, undone)
    ensures w.control.receipt == !undone
  {
  }

  lemma StartsUndo(t: Transaction, w: World)
    requires Retains(t, w)
    ensures w.Valid() && |w.live| == |t.paths| && w.receipt == Receipt(t.id, t.paths) && w.possibleControl == {Control(false, true, false)}
  {
    assert w.control in w.possibleControl;
    forall k | k in w.possibleControl ensures k == Control(false, true, false) {
    }
  }

  lemma FinishesUndo(t: Transaction, w: World, x: World)
    requires Retains(t, w) && Undone(t, x) && x.receipt == w.receipt && |x.live| == |w.live|
    ensures UndoResolved(t, x, true)
  {
    UndoneResolved(t, x);
  }

  /** An undo and whatever follows it: process kills, power losses and plain failures, and recoveries
      after each, in the same boot or not.  It is all or nothing, in every state a power loss may
      still bring about, if each recovery begins on a steady disk, as it does after every power loss.
      With a reboot before each recovery the end is durable as a whole.  Without a fault the undo
      happens. */
  method UndoRun(d: Disk, t: Transaction, transaction: TransactionId, reboots: bool) returns (undone: bool, ghost steady: bool)
    requires Retains(t, d.W())
    modifies d
    ensures d.Valid() && |d.live| == |t.paths|
    ensures steady ==> UndoResolved(t, d.W(), undone)
    ensures steady ==> if undone then AllBefore(t, d.W()) else AllAfter(t, d.W())
    ensures reboots ==> steady && if undone then Undone(t, d.W()) else Retains(t, d.W())
    ensures !steady ==> d.faults < old(d.faults)
    ensures old(d.faults) == 0 ==> undone && Undone(t, d.W())
  {
    hide UndoIdle, UndoSound, UndoPending, UndoResolved, UndoRecovered, UndoAdvanced, Retains, Undone, AllBefore, AllAfter, Rebooted,
         Undoable, Steady, PowerLost, UndoOpen, RestoringWithin, AllRestored;
    ghost var first := d.W();
    StartsUndo(t, first);
    steady := true;
    ghost var us;
    var o;
    o, us := Rollback(d, t, transaction);
    RestoringFrame(t.paths, first, d.W());
    if o.Done? {
      FinishesUndo(t, first, d.W());
      ResolvedTree(t, d.W(), true);
      return true, true;
    }
    PendingStart(t, d.W(), us);
    ghost var idle := UndoIdle(t, d.W());
    var stuck := false;
    while !o.Done? && !stuck
      invariant d.Valid() && |d.live| == |t.paths| && d.receipt == Receipt(t.id, t.paths) && d.faults < old(d.faults)
      invariant reboots ==> steady
      invariant steady ==> !stuck && if o.Done? then UndoResolved(t, d.W(), !idle) else UndoPending(t, d.W(), us) && (UndoIdle(t, d.W()) <==> idle)
      invariant reboots && o.Done? ==> d.possibleControl == {d.control}
      decreases !o.Done? && !stuck, d.faults
    {
      ghost var w := d.W();
      var power: bool := *;
      if reboots || power {
        d.LosePower();
        LostFrame(w, d.W());
        if steady { PendingLost(t, w, d.W(), us); }
      }
      steady := steady && Steady(t, d.W(), us);
      ghost var x := d.W();
      var before := d.faults;
      o, us := RecoverUndo(d, t, us);
      stuck := !o.Done? && d.faults == before;
      if steady { AdvancedEnd(t, x, d.W(), us, o); }
    }
    undone := !d.control.receipt;
    if steady {
      ResolvedReceipt(t, d.W(), !idle);
      ResolvedTree(t, d.W(), undone);
      if reboots { ResolvedDurable(t, d.W(), undone); }
    }
  }

  lemma RestoringFrame(paths: seq<StagedPath>, w: World, x: World)
    requires |paths| == |w.live| == |w.possible| && RestoringWithin(paths, w, x)
    ensures |x.live| == |w.live| && x.receipt == w.receipt
  {
  }

  lemma LostFrame(w: World, x: World)
    requires PowerLost(w, x)
    ensures |x.live| == |w.live| && x.receipt == w.receipt && x.possibleControl == {x.control}
  {
  }

  lemma AdvancedEnd(t: Transaction, w: World, x: World, us: UndoState, o: Outcome)
    requires UndoAdvanced(t, w, x, us, o)
    ensures if o.Done? then UndoResolved(t, x, !UndoIdle(t, w)) && (w.control.undo ==> x.possibleControl == {x.control})
            else UndoPending(t, x, us) && (UndoIdle(t, x) <==> UndoIdle(t, w))
  {
  }
}
