/** Recovery of an interrupted undo, on whatever the disk holds. */
module UndoRecovery {
  import opened Outcomes
  import opened Filesystem
  import opened Records
  import opened Disks
  import opened Slots
  import opened Protocol
  import opened Cleanups
  import opened UndoReplay
  import opened Restores
  import opened UndoVerdicts
  import opened Convergence
  import opened UndoStates
  import opened Undos
  import opened UndoResumptions

  /** Removal of the journal of an undo that never began. */
  method DropUndo(d: Disk, ghost t: Transaction) returns (o: Outcome)
    requires d.Valid() && d.control.undo
    modifies d
    ensures d.Valid() && ControlWithin(old(d.W()), d.W(), {old(d.control).(undo := false)})
    ensures o.Done? ==> d.W() == old(d.W()).(control := d.control, possibleControl := {d.control}) && d.control == old(d.control).(undo := false)
    ensures old(UndoIdle(t, d.W())) ==> if o.Done? then Retains(t, d.W()) else UndoIdle(t, d.W())
    ensures !o.Done? ==> d.faults < old(d.faults)
    ensures o.Failed? ==> o.recoveryRequired
    ensures o.Crashed? ==> AfterCrash(d.W())
    ensures d.faults <= old(d.faults)
  {
    hide UndoIdle, Retains;
    ghost var w := d.W();
    ghost var idle := UndoIdle(t, w);
    if idle { IdleValid(t, w); }
    o := ReplaceControl(d, d.control.(undo := false));
    if idle {
      UndoIdleControl(t, w, d.W(), {w.control.(undo := false)});
      if o.Done? { IdleRetains(t, d.W()); }
    }
  }

  /** The end of an undo whose journal is finished: every path is verified and synchronized before
      receipt and journal go. */
  method CloseUndo(d: Disk, t: Transaction, ghost us: UndoState) returns (o: Outcome)
    requires d.Valid() && |d.live| == |t.paths| && d.control.undo
    modifies d
    ensures d.Valid()
    ensures ControlWithin(old(d.W()), d.W(), {old(d.control).(receipt := false), old(d.control).(receipt := false, undo := false)})
    ensures o.Done? ==> d.live == old(d.live) && AllSynced(d.W())
    ensures o.Done? ==> d.control == old(d.control).(receipt := false, undo := false) && d.possibleControl == {d.control}
    ensures o.Done? ==> forall i | 0 <= i < |t.paths| :: ShowsRestored(d.volume, t.paths[i], d.live[i])
    ensures (exists i | 0 <= i < |t.paths| :: !old(ShowsRestored(d.volume, t.paths[i], d.live[i]))) ==> !o.Done? && d.possibleControl <= old(d.possibleControl)
    ensures old(UndoClosed(t, d.W(), us)) ==> if o.Done? then Undone(t, d.W()) else UndoClosed(t, d.W(), us) && d.faults < old(d.faults)
    ensures o.Failed? ==> o.recoveryRequired
    ensures o.Crashed? ==> AfterCrash(d.W())
    ensures d.faults <= old(d.faults)
  {
    hide UndoClosed, Undone, ShowsRestored, ControlWithin;
    ghost var w := d.W();
    ControlStart(w, {w.control.(receipt := false), w.control.(receipt := false, undo := false)});
    ghost var closed := UndoClosed(t, w, us);
    if closed { ClosedShows(t, w, us); }
    o := VerifyUndone(d, t.paths);
    if closed { UndoClosedControl(t, w, d.W(), us, {}); }
    if !o.Done? {
      ControlMore(w, d.W(), w, {w.control.(receipt := false), w.control.(receipt := false, undo := false)});
      return;
    }
    ghost var x := d.W();
    assert x.live == w.live && x.control == w.control;
    o := Consume(d);
    ControlMore(w, x, d.W(), {w.control.(receipt := false), w.control.(receipt := false, undo := false)});
    if o.Done? { SyncedSame(x, d.W()); }
    if closed {
      UndoClosedControl(t, x, d.W(), us, {x.control.(receipt := false), x.control.(receipt := false, undo := false)});
      if o.Done? { ClosedGone(t, d.W(), us); }
    }
  }

  lemma ControlStart(w: World, extra: set<Control>)
    requires w.Valid()
    ensures ControlWithin(w, w, extra)
  {
  }

  lemma ControlMore(w: World, x: World, y: World, extra: set<Control>)
    requires ControlWithin(w, x, {})
    ensures ControlWithin(w, x, extra) && x.possibleControl <= w.possibleControl
    ensures ControlWithin(x, y, extra) ==> ControlWithin(w, y, extra)
  {
  }

  lemma SyncedSame(w: World, x: World)
    requires AllSynced(w) && x == w.(control := x.control, possibleControl := x.possibleControl)
    ensures AllSynced(x) && x.live == w.live
  {
    forall i | 0 <= i < |x.live| ensures Synced(x, i) {
      assert Synced(w, i);
    }
  }

  lemma ClosedShows(t: Transaction, w: World, us: UndoState)
    requires UndoClosed(t, w, us)
    ensures |w.live| == |t.paths| && !w.control.operation
    ensures forall i | 0 <= i < |t.paths| :: ShowsRestored(w.volume, t.paths[i], w.live[i])
  {
    ClosedStarts(t, w, us);
    forall i | 0 <= i < |t.paths| ensures ShowsRestored(w.volume, t.paths[i], w.live[i]) {
      UndoneProbes(w.volume, t.paths[i]);
    }
  }

  lemma ClosedGone(t: Transaction, w: World, us: UndoState)
    requires UndoClosed(t, w, us) && w.possibleControl == {Control(false, false, false)}
    ensures Undone(t, w)
  {
    ClosedStarts(t, w, us);
    RestoredUndone(t, w);
  }

  /** The completion stopped within path `at`, no higher path being in conflict. */
  ghost predicate CompletionHalted(us: UndoState, paths: seq<StagedPath>, w: World, x: World)
    requires |paths| == |w.live| == |w.possible|
  {
    exists at: nat | at < |paths| ::
      && UndoHalted(us, paths[at], Converged(us, paths, w, at + 1), x, at)
      && forall k | at < k < |paths| :: UndoJudge(us, paths[k], k, w.volume, w.live[k]) != Conflict
  }

  /** The completion of an undo with a durable intent: every path converges, then the closing record
      and the removals. */
  method CompleteUndo(d: Disk, t: Transaction, us: UndoState) returns (o: Outcome, ghost next: UndoState)
    requires d.Valid() && |d.live| == |t.paths| && d.control.undo
    modifies d
    ensures d.Valid() && UndoContained(us, t.paths, old(d.W()), d.W())
    ensures o.Done? ==> d.W() == Closed(Converged(us, t.paths, old(d.W()), 0)) && d.possibleControl == {d.control}
    ensures |d.live| == |t.paths| && d.receipt == old(d.receipt)
    ensures o.Done? ==> forall i | 0 <= i < |t.paths| :: ShowsRestored(d.volume, t.paths[i], d.live[i])
    ensures (exists k | 0 <= k < |t.paths| :: UndoJudge(us, t.paths[k], k, old(d.volume), old(d.live[k])) == Conflict) ==>
              !o.Done? && CompletionHalted(us, t.paths, old(d.W()), d.W()) && d.possibleControl <= old(d.possibleControl)
    ensures old(UndoOpen(t, d.W(), us)) && us.intents != {} ==>
              && (if o.Done? then Undone(t, d.W()) <==> old(Steady(t, d.W(), us)) else !old(d.poisoned) ==> d.faults < old(d.faults))
              && (!o.Done? && old(Steady(t, d.W(), us)) ==> UndoSound(t, d.W(), next) && !UndoIdle(t, d.W()))
    ensures o.Failed? ==> o.recoveryRequired
    ensures o.Crashed? ==> AfterCrash(d.W())
    ensures d.faults <= old(d.faults)
  {
    hide UndoOpen, UndoSound, UndoIdle, Undone, Steady, UndoJudge, UndoHalted, UndoContained, Converged, CompletionHalted, UndoFeasible, Closing, Closed, ShowsRestored;
    ghost var w := d.W();
    ghost var open := UndoOpen(t, w, us) && us.intents != {};
    next := us;
    ghost var at;
    if open { OpenFeasible(t, w, us); }
    o, at := Complete(d, t.paths, us, 0);
    if !o.Done? {
      HaltedContained(us, t.paths, w, d.W(), at);
      ContainedFrame(us, t.paths, w, d.W());
      HaltedBelow(us, t.paths, w, d.W(), at);
      if open && Steady(t, w, us) {
        next := HaltedOpen(t, w, us, d.W(), at);
        OpenSound(t, d.W(), next);
      }
      return;
    }
    ghost var x := d.W();
    ConvergedControl(us, t.paths, w);
    o := FinishUndo(d);
    ClosingContained(us, t.paths, w, d.W());
    if o.Done? { ClosedControl(x); }
    if open {
      if o.Done? {
        ClosedIff(t, w, us);
      } else if Steady(t, w, us) {
        next := ConvergedOpen(t, w, us, 0);
        next := TrackedSound(t, x, d.W(), us, next);
      }
    }
  }

  lemma ClosedControl(w: World)
    ensures Closed(w).possibleControl == {Closed(w).control} && Closed(w).live == w.live && Closed(w).volume == w.volume
  {
  }

  lemma ContainedFrame(us: UndoState, paths: seq<StagedPath>, w: World, x: World)
    requires |paths| == |w.live| == |w.possible| && UndoContained(us, paths, w, x)
    ensures |x.live| == |w.live| && x.receipt == w.receipt
  {
  }

  lemma OpenFeasible(t: Transaction, w: World, us: UndoState)
    requires UndoOpen(t, w, us)
    ensures |w.live| == |w.possible| == |t.paths|
    ensures forall k | 0 <= k < |t.paths| ::
              UndoFeasible(us, t.paths[k], k, w.volume, w.live[k]) && UndoJudge(us, t.paths[k], k, w.volume, w.live[k]) != Conflict
  {
    hide UndoFeasible, UndoJudge;
    forall k | 0 <= k < |t.paths|
      ensures UndoFeasible(us, t.paths[k], k, w.volume, w.live[k]) && UndoJudge(us, t.paths[k], k, w.volume, w.live[k]) != Conflict
    {
      JudgeOpen(t, w, us, k);
    }
  }

  lemma HaltedBelow(us: UndoState, paths: seq<StagedPath>, w: World, x: World, at: nat)
    requires at < |paths| == |w.live| == |w.possible| && UndoHalted(us, paths[at], Converged(us, paths, w, at + 1), x, at)
    requires forall k | 0 <= k < |paths| && UndoJudge(us, paths[k], k, w.volume, w.live[k]) == Conflict :: at >= k
    ensures CompletionHalted(us, paths, w, x)
  {
    hide UndoHalted, UndoJudge, Converged;
  }

  lemma OpenSound(t: Transaction, w: World, us: UndoState)
    requires UndoOpen(t, w, us) && us.intents != {}
    ensures UndoSound(t, w, us) && !UndoIdle(t, w)
  {
    SoundNotIdle(t, w, us);
  }

  lemma TrackedSound(t: Transaction, w: World, x: World, us: UndoState, now: UndoState) returns (next: UndoState)
    requires UndoOpen(t, w, now) && Tracking(us, now, |t.paths|, 0) && us.intents != {} && Closing(w, x)
    ensures UndoSound(t, x, next) && !UndoIdle(t, x)
  {
    next := ClosingSound(t, w, x, now);
  }

  lemma ConvergedControl(us: UndoState, paths: seq<StagedPath>, w: World)
    requires |paths| == |w.live| == |w.possible| && w.Valid()
    ensures Converged(us, paths, w, 0).control == w.control
  {
    hide Converged, UndoTarget, UndoPossible;
    ConvergedAt(us, paths, w, 0);
  }

  lemma ClosingContained(us: UndoState, paths: seq<StagedPath>, w: World, y: World)
    requires |paths| == |w.live| == |w.possible| && w.Valid() && Closing(Converged(us, paths, w, 0), y)
    ensures UndoContained(us, paths, w, y) && |y.live| == |w.live| && y.receipt == w.receipt
  {
    hide Converged, UndoTarget, UndoPossible, UndoContained;
    ConvergedAt(us, paths, w, 0);
    ConvergedContained(us, paths, w, y, 0);
  }

  lemma ClosedIff(t: Transaction, w: World, us: UndoState)
    requires UndoOpen(t, w, us)
    ensures |w.live| == |w.possible| == |t.paths| && (Undone(t, Closed(Converged(us, t.paths, w, 0))) <==> Steady(t, w, us))
  {
    hide UndoOpen, Converged, UndoTarget, UndoPossible, Steady;
    OpenShape(t, w, us);
    DurableIff(t, w, us);
    ConvergedAt(us, t.paths, w, 0);
    ConvergedValid(us, t.paths, w, 0);
    var x := Converged(us, t.paths, w, 0);
    if Steady(t, w, us) {
      ClosedUndone(t, x);
    } else {
      assert Closed(x).possible == x.possible;
    }
  }

  // Recovery in a new process or in the same boot

  /** An undo that recovery may find. */
  ghost predicate UndoPending(t: Transaction, w: World, us: UndoState) {
    UndoIdle(t, w) || UndoSound(t, w, us)
  }

  /** Nothing of the undo is left to do: every slot is restored and the receipt gone, or every slot is
      in its committed state and the receipt there, whatever a power loss does to the slots. */
  ghost predicate UndoResolved(t: Transaction, w: World, undone: bool) {
    && UndoBase(t, w) && w.control == Control(false, !undone, false)
    && forall i | 0 <= i < |t.paths| :: w.possible[i] <= {if undone then Restored(t.paths[i]) else Relocated(t.paths[i])}
  }

  lemma ResolvedTree(t: Transaction, w: World, undone: bool)
    requires UndoResolved(t, w, undone)
    ensures if undone then AllBefore(t, w) else AllAfter(t, w)
    ensures |w.live| == |t.paths|
  {
    forall i, e | 0 <= i < |t.paths| && May(w, i, e)
      ensures Content(w.volume, e) == if undone then BeforeContent(w.volume, t.paths[i]) else AfterContent(w.volume, t.paths[i])
    {
      assert StagedWell(w.volume, t.paths[i]);
      assert w.possible[i] <= {if undone then Restored(t.paths[i]) else Relocated(t.paths[i])};
    }
  }

  lemma UndoneResolved(t: Transaction, w: World)
    requires Undone(t, w) && UndoBase(t, w)
    ensures UndoResolved(t, w, true)
  {
    assert w.control in w.possibleControl;
  }

  lemma RetainsResolved(t: Transaction, w: World)
    requires Retains(t, w)
    ensures UndoResolved(t, w, false)
  {
    RetainsIdle(t, w);
    forall i | 0 <= i < |t.paths| ensures w.possible[i] <= {Relocated(t.paths[i])} {
    }
  }

  /** A journal that is gone, though a power loss might bring it back. */
  lemma GoneResolved(t: Transaction, w: World, us: UndoState)
    requires UndoPending(t, w, us) && !w.control.undo
    ensures UndoResolved(t, w, !UndoIdle(t, w))
  {
    assert w.control in w.possibleControl;
    if UndoIdle(t, w) { IdleValid(t, w); }
  }

  /** The journal is bound to the receipt that is there. */
  predicate Bound(w: World, us: UndoState) {
    w.control.receipt && us.receipt == w.receipt && us.pathCount == |w.receipt.paths|
  }

  lemma PendingJournal(t: Transaction, w: World, us: UndoState)
    requires UndoPending(t, w, us)
    ensures w.Valid() && |w.live| == |t.paths| && 0 < |t.paths| && w.receipt == Receipt(t.id, t.paths) && UndoBase(t, w)
    ensures UndoIdle(t, w) && w.control.undo && w.undoRecords != [] ==>
              UndoParse(t.limits, w.undoRecords) == Ok(FreshUndo(w.receipt, |t.paths|)) && w.control.receipt
    ensures !UndoIdle(t, w) ==> w.undoRecords != [] && UndoParse(t.limits, w.undoRecords) == Ok(us) && us.receipt == w.receipt && us.pathCount == |t.paths|
    ensures !UndoIdle(t, w) && !us.finished ==> UndoOpen(t, w, us) && us.intents != {} && w.control.undo && w.control.receipt
    ensures !UndoIdle(t, w) && us.finished ==> UndoClosed(t, w, us)
  {
  }

  /** The receipt's removal may have outrun the journal's: only the journal is left. */
  method FinishWithoutReceipt(d: Disk, ghost t: Transaction, ghost us: UndoState) returns (o: Outcome)
    requires d.Valid() && d.control.undo
    modifies d
    ensures d.Valid() && ControlWithin(old(d.W()), d.W(), {old(d.control).(undo := false)})
    ensures o.Done? ==> d.W() == old(d.W()).(control := d.control, possibleControl := {d.control}) && d.control == old(d.control).(undo := false)
    ensures old(UndoClosed(t, d.W(), us) && !d.control.receipt) ==> if o.Done? then Undone(t, d.W()) else UndoClosed(t, d.W(), us)
    ensures !o.Done? ==> d.faults < old(d.faults)
    ensures o.Failed? ==> o.recoveryRequired
    ensures o.Crashed? ==> AfterCrash(d.W())
    ensures d.faults <= old(d.faults)
  {
    hide UndoClosed, Undone;
    ghost var w := d.W();
    ghost var closed := UndoClosed(t, w, us) && !w.control.receipt;
    if closed { ClosedStarts(t, w, us); }
    o := ReplaceControl(d, d.control.(undo := false));
    if closed {
      UndoClosedControl(t, w, d.W(), us, {w.control.(undo := false)});
      if o.Done? { ClosedGone(t, d.W(), us); }
    }
  }

  /** What recovery does with an undo journal bound to its receipt. */
  ghost predicate BoundRecovered(t: Transaction, us: UndoState, w: World, x: World, o: Outcome)
    requires |t.paths| == |w.live| == |w.possible|
  {
    && UndoContained(us, t.paths, w, x)
    && (us.finished ==>
          && (o.Done? ==> AllSynced(x) && forall i | 0 <= i < |t.paths| && i < |x.live| :: ShowsRestored(x.volume, t.paths[i], x.live[i]))
          && ((exists i | 0 <= i < |t.paths| :: !ShowsRestored(w.volume, t.paths[i], w.live[i])) ==> !o.Done? && x.possibleControl <= w.possibleControl))
    && (!us.finished && us.intents != {} ==>
          && (o.Done? ==> x == Closed(Converged(us, t.paths, w, 0)))
          && (o.Done? ==> forall i | 0 <= i < |t.paths| && i < |x.live| :: ShowsRestored(x.volume, t.paths[i], x.live[i]))
          && ((exists i | 0 <= i < |t.paths| :: Diverged(t.paths[i], w.volume, w.live[i])) ==> !o.Done? && x.possibleControl <= w.possibleControl)
          && ((exists k | 0 <= k < |t.paths| :: UndoJudge(us, t.paths[k], k, w.volume, w.live[k]) == Conflict) ==>
                !o.Done? && CompletionHalted(us, t.paths, w, x)))
  }

  /** The three ways of an undo journal bound to its receipt. */
  method ResolveUndo(d: Disk, t: Transaction, us: UndoState) returns (o: Outcome, ghost next: UndoState)
    requires d.Valid() && |d.live| == |t.paths| && d.control.undo
    modifies d
    ensures d.Valid() && BoundRecovered(t, us, old(d.W()), d.W(), o) && |d.live| == |t.paths| && d.receipt == old(d.receipt)
    ensures o.Done? ==> d.possibleControl == {d.control}
    ensures us.finished && old(UndoClosed(t, d.W(), us)) ==>
              if o.Done? then Undone(t, d.W()) else UndoSound(t, d.W(), next) && !UndoIdle(t, d.W()) && d.faults < old(d.faults)
    ensures !us.finished && us.intents == {} && old(UndoIdle(t, d.W())) ==>
              if o.Done? then Retains(t, d.W()) else UndoIdle(t, d.W()) && d.faults < old(d.faults)
    ensures !us.finished && us.intents != {} && old(UndoOpen(t, d.W(), us)) ==>
              && (if o.Done? then Undone(t, d.W()) <==> old(Steady(t, d.W(), us)) else !old(d.poisoned) ==> d.faults < old(d.faults))
              && (!o.Done? && old(Steady(t, d.W(), us)) ==> UndoSound(t, d.W(), next) && !UndoIdle(t, d.W()))
    ensures o.Failed? ==> o.recoveryRequired
    ensures o.Crashed? ==> AfterCrash(d.W())
    ensures d.faults <= old(d.faults)
  {
    hide UndoIdle, Retains, Undone, UndoOpen, UndoClosed, UndoSound, Steady, UndoJudge, UndoContained, Converged, CompletionHalted,
         ShowsRestored, AllSynced, Closed, Diverged;
    ghost var w := d.W();
    next := us;
    if us.finished {
      o := CloseUndo(d, t, us);
      ControlContained(us, t.paths, w, d.W(), {w.control.(receipt := false), w.control.(receipt := false, undo := false)});
      ClosedNotIdle(t, d.W(), us);
    } else if us.intents == {} {
      o := DropUndo(d, t);
      ControlContained(us, t.paths, w, d.W(), {w.control.(undo := false)});
    } else {
      o, next := CompleteUndo(d, t, us);
      DivergedAll(us, t.paths, w);
    }
  }

  lemma DivergedAll(us: UndoState, paths: seq<StagedPath>, w: World)
    requires |paths| == |w.live|
    ensures (exists i | 0 <= i < |paths| :: Diverged(paths[i], w.volume, w.live[i])) ==>
              exists k | 0 <= k < |paths| :: UndoJudge(us, paths[k], k, w.volume, w.live[k]) == Conflict
  {
    hide UndoJudge, Diverged;
    if i :| 0 <= i < |paths| && Diverged(paths[i], w.volume, w.live[i]) {
      DivergedConflicts(us, paths[i], i, w.volume, w.live[i]);
    }
  }

  lemma ControlContained(us: UndoState, paths: seq<StagedPath>, w: World, x: World, extra: set<Control>)
    requires |paths| == |w.live| == |w.possible| && ControlWithin(w, x, extra)
    ensures UndoContained(us, paths, w, x)
  {
    hide UndoMoves;
  }

  /** What `recover_undo` does on any disk with an undo journal of at least one record. */
  ghost predicate UndoRecovered(t: Transaction, w: World, x: World, o: Outcome)
    requires |t.paths| == |w.live| == |w.possible|
  {
    match UndoParse(t.limits, w.undoRecords)
    case Corrupt => o == Failed(true) && x == w
    case Ok(us) =>
      && UndoContained(us, t.paths, w, x)
      && (Bound(w, us) ==> BoundRecovered(t, us, w, x, o))
      && (!Bound(w, us) && !us.finished ==> o == Failed(true) && x == w)
  }

  lemma UntouchedRecovered(t: Transaction, w: World, us: UndoState)
    requires |t.paths| == |w.live| == |w.possible| && w.Valid() && UndoParse(t.limits, w.undoRecords) == Ok(us)
    ensures UndoRecovered(t, w, w, Failed(true))
  {
    hide UndoParse, Converged, ShowsRestored, Diverged;
    if Bound(w, us) && |t.paths| > 0 {
      var at := |t.paths| - 1;
      WithinStart(w, at, {});
      WithinStart(w, at, Unkept(w.possible[at]));
      assert UndoHalted(us, t.paths[at], w, w, at);
      assert Converged(us, t.paths, w, at + 1) == w by { ConvergedNone(us, t.paths, w); }
      assert CompletionHalted(us, t.paths, w, w);
    }
  }

  lemma DroppedRecovered(t: Transaction, w: World, x: World, us: UndoState, o: Outcome, extra: set<Control>)
    requires |t.paths| == |w.live| == |w.possible| && UndoParse(t.limits, w.undoRecords) == Ok(us)
    requires us.finished && !Bound(w, us) && ControlWithin(w, x, extra)
    ensures UndoRecovered(t, w, x, o)
  {
    hide UndoParse, Converged, ShowsRestored, UndoContained;
    ControlContained(us, t.paths, w, x, extra);
  }

  lemma CorruptRecovered(t: Transaction, w: World)
    requires |t.paths| == |w.live| == |w.possible| && UndoParse(t.limits, w.undoRecords).Corrupt?
    ensures UndoRecovered(t, w, w, Failed(true))
  {
  }

  lemma ResolvedRecovered(t: Transaction, us: UndoState, w: World, x: World, o: Outcome)
    requires |t.paths| == |w.live| == |w.possible| && UndoParse(t.limits, w.undoRecords) == Ok(us)
    requires Bound(w, us) && BoundRecovered(t, us, w, x, o)
    ensures UndoRecovered(t, w, x, o)
  {
  }

  /** A journal that is none, or that is unfinished and names another receipt than the one stored, another number of
      paths, or a receipt that is gone, changes nothing. */
  lemma ForeignJournal(t: Transaction, w: World, x: World, o: Outcome)
    requires |t.paths| == |w.live| == |w.possible| && w.undoRecords != [] && UndoRecovered(t, w, x, o)
    requires
      || !UndoJournal(t.limits, w.undoRecords)
      || (Finished(RolledBack) !in w.undoRecords
          && (!w.control.receipt || w.undoRecords[0].contract.receipt != w.receipt || w.undoRecords[0].pathCount != |w.receipt.paths|))
    ensures o == Failed(true) && x == w
  {
    hide UndoParse, BoundRecovered, UndoContained, UndoJournal;
    UndoParsesIff(t.limits, w.undoRecords);
  }

  /** What `recover_undo` makes of the disk an undo left, if it was steady. */
  ghost predicate UndoAdvanced(t: Transaction, w: World, x: World, us: UndoState, o: Outcome) {
    if o.Done? then UndoResolved(t, x, !UndoIdle(t, w)) && (w.control.undo ==> x.possibleControl == {x.control})
    else UndoPending(t, x, us) && (UndoIdle(t, x) <==> UndoIdle(t, w))
  }

  lemma OpenPending(t: Transaction, w: World, us: UndoState)
    requires UndoOpen(t, w, us) && us.intents != {}
    ensures UndoPending(t, w, us) && !UndoIdle(t, w) && w.control.undo && !us.finished
  {
    OpenSound(t, w, us);
    OpenShape(t, w, us);
  }

  lemma StillAdvanced(t: Transaction, w: World, us: UndoState)
    requires UndoPending(t, w, us)
    ensures UndoAdvanced(t, w, w, us, Failed(true))
  {
  }

  lemma GoneAdvanced(t: Transaction, w: World, us: UndoState)
    requires UndoPending(t, w, us) && !w.control.undo
    ensures UndoAdvanced(t, w, w, us, Done)
  {
    GoneResolved(t, w, us);
  }

  lemma DroppedAdvanced(t: Transaction, w: World, x: World, us: UndoState, o: Outcome)
    requires UndoIdle(t, w) && if o.Done? then Retains(t, x) && x.possibleControl == {x.control} else UndoIdle(t, x)
    ensures UndoAdvanced(t, w, x, us, o)
  {
    if o.Done? { RetainsResolved(t, x); }
  }

  lemma ClosedAdvanced(t: Transaction, w: World, x: World, us: UndoState, o: Outcome)
    requires UndoClosed(t, w, us) && x.receipt == w.receipt && |x.possible| == |w.possible|
    requires if o.Done? then Undone(t, x) && x.possibleControl == {x.control} else UndoClosed(t, x, us)
    ensures UndoAdvanced(t, w, x, us, o)
  {
    ClosedNotIdle(t, w, us);
    ClosedNotIdle(t, x, us);
    if o.Done? { UndoneResolved(t, x); }
  }

  lemma SoundAdvanced(t: Transaction, w: World, x: World, us: UndoState, o: Outcome)
    requires !UndoIdle(t, w) && UndoBase(t, w) && x.receipt == w.receipt && |x.possible| == |w.possible|
    requires if o.Done? then Undone(t, x) && x.possibleControl == {x.control} else UndoSound(t, x, us) && !UndoIdle(t, x)
    ensures UndoAdvanced(t, w, x, us, o)
  {
    if o.Done? { UndoneResolved(t, x); }
  }

  /** `recover_undo` once the journal has replayed to `us`. */
  method RecoverParsed(d: Disk, t: Transaction, us: UndoState, ghost st: UndoState) returns (o: Outcome, ghost next: UndoState)
    requires d.Valid() && |d.live| == |t.paths| && d.receipt == Receipt(t.id, t.paths) && d.control.undo && d.undoRecords != []
    requires UndoParse(t.limits, d.undoRecords) == Ok(us) && !d.poisoned
    modifies d
    ensures d.Valid() && |d.live| == |t.paths| && d.receipt == old(d.receipt) && UndoRecovered(t, old(d.W()), d.W(), o)
    ensures old(UndoPending(t, d.W(), st) && Steady(t, d.W(), st)) ==> UndoAdvanced(t, old(d.W()), d.W(), next, o)
    ensures old(UndoPending(t, d.W(), st)) && !o.Done? ==> d.faults < old(d.faults)
    ensures o.Done? && old(UndoOpen(t, d.W(), st)) && st.intents != {} ==> (Undone(t, d.W()) <==> old(Steady(t, d.W(), st)))
    ensures o.Crashed? ==> AfterCrash(d.W())
    ensures d.faults <= old(d.faults)
  {
    hide UndoIdle, UndoSound, Retains, Undone, UndoOpen, UndoClosed, UndoPending, UndoParse, Steady, UndoRecovered, BoundRecovered,
         UndoAdvanced, UndoBase, ControlWithin;
    ghost var w := d.W();
    ghost var known := UndoPending(t, w, st);
    next := st;
    if known {
      PendingJournal(t, w, st);
      StillAdvanced(t, w, st);
    }
    if UndoOpen(t, w, st) && st.intents != {} { OpenPending(t, w, st); }
    UntouchedRecovered(t, w, us);
    var strikes := d.Trouble();
    if strikes {
      return Failed(true), st;
    }
    if !d.control.receipt || d.receipt.transaction != us.receipt.transaction {
      if !us.finished {
        return Failed(true), st;
      }
      next := us;
      o := FinishWithoutReceipt(d, t, us);
      DroppedRecovered(t, w, d.W(), us, o, {w.control.(undo := false)});
      WithinFrame(w, d.W(), {w.control.(undo := false)});
      if known { ClosedAdvanced(t, w, d.W(), us, o); }
      return;
    }
    if us.receipt != d.receipt || us.pathCount != |d.receipt.paths| {
      return Failed(true), st;
    }
    o, next := ResolveUndo(d, t, us);
    ResolvedRecovered(t, us, w, d.W(), o);
    if known {
      if UndoIdle(t, w) {
        DroppedAdvanced(t, w, d.W(), next, o);
      } else if us.finished || Steady(t, w, us) {
        SoundAdvanced(t, w, d.W(), next, o);
      }
    }
  }

  lemma WithinFrame(w: World, x: World, extra: set<Control>)
    requires ControlWithin(w, x, extra)
    ensures |x.live| == |w.live| == |x.possible| == |w.possible| && x.receipt == w.receipt
  {
  }

  /** `recover_undo`.  On any disk a journal that does not replay, or one without its receipt that is
      not finished, changes nothing, and a path in conflict with the journal stops the recovery before
      any lower path is touched.  On a disk an undo left, an undo without a durable intent is dropped
      and its receipt kept, and any other is completed; completed, it is durable exactly if the disk
      was steady. */
  method RecoverUndo(d: Disk, t: Transaction, ghost st: UndoState) returns (o: Outcome, ghost next: UndoState)
    requires d.Valid() && |d.live| == |t.paths| && d.receipt == Receipt(t.id, t.paths)
    modifies d
    ensures d.Valid() && |d.live| == |t.paths| && d.receipt == old(d.receipt)
    ensures old(!d.control.undo) ==> o.Done? && d.W() == old(d.W())
    ensures old(d.control.undo && d.undoRecords == []) ==> ControlWithin(old(d.W()), d.W(), {old(d.control).(undo := false)})
    ensures old(d.control.undo && d.undoRecords != []) ==> UndoRecovered(t, old(d.W()), d.W(), o)
    ensures old(UndoPending(t, d.W(), st) && Steady(t, d.W(), st)) ==>
              UndoAdvanced(t, old(d.W()), d.W(), next, o)
    ensures old(UndoPending(t, d.W(), st)) && !o.Done? ==> d.faults < old(d.faults)
    ensures o.Done? && old(UndoOpen(t, d.W(), st)) && st.intents != {} ==> (Undone(t, d.W()) <==> old(Steady(t, d.W(), st)))
    ensures o.Crashed? ==> AfterCrash(d.W())
    ensures d.faults <= old(d.faults)
  {
    hide UndoIdle, UndoSound, Retains, Undone, UndoOpen, UndoClosed, UndoPending, UndoParse, Steady, UndoRecovered, BoundRecovered,
         UndoAdvanced, UndoBase;
    ghost var w := d.W();
    ghost var known := UndoPending(t, w, st);
    next := st;
    if known { PendingJournal(t, w, st); }
    if UndoOpen(t, w, st) && st.intents != {} { OpenPending(t, w, st); }
    d.poisoned := false;
    if !d.control.undo {
      if known { GoneAdvanced(t, w, st); }
      return Done, st;
    }
    if d.undoRecords == [] {
      o := DropUndo(d, t);
      if known { DroppedAdvanced(t, w, d.W(), next, o); }
      return;
    }
    var parsed := UndoParse(t.limits, d.undoRecords);
    if parsed.Corrupt? {
      CorruptRecovered(t, w);
      return Failed(true), st;
    }
    o, next := RecoverParsed(d, t, parsed.value, st);
  }
}
