/** `rollback_undo`: exact undo of a retained commit behind its own journal. */
module Undos {
  import opened Outcomes
  import opened Filesystem
  import opened Records
  import opened Disks
  import opened Slots
  import opened Protocol
  import opened Cleanups
  import opened UndoReplay
  import opened Restores
  import opened UndoVerdicts
  import opened UndoSteps
  import opened UndoStates

  // Verification before the first mutation

  /** `verify_receipt_state`, on whatever the disk holds. */
  method VerifyReceipt(d: Disk, paths: seq<StagedPath>) returns (ok: bool)
    requires d.Valid() && |d.live| == |paths|
    modifies d`faults
    ensures ok ==> forall i | 0 <= i < |paths| :: Undoable(d.volume, d.live[i], paths[i])
    ensures !ok ==> d.faults < old(d.faults) || exists i | 0 <= i < |paths| :: !Undoable(d.volume, d.live[i], paths[i])
    ensures d.faults <= old(d.faults)
  {
    var i := 0;
    while i < |paths|
      invariant 0 <= i <= |paths| && d.faults <= old(d.faults)
      invariant forall j | 0 <= j < i :: Undoable(d.volume, d.live[j], paths[j])
    {
      ok := d.VerifySlot(i, paths[i].after);
      if !ok { return; }
      if paths[i].backup.Some? {
        var kept := d.ReadKept(i);
        if kept != Found(paths[i].backup.value) { return false; }
      }
      i := i + 1;
    }
    ok := true;
  }

  // The journal

  function FreshUndo(receipt: Receipt, n: nat): UndoState {
    UndoState(receipt, n, {}, {}, false)
  }

  function UndoHeader(transaction: TransactionId, receipt: Receipt, n: nat): Record {
    Header(transaction, ReceiptContract(receipt), 0, n)
  }

  /** `open_journal`: the new journal is exclusive, and bound to the receipt by its header. */
  method OpenJournal(d: Disk, t: Transaction, transaction: TransactionId) returns (o: Outcome)
    requires d.Valid() && |d.live| == |t.paths|
    modifies d
    ensures d.Valid() && ControlWithin(old(d.W()).(undoRecords := d.undoRecords), d.W(), {old(d.control).(undo := true)})
    ensures o.Done? ==>
              && d.W() == old(d.W()).(control := d.control, possibleControl := {d.control}, undoRecords := [UndoHeader(transaction, d.receipt, |t.paths|)])
              && d.control == old(d.control).(undo := true) && !d.poisoned
    ensures old(d.control.undo) ==> o == Failed(false) && d.W() == old(d.W())
    ensures old(Retains(t, d.W())) ==>
              if o.Done? then UndoOpen(t, d.W(), FreshUndo(d.receipt, |t.paths|)) else UndoIdle(t, d.W())
    ensures !o.Done? && old(!d.control.undo) ==> d.faults < old(d.faults)
    ensures o.Crashed? ==> AfterCrash(d.W())
    ensures d.faults <= old(d.faults)
  {
    hide UndoIdle, UndoOpen, Retains, ControlWithin;
    ghost var retains := Retains(t, d.W());
    FreshWithin(d.W(), {d.control.(undo := true)});
    if retains {
      RetainsIdle(t, d.W());
      IdleFresh(t, d.W(), d.W().(undoRecords := []));
    }
    if d.control.undo {
      return Failed(false);
    }
    d.undoRecords := [];
    ghost var w := d.W();
    o := CreateControl(d, d.control.(undo := true));
    if retains { UndoIdleControl(t, w, d.W(), {w.control.(undo := true)}); }
    if !o.Done? { return; }
    ghost var x := d.W();
    o := AppendHeader(d, t, transaction);
    CreatedWithin(w, x, d.W(), {w.control.(undo := true)});
  }

  lemma FreshWithin(w: World, extra: set<Control>)
    requires w.Valid()
    ensures ControlWithin(w.(undoRecords := w.undoRecords), w, extra)
  {
  }

  lemma CreatedWithin(w: World, x: World, y: World, extra: set<Control>)
    requires ControlWithin(w, x, extra) && ControlWithin(x.(undoRecords := y.undoRecords), y, {})
    ensures ControlWithin(w.(undoRecords := y.undoRecords), y, extra)
  {
  }

  method AppendHeader(d: Disk, t: Transaction, transaction: TransactionId) returns (o: Outcome)
    requires d.Valid() && d.undoRecords == [] && d.possibleControl == {d.control} && d.control.undo
    modifies d
    ensures d.Valid() && ControlWithin(old(d.W()).(undoRecords := d.undoRecords), d.W(), {})
    ensures o.Done? ==> d.W() == old(d.W()).(undoRecords := [UndoHeader(transaction, d.receipt, |t.paths|)]) && !d.poisoned
    ensures old(UndoIdle(t, d.W())) ==>
              if o.Done? then UndoOpen(t, d.W(), FreshUndo(d.receipt, |t.paths|)) else UndoIdle(t, d.W())
    ensures !o.Done? ==> d.faults < old(d.faults)
    ensures o.Failed? ==> o.recoveryRequired
    ensures o.Crashed? ==> AfterCrash(d.W())
    ensures d.faults <= old(d.faults)
  {
    hide UndoIdle, UndoOpen;
    ghost var w := d.W();
    ghost var idle := UndoIdle(t, w);
    var header := UndoHeader(transaction, d.receipt, |t.paths|);
    ghost var us := FreshUndo(d.receipt, |t.paths|);
    ghost var written := w.(undoRecords := [header]);
    if idle { IdleHeader(t, w, transaction); }
    d.poisoned := false;
    o := d.AppendUndo(header);
    assert w.undoRecords + [header] == [header];
    if o.Crashed? {
      if CrashOf(w, d.W()) {
        CrashShrinks(w, d.W());
        if idle { UndoIdleControl(t, w, d.W(), {}); }
      } else {
        CrashShrinks(written, d.W());
        if idle {
          UndoOpenControl(t, written, d.W(), us);
          OpenIdle(t, d.W(), us);
        }
      }
    } else if o.Failed? && d.W() != w && idle {
      OpenIdle(t, d.W(), us);
    }
  }

  // The end

  /** `consume_receipt`: first the receipt goes, then the journal. */
  method Consume(d: Disk) returns (o: Outcome)
    requires d.Valid() && d.control.undo
    modifies d
    ensures d.Valid()
    ensures ControlWithin(old(d.W()), d.W(), {old(d.control).(receipt := false), old(d.control).(receipt := false, undo := false)})
    ensures o.Done? ==>
              && d.W() == old(d.W()).(control := d.control, possibleControl := {d.control})
              && d.control == old(d.control).(receipt := false, undo := false)
    ensures !o.Done? ==> d.faults < old(d.faults)
    ensures o.Failed? ==> o.recoveryRequired
    ensures o.Crashed? ==> AfterCrash(d.W())
    ensures d.faults <= old(d.faults)
  {
    if d.control.receipt {
      o := ReplaceControl(d, d.control.(receipt := false));
      if !o.Done? { return; }
    }
    o := ReplaceControl(d, d.control.(undo := false));
  }

  /** Where the closing record and the removals may leave the disk. */
  ghost predicate Closing(w: World, x: World) {
    || ControlWithin(w, x, {})
    || ControlWithin(Noted(w, Finished(RolledBack)), x, {w.control.(receipt := false), w.control.(receipt := false, undo := false)})
  }

  function Closed(w: World): World {
    var c := w.control.(receipt := false, undo := false);
    Noted(w, Finished(RolledBack)).(control := c, possibleControl := {c})
  }

  lemma ClosingSound(t: Transaction, w: World, x: World, us: UndoState) returns (next: UndoState)
    requires UndoOpen(t, w, us) && us.intents != {} && DoneAbove(us, |t.paths|, 0) && Closing(w, x)
    ensures UndoSound(t, x, next) && !UndoIdle(t, x)
  {
    hide UndoOpen, UndoClosed, ControlWithin;
    OpenShape(t, w, us);
    if ControlWithin(w, x, {}) {
      UndoOpenControl(t, w, x, us);
      next := us;
    } else {
      NoteUndoFinished(t, w, us);
      next := us.(finished := true);
      UndoClosedControl(t, Noted(w, Finished(RolledBack)), x, next,
                        {w.control.(receipt := false), w.control.(receipt := false, undo := false)});
    }
    SoundNotIdle(t, x, next);
  }

  lemma ClosedUndone(t: Transaction, w: World)
    requires UndoBase(t, w) && !w.control.operation
    requires forall i | 0 <= i < |t.paths| :: w.possible[i] <= {Restored(t.paths[i])}
    ensures Undone(t, Closed(w))
  {
    hide Undone;
    RestoredUndone(t, Closed(w));
  }

  /** The closing record, then receipt and journal removal. */
  method FinishUndo(d: Disk) returns (o: Outcome)
    requires d.Valid() && d.control.undo
    modifies d
    ensures d.Valid() && Closing(old(d.W()), d.W())
    ensures o.Done? ==> d.W() == Closed(old(d.W()))
    ensures !o.Done? && !old(d.poisoned) ==> d.faults < old(d.faults)
    ensures o.Failed? ==> o.recoveryRequired
    ensures o.Crashed? ==> AfterCrash(d.W())
    ensures d.faults <= old(d.faults)
  {
    ghost var w := d.W();
    o := d.AppendUndo(Finished(RolledBack));
    if o.Crashed? {
      if CrashOf(w, d.W()) {
        CrashShrinks(w, d.W());
      } else {
        CrashShrinks(Noted(w, Finished(RolledBack)), d.W());
      }
    }
    if !o.Done? { return; }
    o := Consume(d);
  }

  // The rollback

  /** The paths from `i` up are restored, those below have no intent. */
  ghost predicate UndoneFrom(t: Transaction, w: World, us: UndoState, i: nat) {
    && UndoOpen(t, w, us) && i <= |t.paths| && DoneAbove(us, |t.paths|, i)
    && forall j: nat | j < i :: j !in us.intents
  }

  lemma UndoneNext(t: Transaction, w: World, us: UndoState, i: nat)
    requires UndoneFrom(t, w, us, i + 1)
    ensures w.Valid() && i < |t.paths| == |w.live| == |w.possible| && Redoable(t, w, us, i) && i !in us.intents
    ensures Restorable(w.volume, t.paths[i], w.live[i])
    ensures UndoneFrom(t, Redone(false, t.paths[i], w, i), WithUndoDone(WithUndoIntent(us, i), i), i)
  {
    assert w.live[i] in w.possible[i] && w.possible[i] <= UndoAllowed(t.paths[i], us, i);
    RelocatedRestores(w.volume, t.paths[i]);
    OpenRedone(t, w, us, i);
  }

  lemma UndoneStarts(t: Transaction, w: World, us: UndoState)
    requires UndoOpen(t, w, us) && us.intents == {} && us.rolledBack == {}
    ensures UndoneFrom(t, w, us, |t.paths|)
  {
  }

  lemma UndoneEnds(t: Transaction, w: World, us: UndoState)
    requires UndoneFrom(t, w, us, 0)
    ensures w.Valid() && UndoOpen(t, w, us) && us.intents != {} && DoneAbove(us, |t.paths|, 0)
    ensures Undone(t, Closed(w))
  {
    hide Undone, Closed;
    assert 0 in us.rolledBack;
    forall i | 0 <= i < |t.paths| ensures w.possible[i] <= {Restored(t.paths[i])} {
      assert w.possible[i] <= UndoAllowed(t.paths[i], us, i);
    }
    OpenShape(t, w, us);
    ClosedUndone(t, w);
  }

  /** The paths from `i` up have been restored, durably, from what they were in `w`, and show the
      receipt's before state; the others are untouched. */
  ghost predicate RestoredTo(paths: seq<StagedPath>, w: World, x: World, i: nat)
    requires |paths| == |w.live| == |w.possible|
  {
    && x.Valid() && |x.live| == |w.live|
    && x == w.(live := x.live, possible := x.possible, possibleControl := x.possibleControl, undoRecords := x.undoRecords)
    && x.possibleControl <= w.possibleControl
    && (forall j | 0 <= j < i && j < |paths| :: x.live[j] == w.live[j] && x.possible[j] == w.possible[j])
    && (forall j | i <= j < |paths| ::
          && x.live[j] == RestoredFrom(paths[j], w.live[j]) && x.possible[j] == {x.live[j]}
          && (paths[j].before.Present? ==> paths[j].backup.Some?)
          && SlotState(w.volume, x.live[j]) == Found(RestoredEvidence(paths[j])))
  }

  /** Every directory of a path shows, or may show, only what it could before or what its restoring
      passes through. */
  ghost predicate RestoringWithin(paths: seq<StagedPath>, w: World, x: World)
    requires |paths| == |w.live| == |w.possible|
  {
    && x.Valid() && |x.live| == |w.live|
    && x == w.(live := x.live, possible := x.possible, control := x.control, possibleControl := x.possibleControl, undoRecords := x.undoRecords)
    && forall j | 0 <= j < |paths| :: x.possible[j] <= w.possible[j] + Passing(paths[j], w.live[j])
  }

  lemma RestoredNext(paths: seq<StagedPath>, w: World, x: World, y: World, i: nat)
    requires |paths| == |w.live| == |w.possible| && i < |paths| && RestoredTo(paths, w, x, i + 1)
    requires y == Redone(false, paths[i], x, i)
    requires (paths[i].before.Present? ==> paths[i].backup.Some?) && SlotState(y.volume, y.live[i]) == Found(RestoredEvidence(paths[i]))
    ensures RestoredTo(paths, w, y, i)
  {
  }

  lemma RestoringHalted(paths: seq<StagedPath>, w: World, x: World, y: World, i: nat)
    requires |paths| == |w.live| == |w.possible| && i < |paths| && RestoredTo(paths, w, x, i + 1)
    requires RedoHalted(false, paths[i], x, y, i)
    ensures RestoringWithin(paths, w, y)
  {
    hide SlotState, RestoredEvidence;
    var z := Redone(false, paths[i], x, i);
    assert z.possible[i] <= Passing(paths[i], x.live[i]) && z.possibleControl <= x.possibleControl;
  }

  lemma RestoredWithin(paths: seq<StagedPath>, w: World, x: World, y: World)
    requires |paths| == |w.live| == |w.possible| && RestoredTo(paths, w, x, 0) && Closing(x, y)
    ensures RestoringWithin(paths, w, y)
  {
    hide SlotState, RestoredEvidence;
  }

  /** The descending loop. */
  method UndoAll(d: Disk, t: Transaction, ghost us: UndoState) returns (o: Outcome, ghost next: UndoState)
    requires d.Valid() && |d.live| == |t.paths| && !d.poisoned
    modifies d
    ensures d.Valid()
    ensures if o.Done? then RestoredTo(t.paths, old(d.W()), d.W(), 0) && !d.poisoned else RestoringWithin(t.paths, old(d.W()), d.W())
    ensures old(UndoneFrom(t, d.W(), us, |t.paths|)) ==>
              if o.Done? then UndoneFrom(t, d.W(), next, 0) else UndoOpen(t, d.W(), next) && d.faults < old(d.faults)
    ensures !o.Done? && (forall i | 0 <= i < |t.paths| :: old(Restorable(d.volume, t.paths[i], d.live[i]))) ==> d.faults < old(d.faults)
    ensures o.Failed? ==> o.recoveryRequired
    ensures o.Crashed? ==> AfterCrash(d.W())
    ensures d.faults <= old(d.faults)
  {
    hide UndoOpen, UndoneFrom, Restorable, SlotState, RestoredEvidence, RestoredFrom, Redone, RedoHalted, RestoringWithin, Redoable;
    ghost var w := d.W();
    ghost var known := UndoneFrom(t, w, us, |t.paths|);
    next := us;
    o := Done;
    var i := |t.paths|;
    while i > 0
      invariant 0 <= i <= |t.paths| && o.Done? && RestoredTo(t.paths, w, d.W(), i)
      invariant known ==> UndoneFrom(t, d.W(), next, i)
      invariant d.faults == old(d.faults) && !d.poisoned
    {
      ghost var x := d.W();
      if known { UndoneNext(t, x, next, i - 1); }
      o := RedoPath(d, t.paths[i - 1], i - 1, false);
      if !o.Done? {
        RestoringHalted(t.paths, w, x, d.W(), i - 1);
        if known { next := OpenRedoHalted(t, x, d.W(), next, i - 1); }
        return;
      }
      RestoredNext(t.paths, w, x, d.W(), i - 1);
      if known { next := WithUndoDone(WithUndoIntent(next, i - 1), i - 1); }
      i := i - 1;
    }
  }

  /** The entries of `x` are those of `w` restored, durably, and show the receipt's before state. */
  ghost predicate AllRestored(paths: seq<StagedPath>, w: World, x: World)
    requires |paths| == |w.live|
  {
    && |x.live| == |x.possible| == |w.live|
    && forall j | 0 <= j < |paths| ::
         && x.live[j] == RestoredFrom(paths[j], w.live[j]) && x.possible[j] == {x.live[j]}
         && (paths[j].before.Present? ==> paths[j].backup.Some?)
         && SlotState(w.volume, x.live[j]) == Found(RestoredEvidence(paths[j]))
  }

  lemma RestoredAll(paths: seq<StagedPath>, w: World, x: World)
    requires |paths| == |w.live| == |w.possible| && RestoredTo(paths, w, x, 0)
    ensures AllRestored(paths, w, Closed(x)) && x.control == w.control && x.Valid()
  {
    hide SlotState, RestoredEvidence, RestoredFrom;
  }

  /** The rollback behind its journal, up to the removal of receipt and journal. */
  method RunUndo(d: Disk, t: Transaction, ghost us: UndoState) returns (o: Outcome, ghost next: UndoState)
    requires d.Valid() && |d.live| == |t.paths| && !d.poisoned && d.control.undo
    modifies d
    ensures d.Valid() && RestoringWithin(t.paths, old(d.W()), d.W())
    ensures o.Done? ==> AllRestored(t.paths, old(d.W()), d.W())
    ensures o.Done? ==> d.control == old(d.control).(receipt := false, undo := false) && d.possibleControl == {d.control}
    ensures old(UndoneFrom(t, d.W(), us, |t.paths|)) ==>
              if o.Done? then Undone(t, d.W()) else (UndoIdle(t, d.W()) || UndoSound(t, d.W(), next)) && d.faults < old(d.faults)
    ensures !o.Done? && (forall i | 0 <= i < |t.paths| :: old(Restorable(d.volume, t.paths[i], d.live[i]))) ==> d.faults < old(d.faults)
    ensures o.Failed? ==> o.recoveryRequired
    ensures o.Crashed? ==> AfterCrash(d.W())
    ensures d.faults <= old(d.faults)
  {
    hide UndoClosed, UndoOpen, UndoIdle, Undone, UndoSound, UndoneFrom, Restorable, RestoringWithin, RestoredTo, AllRestored, Closing;
    ghost var w := d.W();
    ghost var known := UndoneFrom(t, w, us, |t.paths|);
    o, next := UndoAll(d, t, us);
    if !o.Done? {
      if known { UnfinishedUndo(t, d.W(), next); }
      return;
    }
    ghost var x := d.W();
    RestoredAll(t.paths, w, x);
    if known { UndoneEnds(t, x, next); }
    o := FinishUndo(d);
    RestoredWithin(t.paths, w, x, d.W());
    if known && !o.Done? { next := ClosingSound(t, x, d.W(), next); }
  }

  lemma OpenedWithin(paths: seq<StagedPath>, w: World, x: World, y: World, extra: set<Control>)
    requires |paths| == |w.live| == |w.possible| && ControlWithin(w.(undoRecords := x.undoRecords), x, extra)
    requires x.live == w.live && RestoringWithin(paths, x, y)
    ensures RestoringWithin(paths, w, y)
  {
    hide Passing;
  }

  lemma OpeningWithin(paths: seq<StagedPath>, w: World, x: World, extra: set<Control>)
    requires |paths| == |w.live| == |w.possible| && ControlWithin(w.(undoRecords := x.undoRecords), x, extra)
    ensures RestoringWithin(paths, w, x)
  {
    hide Passing;
  }

  /** `rollback_undo`, on whatever the disk holds.  Unless every slot and every retained backup has
      exactly the evidence the receipt records, it fails and changes nothing.  However it ends, a
      path changes only as its own restoring does; success means every slot shows exactly the
      receipt's before state, durably, and receipt and journal are gone.  On the disk a retained
      commit left, only faults make it fail, and then recovery can start from what it leaves. */
  method Rollback(d: Disk, t: Transaction, transaction: TransactionId) returns (o: Outcome, ghost us: UndoState)
    requires d.Valid() && |d.live| == |t.paths|
    modifies d
    ensures d.Valid() && RestoringWithin(t.paths, old(d.W()), d.W())
    ensures (exists i | 0 <= i < |t.paths| :: !old(Undoable(d.volume, d.live[i], t.paths[i]))) ==> o == Failed(false) && d.W() == old(d.W())
    ensures o.Done? ==> AllRestored(t.paths, old(d.W()), d.W())
    ensures o.Done? ==> d.control == old(d.control).(receipt := false, undo := false) && d.possibleControl == {d.control}
    ensures !o.Done? && old(!d.control.undo)
            && (forall i | 0 <= i < |t.paths| :: old(Undoable(d.volume, d.live[i], t.paths[i]) && Restorable(d.volume, t.paths[i], d.live[i])))
            ==> d.faults < old(d.faults)
    ensures old(Retains(t, d.W())) ==>
              if o.Done? then Undone(t, d.W()) else (UndoIdle(t, d.W()) || UndoSound(t, d.W(), us)) && d.faults < old(d.faults)
    ensures o == Failed(false) && old(Retains(t, d.W())) ==> UndoIdle(t, d.W())
    ensures o.Crashed? ==> AfterCrash(d.W())
    ensures d.faults <= old(d.faults)
  {
    hide UndoClosed, UndoOpen, UndoIdle, Undone, Retains, UndoSound, Undoable, UndoneFrom, Restorable,
         RestoringWithin, AllRestored, ControlWithin;
    ghost var w := d.W();
    ghost var retains := Retains(t, w);
    us := FreshUndo(d.receipt, |t.paths|);
    if retains { RetainsIdle(t, w); }
    UntouchedWithin(t.paths, w);
    var exact := VerifyReceipt(d, t.paths);
    if !exact {
      return Failed(false), us;
    }
    o := OpenJournal(d, t, transaction);
    if !o.Done? {
      OpeningWithin(t.paths, w, d.W(), {w.control.(undo := true)});
      return;
    }
    ghost var x := d.W();
    if retains { UndoneStarts(t, x, us); }
    o, us := RunUndo(d, t, us);
    OpenedWithin(t.paths, w, x, d.W(), {w.control.(undo := true)});
    OpenedRestored(t.paths, w, x, d.W());
  }

  lemma UntouchedWithin(paths: seq<StagedPath>, w: World)
    requires w.Valid() && |paths| == |w.live|
    ensures RestoringWithin(paths, w, w)
  {
  }

  lemma OpenedRestored(paths: seq<StagedPath>, w: World, x: World, y: World)
    requires |paths| == |w.live| && x.live == w.live && x.volume == w.volume
    ensures AllRestored(paths, x, y) ==> AllRestored(paths, w, y)
  {
  }

  lemma UnfinishedUndo(t: Transaction, w: World, us: UndoState)
    requires UndoOpen(t, w, us)
    ensures UndoIdle(t, w) || UndoSound(t, w, us)
  {
    if us.intents == {} { OpenIdle(t, w, us); }
  }
}
