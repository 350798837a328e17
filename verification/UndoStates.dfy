/** What the disk may look like while a receipt is being undone, for every undo journal that can
    be durable. */
module UndoStates {
  import opened Outcomes
  import opened Filesystem
  import opened Records
  import opened Disks
  import opened Slots
  import opened Protocol
  import opened Cleanups
  import opened UndoReplay
  import opened Restores
  import opened UndoVerdicts

  ghost predicate UndoBase(t: Transaction, w: World) {
    && Staged(t, w) && w.receipt == Receipt(t.id, t.paths)
    && 0 < |t.paths| <= t.limits.maxFiles && |w.possible| == |t.paths|
  }

  function UndoAllowed(p: StagedPath, us: UndoState, i: nat): set<Entries> {
    if i in us.rolledBack then {Restored(p)}
    else if i in us.intents then UndoReach(p)
    else {Relocated(p)}
  }

  /** No undo intent is durable; an undo journal may or may not be there. */
  ghost predicate UndoIdle(t: Transaction, w: World) {
    && UndoBase(t, w)
    && (forall i | 0 <= i < |t.paths| :: w.possible[i] <= {Relocated(t.paths[i])})
    && (forall k | k in w.possibleControl :: k.receipt && !k.operation)
    && ((exists k :: k in w.possibleControl && k.undo) ==>
          w.undoRecords == [] || UndoParse(t.limits, w.undoRecords) == Ok(UndoState(w.receipt, |t.paths|, {}, {}, false)))
  }

  /** The undo journal replays to `us`, and every path is where `us` allows. */
  ghost predicate UndoOpen(t: Transaction, w: World, us: UndoState) {
    && UndoBase(t, w)
    && |w.undoRecords| > 0 && UndoParse(t.limits, w.undoRecords) == Ok(us)
    && us.receipt == w.receipt && !us.finished && Descends(us, |t.paths|)
    && (forall i | 0 <= i < |t.paths| :: w.possible[i] <= UndoAllowed(t.paths[i], us, i))
    && (forall k | k in w.possibleControl :: k.undo && k.receipt && !k.operation)
  }

  /** The undo is on record as complete; receipt and journal go, in this order. */
  ghost predicate UndoClosed(t: Transaction, w: World, us: UndoState) {
    && UndoBase(t, w)
    && |w.undoRecords| > 0 && UndoParse(t.limits, w.undoRecords) == Ok(us) && us.finished
    && us.receipt == w.receipt && us.pathCount == |t.paths|
    && (forall i | 0 <= i < |t.paths| :: w.possible[i] <= {Restored(t.paths[i])})
    && (forall k | k in w.possibleControl :: !k.operation && (k.receipt ==> k.undo))
  }

  /** Where an undo that did not report its end leaves the disk. */
  ghost predicate UndoSound(t: Transaction, w: World, us: UndoState) {
    || (UndoOpen(t, w, us) && us.intents != {})
    || UndoClosed(t, w, us)
  }

  /** Every slot is restored from its retained backup, and receipt and journal are gone. */
  ghost predicate Undone(t: Transaction, w: World) {
    && Concluded(t, w, false, false) && AllBefore(t, w)
    && forall i | 0 <= i < |t.paths| && i < |w.possible| :: w.possible[i] <= {Restored(t.paths[i])}
  }

  /** A retained commit that concluded, its receipt in the store. */
  ghost predicate Retains(t: Transaction, w: World) {
    UndoBase(t, w) && Concluded(t, w, true, true)
  }

  /** Path `i` shows the committed state the receipt records, and its backup is retained. */
  predicate Undoable(v: Volume, e: Entries, p: StagedPath) {
    && SlotState(v, e) == Found(p.after)
    && (p.backup.Some? ==> NameState(v, e, e.kept, 1) == Found(p.backup.value))
  }

  // Crashes and directory changes

  lemma UndoOpenWithin(t: Transaction, w: World, x: World, us: UndoState, i: nat, extra: set<Entries>)
    requires UndoOpen(t, w, us) && Within(w, x, i, extra) && i < |t.paths| && extra <= UndoAllowed(t.paths[i], us, i)
    ensures UndoOpen(t, x, us)
  {
    forall j | 0 <= j < |t.paths| ensures x.possible[j] <= UndoAllowed(t.paths[j], us, j) {
      assert w.possible[j] <= UndoAllowed(t.paths[j], us, j);
    }
  }

  lemma UndoOpenControl(t: Transaction, w: World, x: World, us: UndoState)
    requires UndoOpen(t, w, us) && ControlWithin(w, x, {})
    ensures UndoOpen(t, x, us)
  {
    forall j | 0 <= j < |t.paths| ensures x.possible[j] <= UndoAllowed(t.paths[j], us, j) {
      assert w.possible[j] <= UndoAllowed(t.paths[j], us, j);
    }
  }

  lemma UndoIdleControl(t: Transaction, w: World, x: World, extra: set<Control>)
    requires UndoIdle(t, w) && ControlWithin(w, x, extra)
    requires forall k | k in extra :: k.receipt && !k.operation && (k.undo ==> w.undoRecords == [] || exists j :: j in w.possibleControl && j.undo)
    ensures UndoIdle(t, x)
  {
    forall j | 0 <= j < |t.paths| ensures x.possible[j] <= {Relocated(t.paths[j])} {
      assert w.possible[j] <= {Relocated(t.paths[j])};
    }
  }

  lemma UndoClosedControl(t: Transaction, w: World, x: World, us: UndoState, extra: set<Control>)
    requires UndoClosed(t, w, us) && ControlWithin(w, x, extra)
    requires forall k | k in extra :: !k.operation && (k.receipt ==> k.undo)
    ensures UndoClosed(t, x, us)
  {
    forall j | 0 <= j < |t.paths| ensures x.possible[j] <= {Restored(t.paths[j])} {
      assert w.possible[j] <= {Restored(t.paths[j])};
    }
  }

  // Records

  function WithUndoIntent(us: UndoState, i: nat): UndoState {
    us.(intents := us.intents + {i})
  }

  function WithUndoDone(us: UndoState, i: nat): UndoState {
    us.(rolledBack := us.rolledBack + {i})
  }

  ghost predicate DoneAbove(us: UndoState, n: nat, i: nat) {
    forall k: nat | i <= k < n :: k in us.rolledBack
  }

  lemma NoteUndoIntent(t: Transaction, w: World, us: UndoState, i: nat)
    requires UndoOpen(t, w, us) && i < |t.paths| && i !in us.intents && DoneAbove(us, |t.paths|, i + 1)
    ensures UndoOpen(t, Noted(w, RollbackIntent(i)), WithUndoIntent(us, i))
  {
    UndoIntentStep(us, |t.paths|, i);
    UndoParseAppend(t.limits, w.undoRecords, RollbackIntent(i));
    forall j | 0 <= j < |t.paths| ensures w.possible[j] <= UndoAllowed(t.paths[j], WithUndoIntent(us, i), j) {
      assert w.possible[j] <= UndoAllowed(t.paths[j], us, j);
    }
  }

  lemma NoteUndoDone(t: Transaction, w: World, us: UndoState, i: nat)
    requires UndoOpen(t, w, us) && i < |t.paths| && i in us.intents && i !in us.rolledBack
    requires w.possible[i] <= {Restored(t.paths[i])}
    ensures UndoOpen(t, Noted(w, RollbackDone(i)), WithUndoDone(us, i))
  {
    UndoDoneStep(us, |t.paths|, i);
    UndoParseAppend(t.limits, w.undoRecords, RollbackDone(i));
    forall j | 0 <= j < |t.paths| ensures w.possible[j] <= UndoAllowed(t.paths[j], WithUndoDone(us, i), j) {
      assert w.possible[j] <= UndoAllowed(t.paths[j], us, j);
    }
  }

  lemma NoteUndoFinished(t: Transaction, w: World, us: UndoState)
    requires UndoOpen(t, w, us) && DoneAbove(us, |t.paths|, 0)
    ensures UndoClosed(t, Noted(w, Finished(RolledBack)), us.(finished := true))
  {
    UndoFinishStep(us, |t.paths|);
    UndoParseAppend(t.limits, w.undoRecords, Finished(RolledBack));
    forall j | 0 <= j < |t.paths| ensures w.possible[j] <= {Restored(t.paths[j])} {
      assert w.possible[j] <= UndoAllowed(t.paths[j], us, j);
    }
  }

  // One path restored

  lemma OpenReturned(t: Transaction, w: World, us: UndoState, i: nat)
    requires UndoOpen(t, w, us) && i < |t.paths| && i in us.intents && w.live[i] == Relocated(t.paths[i]) && i !in us.rolledBack
    ensures UndoOpen(t, Returned(t.paths[i], w, i), us)
    ensures Returned(t.paths[i], w, i).possible[i] == {Restored(t.paths[i])}
    ensures Passing(t.paths[i], w.live[i]) <= UndoAllowed(t.paths[i], us, i)
  {
    RelocatedRestores(w.volume, t.paths[i]);
    var x := Returned(t.paths[i], w, i);
    forall j | 0 <= j < |t.paths| ensures x.possible[j] <= UndoAllowed(t.paths[j], us, j) {
      assert w.possible[j] <= UndoAllowed(t.paths[j], us, j);
    }
  }

  ghost predicate Redoable(t: Transaction, w: World, us: UndoState, i: nat) {
    && UndoOpen(t, w, us) && i < |t.paths| && w.live[i] == Relocated(t.paths[i])
    && i !in us.rolledBack && DoneAbove(us, |t.paths|, i + 1)
  }

  lemma OpenMarked(t: Transaction, w: World, us: UndoState, i: nat)
    requires Redoable(t, w, us, i)
    ensures UndoOpen(t, Marked(i in us.intents, w, i), WithUndoIntent(us, i))
  {
    if i in us.intents {
      assert WithUndoIntent(us, i) == us;
    } else {
      NoteUndoIntent(t, w, us, i);
    }
  }

  lemma OpenRedone(t: Transaction, w: World, us: UndoState, i: nat)
    requires Redoable(t, w, us, i)
    ensures UndoOpen(t, Redone(i in us.intents, t.paths[i], w, i), WithUndoDone(WithUndoIntent(us, i), i))
    ensures DoneAbove(WithUndoDone(WithUndoIntent(us, i), i), |t.paths|, i)
  {
    hide UndoOpen;
    OpenMarked(t, w, us, i);
    var y := Marked(i in us.intents, w, i);
    assert y.live == w.live && i < |y.live| == |y.possible| by { OpenShape(t, w, us); }
    OpenReturned(t, y, WithUndoIntent(us, i), i);
    NoteUndoDone(t, Returned(t.paths[i], y, i), WithUndoIntent(us, i), i);
  }

  lemma OpenRedoHalted(t: Transaction, w: World, x: World, us: UndoState, i: nat) returns (next: UndoState)
    requires Redoable(t, w, us, i) && |w.live| == |w.possible| && i < |w.live| && RedoHalted(i in us.intents, t.paths[i], w, x, i)
    ensures UndoOpen(t, x, next) && us.intents <= next.intents
  {
    hide UndoOpen, Passing, Redone;
    OpenMarked(t, w, us, i);
    OpenRedone(t, w, us, i);
    var y := Marked(i in us.intents, w, i);
    if Within(w, x, i, {}) {
      next := us;
      UndoOpenWithin(t, w, x, us, i, {});
    } else if Within(y, x, i, Passing(t.paths[i], w.live[i])) {
      next := WithUndoIntent(us, i);
      OpenReturned(t, y, next, i);
      UndoOpenWithin(t, y, x, next, i, Passing(t.paths[i], w.live[i]));
    } else {
      next := WithUndoDone(WithUndoIntent(us, i), i);
      UndoOpenWithin(t, Redone(i in us.intents, t.paths[i], w, i), x, next, i, {});
    }
  }

  lemma OpenShape(t: Transaction, w: World, us: UndoState)
    requires UndoOpen(t, w, us)
    ensures w.Valid() && |w.live| == |w.possible| == |t.paths| && 0 < |t.paths|
    ensures w.control.undo && w.control.receipt && !w.control.operation && w.receipt == Receipt(t.id, t.paths)
    ensures us.pathCount == |t.paths| && us.receipt == w.receipt && !us.finished && UndoBase(t, w)
    ensures w.undoRecords != [] && UndoParse(t.limits, w.undoRecords) == Ok(us)
    ensures forall i | 0 <= i < |t.paths| :: StagedWell(w.volume, t.paths[i])
  {
    assert w.control in w.possibleControl;
  }

  // The end of an undo

  lemma RestoredUndone(t: Transaction, w: World)
    requires UndoBase(t, w) && w.possibleControl == {Control(false, false, false)}
    requires forall i | 0 <= i < |t.paths| :: w.possible[i] <= {Restored(t.paths[i])}
    ensures Undone(t, w)
  {
    forall i | 0 <= i < |t.paths| ensures w.possible[i] <= Final(t.paths[i], false, false) {
      assert w.possible[i] <= {Restored(t.paths[i])};
    }
    assert EntriesFinal(t, w, false, false);
    ConcludedTree(t, w, false, false);
  }

  lemma ClosedStarts(t: Transaction, w: World, us: UndoState)
    requires UndoClosed(t, w, us)
    ensures w.Valid() && |w.live| == |w.possible| == |t.paths| && !w.control.operation && UndoBase(t, w)
    ensures w.control.receipt ==> w.control.undo
    ensures forall i | 0 <= i < |t.paths| :: w.possible[i] <= {Restored(t.paths[i])}
    ensures forall i | 0 <= i < |t.paths| :: w.live[i] == Restored(t.paths[i])
  {
    assert w.control in w.possibleControl;
    forall i | 0 <= i < |t.paths| ensures w.live[i] == Restored(t.paths[i]) {
      assert w.live[i] in w.possible[i] && w.possible[i] <= {Restored(t.paths[i])};
    }
  }

  // Before the first intent

  lemma RetainsIdle(t: Transaction, w: World)
    requires Retains(t, w)
    ensures UndoIdle(t, w) && w.Valid() && |w.live| == |t.paths| && !w.control.undo && w.control.receipt && !w.control.operation
    ensures forall k | k in w.possibleControl :: !k.undo
    ensures forall i | 0 <= i < |t.paths| :: Undoable(w.volume, w.live[i], t.paths[i])
    ensures w.receipt == Receipt(t.id, t.paths)
  {
    forall i | 0 <= i < |t.paths|
      ensures w.possible[i] <= {Relocated(t.paths[i])}
      ensures Undoable(w.volume, w.live[i], t.paths[i])
    {
      assert w.live[i] in w.possible[i] && w.possible[i] <= Final(t.paths[i], true, true);
      RelocatedProbes(w.volume, t.paths[i]);
    }
  }

  lemma IdleRetains(t: Transaction, w: World)
    requires UndoIdle(t, w) && w.possibleControl == {Control(false, true, false)}
    ensures Retains(t, w)
  {
    forall i | 0 <= i < |t.paths| ensures w.possible[i] <= Final(t.paths[i], true, true) {
      assert w.possible[i] <= {Relocated(t.paths[i])};
    }
  }

  lemma IdleFresh(t: Transaction, w: World, x: World)
    requires UndoIdle(t, w) && (forall k | k in w.possibleControl :: !k.undo) && x == w.(undoRecords := [])
    ensures UndoIdle(t, x)
  {
  }

  lemma IdleHeader(t: Transaction, w: World, transaction: TransactionId)
    requires UndoIdle(t, w) && w.undoRecords == [] && (forall k | k in w.possibleControl :: k.undo)
    ensures var header := Header(transaction, ReceiptContract(w.receipt), 0, |t.paths|);
            var us := UndoState(w.receipt, |t.paths|, {}, {}, false);
            UndoOpen(t, w.(undoRecords := [header]), us)
  {
  }

  lemma OpenIdle(t: Transaction, w: World, us: UndoState)
    requires UndoOpen(t, w, us) && us.intents == {}
    ensures UndoIdle(t, w)
  {
    assert us == UndoState(w.receipt, |t.paths|, {}, {}, false);
  }

  lemma IdleValid(t: Transaction, w: World)
    requires UndoIdle(t, w)
    ensures w.Valid() && |w.live| == |t.paths| && w.control == Control(false, true, w.control.undo) && UndoBase(t, w)
  {
  }

  lemma SoundNotIdle(t: Transaction, w: World, us: UndoState)
    requires UndoSound(t, w, us)
    ensures !UndoIdle(t, w)
  {
    assert w.control in w.possibleControl;
  }

  lemma ClosedNotIdle(t: Transaction, w: World, us: UndoState)
    ensures UndoClosed(t, w, us) ==> UndoSound(t, w, us) && !UndoIdle(t, w)
  {
    if UndoClosed(t, w, us) { SoundNotIdle(t, w, us); }
  }
}
