/** One path of an undo, on whatever the disk holds: the steps `rollback_undo` and its recovery share. */
module UndoSteps {
  import opened Outcomes
  import opened Filesystem
  import opened Records
  import opened Disks
  import opened Slots
  import opened Protocol
  import opened UndoReplay
  import opened Restores
  import opened UndoVerdicts

  lemma ReturnedWithin(p: StagedPath, w: World, i: nat)
    requires w.Valid() && i < |w.live|
    ensures Returned(p, w, i).Valid()
  {
  }

  /** One record of the undo journal.  A failed append may be durable. */
  method Note(d: Disk, i: nat, r: Record) returns (o: Outcome)
    requires d.Valid() && i < |d.live|
    modifies d
    ensures d.Valid() && (Within(old(d.W()), d.W(), i, {}) || Within(Noted(old(d.W()), r), d.W(), i, {}))
    ensures o.Done? ==> d.W() == Noted(old(d.W()), r) && d.poisoned == old(d.poisoned) && d.faults == old(d.faults)
    ensures o.Failed? ==> o.recoveryRequired
    ensures o.Crashed? ==> AfterCrash(d.W())
    ensures !o.Done? && !old(d.poisoned) ==> d.faults < old(d.faults)
    ensures d.faults <= old(d.faults)
  {
    ghost var w := d.W();
    WithinStart(w, i, {});
    WithinStart(Noted(w, r), i, {});
    o := d.AppendUndo(r);
    if o.Crashed? {
      if CrashOf(w, d.W()) {
        WithinCrash(w, w, d.W(), i, {});
      } else {
        WithinCrash(Noted(w, r), Noted(w, r), d.W(), i, {});
      }
    }
  }

  /** One path restored behind its intent, with its completion recorded. */
  method RedoPath(d: Disk, p: StagedPath, i: nat, intended: bool) returns (o: Outcome)
    requires d.Valid() && i < |d.live|
    modifies d
    ensures d.Valid() && RedoHalted(intended, p, old(d.W()), d.W(), i)
    ensures o.Done? ==> d.W() == Redone(intended, p, old(d.W()), i)
    ensures o.Done? ==> |d.live| == |old(d.live)| && ShowsRestored(d.volume, p, d.live[i])
    ensures o.Failed? ==> o.recoveryRequired
    ensures o.Crashed? ==> AfterCrash(d.W())
    ensures o.Done? ==> d.poisoned == old(d.poisoned) && d.faults == old(d.faults)
    ensures !o.Done? && !old(d.poisoned) && Restorable(old(d.volume), p, old(d.live[i])) ==> d.faults < old(d.faults)
    ensures d.faults <= old(d.faults)
  {
    hide Restorable, SlotState, RestoredEvidence, RestoredFrom, Passing;
    ghost var w := d.W();
    WithinStart(w, i, {});
    if !intended {
      o := Note(d, i, RollbackIntent(i));
      if !o.Done? {
        if !Within(w, d.W(), i, {}) {
          WithinMore(Noted(w, RollbackIntent(i)), d.W(), i, {}, Passing(p, w.live[i]));
        }
        return;
      }
    }
    ghost var marked := d.W();
    o := RestorePath(d, p, i);
    if !o.Done? { return; }
    ReturnedWithin(p, marked, i);
    ghost var x := d.W();
    o := Note(d, i, RollbackDone(i));
    if !o.Done? {
      if Within(x, d.W(), i, {}) {
        ReturnedReached(p, marked, x, d.W(), i);
      }
    }
  }

  lemma ReturnedReached(p: StagedPath, w: World, x: World, y: World, i: nat)
    requires w.Valid() && i < |w.live| && x == Returned(p, w, i) && Within(x, y, i, {})
    ensures Within(w, y, i, Passing(p, w.live[i]))
  {
  }
}
