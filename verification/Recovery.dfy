/** `recover_operation_transaction`: replay, resolve, clean up, remove the journal. */
module Recovery {
  import opened Outcomes
  import opened Filesystem
  import opened Records
  import opened Replay
  import opened Disks
  import opened Slots
  import opened Protocol
  import opened Cleanups
  import opened Rollbacks
  import opened Verdicts
  import opened Exactness
  import opened Recoveries
  import opened Resumptions
  import opened Finishes
  import opened Settlements
  import opened Resolutions

  datatype Action = FinishedCommitCleanup | DiscardedStaging | RolledBackAction

  function SlotsOf(s: set<Entries>): set<Option<Ino>> {
    set e | e in s :: e.slot
  }

  /** No slot shows, or may show after a power loss, anything it could not before. */
  ghost predicate SlotsKept(w: World, x: World) {
    && x == w.(live := x.live, possible := x.possible, control := x.control, possibleControl := x.possibleControl)
    && |x.live| == |w.live| && |x.possible| == |w.possible|
    && forall j | 0 <= j < |x.possible| :: SlotsOf(x.possible[j]) <= SlotsOf(w.possible[j])
  }

  lemma CleaningSlots(st: State, keep: bool, w: World, x: World)
    requires w.Valid() && Cleaning(st, keep, w, x)
    ensures SlotsKept(w, x)
  {
    forall j, e | 0 <= j < |x.possible| && e in x.possible[j] ensures e.slot in SlotsOf(w.possible[j]) {
      assert w.live[j] in w.possible[j] && w.live[j].slot in SlotsOf(w.possible[j]);
      if e in w.possible[j] { assert e.slot in SlotsOf(w.possible[j]); }
    }
  }

  lemma RelocatingSlots(paths: seq<StagedPath>, w: World, x: World)
    requires w.Valid() && Relocating(paths, w, x)
    ensures SlotsKept(w, x)
  {
    forall j, e | 0 <= j < |x.possible| && e in x.possible[j] ensures e.slot in SlotsOf(w.possible[j]) {
      assert w.live[j] in w.possible[j] && w.live[j].slot in SlotsOf(w.possible[j]);
      if e in w.possible[j] { assert e.slot in SlotsOf(w.possible[j]); }
    }
  }

  lemma ControlSlots(w: World, x: World, extra: set<Control>)
    requires w.Valid() && ControlWithin(w, x, extra)
    ensures SlotsKept(w, x)
  {
    forall j, e | 0 <= j < |x.possible| && e in x.possible[j] ensures e.slot in SlotsOf(w.possible[j]) {
      assert e in w.possible[j];
    }
  }

  /** A receipt of the journaled transaction has one entry for each of its paths. */
  predicate ReceiptFits(w: World, st: State) {
    w.control.receipt && w.receipt.transaction == st.transaction ==> |w.receipt.paths| == |w.live|
  }

  /** The receipt decision of recovery agrees with what the transaction kept. */
  lemma SettlingReceipt(t: Transaction, w: World, st: State, committed: bool, keep: bool)
    requires Settling(t, w, committed, keep) && Describes(t, st)
    ensures w.Valid() && |w.live| == |st.paths| && ReceiptFits(w, st)
    ensures committed ==> w.control.receipt == keep
    ensures w.control.receipt ==> w.receipt == Receipt(t.id, t.paths) && w.receipt.transaction == st.transaction
  {
  }

  lemma SlotsTrans(w: World, x: World, y: World)
    requires SlotsKept(w, x) && SlotsKept(x, y)
    ensures SlotsKept(w, y)
  {
  }

  lemma SlotsSame(w: World)
    ensures SlotsKept(w, w)
  {
  }

  /** Between `w` and `x` only exact or never completed artifacts of the journaled paths
      were removed, an abort may have been recorded, and receipt and journal may have gone,
      the journal only after every artifact. */
  ghost predicate Discarding(st: State, w: World, x: World) {
    && x.Valid() && |st.paths| <= |x.live| == |x.possible| == |w.live| == |w.possible|
    && x == w.(live := x.live, possible := x.possible, control := x.control, possibleControl := x.possibleControl, records := x.records)
    && (x.records == w.records || (st.finished.None? && x.records == w.records + [Finished(Aborted)]))
    && (forall j | 0 <= j < |st.paths| ::
          x.possible[j] <= w.possible[j] + {CleanStage(st, j, w.live[j]), Cleaned(st, j, false, w.live[j])})
    && (forall j | |st.paths| <= j < |w.live| :: x.possible[j] <= w.possible[j])
    && x.possibleControl <= w.possibleControl + Remaining(w.control)
    && (AllSynced(w) && JournalStays(w) && (exists k :: k in x.possibleControl && !k.operation) ==>
          forall j | 0 <= j < |st.paths| :: x.possible[j] <= {Cleaned(st, j, false, w.live[j])})
  }

  /** The end of a discard. */
  ghost predicate Discarded(st: State, w: World, x: World) {
    && |st.paths| <= |x.live| == |w.live| && x.possibleControl == {x.control} && !x.control.operation
    && forall j | 0 <= j < |st.paths| :: x.live[j] == Cleaned(st, j, false, w.live[j])
  }

  lemma ShrunkDiscarding(st: State, w: World, x: World)
    requires w.Valid() && |st.paths| <= |w.live|
    requires Shrunk(w, x) || (st.finished.None? && Shrunk(w.(records := w.records + [Finished(Aborted)]), x))
    ensures Discarding(st, w, x)
  {
  }

  lemma CleaningDiscarding(st: State, w: World, x: World)
    requires w.Valid() && |st.paths| <= |w.live| && Cleaning(st, false, w, x)
    ensures Discarding(st, w, x)
  {
  }

  lemma ControlDiscarding(st: State, w: World, x: World, y: World)
    requires w.Valid() && Cleaning(st, false, w, x) && x.control == w.control
    requires forall j | 0 <= j < |st.paths| :: x.live[j] == Cleaned(st, j, false, w.live[j])
    requires AllSynced(w) ==> AllSynced(x)
    requires ControlWithin(x, y, Remaining(x.control))
    ensures Discarding(st, w, y)
  {
    hide Cleaned, CleanStage;
    if AllSynced(w) {
      forall j | 0 <= j < |st.paths| ensures y.possible[j] <= {Cleaned(st, j, false, w.live[j])} {
        assert Synced(x, j);
      }
    }
  }

  lemma DiscardDone(st: State, w: World, x: World, y: World)
    requires Cleaning(st, false, w, x) && (forall j | 0 <= j < |st.paths| :: x.live[j] == Cleaned(st, j, false, w.live[j]))
    requires y.live == x.live && y.possibleControl == {y.control} && !y.control.operation
    ensures Discarded(st, w, y)
  {
  }

  lemma DiscardingTrans(st: State, w: World, x: World, y: World)
    requires w.Valid() && Discarding(st, w, x) && x.live == w.live && x.control == w.control && (AllSynced(w) ==> AllSynced(x))
    requires x.possibleControl <= w.possibleControl && (forall j | 0 <= j < |w.live| :: x.possible[j] <= w.possible[j])
    requires Discarding(st, x, y) && y.records == x.records
    ensures Discarding(st, w, y)
  {
    hide Cleaned, CleanStage;
  }

  lemma CleanedSlots(st: State, keep: bool, w: World, x: World)
    requires |st.paths| <= |w.live| == |x.live| && forall i | 0 <= i < |st.paths| :: x.live[i] == Cleaned(st, i, keep, w.live[i])
    ensures forall i | 0 <= i < |st.paths| :: x.live[i].slot == w.live[i].slot
  {
  }

  lemma RelocatedSlots(paths: seq<StagedPath>, w: World, x: World)
    requires |paths| == |w.live| == |x.live|
    ensures (forall i | 0 <= i < |paths| :: x.live[i] == Relocation(paths[i], w.live[i])) ==>
              forall i | 0 <= i < |paths| :: x.live[i].slot == w.live[i].slot
  {
  }

  lemma SameOutcome(st: State, v: Volume, live: seq<Entries>, later: seq<Entries>)
    requires |st.paths| <= |live| && |st.paths| <= |later| && forall i | 0 <= i < |st.paths| :: later[i].slot == live[i].slot
    requires forall i | 0 <= i < |st.paths| :: ShowsOutcome(st, i, v, live[i])
    ensures forall i | 0 <= i < |st.paths| :: ShowsOutcome(st, i, v, later[i])
  {
  }

  /** Artifact removal, with the backups kept or not. */
  method ConcludeArtifacts(d: Disk, st: State, keepBackups: bool, ghost t: Transaction, ghost committed: bool, ghost keep: bool)
    returns (o: Outcome)
    requires d.Valid() && |st.paths| <= |d.live| && (keepBackups ==> |d.receipt.paths| == |d.live|)
    modifies d
    ensures d.Valid() && |st.paths| <= |d.live| && SlotsKept(old(d.W()), d.W())
    ensures old(Settling(t, d.W(), committed, keep)) && Describes(t, st) && old(AllSynced(d.W())) && keepBackups == (committed && keep) ==>
              && Settling(t, d.W(), committed, keep)
              && (if o.Done? then EntriesFinal(t, d.W(), committed, keep) else d.faults < old(d.faults))
    ensures o.Done? ==> d.control == old(d.control) && d.receipt == old(d.receipt)
    ensures !keepBackups && !o.Done? && (forall i | 0 <= i < |st.paths| :: old(Cleans(st, i, false, d.volume, d.live[i]))) ==> d.faults < old(d.faults)
    ensures !keepBackups ==> Cleaning(st, false, old(d.W()), d.W())
    ensures !keepBackups && o.Done? ==> forall i | 0 <= i < |st.paths| :: d.live[i] == Cleaned(st, i, false, old(d.live[i]))
    ensures !keepBackups && o.Done? && old(AllSynced(d.W())) ==> AllSynced(d.W())
    ensures o.Done? ==> d.poisoned == old(d.poisoned)
    ensures o.Failed? ==> o.recoveryRequired
    ensures o.Crashed? ==> AfterCrash(d.W())
    ensures d.faults <= old(d.faults)
    ensures o.Done? ==> |st.paths| <= |d.live| && forall i | 0 <= i < |st.paths| :: d.live[i].slot == old(d.live[i]).slot
  {
    hide Settling, Describes, Cleans, Cleaned, CleanStage, Retainable, Relocation, EntriesFinal, SlotsOf;
    ghost var w := d.W();
    ghost var known := Settling(t, w, committed, keep) && Describes(t, st) && AllSynced(w) && keepBackups == (committed && keep);
    if known { SettlingAll(t, w, st, committed, keep); }
    o := CleanupArtifacts(d, st, keepBackups);
    ghost var x := d.W();
    if o.Done? { CleanedSlots(st, keepBackups, w, x); }
    CleaningSlots(st, keepBackups, w, x);
    if known { SettlingCleaned(t, w, x, st, committed, keep); }
    if o.Done? {
      if keepBackups {
        if known {
          SettlingAll(t, x, st, committed, keep);
          SettlingReceipt(t, x, st, committed, keep);
        }
        o := RelocateBackups(d, d.receipt.paths);
        RelocatingSlots(x.receipt.paths, x, d.W());
        RelocatedSlots(x.receipt.paths, x, d.W());
        SlotsTrans(w, x, d.W());
        if known { SettlingRelocated(t, x, d.W()); }
      } else if known {
        SettlingFinal(t, w, x, st, committed, keep);
      }
    }
  }

  lemma SettlingAll(t: Transaction, w: World, st: State, committed: bool, keep: bool)
    requires Settling(t, w, committed, keep) && Describes(t, st)
    ensures |w.live| == |w.possible| == |st.paths| == |t.paths|
    ensures forall i | 0 <= i < |st.paths| :: Cleans(st, i, committed && keep, w.volume, w.live[i])
    ensures committed && keep ==>
              forall i | 0 <= i < |t.paths| && t.paths[i].backup.Some? :: Retainable(w.volume, w.live[i], t.paths[i].backup.value)
    ensures committed && keep ==> w.control.receipt
  {
    SettlingPaths(t, w, st, committed, keep);
  }

  /** Removal of a transitional receipt. */
  method DropReceipt(d: Disk, ghost t: Transaction, ghost keep: bool) returns (o: Outcome)
    requires d.Valid()
    modifies d
    ensures d.Valid() && SlotsKept(old(d.W()), d.W()) && ControlWithin(old(d.W()), d.W(), {old(d.control).(receipt := false)})
    ensures o.Done? ==> d.live == old(d.live) && d.possible == old(d.possible) && d.control == old(d.control).(receipt := false)
    ensures old(Settling(t, d.W(), false, keep)) ==>
              Settling(t, d.W(), false, keep) && (old(EntriesFinal(t, d.W(), false, keep)) ==> EntriesFinal(t, d.W(), false, keep))
    ensures o.Done? ==> !d.control.receipt
    ensures o.Failed? ==> o.recoveryRequired
    ensures o.Crashed? ==> AfterCrash(d.W())
    ensures if o.Done? then d.faults <= old(d.faults) else d.faults < old(d.faults)
  {
    hide Settling, EntriesFinal, ControlWithin, SlotsKept;
    ghost var w := d.W();
    o := ReplaceControl(d, d.control.(receipt := false));
    ControlSlots(w, d.W(), {w.control.(receipt := false)});
    if Settling(t, w, false, keep) {
      ReceiptRemoved(t, w, d.W(), keep);
    }
  }

  /** What the state directory may hold while receipt and journal are removed. */
  function Remaining(c: Control): set<Control> {
    {c.(receipt := false), c.(operation := false), c.(receipt := false, operation := false)}
  }

  lemma ControlSame(w: World)
    ensures w.Valid() ==> ControlWithin(w, w, {})
  {
  }

  lemma ControlTrans(w: World, x: World, y: World, first: set<Control>, second: set<Control>)
    requires ControlWithin(w, x, first) && ControlWithin(x, y, second)
    ensures ControlWithin(w, y, first + second)
  {
  }

  lemma ControlMore(w: World, x: World, extra: set<Control>, more: set<Control>)
    requires ControlWithin(w, x, extra) && extra <= more
    ensures ControlWithin(w, x, more)
  {
  }

  /** Removal of the operation journal. */
  method DropJournal(d: Disk, ghost t: Transaction, ghost committed: bool, ghost keep: bool) returns (o: Outcome)
    requires d.Valid()
    modifies d
    ensures d.Valid() && SlotsKept(old(d.W()), d.W()) && ControlWithin(old(d.W()), d.W(), {old(d.control).(operation := false)})
    ensures o.Done? ==> !d.control.operation && d.possibleControl == {d.control} && d.live == old(d.live)
    ensures old(Settling(t, d.W(), committed, keep) && EntriesFinal(t, d.W(), committed, keep) && ReceiptLeft(d.control, committed, committed && keep)) ==>
              if o.Done? then Concluded(t, d.W(), committed, committed && keep)
              else Staged(t, d.W()) && FinishedDisk(t, d.W(), committed, keep)
    ensures o.Failed? ==> o.recoveryRequired
    ensures o.Crashed? ==> AfterCrash(d.W())
    ensures if o.Done? then d.faults == old(d.faults) else d.faults < old(d.faults)
  {
    hide Settling, EntriesFinal, Concluded, Staged, FinishedDisk, SlotsKept, ControlWithin, JournalStays;
    ghost var w := d.W();
    o := ReplaceControl(d, d.control.(operation := false));
    ControlSlots(w, d.W(), {w.control.(operation := false)});
    if Settling(t, w, committed, keep) && EntriesFinal(t, w, committed, keep) && ReceiptLeft(w.control, committed, committed && keep) {
      SettlingFinished(t, w, committed, keep);
      JournalRemoved(t, w, d.W(), committed, keep);
    }
  }

  /** Receipt removal where the commit did not happen, then journal removal. */
  method ConcludeControl(d: Disk, dropReceipt: bool, ghost t: Transaction, ghost committed: bool, ghost keep: bool)
    returns (o: Outcome)
    requires d.Valid()
    modifies d
    ensures d.Valid() && SlotsKept(old(d.W()), d.W()) && ControlWithin(old(d.W()), d.W(), Remaining(old(d.control)))
    ensures !o.Done? ==> d.faults < old(d.faults)
    ensures o.Done? ==> !d.control.operation && d.possibleControl == {d.control} && d.live == old(d.live)
    ensures old(Settling(t, d.W(), committed, keep) && EntriesFinal(t, d.W(), committed, keep)) && dropReceipt == (old(d.control.receipt) && !committed) && (committed ==> old(d.control.receipt) == keep) ==>
              if o.Done? then Concluded(t, d.W(), committed, committed && keep)
              else Staged(t, d.W()) && FinishedDisk(t, d.W(), committed, keep) && d.faults < old(d.faults)
    ensures o.Failed? ==> o.recoveryRequired
    ensures o.Crashed? ==> AfterCrash(d.W())
    ensures d.faults <= old(d.faults)
  {
    hide Settling, EntriesFinal, Concluded, Staged, FinishedDisk, SlotsKept, ControlWithin, JournalStays, Remaining,
         World.Valid;
    ghost var w := d.W();
    SlotsSame(w);
    ControlSame(w);
    RemainingAll(w.control);
    if dropReceipt {
      o := DropReceipt(d, t, keep);
      if Settling(t, d.W(), committed, keep) { SettlingFinished(t, d.W(), committed, keep); }
      if !o.Done? {
        ControlMore(w, d.W(), {w.control.(receipt := false)}, Remaining(w.control));
        return;
      }
    }
    ghost var x := d.W();
    o := DropJournal(d, t, committed, keep);
    SlotsTrans(w, x, d.W());
    ghost var first := if dropReceipt then {w.control.(receipt := false)} else {};
    ControlTrans(w, x, d.W(), first, {x.control.(operation := false)});
    ControlMore(w, d.W(), first + {x.control.(operation := false)}, Remaining(w.control));
  }

  lemma RemainingAll(c: Control)
    ensures {c.(receipt := false)} <= Remaining(c) && {c.(operation := false)} <= Remaining(c)
    ensures {c.(receipt := false), c.(receipt := false).(operation := false)} <= Remaining(c)
    ensures {c.(receipt := false)} + {c.(receipt := false).(operation := false)} == {c.(receipt := false), c.(receipt := false).(operation := false)}
    ensures {} + {c.(operation := false)} == {c.(operation := false)}
  {
  }

  lemma SettlingFinished(t: Transaction, w: World, committed: bool, keep: bool)
    requires Settling(t, w, committed, keep)
    ensures Staged(t, w) && FinishedDisk(t, w, committed, keep) && JournalStays(w)
  {
  }

  /** Artifacts first, then the state directory. */
  method ConcludeAll(d: Disk, st: State, keepBackups: bool, dropReceipt: bool, ghost t: Transaction, ghost committed: bool, ghost keep: bool)
    returns (o: Outcome)
    requires d.Valid() && |st.paths| <= |d.live| && (keepBackups ==> |d.receipt.paths| == |d.live|)
    modifies d
    ensures d.Valid() && SlotsKept(old(d.W()), d.W())
    ensures !keepBackups ==> Discarding(st, old(d.W()), d.W()) && (o.Done? ==> Discarded(st, old(d.W()), d.W()))
    ensures !keepBackups && !o.Done? && (forall i | 0 <= i < |st.paths| :: old(Cleans(st, i, false, d.volume, d.live[i]))) ==> d.faults < old(d.faults)
    ensures old(Settling(t, d.W(), committed, keep) && AllSynced(d.W())) && Describes(t, st) && keepBackups == (committed && keep)
            && dropReceipt == (old(d.control.receipt) && !committed) && (committed ==> old(d.control.receipt) == keep) ==>
              if o.Done? then Concluded(t, d.W(), committed, committed && keep)
              else Staged(t, d.W()) && FinishedDisk(t, d.W(), committed, keep) && d.faults < old(d.faults)
    ensures o.Failed? ==> o.recoveryRequired
    ensures o.Crashed? ==> AfterCrash(d.W())
    ensures d.faults <= old(d.faults)
    ensures o.Done? ==> |st.paths| <= |d.live| && forall i | 0 <= i < |st.paths| :: d.live[i].slot == old(d.live[i]).slot
  {
    hide Settling, EntriesFinal, Concluded, Staged, FinishedDisk, SlotsOf, AllSynced, Describes, SlotsKept,
         Discarding, Discarded, Cleaning, ControlWithin, Remaining, ReceiptLeft;
    ghost var w := d.W();
    o := ConcludeArtifacts(d, st, keepBackups, t, committed, keep);
    ghost var x := d.W();
    if Settling(t, x, committed, keep) { SettlingFinished(t, x, committed, keep); }
    if !keepBackups { CleaningDiscarding(st, w, x); }
    if !o.Done? { return; }
    o := ConcludeControl(d, dropReceipt, t, committed, keep);
    SlotsTrans(w, x, d.W());
    if !keepBackups {
      ControlDiscarding(st, w, x, d.W());
      if o.Done? { DiscardDone(st, w, x, d.W()); }
    }
  }

  /** What recovery does once the outcome is on record. */
  method Conclude(d: Disk, st: State, action: Action, ghost t: Transaction, ghost committed: bool, ghost keep: bool)
    returns (o: Outcome)
    requires d.Valid() && |st.paths| <= |d.live| && ReceiptFits(d.W(), st)
    modifies d
    ensures d.Valid() && SlotsKept(old(d.W()), d.W())
    ensures !action.FinishedCommitCleanup? ==> Discarding(st, old(d.W()), d.W()) && (o.Done? ==> Discarded(st, old(d.W()), d.W()))
    ensures !action.FinishedCommitCleanup? && !o.Done? && (forall i | 0 <= i < |st.paths| :: old(Cleans(st, i, false, d.volume, d.live[i]))) ==> d.faults < old(d.faults)
    ensures old(Settling(t, d.W(), committed, keep) && AllSynced(d.W())) && Describes(t, st) && committed == action.FinishedCommitCleanup? ==>
              if o.Done? then Concluded(t, d.W(), committed, committed && keep)
              else Staged(t, d.W()) && FinishedDisk(t, d.W(), committed, keep) && d.faults < old(d.faults)
    ensures o.Failed? ==> o.recoveryRequired
    ensures o.Crashed? ==> AfterCrash(d.W())
    ensures d.faults <= old(d.faults)
    ensures o.Done? ==> |st.paths| <= |d.live| && forall i | 0 <= i < |st.paths| :: d.live[i].slot == old(d.live[i]).slot
  {
    hide Settling, EntriesFinal, Concluded, Staged, FinishedDisk, SlotsOf, AllSynced, Describes, SlotsKept,
         Discarding, Discarded;
    ghost var w := d.W();
    SlotsSame(w);
    ControlSame(w);
    ShrunkDiscarding(st, w, w);
    if Settling(t, w, committed, keep) && Describes(t, st) {
      SettlingReceipt(t, w, st, committed, keep);
      SettlingFinished(t, w, committed, keep);
    }
    var strikes := d.Trouble();
    if strikes {
      return Failed(true);
    }
    var retained := d.control.receipt && d.receipt.transaction == st.transaction;
    var keepBackups := retained && action == FinishedCommitCleanup;
    o := ConcludeAll(d, st, keepBackups, retained && !keepBackups, t, committed, keep);
  }

  // Foreign states

  /** Recovery has nothing to restore or to keep: it discards. */
  predicate Discards(st: State) {
    !RollsBack(st) && !IsCommitted(st)
  }

  /** Nothing but a fault can stop a discard. */
  predicate Discardable(st: State, w: World)
    requires |st.paths| <= |w.live|
  {
    forall i | 0 <= i < |st.paths| :: Accepts(st, i, w.volume, w.live[i]) && Cleans(st, i, false, w.volume, w.live[i])
  }

  /** Names and state directory are as they were, directories may have settled. */
  ghost predicate Calm(w: World, x: World) {
    && x.live == w.live && x.control == w.control && x.possibleControl <= w.possibleControl && x.volume == w.volume
    && |x.possible| == |w.possible| && (forall j | 0 <= j < |x.possible| :: x.possible[j] <= w.possible[j])
    && (AllSynced(w) ==> AllSynced(x))
  }

  lemma SettledCalm(w: World, x: World, n: nat)
    requires w.Valid() && AllSettled(w, x, n)
    ensures Calm(w, x)
  {
    forall j | 0 <= j < |x.possible| ensures x.possible[j] <= w.possible[j] && (AllSynced(w) ==> Synced(x, j)) {
      assert w.live[j] in w.possible[j];
      assert AllSynced(w) ==> Synced(w, j);
    }
  }

  lemma RecordedCalm(w: World, x: World)
    requires w.Valid() && x == w.(records := x.records)
    ensures Calm(w, x)
  {
    forall j | 0 <= j < |x.possible| ensures AllSynced(w) ==> Synced(x, j) {
      assert AllSynced(w) ==> Synced(w, j);
    }
  }

  predicate RollsBack(st: State) {
    st.finished.None? && st.prepared && st.commitIntents != {}
  }

  /** The slots recovery may give path `i` beyond those it had. */
  function Moves(st: State, i: nat, v: Volume, e: Entries): set<Option<Ino>> {
    if i < |st.paths| && RollsBack(st) then SlotsOf(Reach(st, i, v, e)) else {}
  }

  /** Recovery goes past path `i`. */
  predicate Accepts(st: State, i: nat, v: Volume, e: Entries)
    requires i < |st.paths|
  {
    if st.finished.Some? then Shows(st, i, IsCommitted(st), v, e)
    else if RollsBack(st) then Judge(st, i, v, e) != Refuse
    else Undisturbed(st, i, v, e)
  }

  lemma ShowsIff(st: State, i: nat, committed: bool, v: Volume, e: Entries)
    requires i < |st.paths|
    ensures Shows(st, i, committed, v, e) <==>
            Plain(v, e) && if committed then HoldsAfter(st.paths[i], v, e) else HoldsBefore(st.paths[i], v, e)
  {
    hide MatchesBefore, MatchesAfter, HoldsAfter, HoldsBefore, SlotState, Plain;
    PlainIff(v, e);
    if Plain(v, e) { MatchesIff(st.paths[i], v, e); }
  }

  /** Exactly the states recovery goes past, said of the files themselves. */
  lemma AcceptsIff(st: State, i: nat, v: Volume, e: Entries)
    requires i < |st.paths|
    ensures Accepts(st, i, v, e) <==>
            if st.finished.Some? then Plain(v, e) && ShowsOutcome(st, i, v, e)
            else if RollsBack(st) then Resolvable(st, i, v, e)
            else && Plain(v, e) && HoldsBefore(st.paths[i], v, e)
                 && (st.paths[i].before.AbsentSpec? && st.paths[i].stageName.Some? ==> Alike(v, e, e.stage))
  {
    hide Judge, Shows, LinkedCreate, Resolvable, Plain, HoldsBefore, HoldsAfter, Alike;
    ShowsIff(st, i, IsCommitted(st), v, e);
    JudgeIff(st, i, v, e);
    LinkedIff(st.paths[i], v, e);
  }

  /** Slots changed only as their verdicts allow. */
  ghost predicate Contained(st: State, w: World, x: World) {
    && x.volume == w.volume && x.receipt == w.receipt
    && |st.paths| <= |x.possible| == |x.live| == |w.possible| == |w.live|
    && forall j | 0 <= j < |x.possible| ::
         SlotsOf(x.possible[j]) <= SlotsOf(w.possible[j]) + Moves(st, j, w.volume, w.live[j])
  }

  lemma ShrunkContained(st: State, w: World, x: World)
    requires w.Valid() && |st.paths| <= |w.live| && (Shrunk(w, x) || exists r :: Shrunk(w.(records := r), x))
    ensures Contained(st, w, x) && x.possibleControl <= w.possibleControl
  {
    forall j, e | 0 <= j < |x.possible| && e in x.possible[j] ensures e.slot in SlotsOf(w.possible[j]) {
      assert e in w.possible[j];
    }
  }

  /** The sweep, complete or stopped, gives a path no state beyond its verdict's. */
  lemma SweptReach(st: State, w: World, i: nat, j: nat)
    requires i <= |st.paths| <= |w.live| == |w.possible| && j < |w.live| && w.Valid()
    ensures Swept(st, w, i).possible[j] <= w.possible[j] + if j < |st.paths| then Reach(st, j, w.volume, w.live[j]) else {}
    ensures Swept(st, w, i).possibleControl == w.possibleControl
  {
    SweptElsewhere(st, w, i, j);
    if i <= j < |st.paths| {
      SweptElsewhere(st, w, j + 1, j);
      TargetReached(st, j, w.volume, w.live[j]);
    }
  }

  lemma HaltedReach(st: State, w: World, x: World, stopped: nat, j: nat)
    requires stopped < |st.paths| <= |w.live| == |w.possible| && j < |w.live| && w.Valid()
    requires PathHalted(st, Swept(st, w, stopped + 1), x, stopped)
    ensures |x.live| == |x.possible| == |w.live| && x.possible[j] <= w.possible[j] + if j < |st.paths| then Reach(st, j, w.volume, w.live[j]) else {}
    ensures x.possibleControl <= w.possibleControl && x.volume == w.volume && x.receipt == w.receipt
  {
    hide Judge, Reach, Target, Swept;
    var y := Swept(st, w, stopped + 1);
    SweptFrame(st, w, stopped + 1);
    SweptElsewhere(st, w, stopped + 1, stopped);
    SweptReach(st, w, stopped + 1, j);
    TargetReached(st, stopped, w.volume, w.live[stopped]);
  }

  lemma ReachContained(st: State, w: World, x: World)
    requires RollsBack(st) && |st.paths| <= |x.possible| == |x.live| == |w.possible| == |w.live|
    requires x.volume == w.volume && x.receipt == w.receipt
    requires forall j | 0 <= j < |w.live| :: x.possible[j] <= w.possible[j] + if j < |st.paths| then Reach(st, j, w.volume, w.live[j]) else {}
    ensures Contained(st, w, x)
  {
    hide Reach;
    forall j, e | 0 <= j < |x.possible| && e in x.possible[j]
      ensures e.slot in SlotsOf(w.possible[j]) + Moves(st, j, w.volume, w.live[j])
    {
      if e in w.possible[j] {
        assert e.slot in SlotsOf(w.possible[j]);
      } else {
        assert e in Reach(st, j, w.volume, w.live[j]);
        assert e.slot in SlotsOf(Reach(st, j, w.volume, w.live[j]));
      }
    }
  }

  /** What the rollback branch leaves, complete or stopped. */
  lemma SweptContained(st: State, w: World, x: World, stopped: nat)
    requires w.Valid() && RollsBack(st) && |st.paths| <= |w.live|
    requires stopped < |st.paths| ==> PathHalted(st, Swept(st, w, stopped + 1), x, stopped)
    requires stopped >= |st.paths| ==>
               Shrunk(Swept(st, w, 0), x) || Shrunk(Swept(st, w, 0).(records := Swept(st, w, 0).records + [Finished(RolledBack)]), x)
    ensures Contained(st, w, x) && x.possibleControl <= w.possibleControl
  {
    hide Reach, Swept, PathHalted, Contained, SlotsOf;
    SweptFrame(st, w, 0);
    if |st.paths| > 0 { SweptReach(st, w, 0, 0); }
    forall j | 0 <= j < |w.live|
      ensures |x.live| == |x.possible| == |w.live| && x.possible[j] <= w.possible[j] + if j < |st.paths| then Reach(st, j, w.volume, w.live[j]) else {}
      ensures x.possibleControl <= w.possibleControl && x.volume == w.volume && x.receipt == w.receipt
    {
      if stopped < |st.paths| {
        HaltedReach(st, w, x, stopped, j);
      } else {
        SweptReach(st, w, 0, j);
      }
    }
    if |st.paths| == 0 {
      assert Swept(st, w, 0) == w by { SweptAll(st, w); }
    }
    ReachContained(st, w, x);
  }

  /** The transaction's disk as recovery may find it: whatever a crash left. */
  ghost predicate Recoverable(t: Transaction, w: World, st: State, keep: bool) {
    Interrupted(t, w, st) || (FinishedAs(t, w, st, keep) && w.control.operation)
  }

  lemma RecoverableCases(t: Transaction, w: World, st: State, keep: bool)
    requires Recoverable(t, w, st, keep)
    ensures st.finished.Some? ==> FinishedAs(t, w, st, keep) && w.control.operation && Sound(t, w, st, keep)
    ensures st.finished.None? ==> Interrupted(t, w, st) && st.prepared
    ensures st.finished.None? && st.commitIntents == {} ==> Unfinished(t, w, st) && Resumable(st, |t.paths|)
    ensures st.finished.None? ==> (Sound(t, w, st, keep) <==> Resumable(st, |t.paths|))
    ensures Skipped(st, |t.paths|) ==> st.commitIntents != {}
  {
    if Skipped(st, |t.paths|) { assert 0 in st.commitIntents; }
  }

  lemma CalmControl(w: World, x: World)
    requires Calm(w, x)
    ensures x.control == w.control
  {
  }

  lemma AcceptedOutcome(st: State, v: Volume, live: seq<Entries>)
    requires |st.paths| <= |live| && !RollsBack(st) && forall i | 0 <= i < |st.paths| :: Accepts(st, i, v, live[i])
    ensures forall i | 0 <= i < |st.paths| :: ShowsOutcome(st, i, v, live[i])
  {
    hide Accepts, ShowsOutcome, Plain, Alike;
    forall i | 0 <= i < |st.paths| ensures ShowsOutcome(st, i, v, live[i]) {
      AcceptsIff(st, i, v, live[i]);
      OutcomeBefore(st, i, v, live[i]);
    }
  }

  lemma OutcomeBefore(st: State, i: nat, v: Volume, e: Entries)
    requires i < |st.paths|
    ensures st.finished.None? ==> (ShowsOutcome(st, i, v, e) <==> HoldsBefore(st.paths[i], v, e))
  {
  }

  /** `recover_state`, on whatever the disk holds: a path it does not accept makes it fail,
      and slots change only as verdicts allow.  On a disk its own transaction left, only
      faults make it fail. */
  method RecoverState(d: Disk, st: State, ghost t: Transaction, ghost keep: bool)
    returns (o: Outcome, action: Action, ghost next: State)
    requires d.Valid() && |st.paths| <= |d.live|
    modifies d
    ensures d.Valid() && Contained(st, old(d.W()), d.W()) && d.possibleControl <= old(d.possibleControl)
    ensures o.Done? ==> forall i | 0 <= i < |st.paths| :: old(Accepts(st, i, d.volume, d.live[i]))
    ensures o.Done? ==> action.FinishedCommitCleanup? == IsCommitted(st) && d.control == old(d.control)
    ensures Discards(st) ==> Discarding(st, old(d.W()), d.W()) && (o.Done? ==> Calm(old(d.W()), d.W()))
    ensures Discards(st) && !o.Done? && !old(d.poisoned) && (forall i | 0 <= i < |st.paths| :: old(Accepts(st, i, d.volume, d.live[i]))) ==> d.faults < old(d.faults)
    ensures old(Recoverable(t, d.W(), st, keep)) ==>
              && (o.Done? ==> Settling(t, d.W(), IsCommitted(st), keep) && AllSynced(d.W()) && Describes(t, st))
              && (old(Sound(t, d.W(), st, keep)) ==>
                    && Sound(t, d.W(), next, keep) && IsCommitted(next) == IsCommitted(st)
                    && (o.Done? ==> FinishedAs(t, d.W(), next, keep)))
              && (Skipped(st, |t.paths|) && st.finished.None? ==> StillSkipped(t, d.W(), st) && (o.Done? ==> Parse(t.limits, d.records).Corrupt?))
              && (!o.Done? && !old(d.poisoned) ==> d.faults < old(d.faults))
    ensures o.Failed? ==> o.recoveryRequired
    ensures o.Crashed? ==> AfterCrash(d.W())
    ensures d.faults <= old(d.faults)
    ensures o.Done? ==> forall i | 0 <= i < |st.paths| :: ShowsOutcome(st, i, d.volume, d.live[i])
  {
    hide Interrupted, FinishedAs, Settling, Describes, Contained, Shrunk, Swept, PathHalted, Unfinished, Resumable,
         AllSynced, Judge, Shows, Undisturbed, Discarding, Calm, AllSettled, HoldsBefore, HoldsAfter, Plain;
    ghost var w := d.W();
    ghost var known := Recoverable(t, w, st, keep);
    action := DiscardedStaging;
    next := st;
    if known { RecoverableCases(t, w, st, keep); }
    if st.finished.Some? {
      o := ResolveFinished(d, st, t, keep);
      action := if st.finished == Some(Committed) then FinishedCommitCleanup else DiscardedStaging;
      ShrunkContained(st, w, d.W());
      ShrunkDiscarding(st, w, d.W());
      if o.Done? {
        SettledCalm(w, d.W(), |st.paths|);
        CalmControl(w, d.W());
        AcceptedOutcome(st, w.volume, w.live);
      }
    } else if !st.prepared || st.commitIntents == {} {
      o, next := ResolveUncommitted(d, st, t, keep);
      ShrunkContained(st, w, d.W());
      ShrunkDiscarding(st, w, d.W());
      if o.Done? {
        RecordedCalm(w, d.W());
        AcceptedOutcome(st, w.volume, w.live);
      }
    } else {
      ghost var stopped;
      o, next, stopped := ResolveCommitted(d, st, t, keep);
      action := RolledBackAction;
      SweptContained(st, w, d.W(), stopped);
    }
  }

  // One recovery

  lemma ContainedKept(st: State, w: World, x: World, y: World)
    requires Contained(st, w, x) && SlotsKept(x, y) && y.Valid() && y.receipt == x.receipt
    ensures Contained(st, w, y)
  {
  }

  lemma FinishedOn(t: Transaction, w: World, x: World, st: State, keep: bool)
    requires FinishedAs(t, w, st, keep) && x.records == w.records && x.volume == w.volume
    requires Staged(t, x) && FinishedDisk(t, x, IsCommitted(st), keep)
    ensures FinishedAs(t, x, st, keep)
  {
  }

  /** What recovery makes of a journal that replays to `st`, on whatever the disk holds: slots change
      only as their verdicts allow; success takes a state it accepts in every path and leaves each slot
      showing what the outcome says; and a path in any other state keeps the journal in place. */
  ghost predicate Recovered(st: State, w: World, x: World, o: Outcome) {
    && |st.paths| <= |w.live| && Contained(st, w, x)
    && (o.Done? ==> forall i | 0 <= i < |st.paths| :: Accepts(st, i, w.volume, w.live[i]))
    && (o.Done? ==> |st.paths| <= |x.live| && forall i | 0 <= i < |st.paths| :: ShowsOutcome(st, i, x.volume, x.live[i]))
    && ((exists i | 0 <= i < |st.paths| :: !Accepts(st, i, w.volume, w.live[i])) ==> x.possibleControl <= w.possibleControl)
    && (Discards(st) ==> Discarding(st, w, x) && (o.Done? ==> Discarded(st, w, x)))
  }

  /** Recovery of a parsed journal: resolve, then clean up. */
  method RecoverParsed(d: Disk, st: State, ghost t: Transaction, ghost keep: bool)
    returns (o: Outcome, ghost next: State)
    requires d.Valid() && |st.paths| <= |d.live| && ReceiptFits(d.W(), st)
    modifies d
    ensures d.Valid() && Recovered(st, old(d.W()), d.W(), o)
    ensures Discards(st) && !o.Done? && !old(d.poisoned) && old(Discardable(st, d.W())) ==> d.faults < old(d.faults)
    ensures old(Recoverable(t, d.W(), st, keep)) ==>
              && (o.Done? ==> Concluded(t, d.W(), IsCommitted(st), IsCommitted(st) && keep))
              && (!o.Done? && old(Sound(t, d.W(), st, keep)) ==> Sound(t, d.W(), next, keep) && IsCommitted(next) == IsCommitted(st))
              && (!o.Done? && Skipped(st, |t.paths|) && st.finished.None? ==> StillSkipped(t, d.W(), st))
              && (!o.Done? && !old(d.poisoned) ==> d.faults < old(d.faults))
    ensures o.Failed? ==> o.recoveryRequired
    ensures o.Crashed? ==> AfterCrash(d.W())
    ensures d.faults <= old(d.faults)
  {
    hide Recoverable, Sound, FinishedAs, Settling, Contained, Accepts, Cleans, Concluded, AllSynced, Describes,
         SlotsKept, Staged, FinishedDisk, Discarding, Discarded, Calm, ShowsOutcome;
    ghost var w := d.W();
    var action;
    o, action, next := RecoverState(d, st, t, keep);
    if !o.Done? { return; }
    ghost var x := d.W();
    ContainedFits(st, w, x);
    o := Conclude(d, st, action, t, IsCommitted(st), keep);
    SlotsReceipt(x, d.W());
    ContainedKept(st, w, x, d.W());
    if o.Done? { SameOutcome(st, x.volume, x.live, d.live); }
    if Discards(st) { DiscardParsed(st, w, x, d.W(), o.Done?); }
    if Recoverable(t, w, st, keep) && Sound(t, w, st, keep) && !o.Done? {
      FinishedOn(t, x, d.W(), next, keep);
      FinishedSound(t, d.W(), next, keep);
    }
  }

  lemma ContainedFits(st: State, w: World, x: World)
    requires Contained(st, w, x) && ReceiptFits(w, st) && x.control == w.control
    ensures ReceiptFits(x, st) && |st.paths| <= |x.live|
  {
  }

  lemma FinishedSound(t: Transaction, w: World, st: State, keep: bool)
    requires FinishedAs(t, w, st, keep)
    ensures Sound(t, w, st, keep)
  {
  }

  lemma DiscardParsed(st: State, w: World, x: World, y: World, done: bool)
    requires w.Valid() && Discarding(st, w, x) && Calm(w, x)
    requires Discarding(st, x, y) && y.records == x.records && (done ==> Discarded(st, x, y))
    ensures Discarding(st, w, y) && (done ==> Discarded(st, w, y))
    ensures x.live == w.live && x.volume == w.volume
  {
    DiscardingTrans(st, w, x, y);
  }

  lemma SlotsReceipt(w: World, x: World)
    requires SlotsKept(w, x)
    ensures x.receipt == w.receipt && x.records == w.records && x.volume == w.volume
  {
  }

  // The whole operation, in a new process

  /** The disk has the paths its journal names, and a receipt of its transaction fits. */
  predicate Opens(limits: Limits, w: World) {
    var parsed := Parse(limits, w.records);
    parsed.Ok? ==> |parsed.value.paths| <= |w.live| && ReceiptFits(w, parsed.value)
  }

  /** Nothing of the transaction is left to do: the journal is gone, the artifacts too, and
      the receipt is there exactly when it is kept. */
  ghost predicate Resolved(t: Transaction, w: World, committed: bool, keep: bool) {
    && Staged(t, w) && OwnReceipt(t, w) && EntriesFinal(t, w, committed, keep)
    && !w.control.operation && !w.control.undo && ReceiptLeft(w.control, committed, keep)
  }

  /** `recover_operation_transaction`.  A journal that does not replay, or a path in a state
      the journal does not account for, is refused with the journal left in place. */
  method Recover(d: Disk, limits: Limits, ghost t: Transaction, ghost st: State, ghost keep: bool)
    returns (o: Outcome, ghost next: State)
    requires d.Valid() && Opens(limits, d.W())
    modifies d
    ensures d.Valid()
    ensures old(d.control.operation && |d.records| > 0) && Parse(limits, old(d.records)).Corrupt? ==>
              o.Failed? && d.W() == old(d.W())
    ensures old(d.control.operation && |d.records| > 0) && Parse(limits, old(d.records)).Ok? ==>
              Recovered(Parse(limits, old(d.records)).value, old(d.W()), d.W(), o)
              && (Discards(Parse(limits, old(d.records)).value) && !o.Done? && old(Discardable(Parse(limits, d.records).value, d.W())) ==> d.faults < old(d.faults))
    ensures old(d.control.operation && |d.records| == 0) ==>
              && ControlWithin(old(d.W()), d.W(), {old(d.control).(operation := false)})
              && (if o.Done? then d.live == old(d.live) && d.possibleControl == {old(d.control).(operation := false)} else d.faults < old(d.faults))
    ensures old(!d.control.operation) ==> o.Done? && d.W() == old(d.W())
    ensures t.limits == limits && old(Interrupted(t, d.W(), st) || FinishedAs(t, d.W(), st, keep)) ==>
              && (o.Done? ==> Resolved(t, d.W(), IsCommitted(st), keep))
              && (o.Done? && old(d.control.operation) ==> Concluded(t, d.W(), IsCommitted(st), IsCommitted(st) && keep))
              && (!o.Done? && old(Sound(t, d.W(), st, keep)) ==> Sound(t, d.W(), next, keep) && IsCommitted(next) == IsCommitted(st))
              && (!o.Done? && Skipped(st, |t.paths|) && st.finished.None? ==> StillSkipped(t, d.W(), st))
              && (!o.Done? ==> d.faults < old(d.faults))
    ensures o.Failed? ==> o.recoveryRequired
    ensures o.Crashed? ==> AfterCrash(d.W())
    ensures d.faults <= old(d.faults)
  {
    hide Interrupted, FinishedAs, Sound, Contained, Accepts, Concluded, Resolved, Recoverable, Discarding, Discarded,
         Discardable, ControlWithin, StillSkipped, Skipped, ReceiptFits, Discards, IsCommitted, Run, Start, Parse,
         Shrunk, ShowsOutcome, Recovered;
    ghost var w := d.W();
    ghost var known := t.limits == limits && (Interrupted(t, w, st) || FinishedAs(t, w, st, keep));
    next := st;
    if known { RecoverableJournal(t, w, st, keep); }
    d.poisoned := false;
    if !d.control.operation {
      return Done, st;
    }
    if |d.records| == 0 {
      o := ReplaceControl(d, d.control.(operation := false));
      return;
    }
    var parsed := Parse(limits, d.records);
    if parsed.Corrupt? {
      return Failed(true), st;
    }
    var strikes := d.Trouble();
    if strikes {
      UntouchedRecovered(parsed.value, w);
      return Failed(true), st;
    }
    o, next := RecoverParsed(d, parsed.value, t, keep);
    if known && o.Done? {
      ConcludedResolved(t, d.W(), IsCommitted(st), keep);
    }
  }

  lemma ShrunkSelf(w: World)
    requires w.Valid()
    ensures Shrunk(w, w)
  {
  }

  lemma UntouchedRecovered(st: State, w: World)
    requires w.Valid() && |st.paths| <= |w.live|
    ensures Recovered(st, w, w, Failed(true))
  {
    UntouchedContained(st, w);
    ShrunkSelf(w);
    ShrunkDiscarding(st, w, w);
  }

  lemma UntouchedContained(st: State, w: World)
    requires w.Valid() && |st.paths| <= |w.live|
    ensures Contained(st, w, w)
  {
  }

  lemma RecoverableJournal(t: Transaction, w: World, st: State, keep: bool)
    requires Interrupted(t, w, st) || FinishedAs(t, w, st, keep)
    ensures |w.records| > 0 && Parse(t.limits, w.records) == Ok(st)
    ensures w.control.operation ==> Recoverable(t, w, st, keep)
    ensures !w.control.operation ==> Resolved(t, w, IsCommitted(st), keep)
    ensures Skipped(st, |t.paths|) && st.finished.None? ==> StillSkipped(t, w, st)
  {
  }

  lemma ConcludedResolved(t: Transaction, w: World, committed: bool, keep: bool)
    requires Concluded(t, w, committed, committed && keep)
    ensures Resolved(t, w, committed, keep) && Resolved(t, w, committed, committed && keep)
  {
  }
}
