/** After the `Finished` record: artifacts are removed, then the journal. */
module Cleanups {
  import opened Outcomes
  import opened Filesystem
  import opened Records
  import opened Replay
  import opened Disks
  import opened Slots
  import opened Protocol
  import opened Probes

  /** Only directories changed, and the state directory gained no new possible state. */
  ghost predicate OnlyEntries(w: World, x: World) {
    && x == w.(live := x.live, possible := x.possible, control := x.control, possibleControl := x.possibleControl)
    && x.possibleControl <= w.possibleControl
  }

  ghost predicate AllSynced(w: World) {
    |w.live| == |w.possible| && forall i | 0 <= i < |w.live| :: Synced(w, i)
  }

  /** The artifacts of a finished transaction may be removed: the journal protects it. */
  ghost predicate Cleanable(t: Transaction, w: World, committed: bool) {
    Staged(t, w) && FinishedDisk(t, w, committed, false) && JournalStays(w)
  }

  lemma FinishingProbes(v: Volume, p: StagedPath, committed: bool, e: Entries, a: Artifact)
    requires StagedWell(v, p) && e in Finishing(p, committed, false)
    ensures ArtifactState(v, e, a) != Unsafe
    ensures Repoint(e, a, None) in Finishing(p, committed, false)
  {
  }

  lemma CleanableWithin(t: Transaction, w: World, x: World, committed: bool, i: nat, extra: set<Entries>)
    requires Cleanable(t, w, committed) && Within(w, x, i, extra)
    requires i < |t.paths| && extra <= Finishing(t.paths[i], committed, false)
    ensures Cleanable(t, x, committed) && OnlyEntries(w, x)
  {
    forall j | 0 <= j < |t.paths|
      ensures x.possible[j] <= Finishing(t.paths[j], committed, false)
    {
      assert w.possible[j] <= Finishing(t.paths[j], committed, false);
    }
  }

  /** One artifact of `cleanup`. */
  method RemoveOne(d: Disk, t: Transaction, i: nat, a: Artifact, ghost committed: bool) returns (o: Outcome)
    requires Cleanable(t, d.W(), committed) && i < |t.paths| && Synced(d.W(), i)
    modifies d
    ensures d.Valid() && Cleanable(t, d.W(), committed) && OnlyEntries(old(d.W()), d.W())
    ensures o.Done? ==> Local(old(d.W()), d.W(), i) && Synced(d.W(), i) && d.live[i] == Repoint(old(d.live[i]), a, None)
    ensures o.Crashed? ==> AfterCrash(d.W())
    ensures !o.Crashed? ==> d.poisoned == old(d.poisoned)
    ensures o.Failed? ==> o.recoveryRequired
    ensures if o.Done? then d.faults <= old(d.faults) else d.faults < old(d.faults)
  {
    ghost var w := d.W();
    assert w.live[i] in w.possible[i] && w.possible[i] <= Finishing(t.paths[i], committed, false);
    FinishingProbes(d.volume, t.paths[i], committed, d.live[i], a);
    var removed;
    o, removed := RemoveArtifact(d, i, a);
    CleanableWithin(t, w, d.W(), committed, i, {Repoint(w.live[i], a, None)});
  }

  /** `cleanup`: removes both artifacts of every path. */
  method Cleanup(d: Disk, t: Transaction, ghost committed: bool) returns (o: Outcome)
    requires Cleanable(t, d.W(), committed) && AllSynced(d.W())
    modifies d
    ensures d.Valid() && Cleanable(t, d.W(), committed) && OnlyEntries(old(d.W()), d.W())
    ensures o.Done? ==> EntriesFinal(t, d.W(), committed, false)
    ensures o.Crashed? ==> AfterCrash(d.W())
    ensures !o.Crashed? ==> d.poisoned == old(d.poisoned)
    ensures o.Failed? ==> o.recoveryRequired
    ensures if o.Done? then d.faults <= old(d.faults) else d.faults < old(d.faults)
  {
    var i := 0;
    while i < |t.paths|
      invariant 0 <= i <= |t.paths|
      invariant Cleanable(t, d.W(), committed) && OnlyEntries(old(d.W()), d.W()) && AllSynced(d.W())
      invariant forall j | 0 <= j < i :: d.W().possible[j] <= Final(t.paths[j], committed, false)
      invariant d.faults <= old(d.faults) && d.poisoned == old(d.poisoned)
    {
      ghost var w := d.W();
      o := CleanupPath(d, t, i, committed);
      if !o.Done? { return; }
      forall j | 0 <= j < |t.paths| ensures Synced(d.W(), j) {
        assert Synced(w, j);
      }
      i := i + 1;
    }
    o := Done;
  }

  method CleanupPath(d: Disk, t: Transaction, i: nat, ghost committed: bool) returns (o: Outcome)
    requires Cleanable(t, d.W(), committed) && i < |t.paths| && Synced(d.W(), i)
    modifies d
    ensures d.Valid() && Cleanable(t, d.W(), committed) && OnlyEntries(old(d.W()), d.W())
    ensures o.Done? ==>
              Local(old(d.W()), d.W(), i) && Synced(d.W(), i) && d.W().possible[i] <= Final(t.paths[i], committed, false)
    ensures o.Crashed? ==> AfterCrash(d.W())
    ensures !o.Crashed? ==> d.poisoned == old(d.poisoned)
    ensures o.Failed? ==> o.recoveryRequired
    ensures if o.Done? then d.faults <= old(d.faults) else d.faults < old(d.faults)
  {
    assert d.W().live[i] in d.W().possible[i] && d.W().possible[i] <= Finishing(t.paths[i], committed, false);
    o := RemoveOne(d, t, i, Stage, committed);
    if !o.Done? { return; }
    o := RemoveOne(d, t, i, Backup, committed);
  }

  lemma FinishedDiskCrash(t: Transaction, w: World, x: World, committed: bool, keep: bool)
    requires Staged(t, w) && FinishedDisk(t, w, committed, keep) && CrashOf(w, x)
    ensures Staged(t, x) && FinishedDisk(t, x, committed, keep) && OnlyEntries(w, x) && AfterCrash(x)
    ensures JournalStays(w) ==> JournalStays(x)
  {
    CrashShrinks(w, x);
    forall j | 0 <= j < |t.paths|
      ensures x.possible[j] <= Finishing(t.paths[j], committed, keep)
    {
      assert w.possible[j] <= Finishing(t.paths[j], committed, keep);
    }
    if EntriesFinal(t, w, committed, keep) {
      forall j | 0 <= j < |t.paths|
        ensures x.possible[j] <= Final(t.paths[j], committed, keep)
      {
        assert w.possible[j] <= Final(t.paths[j], committed, keep);
      }
    }
  }

  /** Entries may only have settled, and the state directory may also show `extra`. */
  ghost predicate ControlWithin(w: World, x: World, extra: set<Control>) {
    && x.Valid() && |x.live| == |w.live| == |w.possible|
    && x == w.(live := x.live, possible := x.possible, control := x.control, possibleControl := x.possibleControl)
    && (forall j | 0 <= j < |x.live| :: x.possible[j] <= w.possible[j])
    && x.possibleControl <= w.possibleControl + extra
  }

  /** One file of the state directory is removed or created, and the directory synchronized. */
  method ReplaceControl(d: Disk, c: Control) returns (o: Outcome)
    requires d.Valid()
    modifies d
    ensures d.Valid() && ControlWithin(old(d.W()), d.W(), {c})
    ensures d.control != c ==> d.possibleControl <= old(d.possibleControl)
    ensures o.Done? ==> d.W() == old(d.W()).(control := c, possibleControl := {c}) && d.poisoned == old(d.poisoned)
    ensures o.Failed? ==> o.recoveryRequired && d.live == old(d.live) && d.possible == old(d.possible)
    ensures !o.Crashed? ==> d.poisoned == old(d.poisoned)
    ensures o.Crashed? ==> AfterCrash(d.W())
    ensures if o.Done? then d.faults == old(d.faults) else d.faults < old(d.faults)
  {
    ghost var w := d.W();
    o := d.ChangeControl(c);
    if o.Crashed? { CrashShrinks(w, d.W()); }
    if !o.Done? { return; }
    ghost var x := d.W();
    o := d.SyncControl();
    if o.Crashed? { CrashShrinks(x, d.W()); }
  }

  /** A new file of the state directory, and the directory synchronized; a file that could not be
      created is reported as a plain failure. */
  method CreateControl(d: Disk, c: Control) returns (o: Outcome)
    requires d.Valid()
    modifies d
    ensures d.Valid() && ControlWithin(old(d.W()), d.W(), {c})
    ensures o.Done? ==> d.W() == old(d.W()).(control := c, possibleControl := {c}) && d.poisoned == old(d.poisoned)
    ensures o.Crashed? ==> AfterCrash(d.W())
    ensures if o.Done? then d.faults == old(d.faults) else d.faults < old(d.faults)
  {
    ghost var w := d.W();
    o := d.ChangeControl(c);
    if o.Crashed? { CrashShrinks(w, d.W()); }
    if o.Failed? {
      return Failed(false);
    }
    if !o.Done? { return; }
    ghost var x := d.W();
    o := d.SyncControl();
    if o.Crashed? { CrashShrinks(x, d.W()); }
  }

  /** Removing the journal is safe once every artifact, and a receipt that is not kept,
      is gone. */
  lemma JournalRemoved(t: Transaction, w: World, x: World, committed: bool, keep: bool)
    requires Staged(t, w) && FinishedDisk(t, w, committed, keep) && EntriesFinal(t, w, committed, keep) && JournalStays(w)
    requires ReceiptLeft(w.control, committed, keep)
    requires ControlWithin(w, x, {w.control.(operation := false)})
    requires x.control != w.control.(operation := false) ==> x.possibleControl <= w.possibleControl
    ensures Staged(t, x) && FinishedDisk(t, x, committed, keep) && EntriesFinal(t, x, committed, keep)
    ensures x.possibleControl == {w.control.(operation := false)} ==> Concluded(t, x, committed, keep)
    ensures x.possibleControl == {w.control.(operation := false)} && !w.control.receipt && !committed ==> Concluded(t, x, false, false)
  {
    forall j | 0 <= j < |t.paths|
      ensures x.possible[j] <= Final(t.paths[j], committed, keep)
      ensures x.possible[j] <= Finishing(t.paths[j], committed, keep)
    {
      assert w.possible[j] <= Final(t.paths[j], committed, keep);
      assert w.possible[j] <= Finishing(t.paths[j], committed, keep);
    }
  }

  /** `remove_operation_journal` */
  method RemoveJournal(d: Disk, t: Transaction, ghost committed: bool, ghost keep: bool) returns (o: Outcome)
    requires Staged(t, d.W()) && FinishedDisk(t, d.W(), committed, keep) && JournalStays(d.W())
    requires EntriesFinal(t, d.W(), committed, keep) && ReceiptLeft(d.control, committed, keep)
    modifies d
    ensures d.Valid() && d.W() == old(d.W()).(live := d.live, possible := d.possible, control := d.control, possibleControl := d.possibleControl)
    ensures Staged(t, d.W()) && FinishedDisk(t, d.W(), committed, keep)
    ensures o.Done? ==> Concluded(t, d.W(), committed, keep)
    ensures o.Crashed? ==> AfterCrash(d.W())
    ensures o.Failed? ==> o.recoveryRequired
    ensures if o.Done? then d.faults <= old(d.faults) else d.faults < old(d.faults)
  {
    hide FinishedDisk, Staged, EntriesFinal, Concluded, JournalStays;
    ghost var w := d.W();
    StagedValid(t, w);
    o := ReplaceControl(d, d.control.(operation := false));
    JournalRemoved(t, w, d.W(), committed, keep);
  }

  lemma StagedValid(t: Transaction, w: World)
    requires Staged(t, w)
    ensures w.Valid() && |w.live| == |t.paths|
  {
  }
}
