/** Restoring one path of a receipt from the backup retained in the state directory, whatever
    the disk holds. */
module Restores {
  import opened Outcomes
  import opened Filesystem
  import opened Records
  import opened Disks
  import opened Slots
  import opened Protocol

  // The states of one path while an undo of its transaction may be under way

  /** A deleted path whose retained backup is being linked back. */
  function UndoLinked(p: StagedPath): Entries {
    Relocated(p).(slot := Relocated(p).kept)
  }

  function UndoReach(p: StagedPath): set<Entries> {
    {Relocated(p), Restored(p)} + if p.after.Absent? then {UndoLinked(p)} else {}
  }

  lemma RelocatedProbes(v: Volume, p: StagedPath)
    requires StagedWell(v, p)
    ensures SlotState(v, Relocated(p)) == Found(p.after)
    ensures NameState(v, Relocated(p), Relocated(p).kept, 1) == if p.backup.Some? then Found(p.backup.value) else NotFound
    ensures SameFile(v, Relocated(p), Relocated(p).kept) in {Found(false), NotFound}
    ensures p.after != RestoredEvidence(p)
  {
  }

  lemma UndoLinkedProbes(v: Volume, p: StagedPath)
    requires StagedWell(v, p) && p.after.Absent?
    ensures SlotState(v, UndoLinked(p)) == Unsafe
    ensures SameFile(v, UndoLinked(p), UndoLinked(p).kept) == Found(true)
    ensures NameState(v, UndoLinked(p), UndoLinked(p).kept, 2) == Found(p.backup.value)
  {
  }

  lemma UndoneProbes(v: Volume, p: StagedPath)
    requires StagedWell(v, p)
    ensures SlotState(v, Restored(p)) == Found(RestoredEvidence(p))
    ensures SameFile(v, Restored(p), Restored(p).kept) == NotFound
  {
  }

  // What restoring does to any entries

  /** The entries of a path once it is restored. */
  function RestoredFrom(p: StagedPath, e: Entries): Entries {
    if p.before.Absent? then e.(slot := None) else e.(slot := e.kept, kept := None)
  }

  /** Every state the entries may pass through on the way. */
  function Passing(p: StagedPath, e: Entries): set<Entries> {
    {RestoredFrom(p, e)} + if p.before.Present? && e.slot.None? then {e.(slot := e.kept)} else {}
  }

  /** The same states with the retained name gone. */
  function Unkept(s: set<Entries>): set<Entries> {
    set e | e in s :: e.(kept := None)
  }

  /** The disk once path `i` is restored, durably. */
  function Returned(p: StagedPath, w: World, i: nat): World
    requires i < |w.live| == |w.possible|
  {
    var e := RestoredFrom(p, w.live[i]);
    w.(live := w.live[i := e], possible := w.possible[i := {e}],
       possibleControl := if p.before.Absent? then w.possibleControl else {w.control})
  }

  /** The disk once the second link of path `i` is gone from the state directory.  Its own
      directory is not synchronized. */
  function Unlinked(w: World, i: nat): World
    requires i < |w.live| == |w.possible|
  {
    w.(live := w.live[i := w.live[i].(kept := None)], possible := w.possible[i := Unkept(w.possible[i])], possibleControl := {w.control})
  }

  /** A file in the state directory that would do as a slot. */
  predicate KeptSound(v: Volume, e: Entries) {
    NameState(v, e, e.kept, 1).Found? && !v.files[e.kept.value].permissions.readonly
  }

  /** The entries are those of the receipt, and restoring them leads to its before state:
      nothing but a fault can stop it. */
  predicate Restorable(v: Volume, p: StagedPath, e: Entries) {
    && SlotState(v, e) == Found(p.after)
    && (p.before.Absent? ==> p.after.Present?)
    && (p.before.Present? ==>
          && p.backup.Some? && KeptSound(v, e)
          && SlotState(v, RestoredFrom(p, e)) == Found(RestoredEvidence(p)))
  }

  lemma KeptProbes(v: Volume, e: Entries)
    requires KeptSound(v, e)
    ensures e.kept.Some? && NameState(v, e, e.kept, 1) == Found(Evidence(v, e.kept.value)) && e.kept.value in v.files
    ensures var moved := SlotState(v, e.(slot := e.kept, kept := None));
            moved.Found? && moved.value.Identity() == e.kept
    ensures e.slot.None? ==> SameFile(v, e.(slot := e.kept), e.kept) == Found(true)
  {
  }

  lemma UnlinkedChange(w: World, i: nat)
    requires w.Valid() && i < |w.live|
    ensures StoreFlushed(Changed(w, i, w.live[i].(kept := None)), i) == Unlinked(w, i)
    ensures w.live[i].(kept := None) in Unkept(w.possible[i])
  {
    var e := w.live[i].(kept := None);
    assert w.live[i] in w.possible[i];
    var y := Changed(w, i, e);
    assert y.possible[i] == w.possible[i] + {e};
    assert (set q | q in y.possible[i] :: q.(kept := None)) == Unkept(w.possible[i]);
    assert StoreFlushed(y, i).possible == Unlinked(w, i).possible;
  }

  lemma UnkeptOne(e: Entries)
    ensures Unkept({e}) == {e.(kept := None)}
  {
  }

  lemma WithinStart(w: World, i: nat, extra: set<Entries>)
    requires w.Valid()
    ensures Within(w, w, i, extra)
  {
  }

  // Steps

  /** One directory change, with the target directory and then the state directory
      synchronized. */
  method ChangeBoth(d: Disk, i: nat, e: Entries) returns (o: Outcome)
    requires d.Valid() && i < |d.live|
    modifies d
    ensures d.Valid() && Within(old(d.W()), d.W(), i, {e})
    ensures o.Done? ==> Settled(old(d.W()).(possibleControl := {old(d.control)}), d.W(), i, e)
    ensures o.Failed? ==> o.recoveryRequired
    ensures !o.Crashed? ==> d.poisoned == old(d.poisoned)
    ensures o.Crashed? ==> AfterCrash(d.W())
    ensures if o.Done? then d.faults == old(d.faults) else d.faults < old(d.faults)
  {
    ghost var w := d.W();
    o := ChangeAndSync(d, i, e);
    if !o.Done? { return; }
    ghost var x := d.W();
    StoreSettled(x, i);
    o := d.SyncStore(i);
    if o.Crashed? { WithinCrash(w, x, d.W(), i, {e}); }
  }

  /** `replace_target_from_backup` */
  method ReplaceFromKept(d: Disk, i: nat) returns (o: Outcome)
    requires d.Valid() && i < |d.live|
    modifies d
    ensures d.Valid() && Within(old(d.W()), d.W(), i, {old(d.live[i]).(slot := old(d.live[i]).kept, kept := None)})
    ensures o.Done? ==>
              Settled(old(d.W()).(possibleControl := {old(d.control)}), d.W(), i, old(d.live[i]).(slot := old(d.live[i]).kept, kept := None))
    ensures o.Failed? ==> o.recoveryRequired
    ensures !o.Crashed? ==> d.poisoned == old(d.poisoned)
    ensures o.Crashed? ==> AfterCrash(d.W())
    ensures if o.Done? then d.faults == old(d.faults) else d.faults <= old(d.faults)
    ensures !o.Done? && KeptSound(old(d.volume), old(d.live[i])) ==> d.faults < old(d.faults)
  {
    hide SlotState, NameState, KeptSound;
    var e := d.live[i];
    WithinStart(d.W(), i, {e.(slot := e.kept, kept := None)});
    if KeptSound(d.volume, e) { KeptProbes(d.volume, e); }
    var kept := d.ReadKept(i);
    if !kept.Found? {
      return Failed(true);
    }
    o := ChangeBoth(d, i, e.(slot := e.kept, kept := None));
    if !o.Done? { return; }
    var probe := d.ReadSlot(i);
    if !(probe.Found? && probe.value.Identity() == Some(kept.value.identity)) {
      return Failed(true);
    }
  }

  /** `finish_linked_restore` of the state directory. */
  method FinishFromKept(d: Disk, i: nat, identity: Ino) returns (o: Outcome)
    requires d.Valid() && i < |d.live|
    modifies d
    ensures d.Valid() && Within(old(d.W()), d.W(), i, Unkept(old(d.possible[i])))
    ensures o.Done? ==> d.W() == Unlinked(old(d.W()), i)
    ensures o.Failed? ==> o.recoveryRequired
    ensures !o.Crashed? ==> d.poisoned == old(d.poisoned)
    ensures o.Crashed? ==> AfterCrash(d.W())
    ensures if o.Done? then d.faults == old(d.faults) else d.faults <= old(d.faults)
    ensures !o.Done? && SameFile(old(d.volume), old(d.live[i]), old(d.live[i]).kept) == Found(true)
            && SlotState(old(d.volume), old(d.live[i]).(kept := None)).Found?
            && SlotState(old(d.volume), old(d.live[i]).(kept := None)).value.Identity() == Some(identity)
            ==> d.faults < old(d.faults)
  {
    hide SlotState, SameFile, Unkept;
    ghost var w := d.W();
    UnlinkedChange(w, i);
    WithinStart(w, i, Unkept(w.possible[i]));
    var same := d.ReadSameKept(i);
    if same != Found(true) {
      return Failed(true);
    }
    o := d.Change(i, d.live[i].(kept := None));
    if o.Crashed? { WithinCrash(w, w, d.W(), i, Unkept(w.possible[i])); }
    if !o.Done? { return; }
    ghost var x := d.W();
    o := d.SyncStore(i);
    if o.Crashed? { WithinCrash(w, x, d.W(), i, Unkept(w.possible[i])); }
    if !o.Done? { return; }
    var probe := d.ReadSlot(i);
    if !(probe.Found? && probe.value.Identity() == Some(identity)) {
      return Failed(true);
    }
  }

  /** `link_absent_target_from_backup` */
  method LinkFromKept(d: Disk, i: nat) returns (o: Outcome, identity: Ino)
    requires d.Valid() && i < |d.live|
    modifies d
    ensures d.Valid()
    ensures Within(old(d.W()), d.W(), i, if old(d.live[i]).slot.None? then {old(d.live[i]).(slot := old(d.live[i]).kept)} else {})
    ensures o.Done? ==> Settled(old(d.W()), d.W(), i, old(d.live[i]).(slot := old(d.live[i]).kept)) && old(d.live[i]).slot.None?
    ensures o.Done? ==> NameState(old(d.volume), old(d.live[i]), old(d.live[i]).kept, 1).Found? && old(d.live[i]).kept == Some(identity)
    ensures o.Failed? ==> o.recoveryRequired
    ensures !o.Crashed? ==> d.poisoned == old(d.poisoned)
    ensures o.Crashed? ==> AfterCrash(d.W())
    ensures if o.Done? then d.faults == old(d.faults) else d.faults <= old(d.faults)
    ensures !o.Done? && old(d.live[i]).slot.None? && KeptSound(old(d.volume), old(d.live[i])) ==> d.faults < old(d.faults)
  {
    hide SlotState, SameFile, KeptSound;
    identity := 0;
    var e := d.live[i];
    if KeptSound(d.volume, e) { KeptProbes(d.volume, e); }
    FreeSlot(d.volume, e);
    WithinStart(d.W(), i, {});
    WithinStart(d.W(), i, {e.(slot := e.kept)});
    var target := d.ReadSlot(i);
    if target != Found(Absent) {
      return Failed(true), identity;
    }
    var kept := d.ReadKept(i);
    if !kept.Found? {
      return Failed(true), identity;
    }
    identity := kept.value.identity;
    o := ChangeAndSync(d, i, e.(slot := e.kept));
    if !o.Done? { return; }
    var same := d.ReadSameKept(i);
    if same != Found(true) {
      return Failed(true), identity;
    }
  }

  /** `install_absent_target_from_backup` */
  method InstallFromKept(d: Disk, i: nat) returns (o: Outcome)
    requires d.Valid() && i < |d.live|
    modifies d
    ensures d.Valid()
    ensures var e := old(d.live[i]);
            Within(old(d.W()), d.W(), i, if e.slot.None? then {e.(slot := e.kept), e.(slot := e.kept, kept := None)} else {})
    ensures o.Done? ==>
              Settled(old(d.W()).(possibleControl := {old(d.control)}), d.W(), i, old(d.live[i]).(slot := old(d.live[i]).kept, kept := None))
    ensures o.Failed? ==> o.recoveryRequired
    ensures !o.Crashed? ==> d.poisoned == old(d.poisoned)
    ensures o.Crashed? ==> AfterCrash(d.W())
    ensures if o.Done? then d.faults == old(d.faults) else d.faults <= old(d.faults)
    ensures !o.Done? && old(d.live[i]).slot.None? && KeptSound(old(d.volume), old(d.live[i])) ==> d.faults < old(d.faults)
  {
    hide SlotState, SameFile, NameState, Unkept, KeptSound;
    ghost var w := d.W();
    ghost var e := d.live[i];
    ghost var linked := {e.(slot := e.kept)};
    ghost var both := {e.(slot := e.kept), e.(slot := e.kept, kept := None)};
    if KeptSound(d.volume, e) { KeptProbes(d.volume, e); }
    var identity;
    o, identity := LinkFromKept(d, i);
    if e.slot.None? { WithinMore(w, d.W(), i, linked, both); }
    if !o.Done? { return; }
    ghost var x := d.W();
    UnkeptOne(x.live[i]);
    o := FinishFromKept(d, i, identity);
    WithinTrans(w, x, d.W(), i, linked, Unkept(x.possible[i]));
    WithinMore(w, d.W(), i, linked + Unkept(x.possible[i]), both);
  }

  lemma FreeSlot(v: Volume, e: Entries)
    ensures SlotState(v, e) == Found(Absent) <==> e.slot.None?
  {
  }

  /** The change `restore_path` makes, by the states it finds. */
  method ChangeSlot(d: Disk, p: StagedPath, i: nat) returns (o: Outcome)
    requires d.Valid() && i < |d.live|
    modifies d
    ensures d.Valid() && Within(old(d.W()), d.W(), i, Passing(p, old(d.live[i])))
    ensures o.Done? ==> d.W() == Returned(p, old(d.W()), i) && (p.before.Present? ==> p.backup.Some?)
    ensures o.Failed? ==> o.recoveryRequired
    ensures !o.Crashed? ==> d.poisoned == old(d.poisoned)
    ensures o.Crashed? ==> AfterCrash(d.W())
    ensures if o.Done? then d.faults == old(d.faults) else d.faults <= old(d.faults)
    ensures !o.Done? && Restorable(old(d.volume), p, old(d.live[i])) ==> d.faults < old(d.faults)
  {
    hide SlotState, NameState, KeptSound;
    ghost var w := d.W();
    var e := d.live[i];
    WithinStart(w, i, Passing(p, e));
    FreeSlot(d.volume, e);
    if p.before.Absent? {
      if p.after.Absent? {
        return Failed(true);
      }
      o := RemoveExact(d, i, p.after.evidence);
      return;
    }
    if p.backup.None? {
      return Failed(true);
    }
    var probe := d.ReadSlot(i);
    if probe == Found(Absent) {
      o := InstallFromKept(d, i);
      WithinMore(w, d.W(), i, {e.(slot := e.kept), RestoredFrom(p, e)}, Passing(p, e));
    } else if probe == Found(p.after) {
      o := ReplaceFromKept(d, i);
      WithinMore(w, d.W(), i, {RestoredFrom(p, e)}, Passing(p, e));
    } else {
      o := Failed(true);
    }
  }

  /** `restore_path`: removes the output of a create, or puts the retained backup into the slot;
      then the slot shows exactly the receipt's before state, durably. */
  method RestorePath(d: Disk, p: StagedPath, i: nat) returns (o: Outcome)
    requires d.Valid() && i < |d.live|
    modifies d
    ensures d.Valid() && Within(old(d.W()), d.W(), i, Passing(p, old(d.live[i])))
    ensures o.Done? ==> d.W() == Returned(p, old(d.W()), i)
    ensures o.Done? ==> (p.before.Present? ==> p.backup.Some?) && SlotState(d.volume, d.live[i]) == Found(RestoredEvidence(p))
    ensures o.Failed? ==> o.recoveryRequired
    ensures !o.Crashed? ==> d.poisoned == old(d.poisoned)
    ensures o.Crashed? ==> AfterCrash(d.W())
    ensures if o.Done? then d.faults == old(d.faults) else d.faults <= old(d.faults)
    ensures !o.Done? && Restorable(old(d.volume), p, old(d.live[i])) ==> d.faults < old(d.faults)
  {
    hide NameState, KeptSound;
    ghost var w := d.W();
    if Restorable(d.volume, p, d.live[i]) { RestorableEnds(d.volume, p, d.live[i]); }
    o := ChangeSlot(d, p, i);
    if !o.Done? { return; }
    ghost var x := d.W();
    o := d.SyncParent(i);
    if o.Crashed? { WithinCrash(w, x, d.W(), i, Passing(p, w.live[i])); }
    if !o.Done? { return; }
    assert d.W() == x;
    var exact := d.VerifySlot(i, RestoredEvidence(p));
    o := if exact then Done else Failed(true);
  }

  lemma RestorableEnds(v: Volume, p: StagedPath, e: Entries)
    requires Restorable(v, p, e)
    ensures (p.before.Present? ==> p.backup.Some?) && SlotState(v, RestoredFrom(p, e)) == Found(RestoredEvidence(p))
  {
  }

  /** In its committed state a path of the receipt can be restored, through the listed states only. */
  lemma RelocatedRestores(v: Volume, p: StagedPath)
    requires StagedWell(v, p)
    ensures Restorable(v, p, Relocated(p)) && RestoredFrom(p, Relocated(p)) == Restored(p)
    ensures Passing(p, Relocated(p)) <= UndoReach(p)
  {
    UndoneProbes(v, p);
  }
}
