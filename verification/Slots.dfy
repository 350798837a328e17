/** The slot primitives: no-clobber install through a two-link intermediate, replace,
    and exact removal. */
module Slots {
  import opened Outcomes
  import opened Filesystem
  import opened Records
  import opened Disks

  /** Between `w` and `x` only path `i` gained possible entries, all of them in `extra`;
      file contents and journal are the same.  Crashes are included. */
  ghost predicate Within(w: World, x: World, i: nat, extra: set<Entries>) {
    && x.Valid() && |x.live| == |w.live| == |w.possible|
    && x == w.(live := x.live, possible := x.possible, control := x.control, possibleControl := x.possibleControl)
    && (forall j | 0 <= j < |x.live| :: x.possible[j] <= if j == i then w.possible[j] + extra else w.possible[j])
    && x.possibleControl <= w.possibleControl
  }

  lemma WithinTrans(w: World, x: World, y: World, i: nat, first: set<Entries>, second: set<Entries>)
    requires Within(w, x, i, first) && Within(x, y, i, second)
    ensures Within(w, y, i, first + second)
  {
  }

  lemma WithinCrash(w: World, x: World, y: World, i: nat, extra: set<Entries>)
    requires Within(w, x, i, extra) && CrashOf(x, y)
    ensures Within(w, y, i, extra) && AfterCrash(y)
  {
    CrashShrinks(x, y);
  }

  lemma WithinMore(w: World, x: World, i: nat, extra: set<Entries>, more: set<Entries>)
    requires Within(w, x, i, extra) && extra <= more
    ensures Within(w, x, i, more)
  {
  }

  /** Only the entries of path `i` differ. */
  ghost predicate Local(w: World, x: World, i: nat) {
    && i < |w.live| == |w.possible| == |x.live| == |x.possible|
    && x == w.(live := w.live[i := x.live[i]], possible := w.possible[i := x.possible[i]])
  }

  /** Path `i` ends at `e`, synchronized. */
  ghost predicate Settled(w: World, x: World, i: nat, e: Entries) {
    && i < |w.live| == |w.possible|
    && x == w.(live := w.live[i := e], possible := w.possible[i := {e}])
  }

  function Linked(e: Entries, a: Artifact): Entries {
    e.(slot := Named(e, a))
  }

  function Installed(e: Entries, a: Artifact): Entries {
    Repoint(Linked(e, a), a, None)
  }

  /** The artifact can be installed: the slot is free and the artifact has one link. */
  predicate Installable(v: Volume, e: Entries, a: Artifact) {
    && e.slot.None?
    && Named(e, a).Some?
    && HasLinks(v, e, Named(e, a).value, 1)
    && !v.files[Named(e, a).value].permissions.readonly
  }

  /** What the link step's probes say before and after the link. */
  lemma LinkProbes(v: Volume, e: Entries, a: Artifact)
    ensures SlotState(v, e) == Found(Absent) ==> e.slot.None?
    ensures ArtifactState(v, e, a).Found? ==> Named(e, a) == Some(ArtifactState(v, e, a).value.identity)
    ensures Installable(v, e, a) ==> SlotState(v, e) == Found(Absent) && ArtifactState(v, e, a).Found?
                                     && SameFile(v, Linked(e, a), Named(Linked(e, a), a)) == Found(true)
  {
  }

  /** `link_absent_from`: the no-clobber link step alone. */
  method LinkAbsentFrom(d: Disk, i: nat, a: Artifact) returns (o: Outcome, identity: Ino)
    requires d.Valid() && i < |d.live|
    modifies d
    ensures d.Valid() && Within(old(d.W()), d.W(), i, {Linked(old(d.live[i]), a)})
    ensures o.Crashed? ==> AfterCrash(d.W())
    ensures !o.Crashed? ==> Local(old(d.W()), d.W(), i) && d.poisoned == old(d.poisoned)
    ensures o.Done? ==> Settled(old(d.W()), d.W(), i, Linked(old(d.live[i]), a)) && old(d.live[i]).slot == None
    ensures o.Done? ==> Named(old(d.live[i]), a) == Some(identity)
    ensures o.Failed? ==> o.recoveryRequired && (d.W() == old(d.W()) || d.live[i] == Linked(old(d.live[i]), a))
    ensures if o.Done? then d.faults == old(d.faults) else d.faults <= old(d.faults)
    ensures !o.Done? && Installable(old(d.volume), old(d.live[i]), a) ==> d.faults < old(d.faults)
  {
    hide SlotState, ArtifactState, SameFile, Installable;
    ghost var w := d.W();
    LinkProbes(d.volume, d.live[i], a);
    identity := 0;
    var e := d.live[i];
    var target := d.ReadSlot(i);
    if target != Found(Absent) {
      return Failed(true), identity;
    }
    var artifact := d.ReadArtifact(i, a);
    if !artifact.Found? {
      return Failed(true), identity;
    }
    identity := artifact.value.identity;
    o := ChangeAndSync(d, i, Linked(e, a));
    if !o.Done? { return; }
    var same := d.ReadSameFile(i, a);
    if same != Found(true) {
      return Failed(true), identity;
    }
  }

  /** A directory change and its synchronization. */
  method ChangeAndSync(d: Disk, i: nat, e: Entries) returns (o: Outcome)
    requires d.Valid() && i < |d.live|
    modifies d
    ensures d.Valid() && Within(old(d.W()), d.W(), i, {e})
    ensures o.Crashed? ==> AfterCrash(d.W())
    ensures !o.Crashed? ==> Local(old(d.W()), d.W(), i) && d.poisoned == old(d.poisoned)
    ensures o.Done? ==> Settled(old(d.W()), d.W(), i, e)
    ensures o.Failed? ==> o.recoveryRequired && (d.W() == old(d.W()) || d.live[i] == e)
    ensures if o.Done? then d.faults == old(d.faults) else d.faults < old(d.faults)
  {
    ghost var w := d.W();
    o := d.Change(i, e);
    if o.Crashed? { WithinCrash(w, w, d.W(), i, {e}); }
    if !o.Done? { return; }
    ghost var x := d.W();
    o := d.SyncParent(i);
    if o.Crashed? { WithinCrash(w, x, d.W(), i, {e}); }
  }

  /** `finish_linked_install`: from the two-link intermediate to the installed slot. */
  method FinishLinkedInstall(d: Disk, i: nat, a: Artifact, identity: Ino) returns (o: Outcome)
    requires d.Valid() && i < |d.live|
    modifies d
    ensures d.Valid() && Within(old(d.W()), d.W(), i, {Repoint(old(d.live[i]), a, None)})
    ensures o.Crashed? ==> AfterCrash(d.W())
    ensures !o.Crashed? ==> Local(old(d.W()), d.W(), i) && d.poisoned == old(d.poisoned)
    ensures o.Done? ==> Settled(old(d.W()), d.W(), i, Repoint(old(d.live[i]), a, None))
    ensures o.Failed? ==> o.recoveryRequired && (d.W() == old(d.W()) || d.live[i] == Repoint(old(d.live[i]), a, None))
    ensures if o.Done? then d.faults == old(d.faults) else d.faults <= old(d.faults)
    ensures !o.Done? && SameFile(old(d.volume), old(d.live[i]), Named(old(d.live[i]), a)) == Found(true)
            && old(d.live[i]).slot == Some(identity) && !old(d.volume).files[identity].permissions.readonly
            ==> d.faults < old(d.faults)
  {
    var same := d.ReadSameFile(i, a);
    if same != Found(true) {
      return Failed(true);
    }
    o := ChangeAndSync(d, i, Repoint(d.live[i], a, None));
    if !o.Done? { return; }
    var probe := d.ReadSlot(i);
    if !(probe.Found? && probe.value.Identity() == Some(identity)) {
      return Failed(true);
    }
  }

  /** `install_absent_from` */
  method InstallAbsentFrom(d: Disk, i: nat, a: Artifact) returns (o: Outcome)
    requires d.Valid() && i < |d.live|
    modifies d
    ensures d.Valid() && Within(old(d.W()), d.W(), i, {Linked(old(d.live[i]), a), Installed(old(d.live[i]), a)})
    ensures o.Crashed? ==> AfterCrash(d.W())
    ensures !o.Crashed? ==> Local(old(d.W()), d.W(), i) && d.poisoned == old(d.poisoned)
    ensures o.Done? ==> Settled(old(d.W()), d.W(), i, Installed(old(d.live[i]), a))
    ensures o.Failed? ==>
              o.recoveryRequired && (d.W() == old(d.W()) || d.live[i] in {Linked(old(d.live[i]), a), Installed(old(d.live[i]), a)})
    ensures if o.Done? then d.faults == old(d.faults) else d.faults <= old(d.faults)
    ensures !o.Done? && Installable(old(d.volume), old(d.live[i]), a) ==> d.faults < old(d.faults)
  {
    ghost var w := d.W();
    var identity;
    o, identity := LinkAbsentFrom(d, i, a);
    if !o.Done? { return; }
    ghost var x := d.W();
    o := FinishLinkedInstall(d, i, a, identity);
    WithinTrans(w, x, d.W(), i, {Linked(w.live[i], a)}, {Installed(w.live[i], a)});
    assert {Linked(w.live[i], a)} + {Installed(w.live[i], a)} == {Linked(w.live[i], a), Installed(w.live[i], a)};
  }

  /** `rollback_linked_install`: from the two-link intermediate back to an absent slot. */
  method RollbackLinkedInstall(d: Disk, i: nat, a: Artifact) returns (o: Outcome)
    requires d.Valid() && i < |d.live|
    modifies d
    ensures d.Valid() && Within(old(d.W()), d.W(), i, {old(d.live[i]).(slot := None)})
    ensures o.Crashed? ==> AfterCrash(d.W())
    ensures !o.Crashed? ==> Local(old(d.W()), d.W(), i) && d.poisoned == old(d.poisoned)
    ensures o.Done? ==> Settled(old(d.W()), d.W(), i, old(d.live[i]).(slot := None))
    ensures o.Failed? ==> o.recoveryRequired
    ensures if o.Done? then d.faults == old(d.faults) else d.faults <= old(d.faults)
    ensures !o.Done? && SameFile(old(d.volume), old(d.live[i]), Named(old(d.live[i]), a)) == Found(true) ==> d.faults < old(d.faults)
  {
    var same := d.ReadSameFile(i, a);
    if same != Found(true) {
      return Failed(true);
    }
    o := ChangeAndSync(d, i, d.live[i].(slot := None));
    if !o.Done? { return; }
    var target := d.ReadSlot(i);
    if target != Found(Absent) {
      return Failed(true);
    }
    var artifact := d.ReadArtifact(i, a);
    o := if artifact.Found? then Done else Failed(true);
  }

  /** `replace_from`: renames a single-link artifact over the slot; not synchronized. */
  method ReplaceFrom(d: Disk, i: nat, a: Artifact) returns (o: Outcome)
    requires d.Valid() && i < |d.live|
    modifies d
    ensures d.Valid() && Within(old(d.W()), d.W(), i, {Installed(old(d.live[i]), a)})
    ensures o.Crashed? ==> AfterCrash(d.W())
    ensures !o.Crashed? ==> Local(old(d.W()), d.W(), i) && d.poisoned == old(d.poisoned)
    ensures o.Done? ==> d.live[i] == Installed(old(d.live[i]), a)
    ensures o.Failed? ==> o.recoveryRequired && (d.W() == old(d.W()) || d.live[i] == Installed(old(d.live[i]), a))
    ensures if o.Done? then d.faults == old(d.faults) else d.faults <= old(d.faults)
    ensures !o.Done? && ArtifactState(old(d.volume), old(d.live[i]), a).Found? ==> d.faults < old(d.faults)
  {
    ghost var w := d.W();
    var artifact := d.ReadArtifact(i, a);
    if !artifact.Found? {
      return Failed(true);
    }
    o := d.Change(i, Installed(d.live[i], a));
    if o.Crashed? { WithinCrash(w, w, d.W(), i, {Installed(w.live[i], a)}); }
  }

  /** `remove_exact`: removes the slot after checking its complete state. */
  method RemoveExact(d: Disk, i: nat, expected: PresentEvidence) returns (o: Outcome)
    requires d.Valid() && i < |d.live|
    modifies d
    ensures d.Valid() && Within(old(d.W()), d.W(), i, {old(d.live[i]).(slot := None)})
    ensures o.Crashed? ==> AfterCrash(d.W())
    ensures !o.Crashed? ==> Local(old(d.W()), d.W(), i) && d.poisoned == old(d.poisoned)
    ensures o.Done? ==> Settled(old(d.W()), d.W(), i, old(d.live[i]).(slot := None))
    ensures SlotState(old(d.volume), old(d.live[i])) != Found(Present(expected)) ==> o.Failed? && d.W() == old(d.W())
    ensures o.Failed? ==> o.recoveryRequired && (d.W() == old(d.W()) || d.live[i] == old(d.live[i]).(slot := None))
    ensures if o.Done? then d.faults == old(d.faults) else d.faults <= old(d.faults)
    ensures !o.Done? && SlotState(old(d.volume), old(d.live[i])) == Found(Present(expected)) ==> d.faults < old(d.faults)
  {
    var exact := d.VerifySlot(i, Present(expected));
    if !exact {
      return Failed(true);
    }
    o := ChangeAndSync(d, i, d.live[i].(slot := None));
    if !o.Done? { return; }
    var target := d.ReadSlot(i);
    o := if target == Found(Absent) then Done else Failed(true);
  }

  /** `remove_artifact`: a missing artifact is not an error, an unsafe one is. */
  method RemoveArtifact(d: Disk, i: nat, a: Artifact) returns (o: Outcome, removed: bool)
    requires d.Valid() && i < |d.live|
    modifies d
    ensures d.Valid() && Within(old(d.W()), d.W(), i, {Repoint(old(d.live[i]), a, None)})
    ensures o.Crashed? ==> AfterCrash(d.W())
    ensures !o.Crashed? ==> Local(old(d.W()), d.W(), i) && d.poisoned == old(d.poisoned)
    ensures o.Done? ==> removed == Named(old(d.live[i]), a).Some? && ArtifactState(old(d.volume), old(d.live[i]), a) != Unsafe
    ensures o.Done? ==> if removed then Settled(old(d.W()), d.W(), i, Repoint(old(d.live[i]), a, None)) else d.W() == old(d.W())
    ensures o.Failed? ==> o.recoveryRequired
    ensures if o.Done? then d.faults == old(d.faults) else d.faults <= old(d.faults)
    ensures !o.Done? && ArtifactState(old(d.volume), old(d.live[i]), a) != Unsafe ==> d.faults < old(d.faults)
    ensures ArtifactState(old(d.volume), old(d.live[i]), a) == Unsafe ==> !o.Done? && d.W() == old(d.W())
  {
    var artifact := d.ReadArtifact(i, a);
    match artifact
    case NotFound =>
      return Done, false;
    case Unsafe =>
      return Failed(true), false;
    case Found(_) =>
      o := ChangeAndSync(d, i, Repoint(d.live[i], a, None));
      removed := o.Done?;
  }
}
