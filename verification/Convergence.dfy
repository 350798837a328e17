/** `converge.rs`: an interrupted undo is completed path by path, on whatever the disk holds. */
module Convergence {
  import opened Outcomes
  import opened Filesystem
  import opened Records
  import opened Disks
  import opened Slots
  import opened Protocol
  import opened Cleanups
  import opened UndoReplay
  import opened Restores
  import opened UndoVerdicts
  import opened UndoSteps

  /** `linked_restore_is_exact` */
  method LinkedRestoreIsExact(d: Disk, p: StagedPath, i: nat) returns (o: Outcome, exact: bool)
    requires d.Valid() && i < |d.live|
    modifies d`faults
    ensures o.Done? ==> KeptLink(p, d.volume, d.live[i]) == Found(exact) && d.faults == old(d.faults)
    ensures !o.Done? ==> o == Failed(true) && (KeptLink(p, d.volume, d.live[i]) == Unsafe || d.faults < old(d.faults))
    ensures d.faults <= old(d.faults)
  {
    o, exact := Done, false;
    if p.before.Absent? || p.backup.None? { return; }
    var same := d.ReadSameKept(i);
    match same {
      case NotFound => return;
      case Unsafe => return Failed(true), false;
      case Found(alias) =>
        if !alias { return; }
        var linked := d.ReadLinkedKept(i);
        if linked != Found(p.backup.value) { return Failed(true), false; }
        exact := true;
    }
  }

  /** `finish_linked_restore` of the recovery, for an exact two-link restore. */
  method FinishLinked(d: Disk, p: StagedPath, i: nat) returns (o: Outcome)
    requires d.Valid() && i < |d.live| && p.before.Present? && p.backup.Some?
    requires KeptLink(p, d.volume, d.live[i]) == Found(true)
    modifies d
    ensures d.Valid()
    ensures Within(old(d.W()), d.W(), i, Unkept(old(d.possible[i]))) || Within(Noted(Unlinked(old(d.W()), i), RollbackDone(i)), d.W(), i, {})
    ensures o.Done? ==> d.W() == Noted(Unlinked(old(d.W()), i), RollbackDone(i))
    ensures o.Failed? ==> o.recoveryRequired
    ensures o.Crashed? ==> AfterCrash(d.W())
    ensures o.Done? ==> d.poisoned == old(d.poisoned) && d.faults == old(d.faults)
    ensures !o.Done? && !old(d.poisoned) && SlotState(old(d.volume), old(d.live[i]).(kept := None)) == Found(RestoredEvidence(p)) ==> d.faults < old(d.faults)
    ensures d.faults <= old(d.faults)
    ensures o.Done? ==> |d.live| == |old(d.live)| && ShowsRestored(d.volume, p, d.live[i])
  {
    hide SlotState, SameFile, NameState, Unkept;
    ghost var w := d.W();
    o := FinishFromKept(d, i, p.backup.value.identity);
    if !o.Done? { return; }
    var exact := d.VerifySlot(i, RestoredEvidence(p));
    if !exact {
      UnlinkedWithin(w, d.W(), i);
      return Failed(true);
    }
    ghost var x := d.W();
    o := Note(d, i, RollbackDone(i));
    if !o.Done? && Within(x, d.W(), i, {}) { UnlinkedWithin(w, d.W(), i); }
  }

  lemma UnlinkedWithin(w: World, x: World, i: nat)
    requires w.Valid() && i < |w.live| && Within(Unlinked(w, i), x, i, {})
    ensures Within(w, x, i, Unkept(w.possible[i]))
  {
  }

  /** The decision part of `converge_path`, from the probes. */
  method InspectUndo(d: Disk, p: StagedPath, us: UndoState, i: nat) returns (verdict: UndoVerdict)
    requires d.Valid() && i < |d.live|
    modifies d`faults
    ensures (verdict == UndoJudge(us, p, i, d.volume, d.live[i]) && d.faults == old(d.faults)) || (verdict == Conflict && d.faults < old(d.faults))
    ensures d.faults <= old(d.faults)
  {
    var o, linked := LinkedRestoreIsExact(d, p, i);
    if !o.Done? { return Conflict; }
    if linked {
      return if i in us.rolledBack || i !in us.intents then Conflict else FinishLink;
    }
    var probe := d.ReadSlot(i);
    if !probe.Found? || (p.before.Present? && p.backup.None?) {
      return Conflict;
    }
    if i in us.rolledBack {
      return if probe.value == RestoredEvidence(p) then Leave else Conflict;
    }
    if probe.value == RestoredEvidence(p) {
      return if i in us.intents then NoteDone else Conflict;
    }
    verdict := if probe.value == p.after then Redo else Conflict;
  }

  /** `converge_path`, for the parsed journal `us`.  On any disk it does exactly what the verdict of
      the path says, or stops in one of the states listed for it; a path in conflict with the
      journal is untouched and fails the recovery.  A path it goes past shows the receipt's before
      state. */
  method ConvergePath(d: Disk, p: StagedPath, us: UndoState, i: nat) returns (o: Outcome)
    requires d.Valid() && i < |d.live|
    modifies d
    ensures d.Valid() && UndoHalted(us, p, old(d.W()), d.W(), i)
    ensures o.Done? ==> UndoJudge(us, p, i, old(d.volume), old(d.live[i])) != Conflict && d.W() == PathUndone(us, p, old(d.W()), i)
    ensures o.Done? ==> |d.live| == |old(d.live)| && ShowsRestored(d.volume, p, d.live[i])
    ensures o.Failed? ==> o.recoveryRequired
    ensures o.Crashed? ==> AfterCrash(d.W())
    ensures o.Done? ==> d.poisoned == old(d.poisoned) && d.faults == old(d.faults)
    ensures !o.Done? && !old(d.poisoned) && UndoFeasible(us, p, i, old(d.volume), old(d.live[i])) ==> d.faults < old(d.faults)
    ensures d.faults <= old(d.faults)
  {
    hide SlotState, SameFile, NameState, Unkept, RestoredFrom, Passing, Restorable, KeptLink, Redone, RedoHalted, UndoJudge,
         ShowsRestored, BackAtLink, Apart;
    ghost var w := d.W();
    WithinStart(w, i, {});
    WithinStart(w, i, Unkept(w.possible[i]));
    UntouchedRedo(i in us.intents, p, w, i);
    UndoJudgeIff(us, p, i, w.volume, w.live[i]);
    LinkShape(us, p, i, w.volume, w.live[i]);
    var verdict := InspectUndo(d, p, us, i);
    match verdict {
      case Conflict => o := Failed(true);
      case Leave => o := Done;
      case FinishLink => o := FinishLinked(d, p, i);
      case NoteDone => o := Note(d, i, RollbackDone(i));
      case Redo => o := RedoPath(d, p, i, i in us.intents);
    }
  }

  lemma UntouchedRedo(intended: bool, p: StagedPath, w: World, i: nat)
    requires w.Valid() && i < |w.live|
    ensures RedoHalted(intended, p, w, w, i)
  {
  }

  lemma LinkShape(us: UndoState, p: StagedPath, i: nat, v: Volume, e: Entries)
    ensures UndoJudge(us, p, i, v, e) == FinishLink ==> p.before.Present? && p.backup.Some? && KeptLink(p, v, e) == Found(true)
  {
  }

  /** `complete`: every path of the receipt from the last one down to `least`, or until one is in
      conflict. */
  method Complete(d: Disk, paths: seq<StagedPath>, us: UndoState, least: nat) returns (o: Outcome, ghost at: nat)
    requires d.Valid() && least <= |paths| == |d.live|
    modifies d
    ensures d.Valid()
    ensures if o.Done? then d.W() == Converged(us, paths, old(d.W()), least)
            else at < |paths| && UndoHalted(us, paths[at], Converged(us, paths, old(d.W()), at + 1), d.W(), at)
    ensures forall k | least <= k < |paths| && UndoJudge(us, paths[k], k, old(d.volume), old(d.live[k])) == Conflict :: !o.Done? && at >= k
    ensures !o.Done? && !old(d.poisoned) && (forall k | least <= k < |paths| :: UndoFeasible(us, paths[k], k, old(d.volume), old(d.live[k])))
            ==> d.faults < old(d.faults)
    ensures o.Failed? ==> o.recoveryRequired
    ensures o.Crashed? ==> AfterCrash(d.W())
    ensures o.Done? ==> d.poisoned == old(d.poisoned) && d.faults == old(d.faults)
    ensures d.faults <= old(d.faults)
    ensures o.Done? ==> |d.live| == |paths| && forall k | least <= k < |paths| :: ShowsRestored(d.volume, paths[k], d.live[k])
  {
    hide UndoJudge, UndoFeasible, PathUndone, UndoHalted, UndoTarget, UndoPossible, ShowsRestored, Converged;
    ghost var w := d.W();
    var i := |paths|;
    o, at := Done, 0;
    ConvergedNone(us, paths, w);
    while i > least
      invariant least <= i <= |paths| && o.Done? && d.Valid() && d.W() == Converged(us, paths, w, i)
      invariant forall k | i <= k < |paths| :: UndoJudge(us, paths[k], k, w.volume, w.live[k]) != Conflict
      invariant d.volume == w.volume && |d.live| == |d.possible| == |paths|
      invariant forall k | i <= k < |paths| :: ShowsRestored(w.volume, paths[k], d.live[k])
      invariant d.faults == old(d.faults) && d.poisoned == old(d.poisoned)
    {
      ConvergedAt(us, paths, w, i);
      PathUndoneAt(us, paths[i - 1], d.W(), i - 1);
      ConvergedStep(us, paths, w, i - 1);
      o := ConvergePath(d, paths[i - 1], us, i - 1);
      if !o.Done? {
        at := i - 1;
        return;
      }
      i := i - 1;
    }
  }

  // A finished undo

  /** One path of `verify_finished`. */
  method VerifyPath(d: Disk, p: StagedPath, i: nat) returns (o: Outcome)
    requires d.Valid() && i < |d.live|
    modifies d
    ensures d.Valid() && ControlWithin(old(d.W()), d.W(), {})
    ensures o.Done? ==> d.W() == Flushed(old(d.W()), i) && ShowsRestored(d.volume, p, d.live[i]) && d.faults == old(d.faults)
    ensures !o.Done? ==> d.faults < old(d.faults) || !ShowsRestored(old(d.volume), p, old(d.live[i]))
    ensures o.Failed? ==> o.recoveryRequired
    ensures o.Crashed? ==> AfterCrash(d.W())
    ensures d.faults <= old(d.faults)
  {
    if p.before.Present? && p.backup.None? {
      return Failed(true);
    }
    var exact := d.VerifySlot(i, RestoredEvidence(p));
    if !exact {
      return Failed(true);
    }
    ghost var x := d.W();
    o := d.SyncParent(i);
    if o.Crashed? { CrashShrinks(x, d.W()); }
  }

  /** `verify_finished` of an undo: success means every slot shows the receipt's before state, durably. */
  method VerifyUndone(d: Disk, paths: seq<StagedPath>) returns (o: Outcome)
    requires d.Valid() && |d.live| == |paths|
    modifies d
    ensures d.Valid() && ControlWithin(old(d.W()), d.W(), {})
    ensures o.Done? ==> d.W() == old(d.W()).(possible := d.possible) && AllSynced(d.W())
    ensures o.Done? ==> forall i | 0 <= i < |paths| :: ShowsRestored(d.volume, paths[i], d.live[i])
    ensures !o.Done? ==> d.faults < old(d.faults) || exists i | 0 <= i < |paths| :: !ShowsRestored(old(d.volume), paths[i], old(d.live[i]))
    ensures o.Failed? ==> o.recoveryRequired
    ensures o.Crashed? ==> AfterCrash(d.W())
    ensures d.faults <= old(d.faults)
  {
    hide ShowsRestored;
    ghost var w := d.W();
    var i := 0;
    while i < |paths|
      invariant 0 <= i <= |paths| == |d.live| == |d.possible| && d.W() == w.(possible := d.possible) && d.faults == old(d.faults)
      invariant forall j | 0 <= j < i :: d.possible[j] == {d.live[j]} && ShowsRestored(d.volume, paths[j], d.live[j])
      invariant forall j | i <= j < |paths| :: d.possible[j] == w.possible[j]
    {
      ghost var x := d.W();
      o := VerifyPath(d, paths[i], i);
      if !o.Done? {
        FlushedWithin(w, x, d.W());
        return;
      }
      i := i + 1;
    }
    o := Done;
  }

  lemma FlushedWithin(w: World, x: World, y: World)
    requires w.Valid() && |x.possible| == |w.possible| && x == w.(possible := x.possible)
    requires forall j | 0 <= j < |w.live| :: x.possible[j] <= w.possible[j]
    requires ControlWithin(x, y, {})
    ensures ControlWithin(w, y, {})
  {
  }
}
