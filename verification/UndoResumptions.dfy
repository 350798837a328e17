/** Undo recovery on the disks an undo of a retained commit may leave. */
module UndoResumptions {
  import opened Outcomes
  import opened Filesystem
  import opened Records
  import opened Disks
  import opened Slots
  import opened Protocol
  import opened UndoReplay
  import opened Restores
  import opened UndoVerdicts
  import opened UndoStates

  /** If path `i` has been changed already, that change is durable: the state before it cannot come
      back, and a path that shows its restored state shows it for good. */
  ghost predicate SteadyAt(p: StagedPath, w: World, i: nat)
    requires i < |w.live| == |w.possible|
  {
    && (w.live[i] != Relocated(p) ==> Relocated(p) !in w.possible[i])
    && (w.live[i] == Restored(p) ==> w.possible[i] <= {Restored(p)})
  }

  /** The path under way, if there is one, is steady. */
  ghost predicate Steady(t: Transaction, w: World, us: UndoState) {
    |w.live| == |w.possible| == |t.paths|
    && forall i | 0 <= i < |t.paths| && i in us.intents && i !in us.rolledBack :: SteadyAt(t.paths[i], w, i)
  }

  lemma RebootedSteady(t: Transaction, w: World, us: UndoState)
    requires Rebooted(w) && |w.live| == |t.paths|
    ensures Steady(t, w, us)
  {
  }

  /** What undo recovery decides in every state the journal allows; nothing is in conflict, and
      only a fault can stop it. */
  lemma JudgeOpen(t: Transaction, w: World, us: UndoState, i: nat)
    requires UndoOpen(t, w, us) && i < |t.paths| && i < |w.live|
    ensures var p := t.paths[i]; var e := w.live[i]; var verdict := UndoJudge(us, p, i, w.volume, e);
            && UndoFeasible(us, p, i, w.volume, e) && verdict != Conflict
            && (i in us.rolledBack ==> verdict == Leave && e == Restored(p) && i in us.intents)
            && (i !in us.rolledBack ==> e in UndoReach(p) && verdict != Leave)
            && (verdict == NoteDone ==> i in us.intents && e == Restored(p))
            && (verdict == FinishLink ==> i in us.intents && e == UndoLinked(p) && p.after.Absent?)
            && (verdict == Redo ==> e == Relocated(p))
  {
    var p := t.paths[i];
    assert w.live[i] in w.possible[i] && w.possible[i] <= UndoAllowed(p, us, i);
    RelocatedProbes(w.volume, p);
    RelocatedRestores(w.volume, p);
    UndoneProbes(w.volume, p);
    if p.after.Absent? { UndoLinkedProbes(w.volume, p); }
    if p.after.Absent? && w.live[i] == UndoLinked(p) { assert w.live[i].(kept := None) == Restored(p); }
  }

  // The journal of the recovery

  /** `now` is the undo journal once the paths from `i` up have been dealt with, of a recovery that
      parsed `us`. */
  ghost predicate Tracking(us: UndoState, now: UndoState, n: nat, i: nat) {
    && DoneAbove(now, n, i) && us.intents <= now.intents
    && (forall j: nat | j < i :: (j in now.intents <==> j in us.intents) && (j in now.rolledBack <==> j in us.rolledBack))
  }

  lemma UnkeptSteady(p: StagedPath, w: World, i: nat)
    requires i < |w.live| == |w.possible| && p.after.Absent? && SteadyAt(p, w, i)
    requires w.live[i] == UndoLinked(p) && w.possible[i] <= UndoReach(p) && UndoLinked(p) != Relocated(p)
    ensures Unkept(w.possible[i]) <= {Restored(p)}
  {
    assert UndoLinked(p).(kept := None) == Restored(p) && Restored(p).(kept := None) == Restored(p);
  }

  lemma LinkedDiffers(v: Volume, p: StagedPath)
    requires StagedWell(v, p) && p.after.Absent?
    ensures UndoLinked(p) != Relocated(p) && Relocated(p).(kept := None) != Restored(p)
    ensures UndoLinked(p).(kept := None) == Restored(p)
  {
  }

  lemma OpenUnlinked(t: Transaction, w: World, us: UndoState, i: nat)
    requires UndoOpen(t, w, us) && i < |t.paths| && i < |w.live| == |w.possible| && i in us.intents && i !in us.rolledBack
    requires w.live[i].(kept := None) == Restored(t.paths[i]) && Unkept(w.possible[i]) <= {Restored(t.paths[i])}
    ensures UndoOpen(t, Unlinked(w, i), us)
  {
    var x := Unlinked(w, i);
    UnlinkedChange(w, i);
    forall j | 0 <= j < |t.paths| ensures x.possible[j] <= UndoAllowed(t.paths[j], us, j) {
      assert w.possible[j] <= UndoAllowed(t.paths[j], us, j);
    }
  }

  /** One path converged from a steady state: the journal stays one recovery can resume. */
  lemma PathOpen(t: Transaction, w: World, us: UndoState, y: World, now: UndoState, i: nat) returns (next: UndoState)
    requires UndoOpen(t, w, us) && UndoOpen(t, y, now) && Tracking(us, now, |t.paths|, i + 1) && Steady(t, w, us)
    requires i < |t.paths| == |w.live| == |y.live| == |w.possible| == |y.possible| && y.volume == w.volume
    requires y.live[i] == w.live[i] && y.possible[i] == w.possible[i]
    ensures UndoOpen(t, PathUndone(us, t.paths[i], y, i), next) && Tracking(us, next, |t.paths|, i)
  {
    hide UndoOpen, UndoJudge, UndoReach, RestoredFrom, Redone, Unlinked, Unkept;
    var p := t.paths[i];
    JudgeOpen(t, w, us, i);
    OpenPossible(t, w, us, i);
    match UndoJudge(us, p, i, w.volume, w.live[i]) {
      case NoteDone =>
        NoteUndoDone(t, y, now, i);
        next := WithUndoDone(now, i);
      case FinishLink =>
        LinkedDiffers(w.volume, p);
        UnkeptSteady(p, y, i);
        OpenUnlinked(t, y, now, i);
        UnlinkedAt(y, i);
        NoteUndoDone(t, Unlinked(y, i), now, i);
        next := WithUndoDone(now, i);
      case Redo =>
        OpenRedone(t, y, now, i);
        next := WithUndoDone(WithUndoIntent(now, i), i);
      case _ =>
        next := now;
    }
  }

  lemma UnlinkedAt(w: World, i: nat)
    requires i < |w.live| == |w.possible|
    ensures i < |Unlinked(w, i).possible| && Unlinked(w, i).possible[i] == Unkept(w.possible[i])
  {
  }

  lemma OpenPossible(t: Transaction, w: World, us: UndoState, i: nat)
    requires UndoOpen(t, w, us) && i < |t.paths|
    ensures i < |w.possible| && StagedWell(w.volume, t.paths[i])
    ensures i !in us.rolledBack ==> w.possible[i] <= UndoReach(t.paths[i])
    ensures i in us.rolledBack ==> w.possible[i] <= {Restored(t.paths[i])}
    ensures i !in us.intents ==> w.possible[i] <= {Relocated(t.paths[i])}
  {
  }

  /** Every path converged, from a steady disk. */
  lemma {:induction false} ConvergedOpen(t: Transaction, w: World, us: UndoState, i: nat) returns (now: UndoState)
    requires UndoOpen(t, w, us) && Steady(t, w, us) && i <= |t.paths|
    ensures UndoOpen(t, Converged(us, t.paths, w, i), now) && Tracking(us, now, |t.paths|, i)
    decreases |t.paths| - i
  {
    hide UndoOpen, PathUndone, UndoTarget, UndoPossible, SteadyAt;
    OpenShape(t, w, us);
    if i == |t.paths| {
      now := us;
    } else {
      var before := ConvergedOpen(t, w, us, i + 1);
      ConvergedAt(us, t.paths, w, i + 1);
      now := PathOpen(t, w, us, Converged(us, t.paths, w, i + 1), before, i);
    }
  }

  /** Wherever the completion of an undo is interrupted, from a steady disk recovery can start again. */
  lemma HaltedOpen(t: Transaction, w: World, us: UndoState, x: World, at: nat) returns (next: UndoState)
    requires UndoOpen(t, w, us) && Steady(t, w, us) && at < |t.paths| == |w.live| == |w.possible|
    requires UndoHalted(us, t.paths[at], Converged(us, t.paths, w, at + 1), x, at)
    ensures UndoOpen(t, x, next) && us.intents <= next.intents
  {
    hide UndoOpen, UndoJudge, UndoReach, UndoTarget, UndoPossible, Converged, Unkept, Unlinked, RedoHalted, SteadyAt, PathUndone;
    var p := t.paths[at];
    OpenShape(t, w, us);
    var now := ConvergedOpen(t, w, us, at + 1);
    var y := Converged(us, t.paths, w, at + 1);
    ConvergedAt(us, t.paths, w, at + 1);
    JudgeOpen(t, w, us, at);
    var after := PathOpen(t, w, us, y, now, at);
    if Within(PathUndone(us, p, y, at), x, at, {}) {
      UndoOpenWithin(t, PathUndone(us, p, y, at), x, after, at, {});
      next := after;
    } else {
      match UndoJudge(us, p, at, w.volume, w.live[at]) {
        case NoteDone =>
          UndoOpenWithin(t, y, x, now, at, {});
          next := now;
        case FinishLink =>
          OpenPossible(t, w, us, at);
          LinkedDiffers(w.volume, p);
          UnkeptReach(p, w, at);
          UndoOpenWithin(t, y, x, now, at, Unkept(y.possible[at]));
          next := now;
        case Redo =>
          next := OpenRedoHalted(t, y, x, now, at);
        case _ =>
          next := now;
      }
    }
  }

  lemma UnkeptReach(p: StagedPath, w: World, i: nat)
    requires i < |w.live| == |w.possible| && p.after.Absent? && SteadyAt(p, w, i)
    requires w.live[i] == UndoLinked(p) && w.possible[i] <= UndoReach(p) && UndoLinked(p) != Relocated(p)
    ensures Unkept(w.possible[i]) <= UndoReach(p)
  {
    UnkeptSteady(p, w, i);
  }

  /** The completed undo of one path is durable exactly if the path was steady. */
  lemma DurableAt(t: Transaction, w: World, us: UndoState, i: nat)
    requires UndoOpen(t, w, us) && i < |t.paths| && i < |w.live|
    ensures var p := t.paths[i];
            && UndoTarget(us, p, i, w.volume, w.live[i]) == Restored(p)
            && (UndoPossible(us, p, i, w.volume, w.live[i], w.possible[i]) <= {Restored(p)}
                <==> i !in us.intents || i in us.rolledBack || SteadyAt(p, w, i))
  {
    hide UndoOpen, UndoJudge;
    var p := t.paths[i];
    JudgeOpen(t, w, us, i);
    OpenPossible(t, w, us, i);
    RelocatedRestores(w.volume, p);
    OpenShape(t, w, us);
    if p.after.Absent? { LinkedDiffers(w.volume, p); }
    match UndoJudge(us, p, i, w.volume, w.live[i])
    case FinishLink =>
      if SteadyAt(p, w, i) {
        UnkeptSteady(p, w, i);
      } else {
        assert Relocated(p).(kept := None) in Unkept(w.possible[i]);
      }
    case _ =>
  }

  /** The exact condition: an undo that recovery completes is durable exactly if recovery began on a
      steady disk.  What the slots show is the receipt's before state in any case. */
  lemma DurableIff(t: Transaction, w: World, us: UndoState)
    requires UndoOpen(t, w, us) && |w.live| == |w.possible| == |t.paths|
    ensures forall i | 0 <= i < |t.paths| :: Converged(us, t.paths, w, 0).live[i] == Restored(t.paths[i])
    ensures (forall i | 0 <= i < |t.paths| :: Converged(us, t.paths, w, 0).possible[i] <= {Restored(t.paths[i])}) <==> Steady(t, w, us)
  {
    hide UndoOpen, UndoTarget, UndoPossible, SteadyAt, Converged;
    OpenShape(t, w, us);
    ConvergedAt(us, t.paths, w, 0);
    forall i | 0 <= i < |t.paths|
      ensures Converged(us, t.paths, w, 0).live[i] == Restored(t.paths[i])
      ensures Converged(us, t.paths, w, 0).possible[i] <= {Restored(t.paths[i])} <==> i !in us.intents || i in us.rolledBack || SteadyAt(t.paths[i], w, i)
    {
      DurableAt(t, w, us, i);
    }
  }
}
