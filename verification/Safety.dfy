/** What no step, crash or foreign state can make the protocol destroy. */
module Safety {
  import opened Outcomes
  import opened Filesystem
  import opened Records
  import opened Replay
  import opened Disks
  import opened Slots
  import opened Protocol
  import opened Verdicts
  import opened Exactness
  import opened Finishes
  import opened Resolutions
  import opened Recovery
  import Restores
  import UndoReplay
  import UndoVerdicts
  import opened UndoStates
  import opened UndoRecovery

  /** A name of path `i` holds exactly this file's bytes and permissions. */
  predicate Holds(v: Volume, name: Option<Ino>, file: File) {
    name.Some? && name.value in v.files && v.files[name.value] == file
  }

  /** Until a commit is on record, the bytes and permissions of every present input are in
      its slot or in its backup, whatever a crash leaves. */
  lemma InputKept(t: Transaction, w: World, st: State, keep: bool, i: nat, e: Entries)
    requires Unfinished(t, w, st) || (FinishedAs(t, w, st, keep) && !IsCommitted(st))
    requires i < |t.paths| && May(w, i, e) && t.paths[i].before.Present?
    ensures BeforeContent(w.volume, t.paths[i]).Some?
    ensures var file := BeforeContent(w.volume, t.paths[i]).value; Holds(w.volume, e.slot, file) || Holds(w.volume, e.backup, file)
  {
    var p := t.paths[i];
    assert StagedWell(w.volume, p);
    if Unfinished(t, w, st) {
      assert w.possible[i] <= Allowed(p, st, i);
      assert e in Undoing(p);
    } else {
      assert w.possible[i] <= Finishing(p, false, keep);
    }
  }

  /** For a retained commit they stay in the backup, beside the target or in the state
      directory and never in both. */
  lemma BackupKept(t: Transaction, w: World, st: State, i: nat, e: Entries)
    requires FinishedAs(t, w, st, true) && IsCommitted(st)
    requires i < |t.paths| && May(w, i, e) && t.paths[i].before.Present?
    ensures BeforeContent(w.volume, t.paths[i]).Some?
    ensures var file := BeforeContent(w.volume, t.paths[i]).value; Holds(w.volume, e.backup, file) != Holds(w.volume, e.kept, file)
  {
    assert StagedWell(w.volume, t.paths[i]);
    assert w.possible[i] <= Finishing(t.paths[i], true, true);
  }

  /** So they do throughout an undo, until receipt and journal are gone: in the slot or in the retained
      backup, whatever a crash leaves. */
  lemma UndoKept(t: Transaction, w: World, us: UndoReplay.UndoState, i: nat, e: Entries)
    requires UndoPending(t, w, us) && i < |t.paths| && May(w, i, e) && t.paths[i].before.Present?
    ensures BeforeContent(w.volume, t.paths[i]).Some?
    ensures var file := BeforeContent(w.volume, t.paths[i]).value; Holds(w.volume, e.slot, file) || Holds(w.volume, e.kept, file)
  {
    var p := t.paths[i];
    assert StagedWell(w.volume, p);
    if UndoIdle(t, w) {
      assert w.possible[i] <= {Relocated(p)};
    } else if UndoClosed(t, w, us) {
      assert w.possible[i] <= {Restored(p)};
    } else {
      assert w.possible[i] <= UndoAllowed(p, us, i);
    }
  }

  /** Foreign safety: from any accepted journal and whatever the disk holds, a slot that may come to show
      something new is one the journal meant to change and had not finished restoring, and it held exactly
      the journaled output: nothing where a delete left nothing, else the file with its bytes, length,
      permissions and identity, alone or with the stage as its only other name.  What goes there is nothing
      where nothing was, else a file with exactly the input's bytes, length and permissions. */
  lemma ForeignSafety(st: State, w: World, x: World, i: nat, slot: Option<Ino>)
    requires w.Valid() && Contained(st, w, x) && i < |w.live| && slot in SlotsOf(x.possible[i]) - SlotsOf(w.possible[i])
    ensures i < |st.paths| && st.prepared && st.finished.None? && i in st.commitIntents && i !in st.rolledBack
    ensures (Plain(w.volume, w.live[i]) && HoldsAfter(st.paths[i], w.volume, w.live[i])) || CreateAtLink(st.paths[i], w.volume, w.live[i])
    ensures match st.paths[i].before
            case AbsentSpec => slot == None
            case SpecPresent(spec) =>
              FileFits(w.volume, slot, spec) && slot == w.live[i].backup && (st.paths[i].backupIdentity.Some? ==> slot == st.paths[i].backupIdentity)
  {
    hide Judge, BackupMatches, HoldsAfter, HoldsBefore, FileFits, Plain, TwoNames, Alike, CreateAtLink, RestoreAtLink;
    var e := w.live[i];
    MovesExact(st, i, w.volume, e);
    assert e in w.possible[i] && e.slot in SlotsOf(w.possible[i]);
    assert slot in Moves(st, i, w.volume, e);
  }

  /** What the rollback loop may give a slot. */
  lemma MovesExact(st: State, i: nat, v: Volume, e: Entries)
    ensures Moves(st, i, v, e) != {} ==> i < |st.paths| && st.prepared && st.finished.None?
    ensures forall slot | slot in Moves(st, i, v, e) && slot != e.slot ::
              && i in st.commitIntents && i !in st.rolledBack
              && ((Plain(v, e) && HoldsAfter(st.paths[i], v, e)) || CreateAtLink(st.paths[i], v, e))
              && match st.paths[i].before
                 case AbsentSpec => slot == None
                 case SpecPresent(spec) =>
                   FileFits(v, slot, spec) && slot == e.backup && (st.paths[i].backupIdentity.Some? ==> slot == st.paths[i].backupIdentity)
  {
    hide Judge, BackupMatches, HoldsBefore, HoldsAfter, FileFits, Plain, TwoNames, Alike;
    if i < |st.paths| {
      JudgeIff(st, i, v, e);
      if st.paths[i].before.SpecPresent? && st.paths[i].backupName.Some? { BackupIff(st.paths[i], v, e); }
      BackupNamed(st.paths[i], v, e);
    }
  }

  lemma BackupNamed(p: RecoveryPath, v: Volume, e: Entries)
    ensures BackupMatches(p, v, e) ==> p.before.SpecPresent? && p.backupName.Some?
  {
  }

  /** A path under rollback whose slot shows neither the journaled input nor the journaled output, and is
      at neither two-link point, makes recovery fail with the journal in place. */
  lemma ForeignRefused(st: State, w: World, x: World, o: Outcome, i: nat)
    requires Recovered(st, w, x, o) && i < |st.paths| && st.prepared && st.finished.None? && st.commitIntents != {}
    requires !HoldsBefore(st.paths[i], w.volume, w.live[i]) && !HoldsAfter(st.paths[i], w.volume, w.live[i])
    requires !TwoNames(w.volume, w.live[i], w.live[i].stage) && !TwoNames(w.volume, w.live[i], w.live[i].backup)
    ensures !o.Done? && x.possibleControl <= w.possibleControl
  {
    hide Contained, Accepts, Discarding, Discarded, HoldsBefore, HoldsAfter, TwoNames, Alike, Plain, ShowsOutcome;
    AcceptsIff(st, i, w.volume, w.live[i]);
  }

  /** The same of an undo's recovery: whatever the journal says and the disk holds, a slot that may come
      to show something new shows exactly the committed state of the receipt, is not on record as
      undone, and the new state is absence or the file retained for it. */
  lemma UndoForeignSafety(us: UndoReplay.UndoState, paths: seq<StagedPath>, w: World, x: World, i: nat, slot: Option<Ino>)
    requires w.Valid() && |paths| == |w.live| && UndoVerdicts.UndoContained(us, paths, w, x)
    requires i < |paths| && slot in SlotsOf(x.possible[i]) - SlotsOf(w.possible[i])
    ensures SlotState(w.volume, w.live[i]) == Found(paths[i].after) && i !in us.rolledBack
    ensures slot == if paths[i].before.Absent? then None else w.live[i].kept
  {
    UnkeptSlots(w.possible[i]);
    var e :| e in x.possible[i] && e.slot == slot;
    assert w.live[i] in w.possible[i] && w.live[i].slot in SlotsOf(w.possible[i]);
  }

  lemma UnkeptSlots(s: set<Entries>)
    ensures forall e | e in Restores.Unkept(s) :: e.slot in SlotsOf(s)
  {
    forall e | e in Restores.Unkept(s) ensures e.slot in SlotsOf(s) {
      var q :| q in s && e == q.(kept := None);
      assert q.slot in SlotsOf(s);
    }
  }
}
