/** Crash recovery of a prepared transaction: what its rollback loop finds and leaves. */
module Resumptions {
  import opened Outcomes
  import opened Filesystem
  import opened Records
  import opened Replay
  import opened Disks
  import opened Slots
  import opened Protocol
  import opened Probes
  import opened Cleanups
  import opened Rollbacks
  import opened Verdicts
  import Reentrancy

  /** The journal's record of path `i` is consistent and describes staged path `p`. */
  predicate Recorded(t: Transaction, st: State, i: nat) {
    && i < |t.paths| == |st.paths|
    && st.paths[i] == RecoveryPathOf(t.id, t.paths[i], i)
    && (i in st.rolledBack ==> i in st.rollbackIntents)
    && (i in st.rollbackIntents ==> i in st.commitIntents)
    && (i in st.committed ==> i in st.commitIntents)
  }

  /** In every state the protocol allows, recovery has a feasible verdict, and carrying it
      out passes only through allowed states to an untouched or restored path. */
  lemma JudgeAllowed(t: Transaction, st: State, i: nat, v: Volume, e: Entries)
    requires Recorded(t, st, i) && StagedWell(v, t.paths[i]) && e in Allowed(t.paths[i], st, i)
    ensures Feasible(st, i, v, e)
    ensures Judge(st, i, v, e) == Keep <==> i !in st.commitIntents || i in st.rolledBack
    ensures Judge(st, i, v, e) == Keep ==> e in Untouched(t.paths[i])
    ensures Judge(st, i, v, e) == FinishRestore ==> i in st.rollbackIntents
    ensures Reach(st, i, v, e) <= Undoing(t.paths[i])
    ensures Target(st, i, v, e) in Untouched(t.paths[i])
  {
    var p := t.paths[i];
    if e == Initial(p) {
      JudgeInitial(t, st, i, v);
    } else if e == After(p) {
      JudgeAfter(t, st, i, v);
    } else if e == Restored(p) {
      JudgeRestored(t, st, i, v);
    } else if p.before.Absent? && e == CreateLinked(p) {
      JudgeCreateLinked(t, st, i, v);
    } else {
      JudgeRestoreLinked(t, st, i, v);
    }
  }

  lemma JudgeInitial(t: Transaction, st: State, i: nat, v: Volume)
    requires Recorded(t, st, i) && StagedWell(v, t.paths[i])
    ensures Judge(st, i, v, Initial(t.paths[i])) == if i in st.rolledBack || i !in st.commitIntents then Keep else Attest
  {
    InitialProbes(v, t.paths[i]);
  }

  lemma JudgeRestored(t: Transaction, st: State, i: nat, v: Volume)
    requires Recorded(t, st, i) && StagedWell(v, t.paths[i])
    ensures Judge(st, i, v, Restored(t.paths[i])) == if i in st.rolledBack || i !in st.commitIntents then Keep else Attest
  {
    RestoredProbes(v, t.paths[i]);
  }

  lemma JudgeAfter(t: Transaction, st: State, i: nat, v: Volume)
    requires Recorded(t, st, i) && StagedWell(v, t.paths[i])
    requires i in st.commitIntents && i !in st.rolledBack
    ensures Judge(st, i, v, After(t.paths[i])) == PutBack
    ensures Feasible(st, i, v, After(t.paths[i]))
    ensures Target(st, i, v, After(t.paths[i])) in Untouched(t.paths[i])
    ensures Reach(st, i, v, After(t.paths[i])) <= Undoing(t.paths[i])
  {
    AfterProbes(v, t.paths[i]);
  }

  lemma JudgeCreateLinked(t: Transaction, st: State, i: nat, v: Volume)
    requires Recorded(t, st, i) && StagedWell(v, t.paths[i]) && t.paths[i].before.Absent?
    requires i in st.commitIntents && i !in st.rolledBack
    ensures Judge(st, i, v, CreateLinked(t.paths[i])) == ReverseCreate
    ensures Target(st, i, v, CreateLinked(t.paths[i])) == Initial(t.paths[i])
  {
    CreateLinkedProbes(v, t.paths[i]);
  }

  lemma JudgeRestoreLinked(t: Transaction, st: State, i: nat, v: Volume)
    requires Recorded(t, st, i) && StagedWell(v, t.paths[i]) && t.paths[i].after.Absent?
    requires i in st.rollbackIntents && i !in st.rolledBack
    ensures Judge(st, i, v, RestoreLinked(t.paths[i])) == FinishRestore
    ensures Feasible(st, i, v, RestoreLinked(t.paths[i]))
    ensures Target(st, i, v, RestoreLinked(t.paths[i])) == Restored(t.paths[i])
  {
    RestoreLinkedProbes(v, t.paths[i]);
  }

  lemma InterruptedRecorded(t: Transaction, w: World, st: State, i: nat)
    requires Interrupted(t, w, st) && i < |t.paths|
    ensures Recorded(t, st, i) && StagedWell(w.volume, t.paths[i])
    ensures |w.live| == |w.possible| == |st.paths| == |t.paths|
    ensures w.possible[i] <= Allowed(t.paths[i], st, i) && w.live[i] in w.possible[i]
    ensures i in st.rolledBack ==> Synced(w, i)
  {
  }

  // What the sweep leaves in the directories

  lemma InterruptedFeasible(t: Transaction, w: World, st: State)
    requires Interrupted(t, w, st)
    ensures w.Valid() && |w.live| == |w.possible| == |st.paths| == |t.paths|
    ensures forall i | 0 <= i < |st.paths| :: Feasible(st, i, w.volume, w.live[i])
  {
    forall i | 0 <= i < |st.paths| ensures Feasible(st, i, w.volume, w.live[i]) {
      InterruptedRecorded(t, w, st, i);
      JudgeAllowed(t, st, i, w.volume, w.live[i]);
    }
  }

  /** After a complete sweep every path is untouched or exactly restored, durably. */
  lemma SweptRestored(t: Transaction, w: World, st: State)
    requires Interrupted(t, w, st) && |w.live| == |w.possible| == |st.paths|
    ensures AllSynced(Swept(st, w, 0)) && EntriesFinishing(t, Swept(st, w, 0), false, false)
  {
    forall i | 0 <= i < |t.paths|
      ensures Synced(Swept(st, w, 0), i)
      ensures Swept(st, w, 0).possible[i] <= Untouched(t.paths[i]) <= Finishing(t.paths[i], false, false)
    {
      InterruptedRecorded(t, w, st, i);
      JudgeAllowed(t, st, i, w.volume, w.live[i]);
      SweptAt(st, w, i);
    }
  }

  // What the sweep leaves in the journal

  /** `now` is the journal state after the sweep has dealt with the paths from `i` up. */
  ghost predicate Progress(st: State, now: State, i: nat) {
    && now.commitIntents == st.commitIntents && now.committed == st.committed
    && now.lastCommitIntent == st.lastCommitIntent && now.paths == st.paths
    && (forall j: nat | j < i :: (j in now.rollbackIntents <==> j in st.rollbackIntents) && (j in now.rolledBack <==> j in st.rolledBack))
    && (forall j: nat | i <= j && j in st.commitIntents :: j in now.rolledBack)
  }

  /** The sweep under way: the journal replays to `now`, which recovery could resume. */
  ghost predicate Sweeping(t: Transaction, w: World, st: State, now: State, i: nat) {
    Unfinished(t, w, now) && Resumable(now, |t.paths|) && Progress(st, now, i)
  }

  lemma SweepsNext(t: Transaction, w: World, st: State, now: State, i: nat)
    requires Sweeping(t, w, st, now, i + 1) && i in st.commitIntents && i !in st.rolledBack
    ensures i !in now.rolledBack && i in now.commitIntents
    ensures if i in st.rollbackIntents then now.lastRollbackIntent == Some(i) else RollsNext(now, Started(now), i)
  {
    assert i in now.rollbackIntents <==> i in st.rollbackIntents;
    assert i + 1 < Started(now) ==> i + 1 in st.commitIntents;
  }

  /** After a rollback intent of path `i`, whether it was there before or not. */
  lemma MarkedJournal(t: Transaction, w: World, st: State, now: State, i: nat) returns (next: State)
    requires Sweeping(t, w, st, now, i + 1) && i in st.commitIntents && i !in st.rolledBack && i < |t.paths|
    ensures Unfinished(t, Marked(st, w, i), next) && Resumable(next, |t.paths|)
    ensures next.lastRollbackIntent == Some(i) && i !in next.rolledBack && i in next.rollbackIntents
    ensures Started(next) == Started(now) && Progress(st, next.(rollbackIntents := now.rollbackIntents), i + 1)
    ensures next.rollbackIntents == now.rollbackIntents + {i}
  {
    SweepsNext(t, w, st, now, i);
    if i in st.rollbackIntents {
      next := now;
      assert Marked(st, w, i) == w;
      assert now.rollbackIntents == now.rollbackIntents + {i};
    } else {
      NoteRollbackIntent(t, w, now, Started(now), i);
      next := WithRollbackIntent(now, i);
    }
  }

  lemma SettledAllowed(t: Transaction, w: World, next: State, i: nat, e: Entries)
    requires Unfinished(t, w, next) && i < |t.paths| && e in Untouched(t.paths[i])
    requires i in next.rollbackIntents && i !in next.rolledBack
    ensures |w.live| == |w.possible| == |t.paths|
    ensures Unfinished(t, w.(live := w.live[i := e], possible := w.possible[i := {e}]), next)
  {
    UnfinishedWithin(t, w, w.(live := w.live[i := e], possible := w.possible[i := {e}]), next, i, {e});
  }

  /** One iteration of the sweep keeps the journal resumable. */
  lemma PathDoneJournal(t: Transaction, w: World, st: State, now: State, i: nat) returns (next: State)
    requires Sweeping(t, w, st, now, i + 1) && i < |t.paths| == |w.live| == |w.possible| == |st.paths|
    requires Recorded(t, st, i) && StagedWell(w.volume, t.paths[i]) && w.live[i] in Allowed(t.paths[i], st, i)
    ensures Sweeping(t, PathDone(st, w, i), st, next, i)
  {
    hide Unfinished, Resumable, Judge, Allowed, Target, Reach, Feasible;
    JudgeAllowed(t, st, i, w.volume, w.live[i]);
    if Judge(st, i, w.volume, w.live[i]) == Keep {
      next := now;
      KeptProgress(st, now, i);
    } else {
      var e := Target(st, i, w.volume, w.live[i]);
      var marked := Marked(st, w, i);
      var noted := MarkedJournal(t, w, st, now, i);
      SettledAllowed(t, marked, noted, i, e);
      var settled := marked.(live := w.live[i := e], possible := w.possible[i := {e}]);
      NoteDone(t, settled, noted, i);
      next := WithRollbackDone(noted, i);
      DoneProgress(st, now, noted, i);
      assert PathDone(st, w, i) == settled.(records := settled.records + [RollbackDone(i)]);
    }
  }

  lemma KeptProgress(st: State, now: State, i: nat)
    requires Progress(st, now, i + 1) && (i !in st.commitIntents || i in st.rolledBack)
    ensures Progress(st, now, i)
  {
  }

  lemma DoneProgress(st: State, now: State, noted: State, i: nat)
    requires Progress(st, noted.(rollbackIntents := now.rollbackIntents), i + 1)
    requires noted.rollbackIntents == now.rollbackIntents + {i}
    ensures Progress(st, WithRollbackDone(noted, i), i)
  {
    var plain := noted.(rollbackIntents := now.rollbackIntents);
    forall j: nat | j < i
      ensures j in noted.rollbackIntents <==> j in st.rollbackIntents
      ensures j in noted.rolledBack <==> j in st.rolledBack
    {
      assert j in plain.rollbackIntents <==> j in st.rollbackIntents;
    }
  }

  lemma NoteDone(t: Transaction, w: World, st: State, i: nat)
    requires Unfinished(t, w, st) && Resumable(st, |t.paths|) && i < |t.paths|
    requires st.lastRollbackIntent == Some(i) && i !in st.rolledBack
    requires i < |w.live| && i < |w.possible| && w.possible[i] == {w.live[i]} && w.live[i] in Untouched(t.paths[i])
    ensures Unfinished(t, w.(records := w.records + [RollbackDone(i)]), WithRollbackDone(st, i))
    ensures Resumable(WithRollbackDone(st, i), |t.paths|)
  {
    NoteRollbackDone(t, w, st, Started(st), i);
  }

  /** Wherever an interruption stops an iteration, recovery could start again there. */
  lemma PathHaltedJournal(t: Transaction, w: World, x: World, st: State, now: State, i: nat) returns (next: State)
    requires Sweeping(t, w, st, now, i + 1) && i < |t.paths| == |w.live| == |w.possible| == |st.paths|
    requires Recorded(t, st, i) && StagedWell(w.volume, t.paths[i]) && w.live[i] in Allowed(t.paths[i], st, i)
    requires PathHalted(st, w, x, i)
    ensures Unfinished(t, x, next) && Resumable(next, |t.paths|)
  {
    hide Unfinished, Resumable, Judge, Target, Reach, Feasible, PathDone, Within;
    JudgeAllowed(t, st, i, w.volume, w.live[i]);
    if Within(w, x, i, {}) {
      next := now;
      UnfinishedWithin(t, w, x, now, i, {});
    } else if Within(PathDone(st, w, i), x, i, {}) {
      next := PathDoneJournal(t, w, st, now, i);
      UnfinishedWithin(t, PathDone(st, w, i), x, next, i, {});
    } else {
      next := MarkedJournal(t, w, st, now, i);
      UnfinishedWithin(t, Marked(st, w, i), x, next, i, Reach(st, i, w.volume, w.live[i]));
    }
  }

  /** The journal the sweep writes stays acceptable to replay, path after path. */
  lemma {:induction false} SweptJournal(t: Transaction, w: World, st: State, i: nat) returns (now: State)
    requires Unfinished(t, w, st) && Resumable(st, |t.paths|)
    requires i <= |t.paths| == |w.live| == |w.possible| == |st.paths|
    ensures Sweeping(t, Swept(st, w, i), st, now, i)
    decreases |t.paths| - i
  {
    hide Unfinished, Sweeping, Resumable, Interrupted, Allowed, StagedWell, Recorded, PathDone;
    if i == |t.paths| {
      now := st;
      StartProgress(t, w, st);
    } else {
      now := SweptJournal(t, w, st, i + 1);
      ResumableInterrupted(t, w, st);
      InterruptedRecorded(t, w, st, i);
      SweptElsewhere(st, w, i + 1, i);
      now := PathDoneJournal(t, Swept(st, w, i + 1), st, now, i);
    }
  }

  lemma ResumableInterrupted(t: Transaction, w: World, st: State)
    requires Unfinished(t, w, st) && Resumable(st, |t.paths|)
    ensures Interrupted(t, w, st)
  {
  }

  lemma StartProgress(t: Transaction, w: World, st: State)
    requires Unfinished(t, w, st) && Resumable(st, |t.paths|)
    ensures Sweeping(t, w, st, st, |t.paths|)
  {
  }

  /** Wherever an interruption stops the sweep, recovery could start again there. */
  lemma SweepHalted(t: Transaction, w: World, x: World, st: State, stopped: nat) returns (next: State)
    requires Unfinished(t, w, st) && Resumable(st, |t.paths|)
    requires stopped < |t.paths| == |w.live| == |w.possible| == |st.paths|
    requires PathHalted(st, Swept(st, w, stopped + 1), x, stopped)
    ensures Unfinished(t, x, next) && Resumable(next, |t.paths|)
  {
    hide Unfinished, Resumable, Judge, Target, Reach, PathDone, PathHalted;
    var now := SweptJournal(t, w, st, stopped + 1);
    ResumableInterrupted(t, w, st);
    InterruptedRecorded(t, w, st, stopped);
    SweptElsewhere(st, w, stopped + 1, stopped);
    next := PathHaltedJournal(t, Swept(st, w, stopped + 1), x, st, now, stopped);
  }

  // The skipped intent

  /** The records the sweep has appended once it has dealt with the paths from `i` up. */
  ghost predicate Extends(w: World, x: World, r: Record) {
    |x.records| > |w.records| && x.records[..|w.records|] == w.records && x.records[|w.records|] == r
  }

  /** Replay rejects a rollback intent above the last one. */
  lemma AboveRejected(t: Transaction, w: World, x: World, st: State, top: nat)
    requires Interrupted(t, w, st) && Skipped(st, |t.paths|) && top == Started(st) - 1
    requires Extends(w, x, RollbackIntent(top))
    ensures Parse(t.limits, x.records).Corrupt?
  {
    ParseAppend(t.limits, w.records, RollbackIntent(top));
    var base := w.records + [RollbackIntent(top)];
    assert Step(t.limits, st, RollbackIntent(top)).Corrupt?;
    RejectedStays(t.limits, base, x.records[|base|..]);
    assert x.records == base + x.records[|base|..];
  }

  /** The sweep of a skipped-intent journal first comes to the skipped path, and from there
      on its journal is one replay rejects. */
  lemma {:induction false} SweptSkipped(t: Transaction, w: World, st: State, i: nat)
    requires Interrupted(t, w, st) && Skipped(st, |t.paths|)
    requires i <= |t.paths| == |w.live| == |w.possible| == |st.paths|
    ensures i >= Started(st) ==> Swept(st, w, i) == w
    ensures i < Started(st) ==> Extends(w, Swept(st, w, i), RollbackIntent(Started(st) - 1))
    decreases |t.paths| - i
  {
    hide Unfinished, StagedWell, Allowed, Feasible, Reach, Target, Judge;
    if i < |t.paths| {
      SweptSkipped(t, w, st, i + 1);
      InterruptedRecorded(t, w, st, i);
      JudgeAllowed(t, st, i, w.volume, w.live[i]);
      SweptElsewhere(st, w, i + 1, i);
    }
  }

  /** What an interruption within one path adds to the journal. */
  lemma HaltedRecords(st: State, w: World, x: World, i: nat)
    requires i < |st.paths| <= |w.live| == |w.possible| && PathHalted(st, w, x, i)
    ensures w.records <= x.records
    ensures i !in st.rollbackIntents ==> Within(w, x, i, {}) || Extends(w, x, RollbackIntent(i))
  {
    hide Judge, Reach, Target;
  }

  /** An interrupted recovery of such a journal either has left it as it was, or leaves one
      that replay rejects. */
  lemma SkippedHalted(t: Transaction, w: World, x: World, st: State, stopped: nat)
    requires Interrupted(t, w, st) && Skipped(st, |t.paths|)
    requires stopped < |t.paths| == |w.live| == |w.possible| == |st.paths|
    requires PathHalted(st, Swept(st, w, stopped + 1), x, stopped)
    ensures Unfinished(t, x, st) || Parse(t.limits, x.records).Corrupt?
  {
    hide Interrupted, Unfinished, Swept, PathHalted, Parse, Allowed;
    var y := Swept(st, w, stopped + 1);
    var top := Started(st) - 1;
    SweptSkipped(t, w, st, stopped + 1);
    HaltedRecords(st, y, x, stopped);
    if stopped < top {
      assert Extends(w, x, RollbackIntent(top));
      AboveRejected(t, w, x, st, top);
    } else {
      AboveHalted(t, w, x, st, stopped);
    }
  }

  lemma AboveHalted(t: Transaction, w: World, x: World, st: State, stopped: nat)
    requires Interrupted(t, w, st) && Skipped(st, |t.paths|) && Started(st) - 1 <= stopped < |t.paths| == |w.live| == |w.possible| == |st.paths|
    requires PathHalted(st, w, x, stopped)
    ensures Unfinished(t, x, st) || Parse(t.limits, x.records).Corrupt?
  {
    hide Unfinished, Parse, Allowed, Judge, Reach, Target, Within;
    HaltedRecords(st, w, x, stopped);
    InterruptedRecorded(t, w, st, stopped);
    JudgeAllowed(t, st, stopped, w.volume, w.live[stopped]);
    if Within(w, x, stopped, {}) {
      UnfinishedWithin(t, w, x, st, stopped, {});
    } else {
      AboveRejected(t, w, x, st, Started(st) - 1);
    }
  }

  /** What the sweep of an interrupted transaction appends depends on the journal alone. */
  lemma {:induction false} SweptAppends(t: Transaction, w: World, st: State, i: nat)
    requires Interrupted(t, w, st) && i <= |t.paths| == |w.live| == |w.possible| == |st.paths|
    ensures Swept(st, w, i).records == w.records + Reentrancy.Appended(st, i)
    decreases |t.paths| - i
  {
    hide Unfinished, Interrupted, StagedWell, Allowed, Feasible, Reach, Target, Judge;
    if i < |t.paths| {
      SweptAppends(t, w, st, i + 1);
      InterruptedRecorded(t, w, st, i);
      JudgeAllowed(t, st, i, w.volume, w.live[i]);
      SweptElsewhere(st, w, i + 1, i);
    }
  }

  /** A swept journal is one replay accepts exactly if rollback began at the highest intent. */
  lemma SweptAcceptedIff(t: Transaction, w: World, st: State)
    requires Interrupted(t, w, st) && |t.paths| == |w.live| == |w.possible| == |st.paths|
    ensures Parse(t.limits, Swept(st, w, 0).records).Ok? <==> Reentrancy.FromTheTop(st)
  {
    SweptAppends(t, w, st, 0);
    Reentrancy.ReentrantIff(t.limits, w.records, st);
  }
}
