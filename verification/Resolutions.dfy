/** `recover_state`: the branch a parsed journal selects, and the record that closes it. */
module Resolutions {
  import opened Outcomes
  import opened Filesystem
  import opened Records
  import opened Replay
  import opened Disks
  import opened Slots
  import opened Protocol
  import opened Probes
  import opened Cleanups
  import opened Rollbacks
  import opened Verdicts
  import opened Exactness
  import opened Recoveries
  import opened Resumptions
  import opened Finishes
  import opened Settlements

  /** What a transaction interrupted anywhere leaves, apart from the skipped-intent case. */
  ghost predicate Sound(t: Transaction, w: World, st: State, keep: bool) {
    (Unfinished(t, w, st) && Resumable(st, |t.paths|)) || FinishedAs(t, w, st, keep)
  }

  predicate IsCommitted(st: State) {
    st.finished == Some(Committed)
  }

  lemma UnfinishedShrunk(t: Transaction, w: World, x: World, st: State)
    requires Unfinished(t, w, st) && Shrunk(w, x)
    ensures Unfinished(t, x, st)
  {
    if |t.paths| == 0 {
      assert x.possible == w.possible;
    } else {
      UnfinishedWithin(t, w, x, st, 0, {});
    }
  }

  lemma FinishedShrunk(t: Transaction, w: World, x: World, st: State, keep: bool)
    requires FinishedAs(t, w, st, keep) && Shrunk(w, x) && JournalStays(w)
    ensures FinishedAs(t, x, st, keep) && JournalStays(x)
  {
    SettlingShrunk(t, w, x, IsCommitted(st), keep);
  }

  /** However the append of the closing record ends, the journal is described. */
  lemma FinishRecorded(t: Transaction, w: World, x: World, st: State, outcome: FinishOutcome, keep: bool)
    returns (next: State)
    requires Unfinished(t, w, st) && ValidFinish(st, outcome) && outcome != Committed
    requires EntriesFinishing(t, w, false, keep)
    requires Shrunk(w, x) || Shrunk(w.(records := w.records + [Finished(outcome)]), x)
    ensures next == st || next == WithFinish(st, outcome)
    ensures if next == st then Unfinished(t, x, st) else FinishedAs(t, x, next, keep) && JournalStays(x)
    ensures |x.records| == |w.records| <==> next == st
  {
    var written := w.(records := w.records + [Finished(outcome)]);
    NoteFinished(t, w, st, outcome, keep);
    if Shrunk(w, x) {
      UnfinishedShrunk(t, w, x, st);
      next := st;
    } else {
      next := WithFinish(st, outcome);
      FinishedShrunk(t, written, x, next, keep);
    }
  }

  /** `append_finished` */
  method RecordFinish(d: Disk, outcome: FinishOutcome) returns (o: Outcome)
    requires d.Valid()
    modifies d
    ensures d.Valid() && (o.Done? ==> d.W() == old(d.W()).(records := old(d.records) + [Finished(outcome)]))
    ensures Shrunk(old(d.W()), d.W()) || Shrunk(old(d.W()).(records := old(d.records) + [Finished(outcome)]), d.W())
    ensures o.Done? ==> d.faults == old(d.faults) && d.poisoned == old(d.poisoned)
    ensures !o.Done? && !old(d.poisoned) ==> d.faults < old(d.faults)
    ensures o.Failed? ==> o.recoveryRequired
    ensures o.Crashed? ==> AfterCrash(d.W())
    ensures d.faults <= old(d.faults)
  {
    ghost var w := d.W();
    ghost var written := w.(records := w.records + [Finished(outcome)]);
    o := d.Append(Finished(outcome));
    if o.Crashed? {
      if CrashOf(w, d.W()) { CrashShrinks(w, d.W()); } else { CrashShrinks(written, d.W()); }
    }
  }

  // Finished journals

  method ResolveFinished(d: Disk, st: State, ghost t: Transaction, ghost keep: bool) returns (o: Outcome)
    requires d.Valid() && |st.paths| <= |d.live| && st.finished.Some?
    modifies d
    ensures d.Valid() && Shrunk(old(d.W()), d.W()) && (o.Done? ==> AllSettled(old(d.W()), d.W(), |st.paths|))
    ensures !o.Done? && (forall i | 0 <= i < |st.paths| :: old(Shows(st, i, IsCommitted(st), d.volume, d.live[i]))) ==> d.faults < old(d.faults)
    ensures o.Done? ==> forall i | 0 <= i < |st.paths| :: old(Shows(st, i, IsCommitted(st), d.volume, d.live[i]))
    ensures old(FinishedAs(t, d.W(), st, keep) && d.control.operation) ==>
              && FinishedAs(t, d.W(), st, keep)
              && (if o.Done? then Settling(t, d.W(), IsCommitted(st), keep) && AllSynced(d.W()) && Describes(t, st) else d.faults < old(d.faults))
    ensures o.Done? ==> d.poisoned == old(d.poisoned)
    ensures o.Failed? ==> o.recoveryRequired
    ensures o.Crashed? ==> AfterCrash(d.W())
    ensures d.faults <= old(d.faults)
  {
    hide FinishedAs, Settling, Shows, Describes;
    ghost var w := d.W();
    ghost var known := FinishedAs(t, w, st, keep) && w.control.operation;
    if known {
      FinishedSettling(t, w, st, keep);
      SettlingFinishedPaths(t, w, st, keep);
    }
    o := VerifyFinished(d, st, IsCommitted(st));
    if known {
      FinishedShrunk(t, w, d.W(), st, keep);
      SettlingShrunk(t, w, d.W(), IsCommitted(st), keep);
    }
  }

  lemma FinishedSettling(t: Transaction, w: World, st: State, keep: bool)
    requires FinishedAs(t, w, st, keep) && w.control.operation
    ensures Settling(t, w, IsCommitted(st), keep) && Describes(t, st) && JournalStays(w)
  {
  }

  lemma SettlingFinishedPaths(t: Transaction, w: World, st: State, keep: bool)
    requires Settling(t, w, IsCommitted(st), keep) && Describes(t, st)
    ensures |w.live| == |w.possible| == |st.paths|
    ensures forall i | 0 <= i < |st.paths| :: Shows(st, i, IsCommitted(st), w.volume, w.live[i])
  {
    SettlingPaths(t, w, st, IsCommitted(st), keep);
  }

  // Journals without a commit intent

  lemma UncommittedPaths(t: Transaction, w: World, st: State, keep: bool)
    requires Unfinished(t, w, st) && Resumable(st, |t.paths|) && st.commitIntents == {}
    ensures |w.live| == |w.possible| == |st.paths| == |t.paths| && AllSynced(w) && EntriesFinishing(t, w, false, keep)
    ensures forall i | 0 <= i < |st.paths| :: Undisturbed(st, i, w.volume, w.live[i])
  {
    forall i | 0 <= i < |t.paths|
      ensures w.possible[i] == {Initial(t.paths[i])} && Synced(w, i)
      ensures Undisturbed(st, i, w.volume, w.live[i])
    {
      assert i !in st.rollbackIntents && i !in st.rolledBack && i !in st.committed;
      assert w.live[i] in w.possible[i] && w.possible[i] <= Allowed(t.paths[i], st, i);
      InitialProbes(w.volume, t.paths[i]);
    }
  }

  method ResolveUncommitted(d: Disk, st: State, ghost t: Transaction, ghost keep: bool)
    returns (o: Outcome, ghost next: State)
    requires d.Valid() && |st.paths| <= |d.live| && st.finished.None?
    modifies d
    ensures d.Valid() && (Shrunk(old(d.W()), d.W()) || Shrunk(old(d.W()).(records := old(d.records) + [Finished(Aborted)]), d.W()))
    ensures o.Done? ==> d.W() == old(d.W()).(records := old(d.records) + [Finished(Aborted)])
    ensures !o.Done? && !old(d.poisoned) && (forall i | 0 <= i < |st.paths| :: old(Undisturbed(st, i, d.volume, d.live[i]))) ==> d.faults < old(d.faults)
    ensures o.Done? ==> forall i | 0 <= i < |st.paths| :: old(Undisturbed(st, i, d.volume, d.live[i]))
    ensures old(Unfinished(t, d.W(), st)) && Resumable(st, |t.paths|) && st.commitIntents == {} ==>
              && Sound(t, d.W(), next, keep) && !IsCommitted(next)
              && (o.Done? ==> FinishedAs(t, d.W(), next, keep) && Settling(t, d.W(), false, keep) && AllSynced(d.W()) && Describes(t, st))
              && (!o.Done? && !old(d.poisoned) ==> d.faults < old(d.faults))
    ensures o.Done? ==> d.poisoned == old(d.poisoned)
    ensures o.Failed? ==> o.recoveryRequired
    ensures o.Crashed? ==> AfterCrash(d.W())
    ensures d.faults <= old(d.faults)
  {
    hide Unfinished, Resumable, FinishedAs, Undisturbed, EntriesFinishing, Settling, Describes;
    ghost var w := d.W();
    ghost var known := Unfinished(t, w, st) && Resumable(st, |t.paths|) && st.commitIntents == {};
    next := st;
    if known { UncommittedPaths(t, w, st, keep); }
    o := DiscardUncommitted(d, st);
    if !o.Done? { return; }
    o := RecordFinish(d, Aborted);
    if known {
      next := FinishRecorded(t, w, d.W(), st, Aborted, keep);
      if o.Done? {
        AllSyncedRecords(w, d.W());
        FinishedStands(t, d.W(), next, keep);
        DescribesFinish(t, st, Aborted);
      }
    }
  }

  lemma AllSyncedRecords(w: World, x: World)
    requires AllSynced(w) && x == w.(records := x.records)
    ensures AllSynced(x)
  {
    forall i | 0 <= i < |x.live| ensures Synced(x, i) {
      assert Synced(w, i);
    }
  }

  lemma FinishedStands(t: Transaction, w: World, st: State, keep: bool)
    requires FinishedAs(t, w, st, keep) && JournalStays(w) && !IsCommitted(st)
    ensures Settling(t, w, false, keep) && Describes(t, st)
  {
  }

  lemma DescribesFinish(t: Transaction, st: State, outcome: FinishOutcome)
    requires Describes(t, WithFinish(st, outcome))
    ensures Describes(t, st)
  {
  }

  // Journals with commit intents

  /** The sweep alone already settles every directory for a rolled-back outcome. */
  lemma SweptSettling(t: Transaction, w: World, st: State, keep: bool)
    requires Interrupted(t, w, st)
    ensures |w.live| == |w.possible| == |st.paths| == |t.paths| && w.Valid() && Describes(t, st)
    ensures Settling(t, Swept(st, w, 0), false, keep) && AllSynced(Swept(st, w, 0)) && EntriesFinishing(t, Swept(st, w, 0), false, keep)
  {
    hide Journaled, EntriesAllowed, Resumable, Skipped, StagedWell, Finishing;
    InterruptedFeasible(t, w, st);
    SweptRestored(t, w, st);
    if |t.paths| > 0 { SweptElsewhere(st, w, 0, 0); }
    SweptFrame(st, w, 0);
    SweptDescribed(t, w, st);
    FinishingKeepless(t, Swept(st, w, 0), keep);
  }

  lemma SweptDescribed(t: Transaction, w: World, st: State)
    requires Interrupted(t, w, st)
    ensures Describes(t, st)
  {
  }

  lemma FinishingKeepless(t: Transaction, w: World, keep: bool)
    requires EntriesFinishing(t, w, false, false)
    ensures EntriesFinishing(t, w, false, keep)
  {
  }

  lemma {:induction false} SweptFrame(st: State, w: World, i: nat)
    requires i <= |st.paths| <= |w.live| == |w.possible| && w.Valid()
    ensures Swept(st, w, i).Valid()
    ensures Swept(st, w, i) == w.(live := Swept(st, w, i).live, possible := Swept(st, w, i).possible, records := Swept(st, w, i).records)
    decreases |st.paths| - i
  {
    if i < |st.paths| {
      SweptFrame(st, w, i + 1);
    }
  }

  lemma SettlingRecords(t: Transaction, w: World, x: World, keep: bool)
    requires Settling(t, w, false, keep) && AllSynced(w) && x == w.(records := x.records)
    ensures Settling(t, x, false, keep) && AllSynced(x)
  {
    AllSyncedRecords(w, x);
  }

  /** After the sweep of a resumable journal, the closing record makes it finished. */
  lemma SweptFinished(t: Transaction, w: World, x: World, st: State, keep: bool) returns (next: State)
    requires Unfinished(t, w, st) && Resumable(st, |t.paths|) && st.commitIntents != {}
    requires |st.paths| <= |w.live| == |w.possible|
    requires Shrunk(Swept(st, w, 0), x) || Shrunk(Swept(st, w, 0).(records := Swept(st, w, 0).records + [Finished(RolledBack)]), x)
    ensures Sound(t, x, next, keep) && !IsCommitted(next)
    ensures |x.records| != |Swept(st, w, 0).records| ==> FinishedAs(t, x, next, keep)
  {
    hide Unfinished, Resumable, FinishedAs, Settling, EntriesFinishing, AllSynced, Swept, Shrunk;
    ResumableInterrupted(t, w, st);
    SweptSettling(t, w, st, keep);
    var now := SweptJournal(t, w, st, 0);
    UnfinishedPrepared(t, Swept(st, w, 0), now);
    next := FinishRecorded(t, Swept(st, w, 0), x, now, RolledBack, keep);
  }

  lemma UnfinishedPrepared(t: Transaction, w: World, st: State)
    requires Unfinished(t, w, st)
    ensures st.prepared && st.finished.None?
  {
  }

  method ResolveCommitted(d: Disk, st: State, ghost t: Transaction, ghost keep: bool)
    returns (o: Outcome, ghost next: State, ghost stopped: nat)
    requires d.Valid() && |st.paths| <= |d.live| && st.finished.None? && st.commitIntents != {}
    modifies d
    ensures d.Valid() && stopped <= |st.paths| && (o.Done? ==> stopped == |st.paths| && d.control == old(d.control))
    ensures stopped < |st.paths| ==> !o.Done? && PathHalted(st, Swept(st, old(d.W()), stopped + 1), d.W(), stopped)
    ensures stopped == |st.paths| ==>
              Shrunk(Swept(st, old(d.W()), 0), d.W()) || Shrunk(Swept(st, old(d.W()), 0).(records := Swept(st, old(d.W()), 0).records + [Finished(RolledBack)]), d.W())
    ensures stopped == |st.paths| ==> forall i | 0 <= i < |st.paths| :: old(Judge(st, i, d.volume, d.live[i])) != Refuse
    ensures old(Interrupted(t, d.W(), st)) ==>
              && (o.Done? ==> Settling(t, d.W(), false, keep) && AllSynced(d.W()) && Describes(t, st))
              && (Resumable(st, |t.paths|) ==> Sound(t, d.W(), next, keep) && !IsCommitted(next) && (o.Done? ==> FinishedAs(t, d.W(), next, keep)))
              && (Skipped(st, |t.paths|) ==> StillSkipped(t, d.W(), st) && (o.Done? ==> Parse(t.limits, d.records).Corrupt?))
              && (!o.Done? && !old(d.poisoned) ==> d.faults < old(d.faults))
    ensures o.Done? ==> d.poisoned == old(d.poisoned)
    ensures o.Failed? ==> o.recoveryRequired
    ensures o.Crashed? ==> AfterCrash(d.W())
    ensures d.faults <= old(d.faults)
    ensures o.Done? ==> |st.paths| <= |d.live| && forall i | 0 <= i < |st.paths| :: HoldsBefore(st.paths[i], d.volume, d.live[i])
  {
    hide Unfinished, Resumable, FinishedAs, Settling, Describes, Interrupted, Skipped, StillSkipped, Swept,
         PathHalted, Judge, Feasible, AllSynced, EntriesFinishing, HoldsBefore;
    ghost var w := d.W();
    ghost var known := Interrupted(t, w, st);
    ghost var resumable := Resumable(st, |t.paths|);
    next := st;
    if known {
      InterruptedFeasible(t, w, st);
      SweptSettling(t, w, st, keep);
    }
    o, stopped := SweepPaths(d, st);
    if !o.Done? {
      if known && resumable {
        InterruptedUnfinished(t, w, st);
        next := SweepHalted(t, w, d.W(), st, stopped);
        UnfinishedPrepared(t, d.W(), next);
      }
      if known && Skipped(st, |t.paths|) {
        SkippedHalted(t, w, d.W(), st, stopped);
        StaysSkipped(t, d.W(), st);
      }
      return;
    }
    stopped := |st.paths|;
    SweptFrame(st, w, 0);
    o := RecordFinish(d, RolledBack);
    if known {
      if o.Done? { SettlingRecords(t, Swept(st, w, 0), d.W(), keep); }
      if resumable {
        InterruptedUnfinished(t, w, st);
        next := SweptFinished(t, w, d.W(), st, keep);
      }
      if Skipped(st, |t.paths|) { SweptRejected(t, w, d.W(), st); }
    }
  }

  /** The skipped-intent journal as it was, or one that replay rejects. */
  ghost predicate StillSkipped(t: Transaction, w: World, st: State) {
    (Interrupted(t, w, st) && Skipped(st, |t.paths|)) || Parse(t.limits, w.records).Corrupt?
  }

  lemma StaysSkipped(t: Transaction, w: World, st: State)
    requires Skipped(st, |t.paths|) && (Unfinished(t, w, st) || Parse(t.limits, w.records).Corrupt?)
    ensures StillSkipped(t, w, st)
  {
  }

  lemma SweptRejected(t: Transaction, w: World, x: World, st: State)
    requires Interrupted(t, w, st) && Skipped(st, |t.paths|) && |w.live| == |w.possible| == |st.paths| == |t.paths|
    requires x.records == Swept(st, w, 0).records || x.records == Swept(st, w, 0).records + [Finished(RolledBack)]
    ensures Parse(t.limits, x.records).Corrupt? && StillSkipped(t, x, st)
  {
    hide Unfinished, Swept;
    SweptSkipped(t, w, st, 0);
    AboveRejected(t, w, x, st, Started(st) - 1);
  }

  lemma InterruptedUnfinished(t: Transaction, w: World, st: State)
    requires Interrupted(t, w, st)
    ensures Unfinished(t, w, st)
  {
  }
}
