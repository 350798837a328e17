/** Appending transaction records: what every outcome leaves. */
module Journaling {
  import opened Outcomes
  import opened Records
  import opened Replay
  import opened Disks
  import opened Protocol
  import opened Cleanups

  /** Apart from the directories, only the journal may have grown. */
  ghost predicate SameStore(w: World, x: World) {
    x.volume == w.volume && x.receipt == w.receipt && x.kills == w.kills && x.undoRecords == w.undoRecords
    && x.possibleControl <= w.possibleControl
  }

  /** Nothing but the journal changed. */
  ghost predicate SameEntries(w: World, x: World) {
    x == w.(records := x.records)
  }

  method AppendRecord(d: Disk, t: Transaction, r: Record, ghost st: State, ghost expected: State)
    returns (o: Outcome, ghost now: State)
    requires Unfinished(t, d.W(), st)
    requires Unfinished(t, d.W().(records := d.records + [r]), expected)
    modifies d
    ensures d.Valid() && SameStore(old(d.W()), d.W())
    ensures Unfinished(t, d.W(), now)
    ensures o.Done? ==> now == expected && d.poisoned == old(d.poisoned)
    ensures !o.Done? ==> now == st || now == expected
    ensures !o.Crashed? ==> SameEntries(old(d.W()), d.W())
    ensures o.Failed? && now == expected != st ==> d.poisoned
    ensures old(d.poisoned) ==> o.Failed? && now == st
    ensures o.Failed? ==> o.recoveryRequired
    ensures o.Crashed? ==> AfterCrash(d.W())
    ensures o.Done? ==> d.faults == old(d.faults)
    ensures !o.Done? && !old(d.poisoned) ==> d.faults < old(d.faults)
    ensures d.faults <= old(d.faults)
  {
    ghost var w := d.W();
    o := d.Append(r);
    now := AfterAppend(t, w, d.W(), st, r, expected);
  }

  /** Appends the final record of a prepared transaction. */
  method AppendFinished(d: Disk, t: Transaction, outcome: FinishOutcome, ghost st: State, ghost keep: bool)
    returns (o: Outcome, ghost now: State)
    requires Unfinished(t, d.W(), st) && ValidFinish(st, outcome)
    requires EntriesFinishing(t, d.W(), outcome == Committed, keep)
    requires outcome == Committed ==> forall k | k in d.possibleControl :: k.receipt == keep
    modifies d
    ensures d.Valid() && SameStore(old(d.W()), d.W())
    ensures now == st || now == WithFinish(st, outcome)
    ensures now == st ==> !o.Done? && Unfinished(t, d.W(), now)
    ensures now != st ==> FinishedAs(t, d.W(), now, keep) && JournalStays(d.W())
    ensures !o.Crashed? ==> SameEntries(old(d.W()), d.W())
    ensures o.Done? ==> d.poisoned == old(d.poisoned)
    ensures o.Failed? ==> o.recoveryRequired
    ensures o.Crashed? ==> AfterCrash(d.W())
    ensures o.Done? ==> d.faults == old(d.faults)
    ensures !o.Done? && !old(d.poisoned) ==> d.faults < old(d.faults)
    ensures d.faults <= old(d.faults)
  {
    ghost var w := d.W();
    ghost var written := w.(records := w.records + [Finished(outcome)]);
    NoteFinished(t, w, st, outcome, keep);
    o := d.Append(Finished(outcome));
    now := if |d.W().records| == |w.records| then st else WithFinish(st, outcome);
    if o.Crashed? {
      if CrashOf(w, d.W()) {
        UnfinishedCrash(t, w, d.W(), st);
      } else {
        FinishedDiskCrash(t, written, d.W(), outcome == Committed, keep);
      }
    }
  }
}
