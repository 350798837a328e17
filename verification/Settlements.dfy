/** The end of crash recovery: receipt decision, artifact removal or relocation, receipt
    and journal removal. */
module Settlements {
  import opened Outcomes
  import opened Filesystem
  import opened Records
  import opened Replay
  import opened Disks
  import opened Slots
  import opened Protocol
  import opened Probes
  import opened Cleanups
  import opened Verdicts
  import opened Finishes

  /** `st` describes exactly the paths of this transaction. */
  ghost predicate Describes(t: Transaction, st: State) {
    && st.transaction == t.id && |st.paths| == |t.paths|
    && forall i | 0 <= i < |t.paths| :: st.paths[i] == RecoveryPathOf(t.id, t.paths[i], i)
  }

  /** The outcome is on record, the directories are settled, artifacts may remain. */
  ghost predicate Settling(t: Transaction, w: World, committed: bool, keep: bool) {
    Staged(t, w) && FinishedDisk(t, w, committed, keep) && JournalStays(w)
  }

  lemma FinishingShows(t: Transaction, st: State, i: nat, v: Volume, e: Entries, committed: bool, keep: bool)
    requires i < |t.paths| == |st.paths| && st.paths[i] == RecoveryPathOf(t.id, t.paths[i], i)
    requires StagedWell(v, t.paths[i]) && e in Finishing(t.paths[i], committed, keep)
    ensures Shows(st, i, committed, v, e)
  {
  }

  lemma FinishingCleans(t: Transaction, st: State, i: nat, v: Volume, e: Entries, committed: bool, keep: bool)
    requires i < |t.paths| == |st.paths| && st.paths[i] == RecoveryPathOf(t.id, t.paths[i], i)
    requires StagedWell(v, t.paths[i]) && e in Finishing(t.paths[i], committed, keep)
    ensures Cleans(st, i, committed && keep, v, e)
    ensures CleanStage(st, i, e) in Finishing(t.paths[i], committed, keep)
    ensures Cleaned(st, i, committed && keep, e) in Finishing(t.paths[i], committed, keep)
    ensures !(committed && keep) ==> Cleaned(st, i, committed && keep, e) in Final(t.paths[i], committed, keep)
  {
  }

  lemma FinishingRetains(p: StagedPath, v: Volume, e: Entries)
    requires StagedWell(v, p) && e in Finishing(p, true, true)
    ensures p.backup.Some? ==> Retainable(v, e, p.backup.value)
    ensures Relocation(p, e) in Final(p, true, true) && Relocation(p, e) in Finishing(p, true, true)
  {
  }

  /** Every conclusion above, over a whole settling disk. */
  lemma SettlingPaths(t: Transaction, w: World, st: State, committed: bool, keep: bool)
    requires Staged(t, w) && FinishedDisk(t, w, committed, keep) && Describes(t, st)
    ensures |w.live| == |w.possible| == |st.paths| == |t.paths|
    ensures forall i | 0 <= i < |t.paths| :: w.live[i] in Finishing(t.paths[i], committed, keep)
    ensures forall i | 0 <= i < |st.paths| :: Shows(st, i, committed, w.volume, w.live[i])
    ensures forall i | 0 <= i < |st.paths| :: Cleans(st, i, committed && keep, w.volume, w.live[i])
    ensures committed && keep ==>
              forall i | 0 <= i < |t.paths| && t.paths[i].backup.Some? :: Retainable(w.volume, w.live[i], t.paths[i].backup.value)
  {
    hide Finishing, StagedWell, Shows, Cleans, Retainable;
    forall i | 0 <= i < |t.paths|
      ensures w.live[i] in Finishing(t.paths[i], committed, keep)
      ensures Shows(st, i, committed, w.volume, w.live[i])
      ensures Cleans(st, i, committed && keep, w.volume, w.live[i])
      ensures committed && keep && t.paths[i].backup.Some? ==> Retainable(w.volume, w.live[i], t.paths[i].backup.value)
    {
      assert w.live[i] in w.possible[i] && w.possible[i] <= Finishing(t.paths[i], committed, keep);
      FinishingShows(t, st, i, w.volume, w.live[i], committed, keep);
      FinishingCleans(t, st, i, w.volume, w.live[i], committed, keep);
      if committed && keep {
        FinishingRetains(t.paths[i], w.volume, w.live[i]);
      }
    }
  }

  /** Entries that only took finishing states keep the disk finished. */
  lemma SettlingKept(t: Transaction, w: World, x: World, committed: bool, keep: bool)
    requires Settling(t, w, committed, keep) && x.Valid() && |x.live| == |w.live| == |w.possible|
    requires x == w.(live := x.live, possible := x.possible, control := x.control, possibleControl := x.possibleControl)
    requires x.possibleControl <= w.possibleControl
    requires forall i | 0 <= i < |t.paths| :: x.possible[i] <= Finishing(t.paths[i], committed, keep)
    ensures Settling(t, x, committed, keep)
  {
  }

  lemma SettlingShrunk(t: Transaction, w: World, x: World, committed: bool, keep: bool)
    requires Settling(t, w, committed, keep) && Shrunk(w, x)
    ensures Settling(t, x, committed, keep)
  {
    forall i | 0 <= i < |t.paths| ensures x.possible[i] <= Finishing(t.paths[i], committed, keep) {
      assert w.possible[i] <= Finishing(t.paths[i], committed, keep);
    }
    SettlingKept(t, w, x, committed, keep);
  }

  lemma SettlingCleaned(t: Transaction, w: World, x: World, st: State, committed: bool, keep: bool)
    requires Settling(t, w, committed, keep) && Describes(t, st) && Cleaning(st, committed && keep, w, x)
    ensures Settling(t, x, committed, keep)
  {
    hide StagedWell, Cleans, Cleaned, CleanStage, Finishing;
    forall i | 0 <= i < |t.paths| ensures x.possible[i] <= Finishing(t.paths[i], committed, keep) {
      assert w.live[i] in w.possible[i] && w.possible[i] <= Finishing(t.paths[i], committed, keep);
      FinishingCleans(t, st, i, w.volume, w.live[i], committed, keep);
    }
    SettlingKept(t, w, x, committed, keep);
  }

  lemma SettlingFinal(t: Transaction, w: World, x: World, st: State, committed: bool, keep: bool)
    requires Settling(t, w, committed, keep) && Describes(t, st) && Settling(t, x, committed, keep) && AllSynced(x)
    requires !(committed && keep) && |x.live| == |w.live| == |st.paths|
    requires x.volume == w.volume && forall i | 0 <= i < |st.paths| :: x.live[i] == Cleaned(st, i, false, w.live[i])
    ensures EntriesFinal(t, x, committed, keep)
  {
    hide StagedWell, Cleans, Cleaned, CleanStage, Finishing, Final;
    forall i | 0 <= i < |t.paths| ensures x.possible[i] <= Final(t.paths[i], committed, keep) {
      assert w.live[i] in w.possible[i] && w.possible[i] <= Finishing(t.paths[i], committed, keep);
      FinishingCleans(t, st, i, w.volume, w.live[i], committed, keep);
      assert Synced(x, i);
    }
  }

  lemma SettlingRelocated(t: Transaction, w: World, x: World)
    requires Settling(t, w, true, true) && Relocating(t.paths, w, x)
    ensures Settling(t, x, true, true)
    ensures AllSynced(x) && (forall i | 0 <= i < |t.paths| :: x.live[i] == Relocation(t.paths[i], w.live[i])) ==> EntriesFinal(t, x, true, true)
  {
    hide StagedWell, Retainable, Relocation, Finishing, Final;
    forall i | 0 <= i < |t.paths|
      ensures x.possible[i] <= Finishing(t.paths[i], true, true)
      ensures Relocation(t.paths[i], w.live[i]) in Final(t.paths[i], true, true)
    {
      assert w.live[i] in w.possible[i] && w.possible[i] <= Finishing(t.paths[i], true, true);
      FinishingRetains(t.paths[i], w.volume, w.live[i]);
    }
    SettlingKept(t, w, x, true, true);
    if AllSynced(x) && forall i | 0 <= i < |t.paths| :: x.live[i] == Relocation(t.paths[i], w.live[i]) {
      forall i | 0 <= i < |t.paths| ensures x.possible[i] <= Final(t.paths[i], true, true) {
        assert Synced(x, i);
      }
    }
  }

  /** A transitional receipt may go as soon as the journal says the commit did not happen. */
  lemma ReceiptRemoved(t: Transaction, w: World, x: World, keep: bool)
    requires Settling(t, w, false, keep)
    requires ControlWithin(w, x, {w.control.(receipt := false)})
    ensures Settling(t, x, false, keep)
    ensures EntriesFinal(t, w, false, keep) ==> EntriesFinal(t, x, false, keep)
  {
    forall i | 0 <= i < |t.paths| ensures x.possible[i] <= Finishing(t.paths[i], false, keep) {
      assert w.possible[i] <= Finishing(t.paths[i], false, keep);
    }
    if EntriesFinal(t, w, false, keep) {
      forall i | 0 <= i < |t.paths| ensures x.possible[i] <= Final(t.paths[i], false, keep) {
        assert w.possible[i] <= Final(t.paths[i], false, keep);
      }
    }
  }
}
