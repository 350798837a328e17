/** Whole runs: a transaction, any number of crashes, and recoveries until one completes. */
module Runs {
  import opened Outcomes
  import opened Filesystem
  import opened Records
  import opened Replay
  import opened Disks
  import opened Protocol
  import opened Cleanups
  import opened Rollbacks
  import opened Transactions
  import opened Retained
  import opened Verdicts
  import opened Resumptions
  import opened Settlements
  import opened Resolutions
  import opened Recovery

  lemma ResolvedTree(t: Transaction, w: World, committed: bool, keep: bool)
    requires Resolved(t, w, committed, keep)
    ensures if committed then AllAfter(t, w) else AllBefore(t, w)
  {
    forall i, e | 0 <= i < |t.paths| && May(w, i, e)
      ensures Content(w.volume, e) == if committed then AfterContent(w.volume, t.paths[i]) else BeforeContent(w.volume, t.paths[i])
    {
      assert StagedWell(w.volume, t.paths[i]);
      assert w.possible[i] <= Final(t.paths[i], committed, keep);
    }
  }

  lemma SoundOpens(t: Transaction, w: World, st: State, keep: bool)
    requires Interrupted(t, w, st) || FinishedAs(t, w, st, keep)
    ensures w.Valid() && Opens(t.limits, w)
  {
  }

  lemma SoundEither(t: Transaction, w: World, st: State, keep: bool)
    requires Sound(t, w, st, keep)
    ensures Interrupted(t, w, st) || FinishedAs(t, w, st, keep)
  {
  }

  /** Recovery is re-entrant: it may fail or crash after any step, any number of times, and
      the run that completes reaches the tree the journal stood for at the start, all outputs
      if a commit was on record and all inputs otherwise. */
  method RecoverUntilDone(d: Disk, t: Transaction, ghost st: State, ghost keep: bool)
    requires Sound(t, d.W(), st, keep)
    modifies d
    ensures Resolved(t, d.W(), IsCommitted(st), keep)
    ensures if IsCommitted(st) then AllAfter(t, d.W()) else AllBefore(t, d.W())
  {
    hide Sound, Resolved, Interrupted, FinishedAs, AllAfter, AllBefore, Concluded, Contained, Accepts, Opens;
    ghost var now := st;
    var o := Crashed;
    SoundEither(t, d.W(), st, keep);
    SoundOpens(t, d.W(), st, keep);
    while o != Done
      invariant d.Valid()
      invariant if o == Done then Resolved(t, d.W(), IsCommitted(st), keep) else Sound(t, d.W(), now, keep) && IsCommitted(now) == IsCommitted(st)
      decreases o != Done, d.faults
    {
      SoundEither(t, d.W(), now, keep);
      SoundOpens(t, d.W(), now, keep);
      o, now := Recover(d, t.limits, t, now, keep);
    }
    ResolvedTree(t, d.W(), IsCommitted(st), keep);
  }

  // From a prepared transaction to its end

  /** The disk between two recoveries of a transaction that may have been committed. */
  ghost predicate Pending(t: Transaction, w: World, st: State, committed: bool, skipped: bool, keep: bool) {
    if skipped then Interrupted(t, w, st) && Skipped(st, |t.paths|) && st.finished.None? && !committed
    else Sound(t, w, st, keep) && IsCommitted(st) == committed
  }

  lemma StoppedCases(t: Transaction, w: World, st: State, o: Outcome)
    requires CommitStopped(t, w, st, o) && w.control.operation && Parse(t.limits, w.records).Ok?
    ensures Pending(t, w, st, IsCommitted(st), false, false) || Pending(t, w, st, false, true, false)
  {
    if BareRollback(t, w, st) { BareRollbackRejected(t, w, st); }
    assert w.control in w.possibleControl || !w.Valid();
  }

  lemma BareTree(t: Transaction, w: World, st: State)
    requires BareRollback(t, w, st)
    ensures w.Valid() && |w.records| > 0 && Parse(t.limits, w.records).Corrupt? && AllBefore(t, w) && Staged(t, w)
  {
    BareRollbackRejected(t, w, st);
    forall i, e | 0 <= i < |t.paths| && May(w, i, e)
      ensures Content(w.volume, e) == BeforeContent(w.volume, t.paths[i])
    {
      assert StagedWell(w.volume, t.paths[i]);
      assert w.possible[i] <= Finishing(t.paths[i], false, false);
    }
  }

  lemma PendingEither(t: Transaction, w: World, st: State, committed: bool, skipped: bool, keep: bool)
    requires Pending(t, w, st, committed, skipped, keep)
    ensures w.Valid() && Opens(t.limits, w) && IsCommitted(st) == committed
    ensures Interrupted(t, w, st) || FinishedAs(t, w, st, keep)
    ensures |w.records| > 0 && Parse(t.limits, w.records).Ok?
    ensures if skipped then Skipped(st, |t.paths|) && st.finished.None? else Sound(t, w, st, keep)
  {
    SoundOpens(t, w, st, keep);
  }

  /** After an unsuccessful recovery: pending still, or with a journal replay rejects. */
  lemma PendingStill(t: Transaction, w: World, st: State, next: State, committed: bool, skipped: bool, keep: bool)
    returns (now: State)
    requires if skipped then StillSkipped(t, w, st) && !committed && st.finished.None? else Sound(t, w, next, keep) && IsCommitted(next) == committed
    ensures Pending(t, w, now, committed, skipped, keep) || (skipped && Parse(t.limits, w.records).Corrupt?)
  {
    now := if skipped then st else next;
  }

  /** Every slot shows its own output or its own input, and would after a power loss. */
  ghost predicate EachOwn(t: Transaction, w: World) {
    forall i, e | 0 <= i < |t.paths| && May(w, i, e) ::
      Content(w.volume, e) == BeforeContent(w.volume, t.paths[i]) || Content(w.volume, e) == AfterContent(w.volume, t.paths[i])
  }

  lemma UndoingOwn(v: Volume, p: StagedPath, e: Entries)
    requires StagedWell(v, p) && e in Undoing(p)
    ensures Content(v, e) == BeforeContent(v, p) || Content(v, e) == AfterContent(v, p)
  {
  }

  /** A recovery, interrupted or not, leaves no slot with anything else. */
  lemma ContainedOwn(t: Transaction, w: World, x: World, st: State)
    requires Interrupted(t, w, st) && Contained(st, w, x)
    ensures EachOwn(t, x)
  {
    hide Interrupted, StagedWell, Undoing, Reach, Content;
    forall i, e | 0 <= i < |t.paths| && May(x, i, e)
      ensures Content(x.volume, e) == BeforeContent(x.volume, t.paths[i]) || Content(x.volume, e) == AfterContent(x.volume, t.paths[i])
    {
      InterruptedRecorded(t, w, st, i);
      JudgeAllowed(t, st, i, w.volume, w.live[i]);
      AllowedUndoing(t.paths[i], st, i);
      assert e.slot in SlotsOf(x.possible[i]);
      var same: Entries :| same.slot == e.slot && (same in w.possible[i] || same in Reach(st, i, w.volume, w.live[i]));
      UndoingOwn(w.volume, t.paths[i], same);
      SameContent(w.volume, e, same);
    }
  }

  lemma ContainedStaged(t: Transaction, w: World, x: World, st: State)
    requires Interrupted(t, w, st) && Contained(st, w, x) && x.Valid()
    ensures Staged(t, x)
  {
  }

  lemma AllowedUndoing(p: StagedPath, st: State, i: nat)
    ensures Allowed(p, st, i) <= Undoing(p)
  {
  }

  lemma SameContent(v: Volume, e: Entries, same: Entries)
    requires e.slot == same.slot
    ensures Content(v, e) == Content(v, same)
  {
  }

  /** Recoveries, until one completes or has left a journal that replay rejects; the latter
      needs a skipped intent and a recovery that was itself interrupted. */
  method RecoverPending(d: Disk, t: Transaction, ghost st: State, ghost committed: bool, ghost skipped: bool, ghost keep: bool)
    returns (rejected: bool)
    requires Pending(t, d.W(), st, committed, skipped, keep)
    modifies d
    ensures !rejected ==> Resolved(t, d.W(), committed, keep)
    ensures rejected ==> skipped && Parse(t.limits, d.records).Corrupt? && d.faults < old(d.faults) && EachOwn(t, d.W()) && Staged(t, d.W())
  {
    hide Sound, Resolved, Interrupted, FinishedAs, Concluded, Contained, Accepts, Opens, Skipped, Pending, StillSkipped, EachOwn, Staged;
    ghost var now := st;
    var o := Crashed;
    PendingEither(t, d.W(), st, committed, skipped, keep);
    while o != Done
      invariant d.Valid() && d.faults <= old(d.faults)
      invariant if o == Done then Resolved(t, d.W(), committed, keep) else Pending(t, d.W(), now, committed, skipped, keep)
      decreases o != Done, d.faults
    {
      PendingEither(t, d.W(), now, committed, skipped, keep);
      ghost var next;
      ghost var before := now;
      ghost var w := d.W();
      if skipped { PendingJournal(t, w, now, committed, skipped, keep); }
      o, next := Recover(d, t.limits, t, now, keep);
      if o != Done {
        now := PendingStill(t, d.W(), before, next, committed, skipped, keep);
        if Parse(t.limits, d.records).Corrupt? {
          PendingOk(t, d.W(), now, committed, skipped, keep);
          ContainedOwn(t, w, d.W(), before);
          ContainedStaged(t, w, d.W(), before);
          return true;
        }
      }
    }
    rejected := false;
  }

  /** A pending transaction whose journal may be rejected still has it. */
  lemma PendingJournal(t: Transaction, w: World, st: State, committed: bool, skipped: bool, keep: bool)
    requires Pending(t, w, st, committed, skipped, keep) && skipped
    ensures Interrupted(t, w, st) && w.control.operation && Parse(t.limits, w.records) == Ok(st)
  {
    assert w.control in w.possibleControl;
  }

  lemma PendingOk(t: Transaction, w: World, st: State, committed: bool, skipped: bool, keep: bool)
    ensures Pending(t, w, st, committed, skipped, keep) ==> Parse(t.limits, w.records).Ok?
  {
  }

  /** How a run may end: with nothing left to do, or with one of the two journals that
      recovery rejects. */
  datatype Ending = Complete | RejectedBare | RejectedSkipped

  /** A commit and whatever crashes and recoveries follow it.  The tree ends as all outputs
      or as all inputs, never a mixture, unless replay rejects the journal.  Of the two ways
      that can happen, a rollback recorded before any commit intent shows all inputs; an
      interrupted recovery of a skipped intent may show a mixture of inputs and outputs, and
      takes three faults: in the commit, in its own rollback and in a recovery.  Without a
      fault the run ends committed. */
  method CommitRun(d: Disk, t: Transaction, ghost st: State) returns (ghost committed: bool, ghost ending: Ending)
    requires Ready(t, d.W(), st) && !d.poisoned
    modifies d
    ensures ending == Complete ==> Resolved(t, d.W(), committed, false)
    ensures ending == Complete ==> if committed then AllAfter(t, d.W()) else AllBefore(t, d.W())
    ensures ending == RejectedBare ==> AllBefore(t, d.W())
    ensures ending != Complete ==> Parse(t.limits, d.records).Corrupt? && Staged(t, d.W())
    ensures ending == RejectedSkipped ==> EachOwn(t, d.W()) && d.faults + 3 <= old(d.faults)
    ensures old(d.faults) == 0 ==> ending == Complete && committed
  {
    hide Ready, Resolved, Sound, Interrupted, FinishedAs, AllAfter, AllBefore, Concluded, CommitStopped, BareRollback,
         Skipped, Pending, EachOwn, Staged;
    ghost var next;
    var o;
    o, next := Commit(d, t, st);
    ending, committed := Complete, o == Done;
    if o == Done {
      ConcludedResolved(t, d.W(), true, false);
      return;
    }
    ghost var skipped := Pending(t, d.W(), next, false, true, false);
    committed := IsCommitted(next) && !skipped;
    if !d.control.operation {
      committed := StoppedGone(t, d.W(), next, o);
    } else if Parse(t.limits, d.records).Corrupt? {
      StoppedRejected(t, d.W(), next, o);
      ending := RejectedBare;
      return;
    } else {
      StoppedCases(t, d.W(), next, o);
      if skipped { PendingSkipped(t, d.W(), next, false); }
      var rejected := RecoverPending(d, t, next, committed, skipped, false);
      if rejected {
        ending := RejectedSkipped;
        return;
      }
    }
    ResolvedTree(t, d.W(), committed, false);
  }

  lemma PendingSkipped(t: Transaction, w: World, st: State, keep: bool)
    requires Pending(t, w, st, false, true, keep)
    ensures Skipped(st, |t.paths|) && st.finished.None?
  {
  }

  lemma StoppedGone(t: Transaction, w: World, st: State, o: Outcome) returns (committed: bool)
    requires CommitStopped(t, w, st, o) && !w.control.operation
    ensures Resolved(t, w, committed, false)
  {
    committed := FinishedAs(t, w, st, false) && IsCommitted(st) && !Concluded(t, w, false, false) && !BareRollback(t, w, st);
  }

  lemma StoppedRejected(t: Transaction, w: World, st: State, o: Outcome)
    requires CommitStopped(t, w, st, o) && w.control.operation && Parse(t.limits, w.records).Corrupt?
    ensures AllBefore(t, w) && Staged(t, w)
  {
    BareTree(t, w, st);
  }

  // Retained commits

  lemma RetainedCases(t: Transaction, w: World, st: State, o: Outcome, orphan: bool)
    requires RetainedStopped(t, w, st, o, orphan) && w.control.operation && Parse(t.limits, w.records).Ok?
    ensures Pending(t, w, st, IsCommitted(st), false, orphan || IsCommitted(st)) || Pending(t, w, st, false, true, orphan)
  {
    if BareRollback(t, w, st) { BareRollbackRejected(t, w, st); }
    assert w.control in w.possibleControl || !w.Valid();
  }

  lemma RetainedGone(t: Transaction, w: World, st: State, o: Outcome, orphan: bool) returns (committed: bool)
    requires RetainedStopped(t, w, st, o, orphan) && !w.control.operation
    ensures Resolved(t, w, committed, orphan || committed)
  {
    committed := !Concluded(t, w, false, orphan) && !BareRollback(t, w, st) && IsCommitted(st);
  }

  lemma RetainedRejected(t: Transaction, w: World, st: State, o: Outcome, orphan: bool)
    requires RetainedStopped(t, w, st, o, orphan) && w.control.operation && Parse(t.limits, w.records).Corrupt?
    ensures AllBefore(t, w)
  {
    BareTree(t, w, st);
  }

  /** A retained commit and whatever crashes and recoveries follow it resolve to one of two
      worlds: all outputs, the receipt there and every backup exactly once, in the state
      directory; or all inputs, with no backup and no receipt, unless the receipt is an
      orphan. */
  method RetainedRun(d: Disk, t: Transaction, room: bool, ghost st: State)
    returns (ghost committed: bool, ghost ending: Ending, ghost orphan: bool)
    requires Ready(t, d.W(), st) && !d.poisoned
    modifies d
    ensures ending == Complete ==> Resolved(t, d.W(), committed, orphan || committed)
    ensures ending == Complete ==> if committed then AllAfter(t, d.W()) else AllBefore(t, d.W())
    ensures ending == RejectedBare ==> AllBefore(t, d.W())
    ensures ending != Complete ==> Parse(t.limits, d.records).Corrupt?
    ensures ending == RejectedSkipped ==> EachOwn(t, d.W()) && d.faults + 3 <= old(d.faults)
    ensures old(d.faults) == 0 ==> ending == Complete && committed == room
  {
    hide Ready, Resolved, Sound, Interrupted, FinishedAs, AllAfter, AllBefore, Concluded, RetainedStopped,
         BareRollback, Skipped, Pending, EachOwn;
    ghost var next;
    var o;
    o, next, orphan := CommitRetained(d, t, room, st);
    ending, committed := Complete, o == Done;
    if o == Done {
      ConcludedResolved(t, d.W(), true, true);
      return;
    }
    if o == Failed(false) {
      ConcludedOrphan(t, d.W(), orphan);
      return;
    }
    if !d.control.operation {
      committed := RetainedGone(t, d.W(), next, o, orphan);
    } else if Parse(t.limits, d.records).Corrupt? {
      RetainedRejected(t, d.W(), next, o, orphan);
      ending := RejectedBare;
      return;
    } else {
      RetainedCases(t, d.W(), next, o, orphan);
      ghost var skipped := Pending(t, d.W(), next, false, true, orphan);
      if skipped { PendingSkipped(t, d.W(), next, orphan); }
      committed := IsCommitted(next) && !skipped;
      var rejected := RecoverPending(d, t, next, committed, skipped, orphan || committed);
      if rejected {
        ending := RejectedSkipped;
        return;
      }
    }
    ResolvedTree(t, d.W(), committed, orphan || committed);
  }

  lemma ConcludedOrphan(t: Transaction, w: World, orphan: bool)
    requires Concluded(t, w, false, orphan)
    ensures Resolved(t, w, false, orphan)
  {
  }
}
