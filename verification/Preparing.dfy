/** What a preparation under way may leave on the disk, and its recovery. */
module Preparing {
  import opened Outcomes
  import opened Filesystem
  import opened Records
  import opened Replay
  import opened Disks
  import opened Slots
  import opened Protocol
  import opened Cleanups
  import opened Rollbacks
  import opened Transactions
  import opened Verdicts
  import opened Finishes
  import opened Resolutions
  import opened Recovery
  import opened Projections

  // What preparation starts from and never changes

  /** The projection describes the files it was made from. */
  predicate Projected(v: Volume, p: ProjectedPath) {
    && (p.before.Present? <==> p.source.Some?)
    && (p.before.Present? ==>
          && Exact(v, p.before.evidence) && !p.before.evidence.permissions.readonly
          && v.files[p.before.evidence.identity] == p.source.value)
    && (p.after.Some? ==> !p.after.value.permissions.readonly)
    && (p.before.Present? || p.after.Some?)
  }

  function BareEntries(p: ProjectedPath): Entries {
    Entries(p.before.Identity(), None, None, None)
  }

  /** The slot is untouched, and what artifacts there are, are single-link files under the
      names the path's own intent binds. */
  predicate Preparable(v: Volume, p: ProjectedPath, e: Entries) {
    && e == BareEntries(p).(stage := e.stage, backup := e.backup)
    && (e.stage.Some? ==> p.after.Some? && HasLinks(v, e, e.stage.value, 1))
    && (e.backup.Some? ==> p.before.Present? && HasLinks(v, e, e.backup.value, 1))
  }

  ghost predicate PlanWorld(plan: Projection, w: World) {
    && w.Valid() && |w.live| == |w.possible| == |plan.paths|
    && (forall i | 0 <= i < |plan.paths| :: Projected(w.volume, plan.paths[i]))
    && (forall k | k in w.possibleControl :: !k.undo && !k.receipt)
  }

  ghost predicate Prepares(plan: Projection, w: World) {
    PlanWorld(plan, w) && forall i, e | 0 <= i < |plan.paths| && May(w, i, e) :: Preparable(w.volume, plan.paths[i], e)
  }

  ghost predicate AllBare(plan: Projection, w: World) {
    |w.possible| == |plan.paths| && forall i | 0 <= i < |plan.paths| :: w.possible[i] <= {BareEntries(plan.paths[i])}
  }

  /** Nothing of a preparation is there: slots as projected, no artifact, no journal. */
  ghost predicate Vacant(plan: Projection, w: World) {
    PlanWorld(plan, w) && AllBare(plan, w) && forall k | k in w.possibleControl :: !k.operation
  }

  // A preparation under way

  /** The journal's record of path `i`: intended, or staged with the identities it names. */
  predicate Recorded(p: ProjectedPath, id: TransactionId, i: nat, rp: RecoveryPath) {
    rp == if rp.staged then IntendedPath(p, id, i).(stageIdentity := rp.stageIdentity, backupIdentity := rp.backupIdentity, staged := true)
          else IntendedPath(p, id, i)
  }

  /** A staged artifact that is still there has the evidence the journal names. */
  predicate Evident(v: Volume, rp: RecoveryPath, e: Entries) {
    rp.staged ==>
      && (e.stage.Some? && e.stage.value in v.files && rp.after.SpecPresent? ==> MatchesEvidence(rp.after.spec, Evidence(v, e.stage.value), rp.stageIdentity))
      && (e.backup.Some? && e.backup.value in v.files && rp.before.SpecPresent? ==> MatchesEvidence(rp.before.spec, Evidence(v, e.backup.value), rp.backupIdentity))
  }

  /** The journal of an unfinished or aborted preparation, and the artifacts it covers. */
  ghost predicate Covered(plan: Projection, id: TransactionId, w: World, st: State) {
    && !st.prepared && st.commitIntents == {} && (st.finished.None? || st.finished == Some(Aborted))
    && (st.finished.None? ==> st.phase != InFinished)
    && |st.paths| <= |plan.paths| && (|st.paths| < |plan.paths| ==> AllBare(plan, w))
    && (forall i | 0 <= i < |st.paths| :: Recorded(plan.paths[i], id, i, st.paths[i]))
    && (forall i, e | 0 <= i < |st.paths| && May(w, i, e) :: Evident(w.volume, st.paths[i], e))
  }

  /** What may be left of a preparation: artifacts the journal covers, and slots as projected.  The
      journal itself may be gone. */
  ghost predicate Leftover(limits: Limits, plan: Projection, id: TransactionId, w: World, st: State) {
    && Prepares(plan, w)
    && (if w.records == [] then AllBare(plan, w)
        else Parse(limits, w.records) == Ok(st) && Covered(plan, id, w, st))
  }

  /** Where a preparation that did not report its end leaves the disk, unless a job leaked: once the
      journal may be gone, so are the artifacts. */
  ghost predicate PreparingAt(limits: Limits, plan: Projection, id: TransactionId, w: World, st: State) {
    Leftover(limits, plan, id, w, st) && ((exists k :: k in w.possibleControl && !k.operation) ==> AllBare(plan, w))
  }

  // Recovery of a preparation

  lemma PathAccepted(plan: Projection, id: TransactionId, w: World, st: State, i: nat)
    requires Prepares(plan, w) && Covered(plan, id, w, st) && i < |st.paths|
    ensures Accepts(st, i, w.volume, w.live[i]) && Cleans(st, i, false, w.volume, w.live[i])
    ensures Cleaned(st, i, false, w.live[i]) == BareEntries(plan.paths[i])
  {
    var p := plan.paths[i];
    var e := w.live[i];
    assert May(w, i, e);
    assert Preparable(w.volume, p, e) && Evident(w.volume, st.paths[i], e) && Projected(w.volume, p);
    assert Recorded(p, id, i, st.paths[i]);
    SlotUntouched(w.volume, p, e);
  }

  lemma SlotUntouched(v: Volume, p: ProjectedPath, e: Entries)
    requires Projected(v, p) && Preparable(v, p, e)
    ensures SlotState(v, e) == Found(p.before)
    ensures p.before.Absent? ==> SameFile(v, e, e.stage) == NotFound
  {
  }

  lemma LeftoverDiscardable(limits: Limits, plan: Projection, id: TransactionId, w: World, st: State)
    requires Leftover(limits, plan, id, w, st) && w.records != []
    ensures |st.paths| <= |w.live| && Discards(st) && Discardable(st, w)
  {
    forall i | 0 <= i < |st.paths|
      ensures Accepts(st, i, w.volume, w.live[i]) && Cleans(st, i, false, w.volume, w.live[i])
    {
      PathAccepted(plan, id, w, st, i);
    }
  }

  /** Removing artifacts keeps the entries of a preparation what they may be. */
  lemma CleanedEntry(plan: Projection, id: TransactionId, w: World, st: State, i: nat, e: Entries)
    requires Prepares(plan, w) && Covered(plan, id, w, st) && i < |st.paths|
    requires May(w, i, e) || e == CleanStage(st, i, w.live[i]) || e == Cleaned(st, i, false, w.live[i])
    ensures Preparable(w.volume, plan.paths[i], e) && Evident(w.volume, st.paths[i], e)
  {
    assert May(w, i, w.live[i]);
    assert Preparable(w.volume, plan.paths[i], w.live[i]) && Evident(w.volume, st.paths[i], w.live[i]);
    assert Recorded(plan.paths[i], id, i, st.paths[i]);
  }

  /** After any part of a discard the disk is a preparation's still. */
  lemma DiscardPrepares(plan: Projection, id: TransactionId, w: World, x: World, st: State)
    requires Prepares(plan, w) && Covered(plan, id, w, st) && Discarding(st, w, x)
    requires |st.paths| < |plan.paths| ==> AllBare(plan, w)
    ensures Prepares(plan, x)
    ensures forall i, e | 0 <= i < |st.paths| && May(x, i, e) :: Evident(x.volume, st.paths[i], e)
    ensures |st.paths| < |plan.paths| ==> AllBare(plan, x)
  {
    hide Preparable, Evident, Recorded, CleanStage, Cleaned, Projected;
    forall i, e | 0 <= i < |plan.paths| && May(x, i, e)
      ensures Preparable(x.volume, plan.paths[i], e)
      ensures i < |st.paths| ==> Evident(x.volume, st.paths[i], e)
    {
      if i < |st.paths| {
        CleanedEntry(plan, id, w, st, i, e);
      } else {
        assert May(w, i, e);
      }
    }
    if |st.paths| < |plan.paths| {
      BareStays(plan, id, w, x, st);
    }
  }

  lemma BareStays(plan: Projection, id: TransactionId, w: World, x: World, st: State)
    requires Prepares(plan, w) && AllBare(plan, w) && Discarding(st, w, x) && |st.paths| <= |plan.paths|
    ensures AllBare(plan, x)
  {
    forall i | 0 <= i < |plan.paths| ensures x.possible[i] <= {BareEntries(plan.paths[i])} {
      assert w.possible[i] <= {BareEntries(plan.paths[i])} && w.live[i] in w.possible[i];
    }
  }

  lemma DiscardBares(plan: Projection, id: TransactionId, w: World, x: World, st: State)
    requires Prepares(plan, w) && Covered(plan, id, w, st) && Discarding(st, w, x) && AllSynced(w) && JournalStays(w)
    requires exists k :: k in x.possibleControl && !k.operation
    ensures AllBare(plan, x)
  {
    hide Preparable, Evident, Recorded, CleanStage, Cleaned;
    if |st.paths| < |plan.paths| {
      BareStays(plan, id, w, x, st);
    } else {
      forall i | 0 <= i < |plan.paths| ensures x.possible[i] <= {BareEntries(plan.paths[i])} {
        PathAccepted(plan, id, w, st, i);
      }
    }
  }

  lemma DiscardJournal(limits: Limits, plan: Projection, id: TransactionId, w: World, x: World, st: State)
    returns (next: State)
    requires Leftover(limits, plan, id, w, st) && w.records != [] && Discarding(st, w, x)
    ensures Parse(limits, x.records) == Ok(next) && (next == st || next == WithFinish(st, Aborted))
  {
    hide Prepares, Recorded, Evident, CleanStage, Cleaned, AllBare, Run;
    if x.records == w.records {
      next := st;
    } else {
      next := WithFinish(st, Aborted);
      ParseAppend(limits, w.records, Finished(Aborted));
    }
  }

  /** Recovery of a preparation, complete or interrupted, leaves no more than a preparation may. */
  lemma LeftoverDiscarded(limits: Limits, plan: Projection, id: TransactionId, w: World, x: World, st: State)
    returns (next: State)
    requires Leftover(limits, plan, id, w, st) && w.records != [] && Discarding(st, w, x)
    ensures Leftover(limits, plan, id, x, next)
    ensures PreparingAt(limits, plan, id, w, st) && AllSynced(w) && JournalStays(w) ==> PreparingAt(limits, plan, id, x, next)
  {
    hide Preparable, Evident, Recorded, CleanStage, Cleaned;
    next := DiscardJournal(limits, plan, id, w, x, st);
    DiscardPrepares(plan, id, w, x, st);
    if AllSynced(w) && JournalStays(w) && exists k :: k in x.possibleControl && !k.operation {
      DiscardBares(plan, id, w, x, st);
    }
  }

  lemma PreparingVacant(limits: Limits, plan: Projection, id: TransactionId, w: World, st: State)
    requires PreparingAt(limits, plan, id, w, st) && w.possibleControl == {w.control} && !w.control.operation
    ensures Vacant(plan, w)
  {
  }

  lemma LeftoverControl(limits: Limits, plan: Projection, id: TransactionId, w: World, x: World, st: State, extra: set<Control>)
    requires Leftover(limits, plan, id, w, st) && ControlWithin(w, x, extra)
    requires forall k | k in extra :: !k.undo && !k.receipt
    ensures Leftover(limits, plan, id, x, st) && (AllBare(plan, w) ==> AllBare(plan, x))
  {
    hide Preparable, Evident, Recorded;
    forall i, e | 0 <= i < |plan.paths| && May(x, i, e) ensures May(w, i, e) {
    }
    if AllBare(plan, w) {
      forall i | 0 <= i < |plan.paths| ensures x.possible[i] <= {BareEntries(plan.paths[i])} {
        assert w.possible[i] <= {BareEntries(plan.paths[i])};
      }
    }
  }

  lemma PreparingControl(limits: Limits, plan: Projection, id: TransactionId, w: World, x: World, st: State, extra: set<Control>)
    requires PreparingAt(limits, plan, id, w, st) && ControlWithin(w, x, extra)
    requires forall k | k in extra :: !k.undo && !k.receipt && (k.operation || AllBare(plan, w))
    ensures PreparingAt(limits, plan, id, x, st)
  {
    hide Leftover;
    LeftoverControl(limits, plan, id, w, x, st, extra);
  }

  /** What `Recover` makes of a preparation, in a new process or in the same boot: no slot is touched,
      and if it completes the journal is gone.  After a power loss no artifact is left either, unless a
      staging job had leaked. */
  lemma PreparationRecovered(limits: Limits, plan: Projection, id: TransactionId, w: World, x: World, st: State, o: Outcome)
    returns (next: State)
    requires Leftover(limits, plan, id, w, st)
    requires !w.control.operation ==> o.Done? && x == w
    requires w.control.operation && w.records == [] ==>
               ControlWithin(w, x, {w.control.(operation := false)}) && (o.Done? ==> x.possibleControl == {w.control.(operation := false)})
    requires w.control.operation && w.records != [] ==> Discarding(st, w, x) && (o.Done? ==> Discarded(st, w, x))
    ensures Leftover(limits, plan, id, x, next) && (o.Done? ==> !x.control.operation)
    ensures PreparingAt(limits, plan, id, w, st) && Rebooted(w) ==>
              if o.Done? then Vacant(plan, x) else PreparingAt(limits, plan, id, x, next)
  {
    hide Leftover, Vacant, Discarding, Discarded, Covered, ControlWithin, AllBare, PreparingAt;
    LeftoverOpens(limits, plan, id, w, st);
    if Rebooted(w) { RebootedSynced(w); }
    next := st;
    var strong := PreparingAt(limits, plan, id, w, st) && Rebooted(w);
    if !w.control.operation {
      if strong { PreparingVacant(limits, plan, id, w, st); }
    } else if w.records == [] {
      LeftoverControl(limits, plan, id, w, x, st, {w.control.(operation := false)});
      WithinControl(w, x, {w.control.(operation := false)});
      if strong {
        PreparingControl(limits, plan, id, w, x, st, {w.control.(operation := false)});
        if o.Done? { PreparingVacant(limits, plan, id, x, st); }
      }
    } else {
      next := LeftoverDiscarded(limits, plan, id, w, x, st);
      if o.Done? {
        DiscardedGone(st, w, x);
        if strong { PreparingVacant(limits, plan, id, x, next); }
      }
    }
  }

  lemma WithinControl(w: World, x: World, extra: set<Control>)
    requires ControlWithin(w, x, extra)
    ensures x.control in x.possibleControl
  {
  }

  lemma DiscardedGone(st: State, w: World, x: World)
    requires Discarded(st, w, x)
    ensures x.possibleControl == {x.control} && !x.control.operation
  {
  }

  lemma RebootedSynced(w: World)
    requires Rebooted(w)
    ensures AllSynced(w) && (w.control.operation && !w.control.undo ==> JournalStays(w))
  {
  }

  lemma LeftoverOpens(limits: Limits, plan: Projection, id: TransactionId, w: World, st: State)
    requires Leftover(limits, plan, id, w, st)
    ensures w.Valid() && Opens(limits, w) && !w.control.undo && !w.control.receipt
    ensures w.records != [] ==> Parse(limits, w.records) == Ok(st)
    ensures w.records == [] ==> AllBare(plan, w)
  {
    assert w.control in w.possibleControl || !w.Valid();
  }
}
