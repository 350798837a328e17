/** V1 commit of a whole plan, its rollback, and abort. */
module EditCommits {
  import opened Outcomes
  import opened Filesystem
  import opened EditJournal
  import opened EditStore
  import opened EditTransactions
  import R = Records

  /** Nothing of the transaction has begun to commit. */
  ghost predicate Ready(limits: R.Limits, plan: seq<EditFile>, p: Parsed, w: Desk) {
    Safe(limits, plan, p, w) && p.finished.None? && p.intents == {} && p.committed == {} && p.rollbackIntents == {}
  }

  lemma OldFits(limits: R.Limits, plan: seq<EditFile>, p: Parsed, w: Desk, outcome: R.FinishOutcome)
    requires |plan| == |w.possible| && outcome != R.Committed && forall i | 0 <= i < |plan| :: AllOld(plan, w, i)
    ensures forall i, e | 0 <= i < |plan| && e in w.possible[i] :: Fits(plan[i], p.(finished := Some(outcome)), i, e)
  {
    forall i, e | 0 <= i < |plan| && e in w.possible[i]
      ensures Fits(plan[i], p.(finished := Some(outcome)), i, e)
    {
      assert AllOld(plan, w, i);
    }
  }

  /** A file without an intent still shows its old bytes. */
  lemma UnintendedOld(limits: R.Limits, plan: seq<EditFile>, p: Parsed, w: Desk, i: nat)
    requires Safe(limits, plan, p, w) && p.finished.None? && i < |plan| && i !in p.intents
    ensures |w.possible| == |plan| && AllOld(plan, w, i)
  {
  }

  /** `rollback_committed`, newest first. */
  method RollbackCommitted(s: Store, limits: R.Limits, plan: seq<EditFile>, committed: seq<nat>, ghost p: Parsed)
    returns (o: Outcome, ghost q: Parsed)
    requires Safe(limits, plan, p, s.desk) && p.finished.None? && |plan| == |s.desk.live| == |s.desk.possible| && p.rollbackIntents == {}
    requires forall n | 0 <= n < |committed| :: committed[n] < |plan| && committed[n] in p.intents
    requires forall m, n | 0 <= m < n < |committed| :: committed[m] != committed[n]
    requires forall i | 0 <= i < |plan| && i !in committed :: AllOld(plan, s.desk, i)
    modifies s
    ensures Safe(limits, plan, q, s.desk) && (o.Failed? ==> o.recoveryRequired)
    ensures s.faults <= old(s.faults)
    ensures o.Done? ==> q.finished == Some(R.RolledBack) && Concluded(plan, s.desk, false)
    ensures q.finished.None? || q.finished == Some(R.RolledBack)
  {
    hide Safe, Fits, Describes, Concluded;
    q := p;
    var k := |committed|;
    while k > 0
      invariant 0 <= k <= |committed|
      invariant Safe(limits, plan, q, s.desk) && q.finished.None? && |plan| == |s.desk.live| == |s.desk.possible|
      invariant q.intents == p.intents && forall n | 0 <= n < k :: committed[n] !in q.rollbackIntents
      invariant forall i | 0 <= i < |plan| && i !in committed[..k] :: AllOld(plan, s.desk, i)
      invariant s.faults <= old(s.faults)
      decreases k
    {
      var index := committed[k - 1];
      ghost var w := s.desk;
      o, q := RollbackOne(s, limits, plan, index, q);
      if !o.Done? { return; }
      forall i | 0 <= i < |plan| && i !in committed[..k - 1]
        ensures AllOld(plan, s.desk, i)
      {
        if i != index {
          assert i !in committed[..k] by { assert committed[..k] == committed[..k - 1] + [index]; }
          assert AllOld(plan, w, i);
        }
      }
      k := k - 1;
    }
    OldFits(limits, plan, q, s.desk, R.RolledBack);
    o, q := Finish(s, limits, plan, R.RolledBack, q);
  }

  /** `verify_all_backups` */
  method VerifyAllBackups(s: Store, limits: R.Limits, plan: seq<EditFile>, ghost p: Parsed) returns (ok: bool)
    requires Ready(limits, plan, p, s.desk) && |plan| == |s.desk.live|
    modifies s`faults
    ensures if ok then s.faults == old(s.faults) else s.faults < old(s.faults)
  {
    hide Safe;
    for i := 0 to |plan|
      invariant s.faults == old(s.faults)
    {
      IntentFits(limits, plan, p, s.desk, i);
      ok := s.VerifyArtifact(i, Backup, Sha256(plan[i].oldBytes));
      if !ok { return; }
    }
    ok := true;
  }

  lemma CommittedFits(plan: seq<EditFile>, p: Parsed, w: Desk)
    requires |w.possible| == |w.live| == |plan|
    requires forall i | 0 <= i < |plan| :: w.possible[i] == {w.live[i]} && NewTarget(plan[i], w.live[i])
    ensures forall i, e | 0 <= i < |plan| && e in w.possible[i] :: Fits(plan[i], p.(finished := Some(R.Committed)), i, e)
  {
  }

  /** The first `n` files are committed and durable. */
  ghost predicate CommittedTo(plan: seq<EditFile>, q: Parsed, w: Desk, n: nat) {
    && |plan| == |w.live| == |w.possible| && n <= |plan|
    && q.finished.None? && q.rollbackIntents == {} && q.intents == q.committed
    && (forall k: nat :: k in q.intents <==> k < n)
    && (forall i | 0 <= i < n :: w.possible[i] == {w.live[i]} && NewTarget(plan[i], w.live[i]))
  }

  /** `commit`.  `Ok` means every target has its new bytes and nothing of the transaction is left; an
      error without the recovery flag, that every target has its old bytes and likewise; and
      whatever happens, the journal says what recovery must do. */
  method Commit(s: Store, limits: R.Limits, plan: seq<EditFile>, ghost p: Parsed) returns (o: Outcome, ghost q: Parsed)
    requires Ready(limits, plan, p, s.desk) && !s.poisoned
    modifies s
    ensures Safe(limits, plan, q, s.desk)
    ensures o.Done? ==> q.finished == Some(R.Committed) && Concluded(plan, s.desk, true)
    ensures o == Failed(false) ==> q.finished == Some(R.RolledBack) && Concluded(plan, s.desk, false)
    ensures s.faults <= old(s.faults) && (o.Done? || s.faults < old(s.faults))
  {
    hide Safe, Fits, Describes, Concluded;
    q := p;
    ValidSafe(limits, plan, p, s.desk);
    var ok := VerifyAllBackups(s, limits, plan, p);
    if !ok {
      o, q := Undo(s, limits, plan, [], p, Failed(false));
      return;
    }
    var committed: seq<nat> := [];
    for index := 0 to |plan|
      invariant Safe(limits, plan, q, s.desk) && CommittedTo(plan, q, s.desk, index) && !s.poisoned
      invariant s.faults == old(s.faults)
      invariant |committed| == index && forall n | 0 <= n < index :: committed[n] == n
    {
      ghost var w, before := s.desk, q;
      var state;
      o, state, q := CommitOne(s, limits, plan, index, q);
      if o.Crashed? { return; }
      if o.Failed? {
        match state {
          case Changed => committed := committed + [index];
          case Unchanged =>
          case Ambiguous => return;
        }
        o, q := Undo(s, limits, plan, committed, q, o);
        return;
      }
      committed := committed + [index];
    }
    CommittedFits(plan, q, s.desk);
    o, q := Finish(s, limits, plan, R.Committed, q);
  }

  /** Rolls back and reports the error that made it necessary. */
  method Undo(s: Store, limits: R.Limits, plan: seq<EditFile>, committed: seq<nat>, ghost p: Parsed, error: Outcome)
    returns (o: Outcome, ghost q: Parsed)
    requires Safe(limits, plan, p, s.desk) && p.finished.None? && |plan| == |s.desk.live| == |s.desk.possible| && p.rollbackIntents == {}
    requires forall n | 0 <= n < |committed| :: committed[n] == n < |plan| && n in p.intents
    requires forall i | |committed| <= i < |plan| && i in p.intents :: AllPrepared(plan, s.desk, i)
    requires error.Failed?
    modifies s
    ensures Safe(limits, plan, q, s.desk) && o.Failed? == !o.Crashed?
    ensures o == Failed(false) ==> q.finished == Some(R.RolledBack) && Concluded(plan, s.desk, false)
    ensures s.faults <= old(s.faults)
  {
    hide Safe, Fits, Describes, Concluded;
    forall n: nat | n < |committed|
      ensures n in committed
    {
      assert committed[n] in committed;
    }
    forall i | 0 <= i < |plan| && i !in committed
      ensures AllOld(plan, s.desk, i)
    {
      if i !in p.intents {
        UnintendedOld(limits, plan, p, s.desk, i);
      }
    }
    o, q := RollbackCommitted(s, limits, plan, committed, p);
    if o.Done? { o := error; }
  }

  /** `abort` */
  method Abort(s: Store, limits: R.Limits, plan: seq<EditFile>, ghost p: Parsed) returns (o: Outcome, ghost q: Parsed)
    requires Ready(limits, plan, p, s.desk) && !s.poisoned
    modifies s
    ensures Safe(limits, plan, q, s.desk) && q.finished != Some(R.Committed)
    ensures o.Done? ==> q.finished == Some(R.Aborted) && Concluded(plan, s.desk, false)
    ensures s.faults <= old(s.faults) && (o.Done? || s.faults < old(s.faults))
  {
    hide Safe, Fits, Describes, Concluded;
    ValidSafe(limits, plan, p, s.desk);
    forall i | 0 <= i < |plan|
      ensures AllOld(plan, s.desk, i)
    {
      UnintendedOld(limits, plan, p, s.desk, i);
    }
    OldFits(limits, plan, p, s.desk, R.Aborted);
    o, q := Finish(s, limits, plan, R.Aborted, p);
  }
}
