/** V1 runs: one crash anywhere, then a recovery that completes. */
module EditRuns {
  import opened Outcomes
  import opened Filesystem
  import opened EditJournal
  import opened EditStore
  import opened EditTransactions
  import opened EditCommits
  import opened EditRecovery
  import R = Records

  /** `verify_finished`: every target of a committed journal is new; of a finished one, every
      intended target is old. */
  method VerifyFinished(s: Store, p: Parsed, committed: bool) returns (ok: bool)
    requires p.fileCount <= |s.desk.live| && forall k | k in p.files :: k < p.fileCount
    modifies s`faults
    ensures s.faults <= old(s.faults)
    ensures ok ==> s.faults == old(s.faults)
    ensures ok ==> forall k | k in p.files && (committed || k in p.intents) ::
              Holds(s.desk.live[k].target, if committed then p.files[k].newSha256 else p.files[k].oldSha256)
    ensures !ok && s.faults == old(s.faults) ==>
              exists k | k in p.files && (committed || k in p.intents) ::
                !Holds(s.desk.live[k].target, if committed then p.files[k].newSha256 else p.files[k].oldSha256)
  {
    for i := 0 to p.fileCount
      invariant s.faults == old(s.faults)
      invariant forall k | k in p.files && k < i && (committed || k in p.intents) ::
                  Holds(s.desk.live[k].target, if committed then p.files[k].newSha256 else p.files[k].oldSha256)
    {
      if i in p.files && (committed || i in p.intents) {
        ok := s.VerifyTarget(i, if committed then p.files[i].newSha256 else p.files[i].oldSha256, None);
        if !ok { return; }
      }
    }
    ok := true;
  }

  /** The targets are untouched and the artifacts of the first `n` listed files are gone. */
  ghost predicate CleanedTo(p: Parsed, w: Desk, c: Desk, n: nat) {
    && |c.live| == |w.live| == |c.possible| && c.records == w.records && c.journal == w.journal && c.possibleJournal == w.possibleJournal
    && (forall i | 0 <= i < |w.live| :: c.live[i].target == w.live[i].target)
    && (forall i | 0 <= i < |w.live| && i < n && i in p.files :: c.live[i].stage.None? && c.live[i].backup.None?)
  }

  /** Both artifacts of one file. */
  method RemovePair(s: Store, i: nat) returns (o: Outcome)
    requires s.Valid() && i < |s.desk.live|
    modifies s
    ensures s.Valid() && |s.desk.live| == |old(s.desk).live| && s.desk.records == old(s.desk).records
    ensures if o.Done? then s.faults == old(s.faults) else s.faults < old(s.faults)
    ensures !o.Crashed? ==> OnlyFile(old(s.desk), s.desk, i) && s.desk.live[i].target == old(s.desk).live[i].target
    ensures o.Done? ==> s.desk.live[i].stage.None? && s.desk.live[i].backup.None?
  {
    o := s.RemoveArtifact(i, Stage);
    if o.Done? { o := s.RemoveArtifact(i, Backup); }
  }

  /** `cleanup_recovered` */
  method CleanupRecovered(s: Store, p: Parsed) returns (o: Outcome)
    requires s.Valid() && p.fileCount <= |s.desk.live|
    modifies s
    ensures s.Valid() && |s.desk.live| == |old(s.desk).live| && s.desk.records == old(s.desk).records
    ensures if o.Done? then s.faults == old(s.faults) else s.faults < old(s.faults)
    ensures o.Done? ==> CleanedTo(p, old(s.desk), s.desk, p.fileCount)
    ensures o.Failed? ==> forall i | 0 <= i < |s.desk.live| :: s.desk.live[i].target == old(s.desk).live[i].target
  {
    for i := 0 to p.fileCount
      invariant s.Valid() && CleanedTo(p, old(s.desk), s.desk, i) && s.faults == old(s.faults)
    {
      if i in p.files {
        o := RemovePair(s, i);
        if !o.Done? { return; }
      }
    }
    o := Done;
  }

  /** What recovery may do to one target, from any state. */
  ghost predicate TargetKept(p: Parsed, w: Desk, c: Desk, i: nat)
    requires i < |w.live| == |c.live|
  {
    || c.live[i].target == w.live[i].target
    || (p.finished.None? && Restorable(p, w.live[i], i) && c.live[i].target == w.live[i].backup)
  }

  /** `recover_state` */
  method RecoverState(s: Store, p: Parsed, ghost plan: seq<EditFile>) returns (o: Outcome)
    requires s.Valid() && p.fileCount <= |s.desk.live| && forall k | k in p.files :: k < p.fileCount
    modifies s
    ensures s.Valid() && |s.desk.live| == |old(s.desk).live| && s.faults <= old(s.faults)
    ensures !o.Crashed? ==> forall i | 0 <= i < |s.desk.live| :: TargetKept(p, old(s.desk), s.desk, i)
    ensures o.Done? ==> s.faults == old(s.faults) && s.desk.journal == old(s.desk).journal
    ensures o.Done? && p.finished == Some(R.Committed) ==>
              forall k | k in p.files :: Holds(s.desk.live[k].target, p.files[k].newSha256)
    ensures o.Done? && p.finished != Some(R.Committed) ==>
              forall k | k in p.files && k in p.intents :: Holds(s.desk.live[k].target, p.files[k].oldSha256)
    ensures o.Done? || s.faults < old(s.faults) || old(s.poisoned) || !old(FilesFit(plan, p, s.desk))
  {
    hide FilesFit, Fits, Restored, FileResolved;
    ghost var w := s.desk;
    if p.finished.Some? {
      var committed := p.finished.value == R.Committed;
      var ok := VerifyFinished(s, p, committed);
      FinishedFits(plan, p, w);
      o := if ok then Done else Failed(true);
    } else if p.intents == {} {
      o := s.Append(Finished(R.Aborted));
    } else {
      ghost var order;
      o, order := RollbackUnfinished(s, p, plan);
      if !o.Crashed? { KeptTargets(p, w, s.desk, order); }
      if !o.Done? { return; }
      ghost var restored := s.desk;
      o := s.Append(Finished(R.RolledBack));
      if !o.Crashed? { SameTargets(p, w, restored, s.desk); }
    }
  }

  lemma SameTargets(p: Parsed, w: Desk, c: Desk, d: Desk)
    requires |w.live| == |c.live| == |d.live| && forall i | 0 <= i < |w.live| :: TargetKept(p, w, c, i) && d.live[i].target == c.live[i].target
    ensures forall i | 0 <= i < |w.live| :: TargetKept(p, w, d, i)
  {
    forall i | 0 <= i < |w.live|
      ensures TargetKept(p, w, d, i)
    {
      assert TargetKept(p, w, c, i);
    }
  }

  lemma KeptTargets(p: Parsed, w: Desk, c: Desk, order: seq<nat>)
    requires |w.live| == |c.live| && p.finished.None? && Descending(p, w, order, 0)
    requires forall j | 0 <= j < |w.live| :: Foreign(w, c, order, j)
    ensures forall i | 0 <= i < |w.live| :: TargetKept(p, w, c, i)
  {
    forall i | 0 <= i < |w.live|
      ensures TargetKept(p, w, c, i)
    {
      assert Foreign(w, c, order, i);
    }
  }

  /** A finished transaction whose files fit is verified. */
  lemma FinishedFits(plan: seq<EditFile>, p: Parsed, w: Desk)
    requires p.finished.Some?
    ensures FilesFit(plan, p, w) ==>
              forall k | k in p.files ::
                k < |w.live|
                && Holds(w.live[k].target, if p.finished.value == R.Committed then p.files[k].newSha256 else p.files[k].oldSha256)
  {
    if FilesFit(plan, p, w) {
      forall k | k in p.files
        ensures k < |w.live| && Holds(w.live[k].target, if p.finished.value == R.Committed then p.files[k].newSha256 else p.files[k].oldSha256)
      {
        assert w.live[k] in w.possible[k];
      }
    }
  }

  /** `recover_transaction`.  From any state, a target changes only when it holds exactly the new
      bytes under an intent and its backup exactly the old ones.  After a crash of a commit, an
      abort or a rollback, a recovery that completes leaves every target with its new bytes if the
      journal finished as committed and otherwise every target with its old bytes. */
  method Recover(s: Store, limits: R.Limits, ghost plan: seq<EditFile>, ghost q: Parsed) returns (o: Outcome)
    requires s.Valid()
    requires Parse(limits, s.desk.records).Ok? ==>
               var p := Parse(limits, s.desk.records).value; p.fileCount <= |s.desk.live| && forall k | k in p.files :: k < p.fileCount
    modifies s
    ensures s.Valid() && |s.desk.live| == |old(s.desk).live|
    ensures !o.Crashed? && Parse(limits, old(s.desk).records).Corrupt? ==>
              forall i | 0 <= i < |s.desk.live| :: s.desk.live[i].target == old(s.desk).live[i].target
    ensures !o.Crashed? && Parse(limits, old(s.desk).records).Ok? ==>
              forall i | 0 <= i < |s.desk.live| :: TargetKept(Parse(limits, old(s.desk).records).value, old(s.desk), s.desk, i)
    ensures o.Done? && old(Safe(limits, plan, q, s.desk)) && old(s.desk).journal ==>
              Concluded(plan, s.desk, q.finished == Some(R.Committed))
    ensures !old(s.desk).journal && !o.Crashed? ==> s.desk == old(s.desk)
    ensures old(Safe(limits, plan, q, s.desk)) ==> o.Done? || s.faults < old(s.faults)
  {
    hide FilesFit, Fits, Parse, Safe, Concluded;
    ghost var w := s.desk;
    s.poisoned := false;
    if !s.desk.journal { return Done; }
    var strikes := s.Trouble();
    if strikes { return Failed(true); }
    if Safe(limits, plan, q, w) { SafeParses(limits, plan, q, w); }
    if s.desk.records == [] {
      NothingParses(limits);
      o := s.RemoveJournal();
      return;
    }
    var parsed := ParseJournal(limits, s.desk.records);
    if parsed.Corrupt? { return Failed(true); }
    var p := parsed.value;
    o := RecoverState(s, p, plan);
    if !o.Done? { return; }
    ghost var decided := s.desk;
    o := CleanupRecovered(s, p);
    if !o.Crashed? { SameTargets(p, w, decided, s.desk); }
    if !o.Done? { return; }
    ghost var cleaned := s.desk;
    o := s.RemoveJournal();
    if !o.Crashed? { SameTargets(p, w, cleaned, s.desk); }
    if o.Done? && Safe(limits, plan, q, w) {
      RecoveredTargets(plan, q, w, decided, s.desk);
    }
  }

  lemma SafeParses(limits: R.Limits, plan: seq<EditFile>, q: Parsed, w: Desk)
    requires Safe(limits, plan, q, w)
    ensures Parse(limits, w.records) == Ok(q) && FilesFit(plan, q, w) && w.records != []
  {
  }

  lemma NothingParses(limits: R.Limits)
    ensures Parse(limits, []).Corrupt?
  {
  }

  /** What verification or restoration established, cleanup kept. */
  lemma RecoveredTargets(plan: seq<EditFile>, q: Parsed, w: Desk, decided: Desk, c: Desk)
    requires FilesFit(plan, q, w) && |w.live| == |decided.live| == |c.live| && !c.journal
    requires forall i | 0 <= i < |w.live| :: TargetKept(q, w, decided, i)
    requires q.finished == Some(R.Committed) ==> forall k | k in q.files :: Holds(decided.live[k].target, q.files[k].newSha256)
    requires q.finished != Some(R.Committed) ==>
               forall k | k in q.files && k in q.intents :: Holds(decided.live[k].target, q.files[k].oldSha256)
    requires forall i | 0 <= i < |w.live| :: c.live[i].target == decided.live[i].target
    requires forall i | 0 <= i < |w.live| && i in q.files :: c.live[i].stage.None? && c.live[i].backup.None?
    ensures Concluded(plan, c, q.finished == Some(R.Committed))
  {
    forall i | 0 <= i < |plan|
      ensures if q.finished == Some(R.Committed) then NewTarget(plan[i], c.live[i]) else OldTarget(plan[i], c.live[i])
    {
      assert TargetKept(q, w, decided, i) && w.live[i] in w.possible[i];
    }
  }

  /** One V1 commit and, if it leaves something behind, one recovery: after a crash anywhere in the
      commit or its rollback, a recovery that completes ends with every target new when the commit
      was finished on record, and every target old otherwise. */
  method CommitThenRecover(s: Store, limits: R.Limits, plan: seq<EditFile>, ghost p: Parsed)
    returns (o: Outcome, ghost committed: bool)
    requires Ready(limits, plan, p, s.desk) && !s.poisoned && Describes(plan, p)
    modifies s
    ensures o.Done? ==> if committed then forall i | 0 <= i < |plan| :: i < |s.desk.live| && NewTarget(plan[i], s.desk.live[i])
                        else forall i | 0 <= i < |plan| :: i < |s.desk.live| && OldTarget(plan[i], s.desk.live[i])
    ensures o.Done? ==> !s.desk.journal
    ensures old(s.faults) == 0 ==> o.Done? && committed
  {
    hide Safe, Fits, Describes;
    ghost var q;
    o, q := Commit(s, limits, plan, p);
    committed := q.finished == Some(R.Committed);
    if o.Done? { return; }
    SafeOpens(limits, plan, q, s.desk);
    ghost var left := s.desk;
    o := Recover(s, limits, plan, q);
    if o.Done? && !left.journal {
      SafeTargets(limits, plan, q, left);
    }
  }

  lemma SafeOpens(limits: R.Limits, plan: seq<EditFile>, q: Parsed, w: Desk)
    requires Safe(limits, plan, q, w)
    ensures w.Valid() && Parse(limits, w.records) == Ok(q) && q.fileCount <= |w.live| == |plan| && (forall k | k in q.files :: k < q.fileCount)
    ensures !w.journal ==> q.finished.Some?
  {
  }

  // Why only one crash

  /** None of these files had a rollback intent already. */
  ghost predicate Fresh(p: Parsed, order: seq<nat>) {
    forall n | 0 <= n < |order| :: order[n] !in p.rollbackIntents
  }

  /** Replay of a whole rollback pass on top of a journal. */
  lemma {:induction false} RestoredRuns(p: Parsed, order: seq<nat>)
    requires p.prepared && p.finished.None?
    requires forall n | 0 <= n < |order| :: order[n] in p.intents
    requires forall m, n | 0 <= m < n < |order| :: order[m] != order[n]
    ensures Run(p, Restored(order)).Ok? <==> Fresh(p, order)
    ensures Run(p, Restored(order)).Ok? ==>
              Run(p, Restored(order)).value == p.(rollbackIntents := p.rollbackIntents + Listed(order))
    decreases |order|
  {
    hide Run, Restored, Listed, Fresh;
    if order == [] {
      NoneRun(p);
    } else {
      var most, last := order[..|order| - 1], order[|order| - 1];
      assert order == most + [last] && last !in most;
      RestoredRuns(p, most);
      var base := Restored(most);
      RestoredNext(most, last);
      assert base + RestoreRecords(last) == base + [RollbackIntent(last)] + [RollbackDone(last)];
      RunAppend(p, base, RollbackIntent(last));
      RunAppend(p, base + [RollbackIntent(last)], RollbackDone(last));
      FreshNext(p, most, last);
    }
  }

  function Listed(order: seq<nat>): set<nat> {
    set i | i in order
  }

  lemma NoneRun(p: Parsed)
    ensures Run(p, Restored([])) == Ok(p) && Fresh(p, []) && Listed([]) == {}
  {
  }

  lemma FreshNext(p: Parsed, order: seq<nat>, i: nat)
    ensures Fresh(p, order + [i]) <==> Fresh(p, order) && i !in p.rollbackIntents
    ensures Listed(order + [i]) == Listed(order) + {i} && (i !in order ==> i !in Listed(order))
  {
    assert (order + [i])[|order|] == i;
    assert forall n | 0 <= n < |order| :: (order + [i])[n] == order[n];
  }

  /** Whether the journal can be read again after a recovery that crashed in its rollback pass, after
      a completion or after an intent: exactly when none of the files it was restoring had a
      rollback intent already. */
  lemma {:induction false} ReadableIff(limits: R.Limits, records: seq<EditRecord>, p: Parsed, order: seq<nat>, i: nat)
    requires Parse(limits, records) == Ok(p) && p.prepared && p.finished.None? && i in p.intents && i !in order
    requires forall n | 0 <= n < |order| :: order[n] in p.intents
    requires forall m, n | 0 <= m < n < |order| :: order[m] != order[n]
    ensures Parse(limits, records + Restored(order)).Ok? <==> Fresh(p, order)
    ensures Parse(limits, records + Restored(order) + [RollbackIntent(i)]).Ok? <==> Fresh(p, order + [i])
  {
    RestoredRuns(p, order);
    ParseMore(limits, records, p, Restored(order));
    ParseMore(limits, records, p, Restored(order) + [RollbackIntent(i)]);
    assert records + Restored(order) + [RollbackIntent(i)] == records + (Restored(order) + [RollbackIntent(i)]);
    RunAppend(p, Restored(order), RollbackIntent(i));
    FreshNext(p, order, i);
  }

  /** A file whose restoration was cut short after its intent: recovery has to restore it again, and
      a crash right after the second intent leaves a journal nobody can read. */
  lemma SecondCrash()
    ensures exists limits: R.Limits, plan: seq<EditFile>, p: Parsed, w: Desk ::
              && Safe(limits, plan, p, w) && p.finished.None? && |plan| == 1 && Restorable(p, w.live[0], 0)
              && Parse(limits, w.records + [RollbackIntent(0)]).Corrupt?
  {
    hide Run, Step, Parse, Safe;
    var limits := R.Limits(1, 1, 1, 0);
    var p, records := InterruptedJournal();
    var e := Names(Some(Node([1], 1)), None, Some(Node([], 2)));
    var w := Desk([e], [{e}], records, true, {true});
    InterruptedSafe(limits, p, w, e);
    ParseAppend(limits, records, RollbackIntent(0));
    AgainCorrupt(p);
  }

  lemma AgainCorrupt(p: Parsed)
    requires 0 in p.rollbackIntents
    ensures Step(p, RollbackIntent(0)).Corrupt?
  {
  }

  lemma InterruptedSafe(limits: R.Limits, p: Parsed, w: Desk, e: Names)
    requires Parse(limits, w.records) == Ok(p) && w == Desk([e], [{e}], w.records, true, {true})
    requires e == Names(Some(Node([1], 1)), None, Some(Node([], 2)))
    requires p.prepared && p.fileCount == 1 && p.finished.None? && 0 in p.intents
    requires p.files == map[0 := FileRecord(R.PathName(0, 0), Sha256([]), Sha256([1]), 0, 1, 0)]
    ensures Safe(limits, [EditFile([], [1], 0)], p, w) && Restorable(p, w.live[0], 0)
  {
  }

  /** The journal of one file whose restoration was begun. */
  lemma InterruptedJournal() returns (p: Parsed, records: seq<EditRecord>)
    ensures Parse(R.Limits(1, 1, 1, 0), records) == Ok(p) && p.prepared && p.finished.None? && p.fileCount == 1
    ensures p.files == map[0 := FileRecord(R.PathName(0, 0), Sha256([]), Sha256([1]), 0, 1, 0)]
    ensures 0 in p.intents && 0 in p.rollbackIntents
  {
    hide Run, Parse;
    var limits := R.Limits(1, 1, 1, 0);
    var prepared := OneFileJournal();
    ParseAppend(limits, prepared, CommitIntent(0));
    ParseAppend(limits, prepared + [CommitIntent(0)], CommitDone(0));
    ParseAppend(limits, prepared + [CommitIntent(0)] + [CommitDone(0)], RollbackIntent(0));
    records := prepared + [CommitIntent(0)] + [CommitDone(0)] + [RollbackIntent(0)];
    p := Parse(limits, records).value;
  }

  lemma OneFileJournal() returns (prepared: seq<EditRecord>)
    ensures Parse(R.Limits(1, 1, 1, 0), prepared) ==
            Ok(Parsed(0, 1, map[0 := FileRecord(R.PathName(0, 0), Sha256([]), Sha256([1]), 0, 1, 0)], true, {}, {}, {}, None))
  {
    var file := FileRecord(R.PathName(0, 0), Sha256([]), Sha256([1]), 0, 1, 0);
    prepared := [Header(0, 1), PreparedFile(0, file), Prepared(1)];
    var start := Start(R.Limits(1, 1, 1, 0), prepared[0]).value;
    assert prepared[1..] == [PreparedFile(0, file)] + [Prepared(1)];
    RunAppend(start, [], PreparedFile(0, file));
    assert [] + [PreparedFile(0, file)] == [PreparedFile(0, file)];
    RunAppend(start, [PreparedFile(0, file)], Prepared(1));
  }
}
