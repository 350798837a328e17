/** The V1 edit transaction: commit, and rollback in the same process. */
module EditTransactions {
  import opened Outcomes
  import opened Filesystem
  import opened EditJournal
  import opened EditStore
  import R = Records

  datatype EditFile = EditFile(oldBytes: seq<byte>, newBytes: seq<byte>, identity: Ino)

  predicate OldTarget(f: EditFile, e: Names) {
    Holds(e.target, Sha256(f.oldBytes))
  }

  predicate NewTarget(f: EditFile, e: Names) {
    Holds(e.target, Sha256(f.newBytes))
  }

  /** As prepared: the original target, its output staged, its bytes backed up. */
  predicate AsPrepared(f: EditFile, e: Names) {
    && TargetMatches(e, Sha256(f.oldBytes), Some(f.identity))
    && Holds(e.stage, Sha256(f.newBytes)) && e.stage.value.identity != f.identity
    && Holds(e.backup, Sha256(f.oldBytes))
  }

  /** As recovery can decide it: the old bytes, or the new ones with the old ones backed up. */
  predicate Decidable(f: EditFile, e: Names) {
    OldTarget(f, e) || (NewTarget(f, e) && Holds(e.backup, Sha256(f.oldBytes)))
  }

  /** What the names of one file may show, given the journal. */
  predicate Fits(f: EditFile, p: Parsed, i: nat, e: Names) {
    match p.finished
    case None => if i in p.intents then Decidable(f, e) else AsPrepared(f, e)
    case Some(outcome) => if outcome == R.Committed then NewTarget(f, e) else OldTarget(f, e)
  }

  /** The journal is the one this plan's preparation wrote. */
  ghost predicate Describes(plan: seq<EditFile>, p: Parsed) {
    && p.prepared && p.fileCount == |plan| && (forall k: nat :: k in p.files <==> k < |plan|)
    && (forall i | 0 <= i < |plan| :: p.files[i].oldSha256 == Sha256(plan[i].oldBytes) && p.files[i].newSha256 == Sha256(plan[i].newBytes))
  }

  /** Whatever a crash here leaves, the journal says what to do about it. */
  ghost predicate Safe(limits: R.Limits, plan: seq<EditFile>, p: Parsed, w: Desk) {
    && Parse(limits, w.records) == Ok(p) && Describes(plan, p) && w.Valid() && |w.live| == |plan|
    && (forall i, e | 0 <= i < |plan| && e in w.possible[i] :: Fits(plan[i], p, i, e))
    && (p.finished.None? ==> w.possibleJournal == {true})
  }

  lemma CrashSafe(limits: R.Limits, plan: seq<EditFile>, p: Parsed, w: Desk, c: Desk)
    requires Safe(limits, plan, p, w) && CrashOf(w, c)
    ensures Safe(limits, plan, p, c)
  {
  }

  /** Another record that keeps every file fitting. */
  lemma AppendSafe(limits: R.Limits, plan: seq<EditFile>, p: Parsed, w: Desk, r: EditRecord)
    requires Safe(limits, plan, p, w) && Step(p, r).Ok? && Describes(plan, Step(p, r).value) && p.finished.None?
    requires forall i, e | 0 <= i < |plan| && e in w.possible[i] :: Fits(plan[i], Step(p, r).value, i, e)
    ensures Safe(limits, plan, Step(p, r).value, w.(records := w.records + [r]))
  {
    ParseAppend(limits, w.records, r);
  }

  /** A change of one file's names that still fits. */
  lemma MoveSafe(limits: R.Limits, plan: seq<EditFile>, p: Parsed, w: Desk, i: nat, e: Names)
    requires Safe(limits, plan, p, w) && i < |plan| && Fits(plan[i], p, i, e)
    ensures Safe(limits, plan, p, Moved(w, i, e)) && Safe(limits, plan, p, Synced(Moved(w, i, e), i))
  {
  }

  lemma SyncSafe(limits: R.Limits, plan: seq<EditFile>, p: Parsed, w: Desk, i: nat)
    requires Safe(limits, plan, p, w) && i < |plan|
    ensures Safe(limits, plan, p, Synced(w, i))
  {
  }

  /** All files but one are as they were. */
  ghost predicate OnlyFile(w: Desk, c: Desk, i: nat) {
    && |c.live| == |w.live| == |w.possible| == |c.possible| && c.journal == w.journal && c.possibleJournal == w.possibleJournal
    && forall j | 0 <= j < |w.live| && j != i :: c.live[j] == w.live[j] && c.possible[j] == w.possible[j]
  }

  /** The records apart, nothing changed. */
  ghost predicate SameFiles(w: Desk, c: Desk) {
    c == w.(records := c.records)
  }

  /** Appends a record that keeps every file fitting, whether or not it turns out durable. */
  method Note(s: Store, limits: R.Limits, plan: seq<EditFile>, r: EditRecord, ghost p: Parsed)
    returns (o: Outcome, ghost q: Parsed)
    requires Safe(limits, plan, p, s.desk) && Step(p, r).Ok? && Describes(plan, Step(p, r).value)
    requires forall i, e | 0 <= i < |plan| && e in s.desk.possible[i] :: Fits(plan[i], Step(p, r).value, i, e)
    modifies s
    ensures Safe(limits, plan, q, s.desk) && (q == p || q == Step(p, r).value)
    ensures o.Done? ==> q == Step(p, r).value && s.faults == old(s.faults) && !s.poisoned
    ensures o.Done? || s.faults < old(s.faults) || old(s.poisoned)
    ensures s.faults <= old(s.faults) && (o.Failed? ==> o.recoveryRequired && s.poisoned)
    ensures !o.Crashed? ==> SameFiles(old(s.desk), s.desk)
  {
    hide Safe, Describes, Fits;
    ghost var w := s.desk;
    AppendSafe(limits, plan, p, w, r);
    q := p;
    ValidSafe(limits, plan, p, w);
    o := s.Append(r);
    ghost var noted := w.(records := w.records + [r]);
    ghost var next := Step(p, r).value;
    if o.Crashed? {
      if CrashOf(w, s.desk) {
        CrashSafe(limits, plan, p, w, s.desk);
      } else {
        CrashSafe(limits, plan, next, noted, s.desk);
        q := next;
      }
    } else if s.desk == noted {
      q := next;
    }
  }

  lemma ValidSafe(limits: R.Limits, plan: seq<EditFile>, p: Parsed, w: Desk)
    requires Safe(limits, plan, p, w)
    ensures w.Valid() && |w.live| == |plan| && Describes(plan, p)
  {
  }

  /** Renames an artifact over the target where both states fit. */
  method Replace(s: Store, limits: R.Limits, plan: seq<EditFile>, i: nat, a: Artifact, ghost p: Parsed)
    returns (o: Outcome)
    requires Safe(limits, plan, p, s.desk) && i < |plan| && |s.desk.live| == |plan|
    requires ArtifactOf(s.desk.live[i], a).Some? && Fits(plan[i], p, i, Renamed(s.desk.live[i], a))
    modifies s
    ensures Safe(limits, plan, p, s.desk) && (!o.Crashed? ==> s.poisoned == old(s.poisoned))
    ensures if o.Done? then s.faults == old(s.faults) else s.faults < old(s.faults)
    ensures o.Failed? ==> o.recoveryRequired
    ensures o.Done? ==> s.desk == Moved(old(s.desk), i, Renamed(old(s.desk).live[i], a))
    ensures o.Failed? ==> s.desk in {old(s.desk), Moved(old(s.desk), i, Renamed(old(s.desk).live[i], a))}
  {
    hide Safe, Fits;
    ghost var w := s.desk;
    ValidSafe(limits, plan, p, w);
    ghost var moved := Moved(w, i, Renamed(w.live[i], a));
    MoveSafe(limits, plan, p, w, i, Renamed(w.live[i], a));
    o := s.RenameFrom(i, a);
    if o.Crashed? {
      if CrashOf(w, s.desk) {
        CrashSafe(limits, plan, p, w, s.desk);
      } else {
        CrashSafe(limits, plan, p, moved, s.desk);
      }
    }
  }

  method Sync(s: Store, limits: R.Limits, plan: seq<EditFile>, i: nat, ghost p: Parsed) returns (o: Outcome)
    requires Safe(limits, plan, p, s.desk) && i < |plan| && |s.desk.live| == |plan|
    modifies s
    ensures Safe(limits, plan, p, s.desk) && (!o.Crashed? ==> s.poisoned == old(s.poisoned))
    ensures if o.Done? then s.faults == old(s.faults) else s.faults < old(s.faults)
    ensures o.Done? ==> s.desk == Synced(old(s.desk), i)
    ensures o.Failed? ==> o.recoveryRequired && s.desk == old(s.desk)
  {
    hide Safe, Fits;
    ghost var w := s.desk;
    ValidSafe(limits, plan, p, w);
    SyncSafe(limits, plan, p, w, i);
    o := s.SyncParent(i);
    if o.Crashed? {
      CrashSafe(limits, plan, p, w, s.desk);
    }
  }

  // Commit of one file

  datatype FailureState = Unchanged | Changed | Ambiguous

  ghost predicate AllPrepared(plan: seq<EditFile>, w: Desk, i: nat)
    requires i < |plan| && i < |w.possible|
  {
    forall e | e in w.possible[i] :: AsPrepared(plan[i], e)
  }

  ghost predicate AllOld(plan: seq<EditFile>, w: Desk, i: nat)
    requires i < |plan| && i < |w.possible|
  {
    forall e | e in w.possible[i] :: OldTarget(plan[i], e)
  }

  /** `classify_failed_rename` */
  method ClassifyFailedRename(s: Store, plan: seq<EditFile>, index: nat) returns (state: FailureState)
    requires index < |plan| && index < |s.desk.live|
    modifies s`faults
    ensures s.faults <= old(s.faults)
    ensures state == Changed ==> NewTarget(plan[index], s.desk.live[index])
    ensures state == Unchanged ==> TargetMatches(s.desk.live[index], Sha256(plan[index].oldBytes), Some(plan[index].identity))
  {
    var f := plan[index];
    var ok := s.VerifyTarget(index, Sha256(f.newBytes), None);
    if ok { return Changed; }
    ok := s.VerifyTarget(index, Sha256(f.oldBytes), Some(f.identity));
    state := if ok then Unchanged else Ambiguous;
  }

  /** A file before its intent: recording the intent loosens what it may show. */
  lemma IntentFits(limits: R.Limits, plan: seq<EditFile>, p: Parsed, w: Desk, index: nat)
    requires Safe(limits, plan, p, w) && p.finished.None? && index < |plan| && index !in p.intents
    ensures Step(p, CommitIntent(index)) == Ok(p.(intents := p.intents + {index}))
    ensures Describes(plan, p.(intents := p.intents + {index}))
    ensures forall i, e | 0 <= i < |plan| && e in w.possible[i] :: Fits(plan[i], p.(intents := p.intents + {index}), i, e)
    ensures AllPrepared(plan, w, index) && AsPrepared(plan[index], w.live[index])
  {
  }

  /** Recording a completion or a rollback changes no file's fit. */
  lemma SameFits(limits: R.Limits, plan: seq<EditFile>, p: Parsed, w: Desk, committed: set<nat>, rollbackIntents: set<nat>)
    requires Safe(limits, plan, p, w)
    ensures var q := p.(committed := committed, rollbackIntents := rollbackIntents);
            Describes(plan, q) && forall i, e | 0 <= i < |plan| && e in w.possible[i] :: Fits(plan[i], q, i, e)
  {
  }

  lemma RenamedFits(f: EditFile, p: Parsed, i: nat, e: Names)
    requires p.finished.None? && i in p.intents
    ensures AsPrepared(f, e) ==> Fits(f, p, i, Renamed(e, Stage)) && NewTarget(f, Renamed(e, Stage)) && e.stage.Some?
    ensures Holds(e.backup, Sha256(f.oldBytes)) ==>
              Fits(f, p, i, Renamed(e, Backup)) && OldTarget(f, Renamed(e, Backup)) && e.backup.Some?
  {
  }

  /** A target that still has its original identity has not been replaced. */
  lemma StillPrepared(plan: seq<EditFile>, w: Desk, c: Desk, i: nat, state: FailureState)
    requires i < |plan| && i < |w.live| == |w.possible| && w.live[i] in w.possible[i] && AllPrepared(plan, w, i)
    requires c in {w, Moved(w, i, Renamed(w.live[i], Stage))}
    requires state == Unchanged ==> TargetMatches(c.live[i], Sha256(plan[i].oldBytes), Some(plan[i].identity))
    ensures state == Unchanged ==> c == w
  {
  }

  /** `commit_one`: `Unchanged` and `Changed` tell the truth about the file. */
  method CommitOne(s: Store, limits: R.Limits, plan: seq<EditFile>, index: nat, ghost p: Parsed)
    returns (o: Outcome, state: FailureState, ghost q: Parsed)
    requires Safe(limits, plan, p, s.desk) && p.finished.None? && index < |plan| == |s.desk.live| && index !in p.intents && index !in p.committed
    modifies s
    ensures Safe(limits, plan, q, s.desk) && |s.desk.live| == |s.desk.possible| == |plan|
    ensures q.finished.None? && q.rollbackIntents == p.rollbackIntents
    ensures s.faults <= old(s.faults) && (o.Done? || s.faults < old(s.faults) || old(s.poisoned))
    ensures !o.Crashed? ==> OnlyFile(old(s.desk), s.desk, index)
    ensures o.Done? ==> q == p.(intents := p.intents + {index}, committed := p.committed + {index}) && !s.poisoned
    ensures o.Done? ==> s.faults == old(s.faults)
    ensures o.Done? ==> s.desk.possible[index] == {s.desk.live[index]} && NewTarget(plan[index], s.desk.live[index])
    ensures q.intents == p.intents || q.intents == p.intents + {index}
    ensures o.Failed? && state == Unchanged ==> AllPrepared(plan, s.desk, index)
    ensures o.Failed? && state == Changed ==> index in q.intents && NewTarget(plan[index], s.desk.live[index])
    ensures o.Failed? && !o.recoveryRequired ==> state != Ambiguous
  {
    hide Safe, Fits, Describes;
    ValidSafe(limits, plan, p, s.desk);
    IntentFits(limits, plan, p, s.desk, index);
    q, state := p, Unchanged;
    var f := plan[index];
    var ok := s.VerifyTarget(index, Sha256(f.oldBytes), Some(f.identity));
    if !ok { return Failed(false), Unchanged, q; }
    ok := s.VerifyArtifact(index, Stage, Sha256(f.newBytes));
    if !ok { return Failed(false), Unchanged, q; }
    o, q := Note(s, limits, plan, CommitIntent(index), p);
    if !o.Done? {
      ValidSafe(limits, plan, q, s.desk);
      return;
    }
    RenamedFits(f, q, index, s.desk.live[index]);
    ghost var prepared := s.desk;
    o := Replace(s, limits, plan, index, Stage, q);
    ValidSafe(limits, plan, q, s.desk);
    if !o.Done? {
      if o.Failed? {
        state := ClassifyFailedRename(s, plan, index);
        StillPrepared(plan, prepared, s.desk, index, state);
        o := Failed(state == Ambiguous);
      }
      return;
    }
    o := Sync(s, limits, plan, index, q);
    ValidSafe(limits, plan, q, s.desk);
    if !o.Done? { return o, Changed, q; }
    SameFits(limits, plan, q, s.desk, q.committed + {index}, q.rollbackIntents);
    o, q := Note(s, limits, plan, CommitDone(index), q);
    ValidSafe(limits, plan, q, s.desk);
    state := Changed;
  }

  // Rollback and the end of a transaction

  lemma RollbackFits(limits: R.Limits, plan: seq<EditFile>, p: Parsed, w: Desk, index: nat)
    requires Safe(limits, plan, p, w) && p.finished.None? && index in p.intents && index !in p.rollbackIntents
    ensures Step(p, RollbackIntent(index)) == Ok(p.(rollbackIntents := p.rollbackIntents + {index}))
    ensures var q := p.(rollbackIntents := p.rollbackIntents + {index});
            Describes(plan, q) && forall i, e | 0 <= i < |plan| && e in w.possible[i] :: Fits(plan[i], q, i, e)
  {
  }

  /** `rollback_one` */
  method RollbackOne(s: Store, limits: R.Limits, plan: seq<EditFile>, index: nat, ghost p: Parsed)
    returns (o: Outcome, ghost q: Parsed)
    requires Safe(limits, plan, p, s.desk) && p.finished.None? && index < |plan| == |s.desk.live|
    requires index in p.intents && index !in p.rollbackIntents
    modifies s
    ensures Safe(limits, plan, q, s.desk) && |s.desk.live| == |s.desk.possible| == |plan|
    ensures q == p.(rollbackIntents := q.rollbackIntents) && p.rollbackIntents <= q.rollbackIntents <= p.rollbackIntents + {index}
    ensures o.Failed? ==> o.recoveryRequired
    ensures s.faults <= old(s.faults) && (!o.Crashed? ==> OnlyFile(old(s.desk), s.desk, index))
    ensures o.Done? ==> s.desk.possible[index] == {s.desk.live[index]} && OldTarget(plan[index], s.desk.live[index])
  {
    hide Safe, Fits, Describes;
    ValidSafe(limits, plan, p, s.desk);
    q := p;
    var f := plan[index];
    var ok := s.VerifyTarget(index, Sha256(f.newBytes), None);
    if !ok { return Failed(true), q; }
    ok := s.VerifyArtifact(index, Backup, Sha256(f.oldBytes));
    if !ok { return Failed(true), q; }
    RollbackFits(limits, plan, p, s.desk, index);
    o, q := Note(s, limits, plan, RollbackIntent(index), p);
    ValidSafe(limits, plan, q, s.desk);
    if !o.Done? { return; }
    RenamedFits(f, q, index, s.desk.live[index]);
    o := Replace(s, limits, plan, index, Backup, q);
    ValidSafe(limits, plan, q, s.desk);
    if !o.Done? { return; }
    o := Sync(s, limits, plan, index, q);
    ValidSafe(limits, plan, q, s.desk);
    if !o.Done? { return; }
    SameFits(limits, plan, q, s.desk, q.committed, q.rollbackIntents);
    ghost var same := q;
    o, q := Note(s, limits, plan, RollbackDone(index), q);
    assert q == same;
    ValidSafe(limits, plan, q, s.desk);
  }

  lemma WithoutFits(f: EditFile, p: Parsed, i: nat, e: Names, a: Artifact)
    requires p.finished.Some?
    ensures Fits(f, p, i, e) ==> Fits(f, p, i, Without(e, a))
  {
  }

  /** The two artifacts of the first `n` files are gone. */
  ghost predicate CleanTo(w: Desk, n: nat) {
    n <= |w.live| && forall i | 0 <= i < n :: w.live[i].stage.None? && w.live[i].backup.None?
  }

  lemma LiveFits(limits: R.Limits, plan: seq<EditFile>, p: Parsed, w: Desk, i: nat)
    requires Safe(limits, plan, p, w) && i < |plan|
    ensures |w.live| == |plan| && Fits(plan[i], p, i, w.live[i])
  {
  }

  /** One artifact of a finished transaction. */
  method RemoveOne(s: Store, limits: R.Limits, plan: seq<EditFile>, i: nat, a: Artifact, ghost p: Parsed)
    returns (o: Outcome)
    requires Safe(limits, plan, p, s.desk) && p.finished.Some? && i < |plan| == |s.desk.live|
    modifies s
    ensures Safe(limits, plan, p, s.desk) && |s.desk.live| == |plan| && (o.Failed? ==> o.recoveryRequired)
    ensures if o.Done? then s.faults == old(s.faults) else s.faults < old(s.faults)
    ensures o.Done? ==> s.desk.live == old(s.desk).live[i := Without(old(s.desk).live[i], a)]
  {
    hide Safe, Fits;
    ghost var w := s.desk;
    ValidSafe(limits, plan, p, w);
    LiveFits(limits, plan, p, w, i);
    WithoutFits(plan[i], p, i, w.live[i], a);
    MoveSafe(limits, plan, p, w, i, Without(w.live[i], a));
    o := s.RemoveArtifact(i, a);
    if o.Crashed? {
      if CrashOf(w, s.desk) {
        CrashSafe(limits, plan, p, w, s.desk);
      } else {
        CrashSafe(limits, plan, p, Moved(w, i, Without(w.live[i], a)), s.desk);
      }
    }
    ValidSafe(limits, plan, p, s.desk);
  }

  /** `cleanup_staged` and `cleanup_recovered` */
  method Cleanup(s: Store, limits: R.Limits, plan: seq<EditFile>, ghost p: Parsed) returns (o: Outcome)
    requires Safe(limits, plan, p, s.desk) && p.finished.Some? && |plan| == |s.desk.live|
    modifies s
    ensures Safe(limits, plan, p, s.desk) && |s.desk.live| == |plan| && (o.Failed? ==> o.recoveryRequired)
    ensures if o.Done? then s.faults == old(s.faults) else s.faults < old(s.faults)
    ensures o.Done? ==> CleanTo(s.desk, |plan|)
  {
    hide Safe, Fits;
    for i := 0 to |plan|
      invariant Safe(limits, plan, p, s.desk) && |s.desk.live| == |plan| && CleanTo(s.desk, i) && s.faults == old(s.faults)
    {
      o := RemoveOne(s, limits, plan, i, Stage, p);
      if !o.Done? { return; }
      o := RemoveOne(s, limits, plan, i, Backup, p);
      if !o.Done? { return; }
    }
    o := Done;
  }

  /** The transaction is over: its journal and artifacts are gone and every target is as decided. */
  ghost predicate Concluded(plan: seq<EditFile>, w: Desk, committed: bool) {
    && |w.live| == |plan| && !w.journal && CleanTo(w, |plan|)
    && forall i | 0 <= i < |plan| :: if committed then NewTarget(plan[i], w.live[i]) else OldTarget(plan[i], w.live[i])
  }

  lemma SafeTargets(limits: R.Limits, plan: seq<EditFile>, p: Parsed, w: Desk)
    requires Safe(limits, plan, p, w) && p.finished.Some?
    ensures forall i | 0 <= i < |plan| ::
              if p.finished == Some(R.Committed) then NewTarget(plan[i], w.live[i]) else OldTarget(plan[i], w.live[i])
  {
    forall i | 0 <= i < |plan|
      ensures if p.finished == Some(R.Committed) then NewTarget(plan[i], w.live[i]) else OldTarget(plan[i], w.live[i])
    {
      LiveFits(limits, plan, p, w, i);
    }
  }

  lemma JournalGone(limits: R.Limits, plan: seq<EditFile>, p: Parsed, w: Desk)
    requires Safe(limits, plan, p, w) && p.finished.Some?
    ensures var gone := w.(journal := false, possibleJournal := w.possibleJournal + {false});
            Safe(limits, plan, p, gone) && Safe(limits, plan, p, gone.(possibleJournal := {false}))
  {
  }

  /** The cleanup after the end is on record, and then the journal's removal. */
  method Retire(s: Store, limits: R.Limits, plan: seq<EditFile>, ghost p: Parsed) returns (o: Outcome)
    requires Safe(limits, plan, p, s.desk) && p.finished.Some? && |plan| == |s.desk.live|
    modifies s
    ensures Safe(limits, plan, p, s.desk) && (o.Failed? ==> o.recoveryRequired)
    ensures if o.Done? then s.faults == old(s.faults) else s.faults < old(s.faults)
    ensures o.Done? ==> Concluded(plan, s.desk, p.finished == Some(R.Committed))
  {
    hide Safe, Fits;
    o := Cleanup(s, limits, plan, p);
    if !o.Done? { return; }
    ghost var w := s.desk;
    ValidSafe(limits, plan, p, w);
    JournalGone(limits, plan, p, w);
    o := s.RemoveJournal();
    if o.Crashed? {
      if CrashOf(w, s.desk) {
        CrashSafe(limits, plan, p, w, s.desk);
      } else {
        CrashSafe(limits, plan, p, w.(journal := false, possibleJournal := w.possibleJournal + {false}), s.desk);
      }
    }
    SafeTargets(limits, plan, p, s.desk);
  }

  /** Records the outcome, once every file fits it, and retires the transaction. */
  method Finish(s: Store, limits: R.Limits, plan: seq<EditFile>, outcome: R.FinishOutcome, ghost p: Parsed)
    returns (o: Outcome, ghost q: Parsed)
    requires Safe(limits, plan, p, s.desk) && p.finished.None? && |plan| == |s.desk.live|
    requires forall i, e | 0 <= i < |plan| && e in s.desk.possible[i] :: Fits(plan[i], p.(finished := Some(outcome)), i, e)
    modifies s
    ensures Safe(limits, plan, q, s.desk) && (q == p || q == p.(finished := Some(outcome))) && (o.Failed? ==> o.recoveryRequired)
    ensures s.faults <= old(s.faults) && (o.Done? || s.faults < old(s.faults) || old(s.poisoned))
    ensures o.Done? ==> q.finished == Some(outcome) && Concluded(plan, s.desk, outcome == R.Committed)
  {
    hide Safe, Fits, Describes;
    ValidSafe(limits, plan, p, s.desk);
    FinishedDescribes(plan, p, outcome);
    o, q := Note(s, limits, plan, Finished(outcome), p);
    ValidSafe(limits, plan, q, s.desk);
    if !o.Done? { return; }
    o := Retire(s, limits, plan, q);
  }

  lemma FinishedDescribes(plan: seq<EditFile>, p: Parsed, outcome: R.FinishOutcome)
    requires Describes(plan, p)
    ensures Describes(plan, p.(finished := Some(outcome)))
  {
  }
}
