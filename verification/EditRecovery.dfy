/** V1 recovery: decided by hashes alone. */
module EditRecovery {
  import opened Outcomes
  import opened Filesystem
  import opened EditJournal
  import opened EditStore
  import opened EditTransactions
  import R = Records

  /** Every file shows only what recovery can decide. */
  ghost predicate FilesFit(plan: seq<EditFile>, p: Parsed, w: Desk) {
    && Describes(plan, p) && w.Valid() && |w.live| == |plan|
    && forall i, e | 0 <= i < |plan| && e in w.possible[i] :: Fits(plan[i], p, i, e)
  }

  lemma CrashFits(plan: seq<EditFile>, p: Parsed, w: Desk, c: Desk)
    requires CrashOf(w, c)
    ensures FilesFit(plan, p, w) ==> FilesFit(plan, p, c)
  {
  }

  lemma MoveFits(plan: seq<EditFile>, p: Parsed, w: Desk, i: nat, e: Names)
    requires i < |w.live| == |w.possible| && (FilesFit(plan, p, w) ==> i < |plan| && Fits(plan[i], p, i, e))
    ensures FilesFit(plan, p, w) ==> FilesFit(plan, p, Moved(w, i, e)) && FilesFit(plan, p, Synced(Moved(w, i, e), i))
  {
  }

  lemma RecordsFit(plan: seq<EditFile>, p: Parsed, w: Desk, records: seq<EditRecord>)
    ensures FilesFit(plan, p, w) <==> FilesFit(plan, p, w.(records := records))
  {
  }

  /** The records one restored file adds. */
  function RestoreRecords(i: nat): seq<EditRecord> {
    [RollbackIntent(i), RollbackDone(i)]
  }

  /** The file is to be restored: exactly the new bytes, and exactly the old ones backed up. */
  predicate Restorable(p: Parsed, e: Names, i: nat) {
    && i in p.files && i in p.intents
    && Holds(e.target, p.files[i].newSha256) && !Holds(e.target, p.files[i].oldSha256)
    && Holds(e.backup, p.files[i].oldSha256)
  }

  /** Appends a record to a journal that need not replay. */
  method Note(s: Store, r: EditRecord, ghost plan: seq<EditFile>, ghost p: Parsed) returns (o: Outcome)
    requires s.Valid()
    modifies s
    ensures s.Valid() && s.faults <= old(s.faults) && |s.desk.live| == |old(s.desk).live|
    ensures s.desk.records == old(s.desk).records || s.desk.records == old(s.desk).records + [r]
    ensures s.desk.possibleJournal <= old(s.desk).possibleJournal
    ensures !o.Crashed? ==> SameFiles(old(s.desk), s.desk)
    ensures o.Done? ==> s.desk.records == old(s.desk).records + [r] && s.faults == old(s.faults) && !s.poisoned
    ensures o.Done? || s.faults < old(s.faults) || old(s.poisoned)
    ensures old(FilesFit(plan, p, s.desk)) ==> FilesFit(plan, p, s.desk)
  {
    hide FilesFit;
    ghost var w := s.desk;
    ghost var noted := w.(records := w.records + [r]);
    RecordsFit(plan, p, w, noted.records);
    o := s.Append(r);
    if o.Crashed? {
      if CrashOf(w, s.desk) { CrashFits(plan, p, w, s.desk); } else { CrashFits(plan, p, noted, s.desk); }
    }
  }

  /** Restores the target from its backup, durably. */
  method RestoreTarget(s: Store, i: nat, ghost plan: seq<EditFile>, ghost p: Parsed) returns (o: Outcome)
    requires s.Valid() && i < |s.desk.live| && s.desk.live[i].backup.Some?
    requires FilesFit(plan, p, s.desk) ==> i < |plan| && Fits(plan[i], p, i, Renamed(s.desk.live[i], Backup))
    modifies s
    ensures s.Valid() && |s.desk.live| == |old(s.desk).live| && s.desk.records == old(s.desk).records
    ensures if o.Done? then s.faults == old(s.faults) else s.faults < old(s.faults)
    ensures s.desk.possibleJournal <= old(s.desk).possibleJournal
    ensures !o.Crashed? ==> OnlyFile(old(s.desk), s.desk, i) && s.poisoned == old(s.poisoned)
    ensures o.Done? ==> s.desk.live[i] == Renamed(old(s.desk).live[i], Backup) && s.desk.possible[i] == {s.desk.live[i]}
    ensures o.Failed? ==> s.desk.live[i] in {old(s.desk).live[i], Renamed(old(s.desk).live[i], Backup)}
    ensures old(FilesFit(plan, p, s.desk)) ==> FilesFit(plan, p, s.desk)
  {
    hide FilesFit, Fits;
    ghost var w := s.desk;
    ghost var moved := Moved(w, i, Renamed(w.live[i], Backup));
    MoveFits(plan, p, w, i, Renamed(w.live[i], Backup));
    o := s.RenameFrom(i, Backup);
    if !o.Done? {
      if o.Crashed? {
        if CrashOf(w, s.desk) { CrashFits(plan, p, w, s.desk); } else { CrashFits(plan, p, moved, s.desk); }
      }
      return;
    }
    o := s.SyncParent(i);
    if o.Crashed? { CrashFits(plan, p, moved, s.desk); }
  }

  /** `restore_file`: an intent, the rename, its synchronization, and the completion. */
  method RestoreFile(s: Store, p: Parsed, i: nat, ghost plan: seq<EditFile>) returns (o: Outcome)
    requires s.Valid() && i < |s.desk.live| && i in p.files && i in p.intents && p.finished.None?
    modifies s
    ensures s.Valid() && s.faults <= old(s.faults)
    ensures old(s.desk).records <= s.desk.records <= old(s.desk).records + RestoreRecords(i)
    ensures s.desk.possibleJournal <= old(s.desk).possibleJournal && |s.desk.live| == |old(s.desk).live|
    ensures !o.Crashed? ==> OnlyFile(old(s.desk), s.desk, i)
    ensures o.Done? ==> Holds(old(s.desk).live[i].backup, p.files[i].oldSha256)
                        && s.desk.live[i] == Renamed(old(s.desk).live[i], Backup) && s.desk.possible[i] == {s.desk.live[i]}
    ensures o.Done? ==> s.desk.records == old(s.desk).records + RestoreRecords(i) && !s.poisoned && s.faults == old(s.faults)
    ensures o.Failed? ==> s.desk.live[i] == old(s.desk).live[i]
                          || (Holds(old(s.desk).live[i].backup, p.files[i].oldSha256) && s.desk.live[i] == Renamed(old(s.desk).live[i], Backup))
    ensures !Holds(old(s.desk).live[i].backup, p.files[i].oldSha256) ==> o == Failed(true) && s.desk == old(s.desk)
    ensures o.Done? || s.faults < old(s.faults) || old(s.poisoned) || !Holds(old(s.desk).live[i].backup, p.files[i].oldSha256)
    ensures old(FilesFit(plan, p, s.desk)) ==> FilesFit(plan, p, s.desk)
  {
    hide FilesFit, Fits;
    var ok := s.VerifyArtifact(i, Backup, p.files[i].oldSha256);
    if !ok { return Failed(true); }
    o := Note(s, RollbackIntent(i), plan, p);
    if !o.Done? { return; }
    BackupFits(plan, p, s.desk, i);
    o := RestoreTarget(s, i, plan, p);
    if !o.Done? { return; }
    o := Note(s, RollbackDone(i), plan, p);
  }

  /** Restoring a file from a backup of its old bytes leaves it decidable. */
  lemma BackupFits(plan: seq<EditFile>, p: Parsed, w: Desk, i: nat)
    requires i in p.files && i in p.intents && p.finished.None? && i < |w.live|
    requires Holds(w.live[i].backup, p.files[i].oldSha256)
    ensures FilesFit(plan, p, w) ==> i < |plan| && Fits(plan[i], p, i, Renamed(w.live[i], Backup))
  {
  }

  function Restored(order: seq<nat>): seq<EditRecord> {
    if order == [] then [] else Restored(order[..|order| - 1]) + RestoreRecords(order[|order| - 1])
  }

  lemma RestoredNext(order: seq<nat>, i: nat)
    ensures Restored(order + [i]) == Restored(order) + RestoreRecords(i)
  {
    assert (order + [i])[..|order|] == order;
  }

  /** The files restored, from the highest index down: each exactly new, with its old bytes backed up. */
  ghost predicate Descending(p: Parsed, w: Desk, order: seq<nat>, low: nat) {
    && (forall n | 0 <= n < |order| :: low <= order[n] < |w.live| && Restorable(p, w.live[order[n]], order[n]))
    && (forall m, n | 0 <= m < n < |order| :: order[m] > order[n])
  }

  /** File `j` was restored, or is as it was. */
  ghost predicate FileResolved(w: Desk, c: Desk, order: seq<nat>, j: nat)
    requires j < |w.live| == |c.live| == |w.possible| == |c.possible|
  {
    if j in order then c.live[j] == Renamed(w.live[j], Backup) && c.possible[j] == {c.live[j]}
    else c.live[j] == w.live[j] && c.possible[j] == w.possible[j]
  }

  lemma FitDecides(plan: seq<EditFile>, p: Parsed, w: Desk, i: nat)
    requires FilesFit(plan, p, w) && p.finished.None? && i in p.intents && i in p.files
    ensures i < |w.live| && w.live[i].target.Some?
    ensures Holds(w.live[i].target, p.files[i].oldSha256)
            || (Holds(w.live[i].target, p.files[i].newSha256) && Holds(w.live[i].backup, p.files[i].oldSha256))
  {
    assert w.live[i] in w.possible[i];
  }

  /** One file of `rollback_unfinished`. */
  method RecoverOne(s: Store, p: Parsed, i: nat, ghost plan: seq<EditFile>) returns (o: Outcome, ghost restored: bool)
    requires s.Valid() && p.finished.None? && i < |s.desk.live|
    modifies s
    ensures s.Valid() && |s.desk.live| == |old(s.desk).live| && s.faults <= old(s.faults)
    ensures restored ==> Restorable(p, old(s.desk).live[i], i)
    ensures old(s.desk).records <= s.desk.records <= old(s.desk).records + if restored then RestoreRecords(i) else []
    ensures s.desk.possibleJournal <= old(s.desk).possibleJournal
    ensures !o.Crashed? ==> OnlyFile(old(s.desk), s.desk, i)
                            && (s.desk.live[i] == old(s.desk).live[i] || (restored && s.desk.live[i] == Renamed(old(s.desk).live[i], Backup)))
    ensures o.Done? ==> s.desk.records == old(s.desk).records + if restored then RestoreRecords(i) else []
    ensures o.Done? ==> s.faults == old(s.faults) && (s.poisoned ==> old(s.poisoned))
    ensures o.Done? ==>
              if restored then s.desk.live[i] == Renamed(old(s.desk).live[i], Backup) && s.desk.possible[i] == {s.desk.live[i]}
                        else s.desk == old(s.desk)
    ensures o.Done? && i in p.files && i in p.intents ==> Holds(s.desk.live[i].target, p.files[i].oldSha256)
    ensures o.Done? || s.faults < old(s.faults) || old(s.poisoned) || !old(FilesFit(plan, p, s.desk))
    ensures old(FilesFit(plan, p, s.desk)) ==> FilesFit(plan, p, s.desk)
  {
    hide FilesFit, Fits;
    restored := false;
    if i !in p.files || i !in p.intents { return Done, false; }
    if FilesFit(plan, p, s.desk) { FitDecides(plan, p, s.desk, i); }
    var hash := s.TargetHash(i);
    if hash.None? { return Failed(true), false; }
    if hash.value == p.files[i].oldSha256 { return Done, false; }
    if hash.value != p.files[i].newSha256 { return Failed(true), false; }
    restored := Holds(s.desk.live[i].backup, p.files[i].oldSha256);
    o := RestoreFile(s, p, i, plan);
  }

  /** `rollback_unfinished`, from any state: a target changes only when it holds exactly the new
      bytes under an intent and its backup exactly the old ones; any other mismatch stops it. */
  method RollbackUnfinished(s: Store, p: Parsed, ghost plan: seq<EditFile>) returns (o: Outcome, ghost order: seq<nat>)
    requires s.Valid() && p.finished.None? && p.fileCount <= |s.desk.live| && forall k | k in p.files :: k < p.fileCount
    modifies s
    ensures s.Valid() && |s.desk.live| == |old(s.desk).live| && s.faults <= old(s.faults)
    ensures old(s.desk).records <= s.desk.records <= old(s.desk).records + Restored(order)
    ensures Descending(p, old(s.desk), order, 0)
    ensures s.desk.possibleJournal <= old(s.desk).possibleJournal && (!o.Crashed? ==> s.desk.journal == old(s.desk).journal)
    ensures !o.Crashed? ==> forall j | 0 <= j < |s.desk.live| :: Foreign(old(s.desk), s.desk, order, j)
    ensures o.Done? ==> s.desk.records == old(s.desk).records + Restored(order)
    ensures o.Done? ==> s.faults == old(s.faults) && (s.poisoned ==> old(s.poisoned))
    ensures o.Done? ==> forall j | 0 <= j < |s.desk.live| :: FileResolved(old(s.desk), s.desk, order, j)
    ensures o.Done? ==> forall j | j in p.files && j in p.intents :: Holds(s.desk.live[j].target, p.files[j].oldSha256)
    ensures o.Done? || s.faults < old(s.faults) || old(s.poisoned) || !old(FilesFit(plan, p, s.desk))
    ensures old(FilesFit(plan, p, s.desk)) ==> FilesFit(plan, p, s.desk)
  {
    hide FilesFit, Fits, Restored, Descending, FileResolved, Foreign, Holds;
    ghost var w := s.desk;
    order := [];
    var i := p.fileCount;
    NoneRestored(p, w, i);
    while i > 0
      invariant 0 <= i <= p.fileCount <= |s.desk.live| == |w.live| && s.Valid()
      invariant s.desk.records == w.records + Restored(order) && Descending(p, w, order, i)
      invariant s.desk.possibleJournal == w.possibleJournal && s.desk.journal == w.journal
      invariant s.faults == old(s.faults) && (s.poisoned ==> old(s.poisoned))
      invariant forall j | 0 <= j < |w.live| :: FileResolved(w, s.desk, order, j)
      invariant forall j | j in p.files && j in p.intents && j >= i :: Holds(s.desk.live[j].target, p.files[j].oldSha256)
      invariant FilesFit(plan, p, w) ==> FilesFit(plan, p, s.desk)
      decreases i
    {
      ghost var now, before := s.desk, order;
      i := i - 1;
      ghost var restored;
      o, restored := RecoverOne(s, p, i, plan);
      if restored { order := before + [i]; }
      Resolved(p, w, now, before, i, restored);
      if o.Crashed? { return; }
      if o.Failed? {
        StillForeign(w, now, s.desk, before, i, restored, order);
        return;
      }
      StillResolved(w, now, s.desk, before, i, restored, order);
    }
    AllForeign(w, s.desk, order);
    o := Done;
  }

  /** File `j` was restored from its backup, or is as it was. */
  ghost predicate Foreign(w: Desk, c: Desk, order: seq<nat>, j: nat)
    requires j < |w.live| == |c.live|
  {
    c.live[j] == w.live[j] || (j in order && c.live[j] == Renamed(w.live[j], Backup))
  }

  lemma NoneRestored(p: Parsed, w: Desk, low: nat)
    requires w.Valid()
    ensures Restored([]) == [] && Descending(p, w, [], low) && forall j | 0 <= j < |w.live| :: FileResolved(w, w, [], j)
  {
  }

  lemma AllForeign(w: Desk, c: Desk, order: seq<nat>)
    requires |w.live| == |c.live| == |w.possible| == |c.possible|
    requires forall j | 0 <= j < |w.live| :: FileResolved(w, c, order, j)
    ensures forall j | 0 <= j < |w.live| :: Foreign(w, c, order, j)
  {
    forall j | 0 <= j < |w.live| ensures Foreign(w, c, order, j) {
      assert FileResolved(w, c, order, j);
    }
  }

  /** The order with the next file's decision. */
  lemma Resolved(p: Parsed, w: Desk, c: Desk, order: seq<nat>, i: nat, restored: bool)
    requires Descending(p, w, order, i + 1) && i < |w.live| == |c.live| == |w.possible| == |c.possible|
    requires FileResolved(w, c, order, i) && (restored ==> Restorable(p, c.live[i], i))
    ensures Descending(p, w, if restored then order + [i] else order, i) && i !in order
    ensures Descending(p, w, if restored then order + [i] else order, 0)
    ensures c.live[i] == w.live[i] && c.possible[i] == w.possible[i]
    ensures Restored(if restored then order + [i] else order) == Restored(order) + if restored then RestoreRecords(i) else []
  {
    hide Restorable, Restored;
    RestoredNext(order, i);
    var next := order + [i];
    assert forall n | 0 <= n < |order| :: next[n] == order[n];
  }

  lemma StillForeign(w: Desk, c: Desk, d: Desk, order: seq<nat>, i: nat, restored: bool, next: seq<nat>)
    requires next == if restored then order + [i] else order
    requires i < |w.live| == |c.live| == |w.possible| == |c.possible| && i !in order && OnlyFile(c, d, i)
    requires forall j | 0 <= j < |w.live| :: FileResolved(w, c, order, j)
    requires d.live[i] == c.live[i] || (restored && d.live[i] == Renamed(c.live[i], Backup))
    ensures forall j | 0 <= j < |w.live| :: Foreign(w, d, next, j)
  {
    forall j | 0 <= j < |w.live|
      ensures Foreign(w, d, next, j)
    {
      assert FileResolved(w, c, order, j) && FileResolved(w, c, order, i);
    }
  }

  lemma StillResolved(w: Desk, c: Desk, d: Desk, order: seq<nat>, i: nat, restored: bool, next: seq<nat>)
    requires next == if restored then order + [i] else order
    requires i < |w.live| == |c.live| == |w.possible| == |c.possible| && i !in order && OnlyFile(c, d, i)
    requires forall j | 0 <= j < |w.live| :: FileResolved(w, c, order, j)
    requires if restored then d.live[i] == Renamed(w.live[i], Backup) && d.possible[i] == {d.live[i]} else d == c
    ensures forall j | 0 <= j < |w.live| :: FileResolved(w, d, next, j)
  {
    forall j | 0 <= j < |w.live|
      ensures FileResolved(w, d, next, j)
    {
      assert FileResolved(w, c, order, j);
    }
  }
}
