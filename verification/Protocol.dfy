/** What the disk of a prepared transaction may look like, for every journal that can
    be durable. */
module Protocol {
  import opened Outcomes
  import opened Filesystem
  import opened Records
  import opened Replay
  import opened Disks
  import opened Slots

  /** A prepared transaction: its staged paths in ascending path order. */
  datatype Transaction = Transaction(limits: Limits, id: TransactionId, paths: seq<StagedPath>)

  function BackupIdentity(p: StagedPath): Option<Ino> {
    if p.backup.Some? then Some(p.backup.value.identity) else None
  }

  /** The evidence names a file with exactly this state and no foreign link. */
  predicate Exact(v: Volume, e: PresentEvidence) {
    e.identity in v.files && e.identity !in v.outside && Evidence(v, e.identity) == e
  }

  /** The slot evidence after the exact backup has been restored. */
  function RestoredEvidence(p: StagedPath): SlotEvidence
    requires p.before.Present? ==> p.backup.Some?
  {
    match p.before
    case Absent => Absent
    case Present(before) => Present(before.(identity := p.backup.value.identity))
  }

  /** What staging establishes for one path: exact evidence for the input, the staged
      output and the backup copy, all in different files. */
  predicate StagedWell(v: Volume, p: StagedPath) {
    && (p.before.Present? || p.after.Present?)
    && (p.before.Present? <==> p.backup.Some?)
    && (p.before.Present? ==>
          && Exact(v, p.before.evidence) && !p.before.evidence.permissions.readonly
          && Exact(v, p.backup.value)
          && Present(p.backup.value) == RestoredEvidence(p)
          && p.backup.value.identity != p.before.evidence.identity)
    && (p.after.Present? ==>
          && Exact(v, p.after.evidence) && !p.after.evidence.permissions.readonly
          && p.after.Identity() != p.before.Identity()
          && p.after.Identity() != BackupIdentity(p))
  }

  // The states one path passes through

  /** Staged, not yet committed. */
  function Initial(p: StagedPath): Entries {
    Entries(p.before.Identity(), p.after.Identity(), BackupIdentity(p), None)
  }

  /** A create at its two-link point. */
  function CreateLinked(p: StagedPath): Entries {
    Linked(Initial(p), Stage)
  }

  function After(p: StagedPath): Entries {
    Entries(p.after.Identity(), None, BackupIdentity(p), None)
  }

  /** A delete whose backup is being reinstalled, at its two-link point. */
  function RestoreLinked(p: StagedPath): Entries {
    Linked(After(p), Backup)
  }

  function Restored(p: StagedPath): Entries {
    Entries(BackupIdentity(p), None, None, None)
  }

  /** While a commit of the path may be under way. */
  function InFlight(p: StagedPath): set<Entries> {
    {Initial(p), After(p)} + if p.before.Absent? then {CreateLinked(p)} else {}
  }

  /** While a rollback of the path may be under way. */
  function Undoing(p: StagedPath): set<Entries> {
    InFlight(p) + {Restored(p)} + if p.after.Absent? then {RestoreLinked(p)} else {}
  }

  function Untouched(p: StagedPath): set<Entries> {
    {Initial(p), Restored(p)}
  }

  /** The states path `i` may be in, given what the journal records about it. */
  function Allowed(p: StagedPath, st: State, i: nat): set<Entries> {
    if i in st.rolledBack then Untouched(p)
    else if i in st.rollbackIntents then Undoing(p)
    else if i in st.committed then {After(p)}
    else if i in st.commitIntents then InFlight(p)
    else {Initial(p)}
  }

  // Journal progress

  function Started(st: State): nat {
    if st.lastCommitIntent.Some? then st.lastCommitIntent.value + 1 else 0
  }

  /** Commit intents were taken in index order, each completed before the next. */
  ghost predicate CommitsInOrder(st: State, n: nat) {
    && Started(st) <= n
    && (forall i: nat :: i in st.commitIntents <==> i < Started(st))
    && (forall i | i in st.committed :: i < Started(st))
    && (forall i: nat | i + 1 < Started(st) :: i in st.committed)
    && (st.phase == InPrepared <==> Started(st) == 0)
  }

  /** Rollback intents were taken downwards from `top`, each completed before the next. */
  ghost predicate RollbacksFrom(st: State, top: nat) {
    && (st.phase == InRollback <==> st.lastRollbackIntent.Some?)
    && (st.lastRollbackIntent.None? ==> st.rollbackIntents == {} && st.rolledBack == {})
    && (st.lastRollbackIntent.Some? ==>
          && st.lastRollbackIntent.value < top
          && (forall i: nat :: i in st.rollbackIntents <==> st.lastRollbackIntent.value <= i < top)
          && (forall i | i in st.rolledBack :: i in st.rollbackIntents)
          && (forall i: nat | st.lastRollbackIntent.value < i < top :: i in st.rolledBack))
  }

  /** The highest commit intent is rolled back first: recovery may resume at any point. */
  ghost predicate Resumable(st: State, n: nat) {
    CommitsInOrder(st, n) && RollbacksFrom(st, Started(st))
  }

  /** The highest commit intent left its path unchanged and rollback went below it. */
  ghost predicate Skipped(st: State, n: nat) {
    && CommitsInOrder(st, n)
    && Started(st) >= 2 && Started(st) - 1 !in st.committed
    && st.lastRollbackIntent.Some?
    && RollbacksFrom(st, Started(st) - 1)
  }

  function RecoveryPathOf(id: TransactionId, p: StagedPath, i: nat): RecoveryPath {
    RecoveryPath(i, p.path, SpecOf(p.before, true), SpecOf(p.after, false),
                 NameFor(id, i, Stage, SpecOf(p.after, false)), NameFor(id, i, Backup, SpecOf(p.before, true)),
                 p.after.Identity(), BackupIdentity(p), true)
  }

  function SpecOf(s: SlotEvidence, identity: bool): StateSpec {
    match s
    case Absent => AbsentSpec
    case Present(e) =>
      SpecPresent(PresentSpec(e.sha256, e.bytes, e.permissions, if identity then Some(e.identity) else None))
  }

  /** The journal replays, and to a state that describes exactly this transaction. */
  ghost predicate Journaled(t: Transaction, records: seq<Record>, st: State) {
    && |records| > 0
    && Parse(t.limits, records) == Ok(st)
    && st.prepared && st.transaction == t.id
    && |st.paths| == |t.paths|
    && (forall i | 0 <= i < |t.paths| :: st.paths[i] == RecoveryPathOf(t.id, t.paths[i], i))
  }

  lemma JournalAppend(t: Transaction, records: seq<Record>, st: State, r: Record, next: State)
    requires Journaled(t, records, st)
    requires Step(t.limits, st, r) == Ok(next)
    requires next.paths == st.paths && next.transaction == st.transaction && next.prepared == st.prepared
    ensures Journaled(t, records + [r], next)
  {
    ParseAppend(t.limits, records, r);
  }

  ghost predicate Staged(t: Transaction, w: World) {
    && w.Valid() && |w.live| == |t.paths|
    && forall i | 0 <= i < |t.paths| :: StagedWell(w.volume, t.paths[i])
  }

  /** A receipt, if there is one, is the receipt of this transaction. */
  predicate OwnReceipt(t: Transaction, w: World) {
    forall k | k in w.possibleControl :: k.receipt ==> w.receipt == Receipt(t.id, t.paths)
  }

  predicate JournalStays(w: World) {
    forall k | k in w.possibleControl :: k.operation && !k.undo
  }

  ghost predicate EntriesAllowed(t: Transaction, w: World, st: State) {
    && |w.possible| == |t.paths|
    && (forall i | 0 <= i < |t.paths| :: w.possible[i] <= Allowed(t.paths[i], st, i))
    && (forall i | 0 <= i < |t.paths| && i in st.rolledBack :: Synced(w, i))
  }

  /** A prepared journal with no `Finished` record. */
  ghost predicate Unfinished(t: Transaction, w: World, st: State) {
    && Staged(t, w)
    && Journaled(t, w.records, st)
    && st.finished.None? && st.phase in {InPrepared, InCommit, InRollback}
    && JournalStays(w) && OwnReceipt(t, w)
    && EntriesAllowed(t, w, st)
  }

  // After the `Finished` record

  function Trimmed(e: Entries): set<Entries> {
    {e, e.(stage := None), e.(backup := None), e.(stage := None, backup := None)}
  }

  /** The state of a committed path whose backup is retained in the state directory. */
  function Relocated(p: StagedPath): Entries {
    After(p).(backup := None, kept := BackupIdentity(p))
  }

  /** The states of a path while finished artifacts are cleaned up.  `keep` says that a
      receipt retains the backups. */
  function Finishing(p: StagedPath, committed: bool, keep: bool): set<Entries> {
    if committed then (if keep then {After(p), Relocated(p)} else Trimmed(After(p)))
    else Trimmed(Initial(p)) + {Restored(p)}
  }

  /** The states of a path once its artifacts are gone. */
  function Final(p: StagedPath, committed: bool, keep: bool): set<Entries> {
    if committed then (if keep then {Relocated(p)} else {After(p).(backup := None)})
    else {Initial(p).(stage := None, backup := None), Restored(p)}
  }

  ghost predicate EntriesFinishing(t: Transaction, w: World, committed: bool, keep: bool) {
    |w.possible| == |t.paths| && forall i | 0 <= i < |t.paths| :: w.possible[i] <= Finishing(t.paths[i], committed, keep)
  }

  ghost predicate EntriesFinal(t: Transaction, w: World, committed: bool, keep: bool) {
    |w.possible| == |t.paths| && forall i | 0 <= i < |t.paths| :: w.possible[i] <= Final(t.paths[i], committed, keep)
  }

  /** The journal carries a `Finished` record; once it may be gone, so are the artifacts
      and any transitional receipt. */
  ghost predicate FinishedAs(t: Transaction, w: World, st: State, keep: bool) {
    && Staged(t, w)
    && Journaled(t, w.records, st)
    && st.finished.Some? && st.phase == InFinished
    && FinishedDisk(t, w, st.finished == Some(Committed), keep)
  }

  /** What may be left of the receipt once the journal is gone.  A commit leaves it exactly
      when it is kept; without a commit, `keep` admits a receipt whose own directory
      synchronization was the step that failed. */
  predicate ReceiptLeft(k: Control, committed: bool, keep: bool) {
    if committed then k.receipt == keep else k.receipt ==> keep
  }

  ghost predicate FinishedDisk(t: Transaction, w: World, committed: bool, keep: bool) {
    && OwnReceipt(t, w)
    && EntriesFinishing(t, w, committed, keep)
    && (w.control.operation ==> JournalStays(w))
    && (forall k | k in w.possibleControl ::
          && !k.undo
          && (committed ==> k.receipt == keep)
          && (!k.operation ==> EntriesFinal(t, w, committed, keep) && ReceiptLeft(k, committed, keep)))
  }

  /** Nothing is pending: the journal and every artifact are gone, and the receipt is there
      exactly when a commit keeps it. */
  ghost predicate Concluded(t: Transaction, w: World, committed: bool, keep: bool) {
    && Staged(t, w)
    && EntriesFinal(t, w, committed, keep)
    && OwnReceipt(t, w)
    && forall k | k in w.possibleControl :: !k.operation && !k.undo && ReceiptLeft(k, committed, keep)
  }

  // What a reader of the tree sees

  function BeforeContent(v: Volume, p: StagedPath): Option<File> {
    Content(v, Initial(p))
  }

  function AfterContent(v: Volume, p: StagedPath): Option<File> {
    Content(v, After(p))
  }

  /** Every slot holds its committed output, and still would after a power loss. */
  ghost predicate AllAfter(t: Transaction, w: World) {
    forall i, e | 0 <= i < |t.paths| && May(w, i, e) :: Content(w.volume, e) == AfterContent(w.volume, t.paths[i])
  }

  /** Every slot holds its input bytes and permissions, or is absent as it was, and still
      would be after a power loss. */
  ghost predicate AllBefore(t: Transaction, w: World) {
    forall i, e | 0 <= i < |t.paths| && May(w, i, e) :: Content(w.volume, e) == BeforeContent(w.volume, t.paths[i])
  }

  lemma ConcludedTree(t: Transaction, w: World, committed: bool, keep: bool)
    requires Concluded(t, w, committed, keep)
    ensures if committed then AllAfter(t, w) else AllBefore(t, w)
  {
    forall i, e | 0 <= i < |t.paths| && May(w, i, e)
      ensures Content(w.volume, e) == if committed then AfterContent(w.volume, t.paths[i]) else BeforeContent(w.volume, t.paths[i])
    {
      assert StagedWell(w.volume, t.paths[i]);
      assert e in Final(t.paths[i], committed, keep);
    }
  }

  // Crashes and single steps keep a state describable

  lemma UnfinishedWithin(t: Transaction, w: World, x: World, st: State, i: nat, extra: set<Entries>)
    requires Unfinished(t, w, st) && Within(w, x, i, extra)
    requires i < |t.paths| && extra <= Allowed(t.paths[i], st, i)
    requires i in st.rolledBack ==> extra == {}
    ensures Unfinished(t, x, st)
  {
    forall j | 0 <= j < |t.paths|
      ensures x.possible[j] <= Allowed(t.paths[j], st, j)
    {
      assert w.possible[j] <= Allowed(t.paths[j], st, j);
    }
    forall j | 0 <= j < |t.paths| && j in st.rolledBack
      ensures Synced(x, j)
    {
      assert Synced(w, j);
    }
  }

  lemma UnfinishedCrash(t: Transaction, w: World, x: World, st: State)
    requires Unfinished(t, w, st) && CrashOf(w, x)
    ensures Unfinished(t, x, st) && AfterCrash(x)
  {
    CrashShrinks(w, x);
    forall j | 0 <= j < |t.paths|
      ensures x.possible[j] <= Allowed(t.paths[j], st, j)
    {
      assert w.possible[j] <= Allowed(t.paths[j], st, j);
    }
  }

  /** A record the replay accepts keeps the disk allowed when every path still is. */
  lemma UnfinishedAppend(t: Transaction, w: World, st: State, r: Record, next: State)
    requires Unfinished(t, w, st)
    requires Step(t.limits, st, r) == Ok(next) && next.paths == st.paths && next.transaction == st.transaction && next.prepared && next.finished.None?
    requires next.phase in {InPrepared, InCommit, InRollback}
    requires forall i | 0 <= i < |t.paths| :: Allowed(t.paths[i], st, i) <= Allowed(t.paths[i], next, i) || w.possible[i] <= Allowed(t.paths[i], next, i)
    requires forall i | 0 <= i < |t.paths| && i in next.rolledBack && i !in st.rolledBack :: Synced(w, i)
    ensures Unfinished(t, w.(records := w.records + [r]), next)
  {
    JournalAppend(t, w.records, st, r, next);
    forall i | 0 <= i < |t.paths|
      ensures w.possible[i] <= Allowed(t.paths[i], next, i)
    {
      assert w.possible[i] <= Allowed(t.paths[i], st, i);
    }
  }

  // The four transaction records, as state transitions

  function WithCommitIntent(st: State, i: nat): State {
    st.(phase := InCommit, commitIntents := st.commitIntents + {i}, lastCommitIntent := Some(i))
  }

  function WithCommitDone(st: State, i: nat): State {
    st.(committed := st.committed + {i})
  }

  function WithRollbackIntent(st: State, i: nat): State {
    st.(phase := InRollback, rollbackIntents := st.rollbackIntents + {i}, lastRollbackIntent := Some(i))
  }

  function WithRollbackDone(st: State, i: nat): State {
    st.(rolledBack := st.rolledBack + {i})
  }

  /** Every earlier path is committed and no rollback has begun. */
  ghost predicate Advancing(st: State, n: nat, i: nat) {
    && Resumable(st, n) && st.lastRollbackIntent.None?
    && Started(st) == i && (i > 0 ==> i - 1 in st.committed)
  }

  lemma CommitIntentStep(limits: Limits, st: State, n: nat, i: nat)
    requires Advancing(st, n, i) && i < n == |st.paths|
    requires st.phase in {InPrepared, InCommit}
    ensures Step(limits, st, CommitIntent(i)) == Ok(WithCommitIntent(st, i))
    ensures Resumable(WithCommitIntent(st, i), n)
    ensures i !in st.committed && i !in st.rollbackIntents && i !in st.rolledBack
  {
    assert i !in st.commitIntents;
    assert forall j: nat :: j in WithCommitIntent(st, i).commitIntents <==> j < i + 1;
  }

  lemma CommitDoneStep(limits: Limits, st: State, n: nat, i: nat)
    requires Resumable(st, n) && st.lastRollbackIntent.None? && st.phase == InCommit
    requires i + 1 == Started(st) && i !in st.committed
    ensures Step(limits, st, CommitDone(i)) == Ok(WithCommitDone(st, i))
    ensures Advancing(WithCommitDone(st, i), n, i + 1)
  {
    assert i in st.commitIntents;
  }

  /** Rolling back `i` next is what replay expects: it is the highest remaining intent. */
  ghost predicate RollsNext(st: State, top: nat, i: nat) {
    && i in st.commitIntents && i !in st.rollbackIntents
    && (st.lastRollbackIntent.None? ==> i + 1 == top)
    && (st.lastRollbackIntent.Some? ==> i + 1 == st.lastRollbackIntent.value && i + 1 in st.rolledBack)
  }

  lemma RollbackIntentStep(limits: Limits, st: State, n: nat, top: nat, i: nat)
    requires CommitsInOrder(st, n) && RollbacksFrom(st, top) && RollsNext(st, top, i)
    requires st.phase in {InPrepared, InCommit, InRollback}
    ensures Step(limits, st, RollbackIntent(i)) == Ok(WithRollbackIntent(st, i))
    ensures CommitsInOrder(WithRollbackIntent(st, i), n) && RollbacksFrom(WithRollbackIntent(st, i), top)
    ensures i !in st.rolledBack
  {
  }

  lemma RollbackDoneStep(limits: Limits, st: State, n: nat, top: nat, i: nat)
    requires CommitsInOrder(st, n) && RollbacksFrom(st, top)
    requires st.lastRollbackIntent == Some(i) && i !in st.rolledBack
    ensures Step(limits, st, RollbackDone(i)) == Ok(WithRollbackDone(st, i))
    ensures CommitsInOrder(WithRollbackDone(st, i), n) && RollbacksFrom(WithRollbackDone(st, i), top)
  {
  }

  // The same records, on the disk

  lemma NoteCommitIntent(t: Transaction, w: World, st: State, i: nat)
    requires Unfinished(t, w, st) && Advancing(st, |t.paths|, i) && i < |t.paths|
    ensures Unfinished(t, w.(records := w.records + [CommitIntent(i)]), WithCommitIntent(st, i))
    ensures Resumable(WithCommitIntent(st, i), |t.paths|)
  {
    CommitIntentStep(t.limits, st, |t.paths|, i);
    UnfinishedAppend(t, w, st, CommitIntent(i), WithCommitIntent(st, i));
  }

  lemma NoteCommitDone(t: Transaction, w: World, st: State, i: nat)
    requires Unfinished(t, w, st) && Resumable(st, |t.paths|) && st.lastRollbackIntent.None?
    requires i + 1 == Started(st) && i !in st.committed
    requires w.possible[i] == {After(t.paths[i])}
    ensures Unfinished(t, w.(records := w.records + [CommitDone(i)]), WithCommitDone(st, i))
    ensures Advancing(WithCommitDone(st, i), |t.paths|, i + 1)
  {
    CommitDoneStep(t.limits, st, |t.paths|, i);
    UnfinishedAppend(t, w, st, CommitDone(i), WithCommitDone(st, i));
  }

  lemma NoteRollbackIntent(t: Transaction, w: World, st: State, top: nat, i: nat)
    requires Unfinished(t, w, st) && CommitsInOrder(st, |t.paths|) && RollbacksFrom(st, top)
    requires i < |t.paths| && RollsNext(st, top, i)
    ensures Unfinished(t, w.(records := w.records + [RollbackIntent(i)]), WithRollbackIntent(st, i))
    ensures CommitsInOrder(WithRollbackIntent(st, i), |t.paths|) && RollbacksFrom(WithRollbackIntent(st, i), top)
  {
    RollbackIntentStep(t.limits, st, |t.paths|, top, i);
    UnfinishedAppend(t, w, st, RollbackIntent(i), WithRollbackIntent(st, i));
  }

  lemma NoteRollbackDone(t: Transaction, w: World, st: State, top: nat, i: nat)
    requires Unfinished(t, w, st) && CommitsInOrder(st, |t.paths|) && RollbacksFrom(st, top)
    requires i < |t.paths| && st.lastRollbackIntent == Some(i) && i !in st.rolledBack
    requires w.possible[i] <= Untouched(t.paths[i]) && Synced(w, i)
    ensures Unfinished(t, w.(records := w.records + [RollbackDone(i)]), WithRollbackDone(st, i))
    ensures CommitsInOrder(WithRollbackDone(st, i), |t.paths|) && RollbacksFrom(WithRollbackDone(st, i), top)
  {
    RollbackDoneStep(t.limits, st, |t.paths|, top, i);
    UnfinishedAppend(t, w, st, RollbackDone(i), WithRollbackDone(st, i));
  }

  /** However an append of `r` ends, the journal is described by the state before it or
      the state after it. */
  lemma AfterAppend(t: Transaction, w: World, x: World, st: State, r: Record, next: State) returns (now: State)
    requires Unfinished(t, w, st) && Unfinished(t, w.(records := w.records + [r]), next)
    requires x == w || x == w.(records := w.records + [r]) || CrashOf(w, x) || CrashOf(w.(records := w.records + [r]), x)
    ensures Unfinished(t, x, now)
    ensures now == if |x.records| == |w.records| then st else next
    ensures x != w && x != w.(records := w.records + [r]) ==> AfterCrash(x)
  {
    var written := w.(records := w.records + [r]);
    if x == w {
      now := st;
    } else if x == written {
      now := next;
    } else if CrashOf(w, x) {
      UnfinishedCrash(t, w, x, st);
      now := st;
    } else {
      UnfinishedCrash(t, written, x, next);
      now := next;
    }
  }

  // The `Finished` record

  function WithFinish(st: State, outcome: FinishOutcome): State {
    st.(finished := Some(outcome), phase := InFinished)
  }

  lemma NoteFinished(t: Transaction, w: World, st: State, outcome: FinishOutcome, keep: bool)
    requires Unfinished(t, w, st) && ValidFinish(st, outcome)
    requires EntriesFinishing(t, w, outcome == Committed, keep)
    requires outcome == Committed ==> forall k | k in w.possibleControl :: k.receipt == keep
    ensures FinishedAs(t, w.(records := w.records + [Finished(outcome)]), WithFinish(st, outcome), keep)
  {
    JournalAppend(t, w.records, st, Finished(outcome), WithFinish(st, outcome));
  }

  /** The journal a rollback writes when no commit intent ever became durable. */
  ghost predicate BareRollback(t: Transaction, w: World, st: State) {
    && Staged(t, w)
    && |w.records| > 1 && w.records[|w.records| - 1] == Finished(RolledBack)
    && Journaled(t, w.records[..|w.records| - 1], st)
    && st.finished.None? && st.commitIntents == {}
    && FinishedDisk(t, w, false, false)
  }

  /** Replay rejects that journal: a crash before its removal leaves it unrecoverable. */
  lemma BareRollbackRejected(t: Transaction, w: World, st: State)
    requires BareRollback(t, w, st)
    ensures Parse(t.limits, w.records) == Corrupt
  {
    var base := w.records[..|w.records| - 1];
    ParseAppend(t.limits, base, Finished(RolledBack));
    assert w.records == base + [Finished(RolledBack)];
  }
}
