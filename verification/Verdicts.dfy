/** What crash recovery decides about one path, from its journal and what the probes
    report; the disk may hold anything. */
module Verdicts {
  import opened Outcomes
  import opened Filesystem
  import opened Records
  import opened Replay
  import opened Disks
  import opened Slots

  // Evidence against the journal

  predicate MatchesEvidence(spec: PresentSpec, actual: PresentEvidence, identity: Option<Ino>) {
    && spec.sha256 == actual.sha256
    && spec.bytes == actual.bytes
    && spec.permissions == actual.permissions
    && (identity.Some? ==> identity.value == actual.identity)
  }

  predicate MatchesPresent(spec: PresentSpec, actual: SlotEvidence, identity: Option<Ino>) {
    actual.Present? && MatchesEvidence(spec, actual.evidence, identity)
  }

  predicate MatchesBefore(p: RecoveryPath, actual: SlotEvidence) {
    match p.before
    case AbsentSpec => actual == Absent
    case SpecPresent(spec) =>
      MatchesPresent(spec, actual, spec.identity) || MatchesPresent(spec, actual, p.backupIdentity)
  }

  predicate MatchesAfter(p: RecoveryPath, actual: SlotEvidence) {
    match p.after
    case AbsentSpec => actual == Absent
    case SpecPresent(spec) =>
      MatchesPresent(spec, actual, if p.stageIdentity.Some? then p.stageIdentity else spec.identity)
  }

  // The two-link intermediates

  datatype Linkage = NotLinked | ExactLink | ForeignLink

  function LinkageOf(same: Probe<bool>, linked: Probe<PresentEvidence>, spec: StateSpec, identity: Option<Ino>): Linkage {
    match same
    case NotFound => NotLinked
    case Unsafe => ForeignLink
    case Found(alias) =>
      if !alias then NotLinked
      else if linked.Found? && spec.SpecPresent? && MatchesEvidence(spec.spec, linked.value, identity) then ExactLink
      else ForeignLink
  }

  function LinkedCreate(p: RecoveryPath, v: Volume, e: Entries): Linkage {
    if !p.before.AbsentSpec? || p.stageName.None? then NotLinked
    else LinkageOf(SameFile(v, e, e.stage), NameState(v, e, e.stage, 2), p.after, p.stageIdentity)
  }

  function LinkedRestore(p: RecoveryPath, v: Volume, e: Entries): Linkage {
    if !p.before.SpecPresent? || !p.after.AbsentSpec? || p.backupName.None? then NotLinked
    else LinkageOf(SameFile(v, e, e.backup), NameState(v, e, e.backup, 2), p.before, p.backupIdentity)
  }

  // Verdicts

  datatype Verdict = Keep | Attest | FinishRestore | ReverseCreate | PutBack | Refuse

  /** The decision one iteration of recovery's rollback loop takes for path `i`. */
  function Judge(st: State, i: nat, v: Volume, e: Entries): Verdict
    requires i < |st.paths|
  {
    var p := st.paths[i];
    match LinkedRestore(p, v, e)
    case ForeignLink => Refuse
    case ExactLink => if i in st.rolledBack || i !in st.rollbackIntents then Refuse else FinishRestore
    case NotLinked =>
      match LinkedCreate(p, v, e)
      case ForeignLink => Refuse
      case ExactLink => if i in st.rolledBack || i !in st.commitIntents then Refuse else ReverseCreate
      case NotLinked =>
        match SlotState(v, e)
        case NotFound => Refuse
        case Unsafe => Refuse
        case Found(actual) =>
          if i in st.rolledBack then (if MatchesBefore(p, actual) then Keep else Refuse)
          else if MatchesBefore(p, actual) then (if i in st.commitIntents then Attest else Keep)
          else if i !in st.commitIntents || !MatchesAfter(p, actual) then Refuse
          else PutBack
  }

  /** The backup a present input is restored from still has its exact evidence. */
  predicate BackupMatches(p: RecoveryPath, v: Volume, e: Entries) {
    && p.before.SpecPresent? && p.backupName.Some?
    && ArtifactState(v, e, Backup).Found?
    && MatchesEvidence(p.before.spec, ArtifactState(v, e, Backup).value, p.backupIdentity)
  }

  /** Besides, as a slot it would be accepted. */
  predicate BackupIntact(p: RecoveryPath, v: Volume, e: Entries) {
    BackupMatches(p, v, e) && !ArtifactState(v, e, Backup).value.permissions.readonly
  }

  /** Nothing but a fault can stop the verdict from being carried out. */
  predicate Feasible(st: State, i: nat, v: Volume, e: Entries)
    requires i < |st.paths|
  {
    match Judge(st, i, v, e)
    case Refuse => false
    case PutBack => st.paths[i].before.SpecPresent? ==> BackupIntact(st.paths[i], v, e)
    case FinishRestore => st.paths[i].backupIdentity.Some? && e.slot.Some? && e.slot.value in v.files && !v.files[e.slot.value].permissions.readonly
    case _ => true
  }

  /** Where a carried-out verdict leaves the entries. */
  function Target(st: State, i: nat, v: Volume, e: Entries): Entries
    requires i < |st.paths|
  {
    match Judge(st, i, v, e)
    case FinishRestore => e.(backup := None)
    case ReverseCreate => e.(slot := None)
    case PutBack =>
      if st.paths[i].before.AbsentSpec? then e.(slot := None)
      else if BackupMatches(st.paths[i], v, e) then Installed(e, Backup)
      else e
    case _ => e
  }

  /** Every state the entries may pass through on the way. */
  function Reach(st: State, i: nat, v: Volume, e: Entries): set<Entries>
    requires i < |st.paths|
  {
    match Judge(st, i, v, e)
    case PutBack =>
      if st.paths[i].before.AbsentSpec? then {e.(slot := None)}
      else if BackupMatches(st.paths[i], v, e) then {Installed(e, Backup)} + (if e.slot.None? then {Linked(e, Backup)} else {})
      else {}
    case FinishRestore => {Target(st, i, v, e)}
    case ReverseCreate => {Target(st, i, v, e)}
    case _ => {}
  }

  function MissingIntent(st: State, i: nat): seq<Record> {
    if i in st.rollbackIntents then [] else [RollbackIntent(i)]
  }

  /** The disk once a rollback intent of path `i` is durable. */
  function Marked(st: State, w: World, i: nat): World {
    w.(records := w.records + MissingIntent(st, i))
  }

  /** Path `i` settled at `e` with its rollback completion durable. */
  function Completed(w: World, i: nat, e: Entries): World
    requires i < |w.live| == |w.possible|
  {
    w.(live := w.live[i := e], possible := w.possible[i := {e}], records := w.records + [RollbackDone(i)])
  }

  /** The disk after the loop has dealt with path `i`. */
  function PathDone(st: State, w: World, i: nat): World
    requires i < |st.paths| <= |w.live| == |w.possible|
  {
    if Judge(st, i, w.volume, w.live[i]) in {Keep, Refuse} then w
    else Completed(Marked(st, w, i), i, Target(st, i, w.volume, w.live[i]))
  }

  /** Every disk an interruption may leave while the loop deals with path `i`. */
  ghost predicate PathHalted(st: State, w: World, x: World, i: nat)
    requires i < |st.paths| <= |w.live| == |w.possible|
  {
    || Within(w, x, i, {})
    || (Judge(st, i, w.volume, w.live[i]) !in {Keep, Refuse}
        && (|| Within(Marked(st, w, i), x, i, Reach(st, i, w.volume, w.live[i]))
            || Within(PathDone(st, w, i), x, i, {})))
  }

  /** The disk after the loop has dealt with every path from `i` upwards. */
  function Swept(st: State, w: World, i: nat): (x: World)
    requires i <= |st.paths| <= |w.live| == |w.possible|
    ensures |x.live| == |x.possible| == |w.live| && x.volume == w.volume
    decreases |st.paths| - i
  {
    if i == |st.paths| then w else PathDone(st, Swept(st, w, i + 1), i)
  }

  /** The sweep touches each path once, at its own turn. */
  lemma {:induction false} SweptElsewhere(st: State, w: World, i: nat, j: nat)
    requires i <= |st.paths| <= |w.live| == |w.possible| && j < |w.live|
    ensures j < i ==> Swept(st, w, i).live[j] == w.live[j] && Swept(st, w, i).possible[j] == w.possible[j]
    ensures i <= j < |st.paths| ==>
              Swept(st, w, i).live[j] == Swept(st, w, j).live[j] && Swept(st, w, i).possible[j] == Swept(st, w, j).possible[j]
    ensures |st.paths| <= j ==> Swept(st, w, i).live[j] == w.live[j] && Swept(st, w, i).possible[j] == w.possible[j]
    ensures Swept(st, w, i).control == w.control && Swept(st, w, i).possibleControl == w.possibleControl
    ensures Swept(st, w, i).receipt == w.receipt && Swept(st, w, i).undoRecords == w.undoRecords && Swept(st, w, i).kills == w.kills
    decreases |st.paths| - i
  {
    hide PathDone;
    if i < |st.paths| {
      SweptElsewhere(st, w, i + 1, j);
      DoneElsewhere(st, Swept(st, w, i + 1), i, j);
    }
  }

  lemma DoneElsewhere(st: State, w: World, i: nat, j: nat)
    requires i < |st.paths| <= |w.live| == |w.possible| && j < |w.live|
    ensures var x := PathDone(st, w, i);
            && (j != i ==> x.live[j] == w.live[j] && x.possible[j] == w.possible[j])
            && x.control == w.control && x.possibleControl == w.possibleControl
            && x.receipt == w.receipt && x.undoRecords == w.undoRecords && x.kills == w.kills
  {
    hide Judge, Target;
  }

  /** What the sweep does to one path depends on that path alone. */
  lemma SweptAt(st: State, w: World, j: nat)
    requires |st.paths| <= |w.live| == |w.possible| && j < |st.paths|
    ensures var verdict := Judge(st, j, w.volume, w.live[j]);
            if verdict in {Keep, Refuse}
            then Swept(st, w, 0).live[j] == w.live[j] && Swept(st, w, 0).possible[j] == w.possible[j]
            else Swept(st, w, 0).live[j] == Target(st, j, w.volume, w.live[j]) && Swept(st, w, 0).possible[j] == {Swept(st, w, 0).live[j]}
  {
    SweptElsewhere(st, w, j + 1, j);
    SweptElsewhere(st, w, 0, j);
  }
}
