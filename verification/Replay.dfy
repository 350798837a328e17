/** Replay of the operation journal: the transitions one record may make. */
module Replay {
  import opened Outcomes
  import opened Filesystem
  import opened Records

  datatype Phase = InOperations | InPaths | InStaged | InPrepared | InCommit | InRollback | InFinished

  datatype Endpoint = Endpoint(sha256: Digest, bytes: nat)

  datatype ExpectedPath = ExpectedPath(path: PathName, before: Option<Endpoint>, after: Option<Endpoint>)

  datatype RecoveryPath = RecoveryPath(
    index: nat,
    path: PathName,
    before: StateSpec,
    after: StateSpec,
    stageName: Option<ArtifactName>,
    backupName: Option<ArtifactName>,
    stageIdentity: Option<Ino>,
    backupIdentity: Option<Ino>,
    staged: bool)

  datatype State = State(
    transaction: TransactionId,
    operationTotal: nat,
    pathTotal: nat,
    phase: Phase,
    operationCount: nat,
    expected: map<nat, ExpectedPath>,
    inputs: set<nat>,
    outputs: set<nat>,
    paths: seq<RecoveryPath>,
    pathKeys: set<nat>,
    stagedCount: nat,
    prepared: bool,
    commitIntents: set<nat>,
    committed: set<nat>,
    rollbackIntents: set<nat>,
    rolledBack: set<nat>,
    finished: Option<FinishOutcome>,
    lastCommitIntent: Option<nat>,
    lastRollbackIntent: Option<nat>)

  /** The replay of a header alone. */
  function Start(limits: Limits, header: Record): Result<State> {
    if header.Header?
       && 0 < header.operationCount <= limits.maxFiles
       && 0 < header.pathCount <= limits.maxFiles
    then
      Ok(State(header.transaction, header.operationCount, header.pathCount, InOperations,
               0, map[], {}, {}, [], {}, 0, false, {}, {}, {}, {}, None, None, None))
    else Corrupt
  }

  // Operation records

  predicate ValidShape(o: OperationRecord) {
    match o.kind
    case Modify => o.source.Some? && o.destination.None? && o.oldSha256.Some? && o.newSha256.Some?
    case Create =>
      o.source.None? && o.destination.Some? && o.oldSha256.None? && o.newSha256.Some?
      && o.bytesBefore == 0 && o.editCount == 0
    case Delete =>
      o.source.Some? && o.destination.None? && o.oldSha256.Some? && o.newSha256.None?
      && o.bytesAfter == 0 && o.editCount == 0
    case Rename => o.source.Some? && o.destination.Some? && o.oldSha256.Some? && o.newSha256.Some?
    case Unknown => false
  }

  /** The path an operation reads, with its evidence. */
  function InputOf(o: OperationRecord): Option<(PathName, Endpoint)> {
    if o.source.Some? && o.oldSha256.Some?
    then Some((o.source.value, Endpoint(o.oldSha256.value, o.bytesBefore)))
    else None
  }

  /** The path an operation produces, with its evidence. */
  function OutputOf(o: OperationRecord): Option<(PathName, Endpoint)> {
    var path := if o.kind == Modify then o.source else o.destination;
    if path.Some? && o.newSha256.Some?
    then Some((path.value, Endpoint(o.newSha256.value, o.bytesAfter)))
    else None
  }

  function RegisterInput(st: State, input: Option<(PathName, Endpoint)>): Result<State> {
    if input.None? then Ok(st)
    else
      var (path, evidence) := input.value;
      if path.key in st.inputs then Corrupt
      else
        var entry := if path.key in st.expected then st.expected[path.key] else ExpectedPath(path, None, None);
        if entry.path != path then Corrupt
        else Ok(st.(inputs := st.inputs + {path.key},
                    expected := st.expected[path.key := entry.(before := Some(evidence))]))
  }

  function RegisterOutput(st: State, output: Option<(PathName, Endpoint)>): Result<State> {
    if output.None? then Ok(st)
    else
      var (path, evidence) := output.value;
      if path.key in st.outputs then Corrupt
      else
        var entry := if path.key in st.expected then st.expected[path.key] else ExpectedPath(path, None, None);
        if entry.path != path then Corrupt
        else Ok(st.(outputs := st.outputs + {path.key},
                    expected := st.expected[path.key := entry.(after := Some(evidence))]))
  }

  predicate ValidOperation(limits: Limits, o: OperationRecord) {
    && ValidShape(o)
    && o.bytesBefore <= limits.maxSourceBytes
    && o.bytesAfter <= limits.maxOutputBytes
    && o.editCount <= limits.maxEdits
  }

  function ApplyOperation(limits: Limits, st: State, index: nat, o: OperationRecord): Result<State> {
    if st.phase != InOperations || index != st.operationCount || index >= st.operationTotal
       || !ValidOperation(limits, o)
    then Corrupt
    else
      match RegisterInput(st, InputOf(o))
      case Corrupt => Corrupt
      case Ok(read) =>
        match RegisterOutput(read, OutputOf(o))
        case Corrupt => Corrupt
        case Ok(written) => Ok(written.(operationCount := st.operationCount + 1))
  }

  // Path records

  predicate WithinLimits(limits: Limits, spec: StateSpec, before: bool) {
    spec.SpecPresent? ==>
      && spec.spec.bytes <= (if before then limits.maxSourceBytes else limits.maxOutputBytes)
      && (before ==> spec.spec.identity.Some?)
  }

  predicate MatchesEndpoint(expected: Option<Endpoint>, actual: StateSpec) {
    match actual
    case AbsentSpec => expected.None?
    case SpecPresent(spec) => expected == Some(Endpoint(spec.sha256, spec.bytes))
  }

  predicate ExpectedAs(expected: map<nat, ExpectedPath>, path: PathName, before: StateSpec, after: StateSpec) {
    && path.key in expected
    && expected[path.key].path == path
    && MatchesEndpoint(expected[path.key].before, before)
    && MatchesEndpoint(expected[path.key].after, after)
  }

  function NameFor(transaction: TransactionId, index: nat, artifact: Artifact, state: StateSpec): Option<ArtifactName> {
    if state.SpecPresent? then Some(ArtifactName(transaction, index, artifact)) else None
  }

  predicate ArtifactContract(transaction: TransactionId, index: nat, before: StateSpec, after: StateSpec,
                             stageName: Option<ArtifactName>, backupName: Option<ArtifactName>)
  {
    && stageName == NameFor(transaction, index, Stage, after)
    && backupName == NameFor(transaction, index, Backup, before)
    && (before.SpecPresent? || after.SpecPresent?)
  }

  function ApplyPathIntent(limits: Limits, st: State, r: Record): Result<State>
    requires r.PathIntent?
  {
    if (st.phase == InOperations && st.operationCount != st.operationTotal)
       || (st.phase != InOperations && st.phase != InPaths)
       || r.index != |st.paths| || r.index >= st.pathTotal
       || r.path.key in st.pathKeys
       || (exists k | k in st.pathKeys :: k > r.path.key)
       || !WithinLimits(limits, r.before, true) || !WithinLimits(limits, r.after, false)
       || !ExpectedAs(st.expected, r.path, r.before, r.after)
       || !ArtifactContract(st.transaction, r.index, r.before, r.after, r.stageName, r.backupName)
    then Corrupt
    else
      Ok(st.(phase := InPaths,
             pathKeys := st.pathKeys + {r.path.key},
             paths := st.paths + [RecoveryPath(r.index, r.path, r.before, r.after,
                                               r.stageName, r.backupName, None, None, false)]))
  }

  predicate StagedIdentityMatches(p: RecoveryPath, stageIdentity: Option<Ino>, backupIdentity: Option<Ino>) {
    && stageIdentity.Some? == p.after.SpecPresent?
    && backupIdentity.Some? == p.before.SpecPresent?
    && (p.after.SpecPresent? && p.after.spec.identity.Some? ==> p.after.spec.identity == stageIdentity)
  }

  function ApplyPathStaged(st: State, index: nat, stageIdentity: Option<Ino>, backupIdentity: Option<Ino>): Result<State> {
    if (st.phase == InPaths && |st.paths| != st.pathTotal)
       || (st.phase != InPaths && st.phase != InStaged)
       || st.stagedCount >= |st.paths|
       || st.paths[st.stagedCount].index != index || st.paths[st.stagedCount].staged
       || !StagedIdentityMatches(st.paths[st.stagedCount], stageIdentity, backupIdentity)
    then Corrupt
    else
      var p := st.paths[st.stagedCount].(stageIdentity := stageIdentity, backupIdentity := backupIdentity, staged := true);
      Ok(st.(phase := InStaged, paths := st.paths[st.stagedCount := p], stagedCount := st.stagedCount + 1))
  }

  predicate CoversExpected(expected: map<nat, ExpectedPath>, paths: seq<RecoveryPath>) {
    && |expected| == |paths|
    && forall i | 0 <= i < |paths| :: ExpectedAs(expected, paths[i].path, paths[i].before, paths[i].after)
  }

  function ApplyPrepared(st: State, operationCount: nat, pathCount: nat): Result<State> {
    if st.phase != InStaged || operationCount != st.operationTotal || pathCount != st.pathTotal
       || st.operationCount != st.operationTotal || |st.paths| != st.pathTotal
       || st.stagedCount != |st.paths| || !CoversExpected(st.expected, st.paths)
    then Corrupt
    else Ok(st.(prepared := true, phase := InPrepared))
  }

  // Transaction records

  function ApplyCommitIntent(st: State, index: nat): Result<State> {
    if (st.phase != InPrepared && st.phase != InCommit)
       || index >= |st.paths|
       || (st.lastCommitIntent.Some? && st.lastCommitIntent.value !in st.committed)
       || index in st.commitIntents
       || (st.lastCommitIntent.Some? && index <= st.lastCommitIntent.value)
    then Corrupt
    else Ok(st.(phase := InCommit, commitIntents := st.commitIntents + {index}, lastCommitIntent := Some(index)))
  }

  function ApplyCommitDone(st: State, index: nat): Result<State> {
    if st.phase != InCommit || index !in st.commitIntents || index in st.committed
       || st.lastCommitIntent != Some(index)
    then Corrupt
    else Ok(st.(committed := st.committed + {index}))
  }

  function ApplyRollbackIntent(st: State, index: nat): Result<State> {
    if (st.phase != InCommit && st.phase != InRollback)
       || index !in st.commitIntents
       || (st.lastRollbackIntent.Some? && st.lastRollbackIntent.value !in st.rolledBack)
       || index in st.rollbackIntents
       || (st.lastRollbackIntent.Some? && index >= st.lastRollbackIntent.value)
    then Corrupt
    else Ok(st.(phase := InRollback, rollbackIntents := st.rollbackIntents + {index}, lastRollbackIntent := Some(index)))
  }

  function ApplyRollbackDone(st: State, index: nat): Result<State> {
    if st.phase != InRollback || index !in st.rollbackIntents || index in st.rolledBack
       || st.lastRollbackIntent != Some(index)
    then Corrupt
    else Ok(st.(rolledBack := st.rolledBack + {index}))
  }

  predicate ValidFinish(st: State, outcome: FinishOutcome) {
    match outcome
    case Committed => st.prepared && |st.committed| == |st.paths| && st.commitIntents == st.committed
    case Aborted => st.commitIntents == {}
    case RolledBack => st.prepared && st.commitIntents != {}
  }

  function ApplyFinished(st: State, outcome: FinishOutcome): Result<State> {
    if !ValidFinish(st, outcome) then Corrupt
    else Ok(st.(finished := Some(outcome), phase := InFinished))
  }

  /** The state one more record leads to, or `Corrupt` when replay rejects it. */
  function Step(limits: Limits, st: State, r: Record): Result<State> {
    if st.phase == InFinished then Corrupt
    else
      match r
      case Header(_, _, _, _) => Corrupt
      case Operation(index, o) => ApplyOperation(limits, st, index, o)
      case PathIntent(_, _, _, _, _, _) => ApplyPathIntent(limits, st, r)
      case PathStaged(index, stage, backup) => ApplyPathStaged(st, index, stage, backup)
      case Prepared(operations, paths) => ApplyPrepared(st, operations, paths)
      case CommitIntent(index) => ApplyCommitIntent(st, index)
      case CommitDone(index) => ApplyCommitDone(st, index)
      case RollbackIntent(index) => ApplyRollbackIntent(st, index)
      case RollbackDone(index) => ApplyRollbackDone(st, index)
      case Finished(outcome) => ApplyFinished(st, outcome)
  }

  /** Replay of a record sequence on top of a state. */
  function Run(limits: Limits, st: State, records: seq<Record>): Result<State> {
    if |records| == 0 then Ok(st)
    else
      match Run(limits, st, records[..|records| - 1])
      case Corrupt => Corrupt
      case Ok(before) => Step(limits, before, records[|records| - 1])
  }

  /** Replay of a whole journal: `parse_journal`. */
  function Parse(limits: Limits, records: seq<Record>): Result<State> {
    if |records| == 0 then Corrupt
    else
      match Start(limits, records[0])
      case Corrupt => Corrupt
      case Ok(st) => Run(limits, st, records[1..])
  }

  lemma RunAppend(limits: Limits, st: State, records: seq<Record>, r: Record)
    ensures Run(limits, st, records + [r]) ==
            match Run(limits, st, records) { case Corrupt => Corrupt case Ok(mid) => Step(limits, mid, r) }
  {
    assert (records + [r])[..|records|] == records;
  }

  lemma ParseAppend(limits: Limits, records: seq<Record>, r: Record)
    requires |records| > 0
    ensures Parse(limits, records + [r]) ==
            match Parse(limits, records) { case Corrupt => Corrupt case Ok(mid) => Step(limits, mid, r) }
  {
    assert (records + [r])[0] == records[0];
    if Start(limits, records[0]).Ok? {
      assert (records + [r])[1..] == records[1..] + [r];
      RunAppend(limits, Start(limits, records[0]).value, records[1..], r);
    }
  }

  lemma {:induction false} ParseConcat(limits: Limits, records: seq<Record>, more: seq<Record>, st: State)
    requires Parse(limits, records) == Ok(st)
    ensures Parse(limits, records + more) == Run(limits, st, more)
    decreases |more|
  {
    if more == [] {
      assert records + more == records;
    } else {
      var most := more[..|more| - 1];
      var r := more[|more| - 1];
      ParseConcat(limits, records, most, st);
      assert records + more == (records + most) + [r];
      ParseAppend(limits, records + most, r);
    }
  }

  /** A journal replay has rejected stays rejected, whatever is appended. */
  lemma {:induction false} RejectedStays(limits: Limits, records: seq<Record>, more: seq<Record>)
    requires |records| > 0 && Parse(limits, records).Corrupt?
    ensures Parse(limits, records + more).Corrupt?
    decreases |more|
  {
    if |more| == 0 {
      assert records + more == records;
    } else {
      var shorter := more[..|more| - 1];
      RejectedStays(limits, records, shorter);
      assert records + more == records + shorter + [more[|more| - 1]];
      ParseAppend(limits, records + shorter, more[|more| - 1]);
    }
  }
}
