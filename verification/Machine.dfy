/** The journal replay automaton as it runs, record by record, and its refinement of the
    replay functions. */
module Machine {
  import opened Outcomes
  import opened Filesystem
  import opened Records
  import opened Replay
  import opened Indices

  class Automaton {
    const limits: Limits
    const transaction: TransactionId
    const operationTotal: nat
    const pathTotal: nat
    var phase: Phase
    var operationCount: nat
    var expected: map<nat, ExpectedPath>
    var inputs: set<nat>
    var outputs: set<nat>
    var paths: seq<RecoveryPath>
    var pathKeys: set<nat>
    var stagedCount: nat
    var prepared: bool
    var commitIntents: set<nat>
    var committed: set<nat>
    var rollbackIntents: set<nat>
    var rolledBack: set<nat>
    var finished: Option<FinishOutcome>
    var lastCommitIntent: Option<nat>
    var lastRollbackIntent: Option<nat>

    ghost function Value(): State
      reads this
    {
      State(transaction, operationTotal, pathTotal, phase, operationCount, expected, inputs, outputs, paths, pathKeys,
            stagedCount, prepared, commitIntents, committed, rollbackIntents, rolledBack, finished, lastCommitIntent, lastRollbackIntent)
    }

    constructor (limits: Limits, header: Record)
      requires Start(limits, header).Ok?
      ensures this.limits == limits && Value() == Start(limits, header).value
    {
      this.limits, transaction, operationTotal, pathTotal := limits, header.transaction, header.operationCount, header.pathCount;
      phase, operationCount, expected, inputs, outputs := InOperations, 0, map[], {}, {};
      paths, pathKeys, stagedCount, prepared := [], {}, 0, false;
      commitIntents, committed, rollbackIntents, rolledBack := {}, {}, {}, {};
      finished, lastCommitIntent, lastRollbackIntent := None, None, None;
    }

    /** `register_endpoint` for an input. */
    method RegisterRead(path: PathName, evidence: Endpoint) returns (ok: bool)
      modifies this
      ensures ok == RegisterInput(old(Value()), Some((path, evidence))).Ok?
      ensures ok ==> Value() == RegisterInput(old(Value()), Some((path, evidence))).value
    {
      if path.key in inputs { return false; }
      inputs := inputs + {path.key};
      if path.key !in expected {
        expected := expected[path.key := ExpectedPath(path, None, None)];
      }
      var entry := expected[path.key];
      if entry.path != path { return false; }
      expected := expected[path.key := entry.(before := Some(evidence))];
      ok := true;
    }

    /** `register_endpoint` for an output. */
    method RegisterWrite(path: PathName, evidence: Endpoint) returns (ok: bool)
      modifies this
      ensures ok == RegisterOutput(old(Value()), Some((path, evidence))).Ok?
      ensures ok ==> Value() == RegisterOutput(old(Value()), Some((path, evidence))).value
    {
      if path.key in outputs { return false; }
      outputs := outputs + {path.key};
      if path.key !in expected {
        expected := expected[path.key := ExpectedPath(path, None, None)];
      }
      var entry := expected[path.key];
      if entry.path != path { return false; }
      expected := expected[path.key := entry.(after := Some(evidence))];
      ok := true;
    }

    /** `apply_operation` */
    method TakeOperation(index: nat, o: OperationRecord) returns (ok: bool)
      modifies this
      ensures ok == ApplyOperation(limits, old(Value()), index, o).Ok?
      ensures ok ==> Value() == ApplyOperation(limits, old(Value()), index, o).value
    {
      if phase != InOperations || index != operationCount || index >= operationTotal || !ValidOperation(limits, o) {
        return false;
      }
      if o.source.Some? && o.oldSha256.Some? {
        ok := RegisterRead(o.source.value, Endpoint(o.oldSha256.value, o.bytesBefore));
        if !ok { return; }
      }
      var output := if o.kind == Modify then o.source else o.destination;
      if output.Some? && o.newSha256.Some? {
        ok := RegisterWrite(output.value, Endpoint(o.newSha256.value, o.bytesAfter));
        if !ok { return; }
      }
      operationCount := operationCount + 1;
      ok := true;
    }

    /** `path_intent` */
    method TakePathIntent(r: Record) returns (ok: bool)
      requires r.PathIntent?
      modifies this
      ensures ok == ApplyPathIntent(limits, old(Value()), r).Ok?
      ensures ok ==> Value() == ApplyPathIntent(limits, old(Value()), r).value
    {
      if phase == InOperations {
        if operationCount != operationTotal { return false; }
        phase := InPaths;
      }
      if phase != InPaths || r.index != |paths| || r.index >= pathTotal { return false; }
      if r.path.key in pathKeys { return false; }
      pathKeys := pathKeys + {r.path.key};
      if exists k | k in pathKeys :: k > r.path.key { return false; }
      if !WithinLimits(limits, r.before, true) || !WithinLimits(limits, r.after, false)
         || !ExpectedAs(expected, r.path, r.before, r.after)
         || !ArtifactContract(transaction, r.index, r.before, r.after, r.stageName, r.backupName) {
        return false;
      }
      paths := paths + [RecoveryPath(r.index, r.path, r.before, r.after, r.stageName, r.backupName, None, None, false)];
      ok := true;
    }

    /** `path_staged` */
    method TakePathStaged(index: nat, stageIdentity: Option<Ino>, backupIdentity: Option<Ino>) returns (ok: bool)
      modifies this
      ensures ok == ApplyPathStaged(old(Value()), index, stageIdentity, backupIdentity).Ok?
      ensures ok ==> Value() == ApplyPathStaged(old(Value()), index, stageIdentity, backupIdentity).value
    {
      if phase == InPaths {
        if |paths| != pathTotal { return false; }
        phase := InStaged;
      }
      if phase != InStaged || stagedCount >= |paths| { return false; }
      var path := paths[stagedCount];
      if path.index != index || path.staged || !StagedIdentityMatches(path, stageIdentity, backupIdentity) { return false; }
      paths := paths[stagedCount := path.(stageIdentity := stageIdentity, backupIdentity := backupIdentity, staged := true)];
      stagedCount := stagedCount + 1;
      ok := true;
    }

    /** `validate_expected_paths` */
    method PathsCovered() returns (ok: bool)
      ensures ok == CoversExpected(expected, paths)
    {
      if |expected| != |paths| { return false; }
      var i := 0;
      while i < |paths|
        invariant 0 <= i <= |paths|
        invariant forall j | 0 <= j < i :: ExpectedAs(expected, paths[j].path, paths[j].before, paths[j].after)
      {
        if !ExpectedAs(expected, paths[i].path, paths[i].before, paths[i].after) { return false; }
        i := i + 1;
      }
      ok := true;
    }

    /** `prepared` */
    method TakePrepared(operations: nat, total: nat) returns (ok: bool)
      modifies this
      ensures ok == ApplyPrepared(old(Value()), operations, total).Ok?
      ensures ok ==> Value() == ApplyPrepared(old(Value()), operations, total).value
    {
      if phase != InStaged || operations != operationTotal || total != pathTotal || operationCount != operationTotal
         || |paths| != pathTotal || stagedCount != |paths| {
        return false;
      }
      ok := PathsCovered();
      if !ok { return; }
      prepared := true;
      phase := InPrepared;
    }

    /** `commit_intent` */
    method TakeCommitIntent(index: nat) returns (ok: bool)
      modifies this
      ensures ok == ApplyCommitIntent(old(Value()), index).Ok?
      ensures ok ==> Value() == ApplyCommitIntent(old(Value()), index).value
    {
      if phase != InPrepared && phase != InCommit { return false; }
      if index >= |paths| { return false; }
      if lastCommitIntent.Some? && lastCommitIntent.value !in committed { return false; }
      if index in commitIntents { return false; }
      commitIntents := commitIntents + {index};
      if lastCommitIntent.Some? && index <= lastCommitIntent.value { return false; }
      lastCommitIntent := Some(index);
      phase := InCommit;
      ok := true;
    }

    /** `committed` */
    method TakeCommitDone(index: nat) returns (ok: bool)
      modifies this
      ensures ok == ApplyCommitDone(old(Value()), index).Ok?
      ensures ok ==> Value() == ApplyCommitDone(old(Value()), index).value
    {
      if phase != InCommit { return false; }
      if index !in commitIntents || index in committed { return false; }
      committed := committed + {index};
      ok := lastCommitIntent == Some(index);
    }

    /** `rollback_intent` */
    method TakeRollbackIntent(index: nat) returns (ok: bool)
      modifies this
      ensures ok == ApplyRollbackIntent(old(Value()), index).Ok?
      ensures ok ==> Value() == ApplyRollbackIntent(old(Value()), index).value
    {
      if (phase != InCommit && phase != InRollback) || index !in commitIntents { return false; }
      if lastRollbackIntent.Some? && lastRollbackIntent.value !in rolledBack { return false; }
      if index in rollbackIntents { return false; }
      rollbackIntents := rollbackIntents + {index};
      if lastRollbackIntent.Some? && index >= lastRollbackIntent.value { return false; }
      lastRollbackIntent := Some(index);
      phase := InRollback;
      ok := true;
    }

    /** `rolled_back` */
    method TakeRollbackDone(index: nat) returns (ok: bool)
      modifies this
      ensures ok == ApplyRollbackDone(old(Value()), index).Ok?
      ensures ok ==> Value() == ApplyRollbackDone(old(Value()), index).value
    {
      if phase != InRollback { return false; }
      if index !in rollbackIntents || index in rolledBack { return false; }
      rolledBack := rolledBack + {index};
      ok := lastRollbackIntent == Some(index);
    }

    /** `finished` */
    method TakeFinished(outcome: FinishOutcome) returns (ok: bool)
      modifies this
      ensures ok == ApplyFinished(old(Value()), outcome).Ok?
      ensures ok ==> Value() == ApplyFinished(old(Value()), outcome).value
    {
      ok := match outcome
        case Committed => prepared && |committed| == |paths| && commitIntents == committed
        case Aborted => commitIntents == {}
        case RolledBack => prepared && commitIntents != {};
      if ok {
        finished := Some(outcome);
        phase := InFinished;
      }
    }

    /** `apply_record` refines one step of the replay function. */
    method ApplyRecord(r: Record) returns (ok: bool)
      modifies this
      ensures ok == Step(limits, old(Value()), r).Ok?
      ensures ok ==> Value() == Step(limits, old(Value()), r).value
    {
      hide ApplyOperation, ApplyPathIntent, ApplyPathStaged, ApplyPrepared, ApplyCommitIntent, ApplyCommitDone,
           ApplyRollbackIntent, ApplyRollbackDone, ApplyFinished;
      if phase == InFinished { return false; }
      match r {
        case Header(_, _, _, _) => ok := false;
        case Operation(index, o) => ok := TakeOperation(index, o);
        case PathIntent(_, _, _, _, _, _) => ok := TakePathIntent(r);
        case PathStaged(index, stage, backup) => ok := TakePathStaged(index, stage, backup);
        case Prepared(operations, total) => ok := TakePrepared(operations, total);
        case CommitIntent(index) => ok := TakeCommitIntent(index);
        case CommitDone(index) => ok := TakeCommitDone(index);
        case RollbackIntent(index) => ok := TakeRollbackIntent(index);
        case RollbackDone(index) => ok := TakeRollbackDone(index);
        case Finished(outcome) => ok := TakeFinished(outcome);
      }
    }
  }

  // What replay guarantees of the paths

  /** Paths in ascending key order, and the set of their keys. */
  ghost predicate Keyed(paths: seq<RecoveryPath>, keys: set<nat>) {
    && (forall i, j | 0 <= i < j < |paths| :: paths[i].path.key < paths[j].path.key)
    && (forall k | k in keys :: exists i | 0 <= i < |paths| :: paths[i].path.key == k)
    && (forall i | 0 <= i < |paths| :: paths[i].path.key in keys)
  }

  lemma KeyedAppend(paths: seq<RecoveryPath>, keys: set<nat>, p: RecoveryPath)
    requires Keyed(paths, keys) && forall k | k in keys :: k < p.path.key
    ensures Keyed(paths + [p], keys + {p.path.key})
  {
    var more := paths + [p];
    forall i, j | 0 <= i < j < |more| ensures more[i].path.key < more[j].path.key {
      assert paths[i].path.key in keys;
    }
    forall k | k in keys + {p.path.key} ensures exists i | 0 <= i < |more| :: more[i].path.key == k {
      if k in keys {
        var i :| 0 <= i < |paths| && paths[i].path.key == k;
        assert more[i].path.key == k;
      } else {
        assert more[|paths|].path.key == k;
      }
    }
  }

  lemma KeyedSame(paths: seq<RecoveryPath>, other: seq<RecoveryPath>, keys: set<nat>)
    requires Keyed(paths, keys) && |other| == |paths| && forall i | 0 <= i < |paths| :: other[i].path == paths[i].path
    ensures Keyed(other, keys)
  {
    forall k | k in keys ensures exists i | 0 <= i < |other| :: other[i].path.key == k {
      var i :| 0 <= i < |paths| && paths[i].path.key == k;
      assert other[i].path.key == k;
    }
  }

  /** Paths are numbered, in ascending key order, and match the endpoints their operations
      name; a prepared journal's paths are all of them. */
  ghost predicate Sound(st: State) {
    && Keyed(st.paths, st.pathKeys)
    && (forall i | 0 <= i < |st.paths| :: st.paths[i].index == i)
    && (forall i | 0 <= i < |st.paths| :: ExpectedAs(st.expected, st.paths[i].path, st.paths[i].before, st.paths[i].after))
    && (st.paths != [] ==> st.phase != InOperations)
    && (st.prepared ==> |st.expected| == |st.paths| && st.phase != InOperations)
  }

  lemma IntentSound(limits: Limits, st: State, r: Record, next: State)
    requires Sound(st) && !st.prepared && r.PathIntent? && ApplyPathIntent(limits, st, r) == Ok(next)
    ensures Sound(next)
  {
    hide Keyed, ExpectedAs, ArtifactContract, WithinLimits;
    var p := RecoveryPath(r.index, r.path, r.before, r.after, r.stageName, r.backupName, None, None, false);
    assert forall k | k in st.pathKeys :: k <= r.path.key && k != r.path.key;
    KeyedAppend(st.paths, st.pathKeys, p);
    assert next.paths == st.paths + [p];
  }

  lemma StagedSound(st: State, r: Record, next: State)
    requires Sound(st) && r.PathStaged? && ApplyPathStaged(st, r.index, r.stageIdentity, r.backupIdentity) == Ok(next)
    ensures Sound(next)
  {
    hide Keyed, ExpectedAs, StagedIdentityMatches;
    KeyedSame(st.paths, next.paths, st.pathKeys);
  }

  lemma StepSound(limits: Limits, st: State, r: Record, next: State)
    requires Sound(st) && Step(limits, st, r) == Ok(next) && (st.prepared ==> st.phase in {InPrepared, InCommit, InRollback, InFinished})
    ensures Sound(next) && (next.prepared ==> next.phase in {InPrepared, InCommit, InRollback, InFinished})
  {
    hide Keyed, ExpectedAs, ValidOperation, RegisterInput, RegisterOutput, ArtifactContract, WithinLimits,
         StagedIdentityMatches;
    if r.PathIntent? {
      IntentSound(limits, st, r, next);
    } else if r.PathStaged? {
      StagedSound(st, r, next);
    } else if r.Operation? {
      OperationSound(limits, st, r.index, r.operation, next);
    } else {
      assert next.paths == st.paths && next.pathKeys == st.pathKeys && next.expected == st.expected;
    }
  }

  lemma OperationSound(limits: Limits, st: State, index: nat, o: OperationRecord, next: State)
    requires Sound(st) && ApplyOperation(limits, st, index, o) == Ok(next) && !st.prepared
    ensures Sound(next) && !next.prepared
  {
  }

  lemma {:induction false} ParseSound(limits: Limits, records: seq<Record>, st: State)
    requires Parse(limits, records) == Ok(st)
    ensures Sound(st) && (st.prepared ==> st.phase in {InPrepared, InCommit, InRollback, InFinished})
    decreases |records|
  {
    hide Sound, Step;
    if |records| == 1 {
      StartSound(limits, records[0], st);
    } else {
      var most := records[..|records| - 1];
      assert records == most + [records[|records| - 1]];
      ParseAppend(limits, most, records[|records| - 1]);
      ParseSound(limits, most, Parse(limits, most).value);
      StepSound(limits, Parse(limits, most).value, records[|records| - 1], st);
    }
  }

  lemma StartSound(limits: Limits, header: Record, st: State)
    requires Parse(limits, [header]) == Ok(st)
    ensures Sound(st) && !st.prepared
  {
  }

  /** In a prepared journal the paths are in bijection with the endpoints the operations
      name: every path is one, and every one is a path. */
  lemma PreparedBijection(limits: Limits, records: seq<Record>, st: State)
    requires Parse(limits, records) == Ok(st) && st.prepared
    ensures CoversExpected(st.expected, st.paths) && st.expected.Keys == st.pathKeys
    ensures forall i, j | 0 <= i < j < |st.paths| :: st.paths[i].path.key < st.paths[j].path.key
  {
    ParseSound(limits, records, st);
    KeysCount(st.paths, st.pathKeys);
    assert st.pathKeys <= st.expected.Keys;
    SubsetCount(st.pathKeys, st.expected.Keys);
  }

  lemma {:induction false} KeysCount(paths: seq<RecoveryPath>, keys: set<nat>)
    requires Keyed(paths, keys)
    ensures |keys| == |paths|
    decreases |paths|
  {
    if |paths| == 0 {
      assert keys == {};
    } else {
      var most := paths[..|paths| - 1];
      var last := paths[|paths| - 1].path.key;
      forall k | k in keys - {last} ensures exists i | 0 <= i < |most| :: most[i].path.key == k {
        var i :| 0 <= i < |paths| && paths[i].path.key == k;
        assert most[i].path.key == k;
      }
      KeysCount(most, keys - {last});
    }
  }

  /** `parse_journal`: the loop and the final check compute exactly the replay function; in
      particular the final check never rejects. */
  method ParseJournal(limits: Limits, entries: seq<Record>) returns (parsed: Result<State>)
    ensures parsed == Parse(limits, entries)
  {
    if |entries| == 0 || Start(limits, entries[0]).Corrupt? {
      return Corrupt;
    }
    var replay := new Automaton(limits, entries[0]);
    var i := 1;
    while i < |entries|
      invariant 1 <= i <= |entries| && replay.limits == limits
      invariant Parse(limits, entries[..i]) == Ok(replay.Value())
    {
      ParseAppend(limits, entries[..i], entries[i]);
      assert entries[..i] + [entries[i]] == entries[..i + 1];
      var ok := replay.ApplyRecord(entries[i]);
      if !ok {
        RejectedStays(limits, entries[..i + 1], entries[i + 1..]);
        assert entries == entries[..i + 1] + entries[i + 1..];
        return Corrupt;
      }
      i := i + 1;
    }
    assert entries[..i] == entries;
    if replay.prepared {
      PreparedBijection(limits, entries, replay.Value());
      var covered := replay.PathsCovered();
      if !covered { return Corrupt; }
    }
    parsed := Ok(State(replay.transaction, replay.operationTotal, replay.pathTotal, replay.phase, replay.operationCount, replay.expected,
                       replay.inputs, replay.outputs, replay.paths, replay.pathKeys, replay.stagedCount, replay.prepared,
                       replay.commitIntents, replay.committed, replay.rollbackIntents, replay.rolledBack, replay.finished,
                       replay.lastCommitIntent, replay.lastRollbackIntent));
  }
}
