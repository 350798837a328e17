/** A projected plan and the journal its preparation writes. */
module Projections {
  import opened Outcomes
  import opened Filesystem
  import opened Records
  import opened Replay
  import opened Protocol

  /** One path of a projected plan: its input as found, and the output computed for it. */
  datatype ProjectedPath = ProjectedPath(path: PathName, before: SlotEvidence, source: Option<File>, after: Option<File>)

  datatype Projection = Projection(fingerprint: nat, operations: seq<OperationRecord>, paths: seq<ProjectedPath>)

  function AfterSpec(after: Option<File>): StateSpec {
    match after
    case None => AbsentSpec
    case Some(file) => SpecPresent(PresentSpec(Sha256(file.bytes), |file.bytes|, file.permissions, None))
  }

  function HeaderOf(plan: Projection, id: TransactionId): Record {
    Header(id, PlanContract(plan.fingerprint), |plan.operations|, |plan.paths|)
  }

  function IntentOf(p: ProjectedPath, id: TransactionId, i: nat): Record {
    PathIntent(i, p.path, SpecOf(p.before, true), AfterSpec(p.after),
               NameFor(id, i, Stage, AfterSpec(p.after)), NameFor(id, i, Backup, SpecOf(p.before, true)))
  }

  /** The journal as far as the first `n` logical operations. */
  function OperationsTo(plan: Projection, id: TransactionId, n: nat): seq<Record>
    requires n <= |plan.operations|
  {
    if n == 0 then [HeaderOf(plan, id)]
    else OperationsTo(plan, id, n - 1) + [Operation(n - 1, plan.operations[n - 1])]
  }

  /** The journal as far as the first `n` path intents. */
  function IntentsTo(plan: Projection, id: TransactionId, n: nat): seq<Record>
    requires n <= |plan.paths|
  {
    if n == 0 then OperationsTo(plan, id, |plan.operations|)
    else IntentsTo(plan, id, n - 1) + [IntentOf(plan.paths[n - 1], id, n - 1)]
  }

  /** The logical operations and the paths of a plan describe the same transitions: what the
      operations read and write is what the paths, in ascending key order, hold and become. */
  ghost predicate Coherent(limits: Limits, plan: Projection, id: TransactionId) {
    var parsed := Parse(limits, OperationsTo(plan, id, |plan.operations|));
    && parsed.Ok? && |parsed.value.expected| == |plan.paths|
    && (forall i | 0 <= i < |plan.paths| ::
          && ExpectedAs(parsed.value.expected, plan.paths[i].path, SpecOf(plan.paths[i].before, true), AfterSpec(plan.paths[i].after))
          && WithinLimits(limits, SpecOf(plan.paths[i].before, true), true) && WithinLimits(limits, AfterSpec(plan.paths[i].after), false)
          && (plan.paths[i].before.Present? || plan.paths[i].after.Some?))
    && (forall i, j | 0 <= i < j < |plan.paths| :: plan.paths[i].path.key < plan.paths[j].path.key)
  }

  function IntendedPath(p: ProjectedPath, id: TransactionId, i: nat): RecoveryPath {
    RecoveryPath(i, p.path, SpecOf(p.before, true), AfterSpec(p.after),
                 NameFor(id, i, Stage, AfterSpec(p.after)), NameFor(id, i, Backup, SpecOf(p.before, true)), None, None, false)
  }

  // Replay of the preparation

  lemma {:induction false} OperationsReplay(limits: Limits, plan: Projection, id: TransactionId, n: nat)
    requires n <= |plan.operations| && Parse(limits, OperationsTo(plan, id, |plan.operations|)).Ok?
    ensures Parse(limits, OperationsTo(plan, id, n)).Ok?
    ensures var st := Parse(limits, OperationsTo(plan, id, n)).value;
            && Unstaged(st, plan, id) && st.phase == InOperations && st.operationCount == n && st.paths == [] && st.pathKeys == {}
    decreases n
  {
    PrefixParses(limits, plan, id, n);
    if n == 0 {
    } else {
      OperationsReplay(limits, plan, id, n - 1);
      var before := Parse(limits, OperationsTo(plan, id, n - 1)).value;
      ParseAppend(limits, OperationsTo(plan, id, n - 1), Operation(n - 1, plan.operations[n - 1]));
      OperationStep(limits, before, n - 1, plan.operations[n - 1], Parse(limits, OperationsTo(plan, id, n)).value);
    }
  }

  /** An operation record touches nothing but the expected endpoints. */
  lemma OperationStep(limits: Limits, st: State, n: nat, o: OperationRecord, next: State)
    requires Step(limits, st, Operation(n, o)) == Ok(next)
    ensures next == st.(operationCount := next.operationCount, expected := next.expected, inputs := next.inputs, outputs := next.outputs)
    ensures next.operationCount == st.operationCount + 1 && n == st.operationCount && st.phase == InOperations
  {
  }

  lemma {:induction false} PrefixParses(limits: Limits, plan: Projection, id: TransactionId, n: nat)
    requires n <= |plan.operations| && Parse(limits, OperationsTo(plan, id, |plan.operations|)).Ok?
    ensures Parse(limits, OperationsTo(plan, id, n)).Ok?
    decreases |plan.operations| - n
  {
    if n < |plan.operations| {
      PrefixParses(limits, plan, id, n + 1);
      ParseAppend(limits, OperationsTo(plan, id, n), Operation(n, plan.operations[n]));
    }
  }

  /** No artifact has been recorded as staged. */
  predicate Unstaged(st: State, plan: Projection, id: TransactionId) {
    && st.transaction == id && st.operationTotal == |plan.operations| && st.pathTotal == |plan.paths|
    && !st.prepared && st.finished.None? && st.stagedCount == 0
    && st.commitIntents == {} && st.committed == {} && st.rollbackIntents == {} && st.rolledBack == {}
    && st.lastCommitIntent.None? && st.lastRollbackIntent.None?
  }

  /** Replay of the first `n` path intents. */
  ghost predicate Intends(st: State, plan: Projection, id: TransactionId, n: nat) {
    && Unstaged(st, plan, id) && n <= |plan.paths| == |st.paths| + (|plan.paths| - n)
    && st.operationCount == |plan.operations| && st.phase == (if n == 0 then InOperations else InPaths)
    && (forall i | 0 <= i < n :: st.paths[i] == IntendedPath(plan.paths[i], id, i))
    && (forall k | k in st.pathKeys :: exists i | 0 <= i < n :: plan.paths[i].path.key == k)
  }

  lemma {:induction false} IntentsReplay(limits: Limits, plan: Projection, id: TransactionId, n: nat)
    returns (st: State)
    requires Coherent(limits, plan, id) && n <= |plan.paths|
    ensures Parse(limits, IntentsTo(plan, id, n)) == Ok(st) && Intends(st, plan, id, n)
    ensures st.expected == Parse(limits, OperationsTo(plan, id, |plan.operations|)).value.expected
    decreases n
  {
    hide Step, Run, Start;
    if n == 0 {
      OperationsReplay(limits, plan, id, |plan.operations|);
      st := Parse(limits, OperationsTo(plan, id, |plan.operations|)).value;
    } else {
      var before := IntentsReplay(limits, plan, id, n - 1);
      ParseAppend(limits, IntentsTo(plan, id, n - 1), IntentOf(plan.paths[n - 1], id, n - 1));
      st := IntentStep(limits, plan, id, n - 1, before);
    }
  }

  lemma IntentStep(limits: Limits, plan: Projection, id: TransactionId, n: nat, st: State) returns (next: State)
    requires Coherent(limits, plan, id) && n < |plan.paths| && Intends(st, plan, id, n)
    requires st.expected == Parse(limits, OperationsTo(plan, id, |plan.operations|)).value.expected
    ensures Step(limits, st, IntentOf(plan.paths[n], id, n)) == Ok(next) && Intends(next, plan, id, n + 1) && next.expected == st.expected
  {
    var p := plan.paths[n];
    forall k | k in st.pathKeys ensures k < p.path.key {
      var i :| 0 <= i < n && plan.paths[i].path.key == k;
    }
    next := st.(phase := InPaths, pathKeys := st.pathKeys + {p.path.key}, paths := st.paths + [IntendedPath(p, id, n)]);
    assert ApplyPathIntent(limits, st, IntentOf(p, id, n)) == Ok(next);
    forall k | k in next.pathKeys ensures exists i | 0 <= i < n + 1 :: plan.paths[i].path.key == k {
      if k == p.path.key { assert plan.paths[n].path.key == k; }
    }
  }

  // Staging and preparation

  /** A staged path is what its projection asked for. */
  predicate StagesAs(p: ProjectedPath, s: StagedPath) {
    && s.path == p.path && s.before == p.before
    && SpecOf(s.after, false) == AfterSpec(p.after)
    && (s.backup.Some? <==> p.before.Present?)
  }

  function StagedRecord(s: StagedPath, i: nat): Record {
    PathStaged(i, s.after.Identity(), BackupIdentity(s))
  }

  /** The journal as far as the first `n` staged paths. */
  function StagedTo(plan: Projection, id: TransactionId, staged: seq<StagedPath>, n: nat): seq<Record>
    requires n <= |staged|
  {
    if n == 0 then IntentsTo(plan, id, |plan.paths|)
    else StagedTo(plan, id, staged, n - 1) + [StagedRecord(staged[n - 1], n - 1)]
  }

  /** Replay of the first `n` staged paths. */
  ghost predicate Stages(st: State, plan: Projection, id: TransactionId, staged: seq<StagedPath>, n: nat) {
    && Unstaged(st.(stagedCount := 0), plan, id)
    && st.stagedCount == n <= |plan.paths| == |st.paths| == |staged|
    && st.operationCount == |plan.operations| && st.phase == (if n == 0 then InPaths else InStaged)
    && forall i | 0 <= i < |st.paths| :: st.paths[i] == if i < n then RecoveryPathOf(id, staged[i], i) else IntendedPath(plan.paths[i], id, i)
  }

  lemma StagedStep(limits: Limits, plan: Projection, id: TransactionId, staged: seq<StagedPath>, n: nat, st: State)
    returns (next: State)
    requires n < |plan.paths| && Stages(st, plan, id, staged, n) && StagesAs(plan.paths[n], staged[n])
    ensures Step(limits, st, StagedRecord(staged[n], n)) == Ok(next) && Stages(next, plan, id, staged, n + 1) && next.expected == st.expected
  {
    var s := staged[n];
    var p := st.paths[n].(stageIdentity := s.after.Identity(), backupIdentity := BackupIdentity(s), staged := true);
    next := st.(phase := InStaged, paths := st.paths[n := p], stagedCount := n + 1);
    assert p == RecoveryPathOf(id, s, n);
    assert ApplyPathStaged(st, n, s.after.Identity(), BackupIdentity(s)) == Ok(next);
  }

  lemma {:induction false} StagedReplay(limits: Limits, plan: Projection, id: TransactionId, staged: seq<StagedPath>, n: nat)
    returns (st: State)
    requires Coherent(limits, plan, id) && 0 < |plan.paths| == |staged| && n <= |staged|
    requires forall i | 0 <= i < |staged| :: StagesAs(plan.paths[i], staged[i])
    ensures Parse(limits, StagedTo(plan, id, staged, n)) == Ok(st) && Stages(st, plan, id, staged, n)
    ensures st.expected == Parse(limits, OperationsTo(plan, id, |plan.operations|)).value.expected
    decreases n
  {
    hide Coherent, Intends, Stages, Step, Unstaged;
    if n == 0 {
      st := IntentsReplay(limits, plan, id, |plan.paths|);
      IntendsStages(st, plan, id, staged);
    } else {
      var before := StagedReplay(limits, plan, id, staged, n - 1);
      ParseAppend(limits, StagedTo(plan, id, staged, n - 1), StagedRecord(staged[n - 1], n - 1));
      st := StagedStep(limits, plan, id, staged, n - 1, before);
    }
  }

  lemma IntendsStages(st: State, plan: Projection, id: TransactionId, staged: seq<StagedPath>)
    requires Intends(st, plan, id, |plan.paths|) && 0 < |plan.paths| == |staged|
    ensures Stages(st, plan, id, staged, 0)
  {
  }

  function PreparedRecord(plan: Projection): Record {
    Prepared(|plan.operations|, |plan.paths|)
  }

  /** Every prefix a successful preparation writes is accepted, and the whole journal
      replays to a prepared transaction of exactly the staged paths. */
  lemma PreparedReplay(limits: Limits, plan: Projection, id: TransactionId, staged: seq<StagedPath>) returns (st: State)
    requires Coherent(limits, plan, id) && 0 < |plan.paths| == |staged|
    requires forall i | 0 <= i < |staged| :: StagesAs(plan.paths[i], staged[i])
    ensures Parse(limits, StagedTo(plan, id, staged, |staged|) + [PreparedRecord(plan)]) == Ok(st)
    ensures st.prepared && st.phase == InPrepared && st.transaction == id && st.finished.None? && |st.paths| == |staged|
    ensures forall i | 0 <= i < |staged| :: st.paths[i] == RecoveryPathOf(id, staged[i], i)
    ensures st.commitIntents == {} && st.committed == {} && st.rollbackIntents == {} && st.rolledBack == {}
    ensures st.lastCommitIntent.None? && st.lastRollbackIntent.None?
  {
    hide Coherent, Stages, Unstaged, Step;
    var before := StagedReplay(limits, plan, id, staged, |staged|);
    ParseAppend(limits, StagedTo(plan, id, staged, |staged|), PreparedRecord(plan));
    st := PreparedStep(limits, plan, id, staged, before);
  }

  lemma PreparedStep(limits: Limits, plan: Projection, id: TransactionId, staged: seq<StagedPath>, before: State)
    returns (st: State)
    requires Coherent(limits, plan, id) && 0 < |plan.paths| == |staged| && Stages(before, plan, id, staged, |staged|)
    requires forall i | 0 <= i < |staged| :: StagesAs(plan.paths[i], staged[i])
    requires before.expected == Parse(limits, OperationsTo(plan, id, |plan.operations|)).value.expected
    ensures Step(limits, before, PreparedRecord(plan)) == Ok(st)
    ensures st.prepared && st.phase == InPrepared && st.transaction == id && st.finished.None? && |st.paths| == |staged|
    ensures forall i | 0 <= i < |staged| :: st.paths[i] == RecoveryPathOf(id, staged[i], i)
    ensures st.commitIntents == {} && st.committed == {} && st.rollbackIntents == {} && st.rolledBack == {}
    ensures st.lastCommitIntent.None? && st.lastRollbackIntent.None?
  {
    hide Parse, ApplyOperation, ApplyPathIntent, ApplyPathStaged;
    forall i | 0 <= i < |before.paths|
      ensures ExpectedAs(before.expected, before.paths[i].path, before.paths[i].before, before.paths[i].after)
    {
      assert StagesAs(plan.paths[i], staged[i]);
    }
    st := before.(prepared := true, phase := InPrepared);
  }
}
