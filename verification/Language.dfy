/** The language of whole V3 journals, given independently of the automaton: a header, the operations,
    the paths they touch in key order, the staged identities, the preparation record, and a tail. */
module Language {
  import opened Outcomes
  import opened Filesystem
  import opened Records
  import opened Replay
  import opened Indices
  import Grammar
  import Machine

  /** One path as intended. */
  datatype Intent = Intent(path: PathName, before: StateSpec, after: StateSpec)

  /** What a journal says up to its preparation record, which closes it. */
  datatype Preparation = Preparation(
    transaction: TransactionId,
    contract: Contract,
    operationTotal: nat,
    pathTotal: nat,
    operations: seq<OperationRecord>,
    intents: seq<Intent>,
    identities: seq<(Option<Ino>, Option<Ino>)>,
    closed: bool)

  // Operations

  function Reads(o: OperationRecord): Option<PathName> {
    if o.kind in {Modify, Delete, Rename} then o.source else None
  }

  function Writes(o: OperationRecord): Option<PathName> {
    if o.kind == Modify then o.source else if o.kind in {Create, Rename} then o.destination else None
  }

  /** The fields its kind asks for and no others, within the limits. */
  predicate Formed(limits: Limits, o: OperationRecord) {
    && o.kind != Unknown
    && (o.source.Some? <==> o.kind != Create) && (o.destination.Some? <==> o.kind in {Create, Rename})
    && (o.oldSha256.Some? <==> o.kind != Create) && (o.newSha256.Some? <==> o.kind != Delete)
    && (o.kind == Create ==> o.bytesBefore == 0) && (o.kind == Delete ==> o.bytesAfter == 0)
    && (o.kind in {Create, Delete} ==> o.editCount == 0)
    && o.bytesBefore <= limits.maxSourceBytes && o.bytesAfter <= limits.maxOutputBytes && o.editCount <= limits.maxEdits
  }

  predicate Apart(a: Option<PathName>, b: Option<PathName>) {
    a.Some? && b.Some? ==> a.value.key != b.value.key
  }

  /** One key is spelled one way. */
  predicate Agree(a: Option<PathName>, b: Option<PathName>) {
    a.Some? && b.Some? && a.value.key == b.value.key ==> a == b
  }

  /** Two operations neither read nor write one path, and spell a path alike. */
  predicate Separate(o: OperationRecord, q: OperationRecord) {
    && Apart(Reads(o), Reads(q)) && Apart(Writes(o), Writes(q))
    && Agree(Reads(o), Writes(q)) && Agree(Writes(o), Reads(q))
  }

  predicate AllFormed(limits: Limits, operations: seq<OperationRecord>) {
    && (forall i | 0 <= i < |operations| :: Formed(limits, operations[i]) && Agree(Reads(operations[i]), Writes(operations[i])))
    && forall i, j | 0 <= i < j < |operations| :: Separate(operations[i], operations[j])
  }

  // Paths

  predicate ReadAs(o: OperationRecord, path: PathName, spec: PresentSpec) {
    Reads(o) == Some(path) && o.oldSha256 == Some(spec.sha256) && o.bytesBefore == spec.bytes
  }

  predicate WrittenAs(o: OperationRecord, path: PathName, spec: PresentSpec) {
    Writes(o) == Some(path) && o.newSha256 == Some(spec.sha256) && o.bytesAfter == spec.bytes
  }

  /** The path is one that some operation names; it is present before exactly if one reads it, with the
      evidence of that one and an identity, and present after exactly if one writes it. */
  predicate Fits(limits: Limits, operations: seq<OperationRecord>, t: Intent) {
    && (exists i | 0 <= i < |operations| :: Reads(operations[i]) == Some(t.path) || Writes(operations[i]) == Some(t.path))
    && (match t.before
        case AbsentSpec => forall i | 0 <= i < |operations| :: Reads(operations[i]) != Some(t.path)
        case SpecPresent(spec) =>
          && spec.identity.Some? && spec.bytes <= limits.maxSourceBytes
          && exists i | 0 <= i < |operations| :: ReadAs(operations[i], t.path, spec))
    && (match t.after
        case AbsentSpec => forall i | 0 <= i < |operations| :: Writes(operations[i]) != Some(t.path)
        case SpecPresent(spec) =>
          && spec.bytes <= limits.maxOutputBytes
          && exists i | 0 <= i < |operations| :: WrittenAs(operations[i], t.path, spec))
  }

  predicate Ascending(intents: seq<Intent>) {
    forall i, j | 0 <= i < j < |intents| :: intents[i].path.key < intents[j].path.key
  }

  /** A stage for what is present after, the intended file if one is named, and a backup for what was before. */
  predicate Staged(t: Intent, identities: (Option<Ino>, Option<Ino>)) {
    && (identities.0.Some? <==> t.after.SpecPresent?) && (identities.1.Some? <==> t.before.SpecPresent?)
    && (t.after.SpecPresent? && t.after.spec.identity.Some? ==> identities.0 == t.after.spec.identity)
  }

  predicate Listed(path: Option<PathName>, intents: seq<Intent>) {
    path.Some? ==> exists i | 0 <= i < |intents| :: intents[i].path == path.value
  }

  /** Every path an operation names is intended. */
  predicate Covered(operations: seq<OperationRecord>, intents: seq<Intent>) {
    forall i | 0 <= i < |operations| :: Listed(Reads(operations[i]), intents) && Listed(Writes(operations[i]), intents)
  }

  // Whole preparations

  predicate WellFormed(limits: Limits, p: Preparation) {
    && 0 < p.operationTotal <= limits.maxFiles && 0 < p.pathTotal <= limits.maxFiles
    && |p.operations| <= p.operationTotal && AllFormed(limits, p.operations)
    && |p.intents| <= p.pathTotal && (p.intents != [] ==> |p.operations| == p.operationTotal) && Ascending(p.intents)
    && (forall i | 0 <= i < |p.intents| :: Fits(limits, p.operations, p.intents[i]))
    && |p.identities| <= |p.intents| && (p.identities != [] ==> |p.intents| == p.pathTotal)
    && (forall i | 0 <= i < |p.identities| :: Staged(p.intents[i], p.identities[i]))
    && (p.closed ==> |p.identities| == p.pathTotal && Covered(p.operations, p.intents))
  }

  function IntentRecord(id: TransactionId, i: nat, t: Intent): Record {
    PathIntent(i, t.path, t.before, t.after,
               if t.after.SpecPresent? then Some(ArtifactName(id, i, Stage)) else None,
               if t.before.SpecPresent? then Some(ArtifactName(id, i, Backup)) else None)
  }

  function OperationRecords(operations: seq<OperationRecord>): seq<Record> {
    seq(|operations|, i requires 0 <= i < |operations| => Operation(i, operations[i]))
  }

  function IntentRecords(id: TransactionId, intents: seq<Intent>): seq<Record> {
    seq(|intents|, i requires 0 <= i < |intents| => IntentRecord(id, i, intents[i]))
  }

  function StagedRecords(identities: seq<(Option<Ino>, Option<Ino>)>): seq<Record> {
    seq(|identities|, i requires 0 <= i < |identities| => PathStaged(i, identities[i].0, identities[i].1))
  }

  function Render(p: Preparation): seq<Record> {
    [Header(p.transaction, p.contract, p.operationTotal, p.pathTotal)]
    + OperationRecords(p.operations) + IntentRecords(p.transaction, p.intents) + StagedRecords(p.identities)
    + if p.closed then [Prepared(p.operationTotal, p.pathTotal)] else []
  }

  // One record

  function Extended(p: Preparation, r: Record): Preparation {
    match r
    case Operation(_, o) => p.(operations := p.operations + [o])
    case PathIntent(_, path, before, after, _, _) => p.(intents := p.intents + [Intent(path, before, after)])
    case PathStaged(_, stage, backup) => p.(identities := p.identities + [(stage, backup)])
    case _ => p.(closed := true)
  }

  predicate MayFollow(limits: Limits, p: Preparation, r: Record) {
    match r
    case Operation(i, o) =>
      && p.intents == [] && !p.closed && i == |p.operations| < p.operationTotal
      && Formed(limits, o) && Agree(Reads(o), Writes(o))
      && forall j | 0 <= j < |p.operations| :: Separate(p.operations[j], o)
    case PathIntent(i, path, before, after, _, _) =>
      && p.identities == [] && !p.closed && |p.operations| == p.operationTotal && |p.intents| < p.pathTotal
      && r == IntentRecord(p.transaction, |p.intents|, Intent(path, before, after))
      && (forall j | 0 <= j < |p.intents| :: p.intents[j].path.key < path.key)
      && Fits(limits, p.operations, Intent(path, before, after))
    case PathStaged(i, stage, backup) =>
      !p.closed && |p.intents| == p.pathTotal && i == |p.identities| < p.pathTotal && Staged(p.intents[i], (stage, backup))
    case Prepared(operations, paths) =>
      && !p.closed && |p.identities| == |p.intents| == p.pathTotal && operations == p.operationTotal && paths == p.pathTotal
      && Covered(p.operations, p.intents)
    case _ => false
  }

  /** A record that may follow makes a longer preparation, and its journal. */
  lemma Extends(limits: Limits, p: Preparation, r: Record)
    requires WellFormed(limits, p) && MayFollow(limits, p, r)
    ensures WellFormed(limits, Extended(p, r)) && Render(Extended(p, r)) == Render(p) + [r]
  {
    ExtendsWell(limits, p, r);
    ExtendsRender(limits, p, r);
  }

  lemma ExtendsWell(limits: Limits, p: Preparation, r: Record)
    requires WellFormed(limits, p) && MayFollow(limits, p, r)
    ensures WellFormed(limits, Extended(p, r))
  {
    hide Formed, Separate, Fits, Staged, Covered, Agree;
  }

  lemma ExtendsRender(limits: Limits, p: Preparation, r: Record)
    requires WellFormed(limits, p) && MayFollow(limits, p, r)
    ensures Render(Extended(p, r)) == Render(p) + [r]
  {
    hide Formed, Separate, Fits, Staged, Covered, AllFormed, Ascending, Agree;
  }

  function Shorter(p: Preparation): Preparation {
    if p.closed then p.(closed := false)
    else if p.identities != [] then p.(identities := p.identities[..|p.identities| - 1])
    else if p.intents != [] then p.(intents := p.intents[..|p.intents| - 1])
    else if p.operations != [] then p.(operations := p.operations[..|p.operations| - 1])
    else p
  }

  function LastRecord(p: Preparation): Record
    requires p.operations != [] || p.intents != [] || p.identities != [] || p.closed
  {
    if p.closed then Prepared(p.operationTotal, p.pathTotal)
    else if p.identities != [] then var i := |p.identities| - 1; PathStaged(i, p.identities[i].0, p.identities[i].1)
    else if p.intents != [] then var i := |p.intents| - 1; IntentRecord(p.transaction, i, p.intents[i])
    else var i := |p.operations| - 1; Operation(i, p.operations[i])
  }

  lemma Shortens(limits: Limits, p: Preparation)
    requires WellFormed(limits, p) && (p.operations != [] || p.intents != [] || p.identities != [] || p.closed)
    ensures WellFormed(limits, Shorter(p)) && MayFollow(limits, Shorter(p), LastRecord(p)) && Extended(Shorter(p), LastRecord(p)) == p
  {
    hide Formed, Separate, Fits, Staged, Covered;
  }

  // The replayed state

  predicate ReadBySome(operations: seq<OperationRecord>, k: nat) {
    exists i | 0 <= i < |operations| :: Reads(operations[i]).Some? && Reads(operations[i]).value.key == k
  }

  predicate WrittenBySome(operations: seq<OperationRecord>, k: nat) {
    exists i | 0 <= i < |operations| :: Writes(operations[i]).Some? && Writes(operations[i]).value.key == k
  }

  lemma OneMore(operations: seq<OperationRecord>, o: OperationRecord, k: nat)
    ensures ReadBySome(operations + [o], k) <==> ReadBySome(operations, k) || (Reads(o).Some? && Reads(o).value.key == k)
    ensures WrittenBySome(operations + [o], k) <==> WrittenBySome(operations, k) || (Writes(o).Some? && Writes(o).value.key == k)
  {
    var more := operations + [o];
    assert more[|operations|] == o && forall i | 0 <= i < |operations| :: more[i] == operations[i];
    if i :| 0 <= i < |operations| && Reads(operations[i]).Some? && Reads(operations[i]).value.key == k {
      assert Reads(more[i]).Some?;
    }
    if i :| 0 <= i < |operations| && Writes(operations[i]).Some? && Writes(operations[i]).value.key == k {
      assert Writes(more[i]).Some?;
    }
  }

  /** What replay knows of the endpoints. */
  ghost predicate Endpoints(st: State, operations: seq<OperationRecord>) {
    && (forall k: nat :: k in st.inputs <==> ReadBySome(operations, k))
    && (forall k: nat :: k in st.outputs <==> WrittenBySome(operations, k))
    && (forall k: nat :: k in st.expected <==> k in st.inputs || k in st.outputs)
    && (forall k | k in st.expected :: (st.expected[k].before.Some? <==> k in st.inputs) && (st.expected[k].after.Some? <==> k in st.outputs))
    && (forall i | 0 <= i < |operations| && Reads(operations[i]).Some? :: Known(st.expected, operations[i], Reads(operations[i]).value, true))
    && (forall i | 0 <= i < |operations| && Writes(operations[i]).Some? :: Known(st.expected, operations[i], Writes(operations[i]).value, false))
  }

  predicate Known(expected: map<nat, ExpectedPath>, o: OperationRecord, path: PathName, read: bool) {
    && path.key in expected && expected[path.key].path == path
    && (read ==> o.oldSha256.Some? && expected[path.key].before == Some(Endpoint(o.oldSha256.value, o.bytesBefore)))
    && (!read ==> o.newSha256.Some? && expected[path.key].after == Some(Endpoint(o.newSha256.value, o.bytesAfter)))
  }

  function PathAt(p: Preparation, i: nat): RecoveryPath
    requires i < |p.intents|
  {
    var t := p.intents[i];
    var staged := i < |p.identities|;
    RecoveryPath(i, t.path, t.before, t.after,
                 if t.after.SpecPresent? then Some(ArtifactName(p.transaction, i, Stage)) else None,
                 if t.before.SpecPresent? then Some(ArtifactName(p.transaction, i, Backup)) else None,
                 if staged then p.identities[i].0 else None, if staged then p.identities[i].1 else None, staged)
  }

  function PhaseOf(p: Preparation): Phase {
    if p.closed then InPrepared else if p.identities != [] then InStaged else if p.intents != [] then InPaths else InOperations
  }

  /** The replayed state is what the preparation says. */
  ghost predicate Stands(st: State, p: Preparation) {
    && st.transaction == p.transaction && st.operationTotal == p.operationTotal && st.pathTotal == p.pathTotal
    && st.phase == PhaseOf(p) && st.prepared == p.closed
    && st.operationCount == |p.operations| && st.stagedCount == |p.identities|
    && st.commitIntents == {} && st.committed == {} && st.rollbackIntents == {} && st.rolledBack == {} && st.finished.None?
    && st.lastCommitIntent.None? && st.lastRollbackIntent.None?
    && Endpoints(st, p.operations)
    && |st.paths| == |p.intents| && (forall i | 0 <= i < |p.intents| :: st.paths[i] == PathAt(p, i))
    && Machine.Keyed(st.paths, st.pathKeys)
  }

  // Steps of replay

  lemma FormedIff(limits: Limits, o: OperationRecord)
    ensures ValidOperation(limits, o) <==> Formed(limits, o)
    ensures Formed(limits, o) ==>
              && InputOf(o) == (if Reads(o).Some? then Some((Reads(o).value, Endpoint(o.oldSha256.value, o.bytesBefore))) else None)
              && OutputOf(o) == (if Writes(o).Some? then Some((Writes(o).value, Endpoint(o.newSha256.value, o.bytesAfter))) else None)
  {
  }

  lemma RegistersIff(st: State, operations: seq<OperationRecord>, o: OperationRecord, limits: Limits)
    requires Endpoints(st, operations) && Formed(limits, o)
    ensures var read := RegisterInput(st, InputOf(o));
            (read.Ok? && RegisterOutput(read.value, OutputOf(o)).Ok?) <==>
            Agree(Reads(o), Writes(o)) && forall j | 0 <= j < |operations| :: Separate(operations[j], o)
  {
    hide Formed;
    FormedIff(limits, o);
  }

  lemma RegistersStand(st: State, operations: seq<OperationRecord>, o: OperationRecord, limits: Limits)
    requires Endpoints(st, operations) && Formed(limits, o)
    requires RegisterInput(st, InputOf(o)).Ok? && RegisterOutput(RegisterInput(st, InputOf(o)).value, OutputOf(o)).Ok?
    ensures Endpoints(RegisterOutput(RegisterInput(st, InputOf(o)).value, OutputOf(o)).value, operations + [o])
  {
    hide Known, ReadBySome, WrittenBySome, RegisterInput, RegisterOutput, InputOf, OutputOf, Formed;
    var next := RegisterOutput(RegisterInput(st, InputOf(o)).value, OutputOf(o)).value;
    var more := operations + [o];
    RegistersKeys(st, operations, o, limits);
    forall k: nat
      ensures k in next.inputs <==> ReadBySome(more, k)
      ensures k in next.outputs <==> WrittenBySome(more, k)
    {
      OneMore(operations, o, k);
    }
    forall i | 0 <= i < |more|
      ensures Reads(more[i]).Some? ==> Known(next.expected, more[i], Reads(more[i]).value, true)
      ensures Writes(more[i]).Some? ==> Known(next.expected, more[i], Writes(more[i]).value, false)
    {
      if i < |operations| {
        assert more[i] == operations[i];
        OldKnown(st, operations, o, limits, i);
      } else {
        NewKnown(st, o, limits);
      }
    }
  }

  lemma RegistersKeys(st: State, operations: seq<OperationRecord>, o: OperationRecord, limits: Limits)
    requires Endpoints(st, operations) && Formed(limits, o)
    requires RegisterInput(st, InputOf(o)).Ok? && RegisterOutput(RegisterInput(st, InputOf(o)).value, OutputOf(o)).Ok?
    ensures var next := RegisterOutput(RegisterInput(st, InputOf(o)).value, OutputOf(o)).value;
            && (forall k: nat :: k in next.inputs <==> k in st.inputs || (Reads(o).Some? && Reads(o).value.key == k))
            && (forall k: nat :: k in next.outputs <==> k in st.outputs || (Writes(o).Some? && Writes(o).value.key == k))
            && (forall k: nat :: k in next.expected <==> k in next.inputs || k in next.outputs)
            && (forall k | k in next.expected ::
                  (next.expected[k].before.Some? <==> k in next.inputs) && (next.expected[k].after.Some? <==> k in next.outputs))
  {
    hide Known, ReadBySome, WrittenBySome, Formed;
    FormedIff(limits, o);
  }

  lemma OldKnown(st: State, operations: seq<OperationRecord>, o: OperationRecord, limits: Limits, i: nat)
    requires Endpoints(st, operations) && Formed(limits, o) && i < |operations|
    requires RegisterInput(st, InputOf(o)).Ok? && RegisterOutput(RegisterInput(st, InputOf(o)).value, OutputOf(o)).Ok?
    ensures var next := RegisterOutput(RegisterInput(st, InputOf(o)).value, OutputOf(o)).value;
            && (Reads(operations[i]).Some? ==> Known(next.expected, operations[i], Reads(operations[i]).value, true))
            && (Writes(operations[i]).Some? ==> Known(next.expected, operations[i], Writes(operations[i]).value, false))
  {
    hide Formed;
    FormedIff(limits, o);
    RegistersIff(st, operations, o, limits);
    assert Separate(operations[i], o);
  }

  lemma NewKnown(st: State, o: OperationRecord, limits: Limits)
    requires Formed(limits, o)
    requires RegisterInput(st, InputOf(o)).Ok? && RegisterOutput(RegisterInput(st, InputOf(o)).value, OutputOf(o)).Ok?
    ensures var next := RegisterOutput(RegisterInput(st, InputOf(o)).value, OutputOf(o)).value;
            && (Reads(o).Some? ==> Known(next.expected, o, Reads(o).value, true))
            && (Writes(o).Some? ==> Known(next.expected, o, Writes(o).value, false))
  {
  }

  /** One operation more. */
  lemma OperationIff(limits: Limits, st: State, p: Preparation, i: nat, o: OperationRecord)
    requires WellFormed(limits, p) && Stands(st, p)
    ensures Step(limits, st, Operation(i, o)).Ok? <==> MayFollow(limits, p, Operation(i, o))
    ensures Step(limits, st, Operation(i, o)).Ok? ==> Stands(Step(limits, st, Operation(i, o)).value, Extended(p, Operation(i, o)))
  {
    hide Endpoints, AllFormed, Fits, Covered, Formed, ValidOperation, RegisterInput, RegisterOutput, InputOf, OutputOf, Separate,
         Agree, Machine.Keyed;
    FormedIff(limits, o);
    if Formed(limits, o) {
      RegistersIff(st, p.operations, o, limits);
      if RegisterInput(st, InputOf(o)).Ok? && RegisterOutput(RegisterInput(st, InputOf(o)).value, OutputOf(o)).Ok? {
        RegistersRest(st, o);
        RegistersStand(st, p.operations, o, limits);
        var next := RegisterOutput(RegisterInput(st, InputOf(o)).value, OutputOf(o)).value;
        SameEndpoints(next, next.(operationCount := st.operationCount + 1), p.operations + [o]);
      }
    }
  }

  lemma RegistersRest(st: State, o: OperationRecord)
    requires RegisterInput(st, InputOf(o)).Ok? && RegisterOutput(RegisterInput(st, InputOf(o)).value, OutputOf(o)).Ok?
    ensures var next := RegisterOutput(RegisterInput(st, InputOf(o)).value, OutputOf(o)).value;
            next == st.(inputs := next.inputs, outputs := next.outputs, expected := next.expected)
  {
  }

  lemma SameEndpoints(st: State, next: State, operations: seq<OperationRecord>)
    requires Endpoints(st, operations) && next.inputs == st.inputs && next.outputs == st.outputs && next.expected == st.expected
    ensures Endpoints(next, operations)
  {
  }

  /** A path is as replay expects it exactly if it fits the operations. */
  lemma FitsIff(limits: Limits, st: State, operations: seq<OperationRecord>, t: Intent)
    requires Endpoints(st, operations) && AllFormed(limits, operations)
    ensures (WithinLimits(limits, t.before, true) && WithinLimits(limits, t.after, false) && ExpectedAs(st.expected, t.path, t.before, t.after)
             && (t.before.SpecPresent? || t.after.SpecPresent?)) <==>
            Fits(limits, operations, t)
  {
    hide Formed, Separate;
  }

  /** One path more. */
  lemma IntentIff(limits: Limits, st: State, p: Preparation, r: Record)
    requires WellFormed(limits, p) && Stands(st, p) && r.PathIntent?
    ensures Step(limits, st, r).Ok? <==> MayFollow(limits, p, r)
    ensures Step(limits, st, r).Ok? ==> Stands(Step(limits, st, r).value, Extended(p, r))
  {
    hide Endpoints, AllFormed, Fits, Covered, WithinLimits, ExpectedAs, Machine.Keyed;
    var t := Intent(r.path, r.before, r.after);
    FitsIff(limits, st, p.operations, t);
    KeysBelow(st, p, r.path.key);
    if Step(limits, st, r).Ok? {
      var next := Step(limits, st, r).value;
      SameEndpoints(st, next, p.operations);
      Machine.KeyedAppend(st.paths, st.pathKeys, next.paths[|st.paths|]);
    }
  }

  lemma KeysBelow(st: State, p: Preparation, key: nat)
    requires Stands(st, p)
    ensures (key !in st.pathKeys && !exists k | k in st.pathKeys :: k > key) <==>
            forall j | 0 <= j < |p.intents| :: p.intents[j].path.key < key
  {
    hide Endpoints;
    assert forall j | 0 <= j < |p.intents| :: p.intents[j].path.key == st.paths[j].path.key;
  }

  /** One path staged. */
  lemma StagedIff(limits: Limits, st: State, p: Preparation, r: Record)
    requires WellFormed(limits, p) && Stands(st, p) && r.PathStaged?
    ensures Step(limits, st, r).Ok? <==> MayFollow(limits, p, r)
    ensures Step(limits, st, r).Ok? ==> Stands(Step(limits, st, r).value, Extended(p, r))
  {
    hide Endpoints, AllFormed, Fits, Covered, Machine.Keyed;
    if Step(limits, st, r).Ok? {
      var next := Step(limits, st, r).value;
      SameEndpoints(st, next, p.operations);
      Machine.KeyedSame(st.paths, next.paths, st.pathKeys);
    }
  }

  /** Preparation is over exactly if every path has been intended and staged. */
  lemma PreparedIff(limits: Limits, st: State, p: Preparation, r: Record)
    requires WellFormed(limits, p) && Stands(st, p) && r.Prepared?
    ensures Step(limits, st, r).Ok? <==> MayFollow(limits, p, r)
    ensures Step(limits, st, r).Ok? ==> Stands(Step(limits, st, r).value, Extended(p, r))
  {
    hide Endpoints, AllFormed, Fits, Covered, Machine.Keyed, CoversExpected;
    if |p.intents| == p.pathTotal { CoversIff(limits, st, p); }
    if Step(limits, st, r).Ok? {
      SameEndpoints(st, Step(limits, st, r).value, p.operations);
    }
  }

  lemma CoversIff(limits: Limits, st: State, p: Preparation)
    requires WellFormed(limits, p) && Stands(st, p)
    ensures CoversExpected(st.expected, st.paths) <==> Covered(p.operations, p.intents)
  {
    hide Endpoints, AllFormed, Fits, Machine.Keyed, WithinLimits, Covered, ExpectedAs;
    forall i | 0 <= i < |st.paths|
      ensures ExpectedAs(st.expected, st.paths[i].path, st.paths[i].before, st.paths[i].after)
    {
      FitsIff(limits, st, p.operations, p.intents[i]);
    }
    Machine.KeysCount(st.paths, st.pathKeys);
    PathsExpected(limits, st, p);
    CoveredIff(st, p);
    SubsetCount(st.pathKeys, st.expected.Keys);
    assert |st.expected| == |st.expected.Keys|;
    if st.expected.Keys <= st.pathKeys { assert st.expected.Keys == st.pathKeys; }
  }

  lemma PathsExpected(limits: Limits, st: State, p: Preparation)
    requires WellFormed(limits, p) && Stands(st, p)
    ensures st.pathKeys <= st.expected.Keys
    ensures forall i | 0 <= i < |p.intents| :: p.intents[i].path.key in st.expected && st.expected[p.intents[i].path.key].path == p.intents[i].path
  {
    hide Endpoints, AllFormed, Fits, WithinLimits;
    forall i | 0 <= i < |p.intents|
      ensures p.intents[i].path.key in st.expected && st.expected[p.intents[i].path.key].path == p.intents[i].path
    {
      FitsIff(limits, st, p.operations, p.intents[i]);
    }
  }

  lemma CoveredIff(st: State, p: Preparation)
    requires Stands(st, p)
    requires forall i | 0 <= i < |p.intents| :: p.intents[i].path.key in st.expected && st.expected[p.intents[i].path.key].path == p.intents[i].path
    ensures Covered(p.operations, p.intents) <==> st.expected.Keys <= st.pathKeys
  {
    if Covered(p.operations, p.intents) {
      forall k | k in st.expected ensures k in st.pathKeys {
        if k in st.inputs {
          assert ReadBySome(p.operations, k);
          var i :| 0 <= i < |p.operations| && Reads(p.operations[i]).Some? && Reads(p.operations[i]).value.key == k;
          ListedKey(st, p, Reads(p.operations[i]));
        } else {
          assert WrittenBySome(p.operations, k);
          var i :| 0 <= i < |p.operations| && Writes(p.operations[i]).Some? && Writes(p.operations[i]).value.key == k;
          ListedKey(st, p, Writes(p.operations[i]));
        }
      }
    }
    if st.expected.Keys <= st.pathKeys {
      forall i | 0 <= i < |p.operations|
        ensures Listed(Reads(p.operations[i]), p.intents) && Listed(Writes(p.operations[i]), p.intents)
      {
        if Reads(p.operations[i]).Some? { KeyListed(st, p, Reads(p.operations[i]).value); }
        if Writes(p.operations[i]).Some? { KeyListed(st, p, Writes(p.operations[i]).value); }
      }
    }
  }

  lemma ListedKey(st: State, p: Preparation, path: Option<PathName>)
    requires Stands(st, p) && path.Some? && Listed(path, p.intents)
    ensures path.value.key in st.pathKeys
  {
    hide Endpoints;
    var j :| 0 <= j < |p.intents| && p.intents[j].path == path.value;
    assert st.paths[j].path == path.value;
  }

  lemma KeyListed(st: State, p: Preparation, path: PathName)
    requires Stands(st, p) && path.key in st.pathKeys && path.key in st.expected && st.expected[path.key].path == path
    requires forall i | 0 <= i < |p.intents| :: p.intents[i].path.key in st.expected && st.expected[p.intents[i].path.key].path == p.intents[i].path
    ensures Listed(Some(path), p.intents)
  {
    hide Endpoints;
    var j :| 0 <= j < |st.paths| && st.paths[j].path.key == path.key;
    assert p.intents[j].path == st.paths[j].path;
  }

  /** Replay takes a preparation record exactly if it may follow, and then stands where the longer
      preparation does. */
  lemma StepIff(limits: Limits, st: State, p: Preparation, r: Record)
    requires WellFormed(limits, p) && Stands(st, p) && !TailRecord(r)
    ensures Step(limits, st, r).Ok? <==> MayFollow(limits, p, r)
    ensures Step(limits, st, r).Ok? ==> Stands(Step(limits, st, r).value, Extended(p, r))
  {
    hide WellFormed, Stands, Endpoints, Step, MayFollow, Extended;
    match r {
      case Operation(i, o) => OperationIff(limits, st, p, i, o);
      case PathIntent(_, _, _, _, _, _) => IntentIff(limits, st, p, r);
      case PathStaged(_, _, _) => StagedIff(limits, st, p, r);
      case Prepared(_, _) => PreparedIff(limits, st, p, r);
      case Header(_, _, _, _) => NoSecondHeader(limits, st, p, r);
    }
  }

  lemma NoSecondHeader(limits: Limits, st: State, p: Preparation, r: Record)
    requires r.Header?
    ensures Step(limits, st, r).Corrupt? && !MayFollow(limits, p, r)
  {
  }

  predicate TailRecord(r: Record) {
    r.CommitIntent? || r.CommitDone? || r.RollbackIntent? || r.RollbackDone? || r.Finished?
  }

  // Whole journals

  predicate Bare(p: Preparation) {
    p.operations == [] && p.intents == [] && p.identities == [] && !p.closed
  }

  lemma BareIff(limits: Limits, header: Record, p: Preparation)
    requires Bare(p) && header == Header(p.transaction, p.contract, p.operationTotal, p.pathTotal)
    ensures Start(limits, header).Ok? <==> WellFormed(limits, p)
    ensures Start(limits, header).Ok? ==> Stands(Start(limits, header).value, p)
    ensures Render(p) == [header] && Parse(limits, [header]) == Start(limits, header)
  {
  }

  /** Every well-formed preparation is accepted, and replay holds exactly what it says. */
  lemma {:induction false} PreparationAccepted(limits: Limits, p: Preparation) returns (st: State)
    requires WellFormed(limits, p)
    ensures Parse(limits, Render(p)) == Ok(st) && Stands(st, p)
    decreases |p.operations| + |p.intents| + |p.identities| + if p.closed then 1 else 0
  {
    hide WellFormed, Stands, Step, MayFollow, Extended, Parse;
    if Bare(p) {
      var header := Header(p.transaction, p.contract, p.operationTotal, p.pathTotal);
      BareIff(limits, header, p);
      st := Start(limits, header).value;
    } else {
      Shortens(limits, p);
      var q, r := Shorter(p), LastRecord(p);
      var before := PreparationAccepted(limits, q);
      Extends(limits, q, r);
      StepIff(limits, before, q, r);
      ParseAppend(limits, Render(q), r);
      st := Step(limits, before, r).value;
    }
  }

  /** Every accepted journal without tail records is a well-formed preparation. */
  lemma {:induction false} PreparationRecognized(limits: Limits, records: seq<Record>, st: State) returns (p: Preparation)
    requires Parse(limits, records) == Ok(st) && forall i | 0 < i < |records| :: !TailRecord(records[i])
    ensures WellFormed(limits, p) && Render(p) == records && Stands(st, p)
    decreases |records|
  {
    hide WellFormed, Stands, Step, MayFollow, Extended, Render, TailRecord;
    NeverEmpty(limits, records);
    if |records| == 1 {
      var header := records[0];
      p := Preparation(header.transaction, header.contract, header.operationCount, header.pathCount, [], [], [], false);
      assert records == [header];
      BareIff(limits, header, p);
    } else {
      var most, r := records[..|records| - 1], records[|records| - 1];
      assert records == most + [r];
      ParseAppend(limits, most, r);
      var q := PreparationRecognized(limits, most, Parse(limits, most).value);
      StepIff(limits, Parse(limits, most).value, q, r);
      Extends(limits, q, r);
      p := Extended(q, r);
    }
  }

  lemma NeverEmpty(limits: Limits, records: seq<Record>)
    requires Parse(limits, records).Ok?
    ensures records != [] && records[0].Header?
  {
  }

  /** A preparation and, once it is closed, a well-formed tail; before that nothing but an abort. */
  predicate Journal(limits: Limits, p: Preparation, t: Grammar.Tail, records: seq<Record>) {
    && WellFormed(limits, p) && records == Render(p) + Grammar.Render(t)
    && if p.closed then Grammar.WellFormed(|p.intents|, t)
       else t.commits == [] && t.committed && t.rollbacks == [] && t.undone && t.finish in {None, Some(Aborted)}
  }

  /** The replayed state holds exactly what preparation and tail say. */
  predicate Meant(st: State, p: Preparation, t: Grammar.Tail) {
    && st.transaction == p.transaction && st.prepared == p.closed && st.finished == t.finish
    && |st.paths| == |p.intents| && (forall i | 0 <= i < |p.intents| :: st.paths[i] == PathAt(p, i))
    && st.commitIntents == Grammar.Elements(t.commits) && st.committed == Grammar.Completed(t.commits, t.committed)
    && st.rollbackIntents == Grammar.Elements(t.rollbacks) && st.rolledBack == Grammar.Completed(t.rollbacks, t.undone)
  }

  lemma StandsMeans(st: State, p: Preparation, t: Grammar.Tail)
    requires Stands(st, p)
    ensures p.closed ==> Grammar.JustPrepared(st) && Meant(Grammar.After(st, t), p, t)
    ensures !p.closed && t == Grammar.Tail([], true, [], true, None) ==> Meant(st, p, t)
    ensures !p.closed && t == Grammar.Tail([], true, [], true, Some(Aborted)) ==> Meant(st.(finished := Some(Aborted), phase := InFinished), p, t)
  {
    hide Endpoints, Machine.Keyed;
    Grammar.EmptyElements([]);
  }

  lemma JournalAccepted(limits: Limits, p: Preparation, t: Grammar.Tail, records: seq<Record>) returns (st: State)
    requires Journal(limits, p, t, records)
    ensures Parse(limits, records) == Ok(st) && Meant(st, p, t)
  {
    hide WellFormed, Stands, Meant, Step, Parse, Render, Grammar.WellFormed, Grammar.Render;
    var start := PreparationAccepted(limits, p);
    StandsMeans(start, p, t);
    if p.closed {
      StandsCount(start, p);
      Grammar.TailAccepted(limits, start, t);
      ParseConcat(limits, Render(p), Grammar.Render(t), start);
      st := Grammar.After(start, t);
    } else if t.finish.None? {
      NothingAfter(t);
      assert Render(p) + [] == Render(p);
      st := start;
    } else {
      AbortAfter(limits, start, p, t);
      assert Render(p) != [] by { NeverEmpty(limits, Render(p)); }
      ParseAppend(limits, Render(p), Finished(Aborted));
      st := start.(finished := Some(Aborted), phase := InFinished);
    }
  }

  lemma StandsCount(st: State, p: Preparation)
    requires Stands(st, p)
    ensures |st.paths| == |p.intents|
  {
  }

  lemma NothingAfter(t: Grammar.Tail)
    requires t == Grammar.Tail([], true, [], true, None)
    ensures Grammar.Render(t) == []
  {
  }

  lemma AbortAfter(limits: Limits, st: State, p: Preparation, t: Grammar.Tail)
    requires t == Grammar.Tail([], true, [], true, Some(Aborted)) && Stands(st, p)
    ensures Grammar.Render(t) == [Finished(Aborted)]
    ensures Step(limits, st, Finished(Aborted)) == Ok(st.(finished := Some(Aborted), phase := InFinished))
  {
    hide Endpoints, Machine.Keyed;
  }

  /** A tail record leaves the phases of preparation for good. */
  lemma {:induction false} TailAhead(limits: Limits, records: seq<Record>, st: State)
    requires Parse(limits, records) == Ok(st) && st.phase in {InOperations, InPaths, InStaged, InPrepared}
    ensures forall i | 0 < i < |records| :: !TailRecord(records[i])
    decreases |records|
  {
    hide Parse, Step;
    NeverEmpty(limits, records);
    if |records| > 1 {
      var most, r := records[..|records| - 1], records[|records| - 1];
      assert records == most + [r];
      ParseAppend(limits, most, r);
      PhaseStep(limits, Parse(limits, most).value, r);
      TailAhead(limits, most, Parse(limits, most).value);
    }
  }

  lemma PhaseStep(limits: Limits, st: State, r: Record)
    requires Step(limits, st, r).Ok? && Step(limits, st, r).value.phase in {InOperations, InPaths, InStaged, InPrepared}
    ensures st.phase in {InOperations, InPaths, InStaged, InPrepared} && !TailRecord(r)
  {
    hide ValidOperation, ExpectedAs, WithinLimits, ArtifactContract, CoversExpected, StagedIdentityMatches;
  }

  lemma JournalRecognized(limits: Limits, records: seq<Record>, st: State) returns (p: Preparation, t: Grammar.Tail)
    requires Parse(limits, records) == Ok(st)
    ensures Journal(limits, p, t, records)
  {
    hide WellFormed, Stands, Step, Parse, Render, Grammar.WellFormed, Grammar.Render, Grammar.After, Grammar.NoTail, Grammar.JustPrepared;
    if st.prepared {
      var n, start;
      n, start, t := Grammar.PreparedJournal(limits, records, st);
      JustPhase(start);
      TailAhead(limits, records[..n], start);
      p := PreparationRecognized(limits, records[..n], start);
      StandsPrepared(start, p);
      assert records == records[..n] + records[n..];
    } else {
      p, t := UnpreparedRecognized(limits, records, st);
    }
  }

  lemma JustPhase(st: State)
    requires Grammar.JustPrepared(st)
    ensures st.phase == InPrepared && st.prepared
  {
  }

  lemma StandsPrepared(st: State, p: Preparation)
    requires Stands(st, p)
    ensures p.closed == st.prepared && |p.intents| == |st.paths|
  {
  }

  lemma UnpreparedRecognized(limits: Limits, records: seq<Record>, st: State) returns (p: Preparation, t: Grammar.Tail)
    requires Parse(limits, records) == Ok(st) && !st.prepared
    ensures Journal(limits, p, t, records)
  {
    hide WellFormed, Stands, Step, Parse, Render, Grammar.WellFormed;
    Grammar.NoTailRun(limits, records, st);
    if st.phase == InFinished {
      NeverEmpty(limits, records);
      StartPhase(limits, records, st);
      var most, r := records[..|records| - 1], records[|records| - 1];
      assert records == most + [r];
      ParseAppend(limits, most, r);
      var before := Parse(limits, most).value;
      OnlyAbort(limits, before, r, st);
      Grammar.NoTailRun(limits, most, before);
      TailAhead(limits, most, before);
      p := PreparationRecognized(limits, most, before);
      StandsPrepared(before, p);
      t := Grammar.Tail([], true, [], true, Some(Aborted));
      assert Grammar.Render(t) == [Finished(Aborted)];
    } else {
      TailAhead(limits, records, st);
      p := PreparationRecognized(limits, records, st);
      StandsPrepared(st, p);
      t := Grammar.Tail([], true, [], true, None);
      assert Grammar.Render(t) == [];
      assert records + [] == records;
    }
  }

  lemma StartPhase(limits: Limits, records: seq<Record>, st: State)
    requires Parse(limits, records) == Ok(st) && st.phase == InFinished
    ensures |records| > 1
  {
  }

  lemma OnlyAbort(limits: Limits, st: State, r: Record, next: State)
    requires Step(limits, st, r) == Ok(next) && !next.prepared && next.phase == InFinished
    ensures r == Finished(Aborted) && !st.prepared && st.phase != InFinished
  {
    hide ValidOperation, ExpectedAs, WithinLimits, ArtifactContract, CoversExpected, StagedIdentityMatches;
  }

  /** Replay accepts exactly the journals of this language, and holds exactly what they say. */
  lemma JournalIff(limits: Limits, records: seq<Record>)
    ensures Parse(limits, records).Ok? <==> exists p, t :: Journal(limits, p, t, records)
    ensures forall p, t | Journal(limits, p, t, records) :: Parse(limits, records).Ok? && Meant(Parse(limits, records).value, p, t)
  {
    hide Journal, Meant, Parse;
    if Parse(limits, records).Ok? {
      var p, t := JournalRecognized(limits, records, Parse(limits, records).value);
    }
    forall p, t | Journal(limits, p, t, records)
      ensures Parse(limits, records).Ok? && Meant(Parse(limits, records).value, p, t)
    {
      var st := JournalAccepted(limits, p, t, records);
    }
  }
}
