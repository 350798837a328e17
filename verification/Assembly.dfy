/** Projecting a plan: snapshots of its inputs, and every output computed from them. */
module Assembly {
  import opened Outcomes
  import opened Filesystem
  import opened Records
  import opened Plans
  import opened Meanings
  import opened Projections
  import opened Scheduler

  /** Byte totals over one plan. */
  datatype Budget = Budget(sourceBytes: nat, outputBytes: nat, artifactBytes: nat)

  datatype Context = Context(editor: Editor, limits: Limits, budget: Budget, identities: nat -> Ino)

  datatype Snapshot = Snapshot(transition: PathTransition, before: SlotEvidence, source: Option<File>)

  function EvidenceOf(c: Context, k: nat, file: File): SlotEvidence {
    Present(PresentEvidence(Sha256(file.bytes), |file.bytes|, c.identities(k), file.permissions))
  }

  /** `snapshot`: the slot as found, which must be what the transition expects. */
  function TakeSnapshot(c: Context, tree: Tree, t: PathTransition): Completion<Snapshot, bool> {
    var k := t.path.key;
    match t.before
    case InputAbsent => if k in tree then Rejected(false) else Returned(Snapshot(t, Absent, None))
    case InputPresent(_, sha256, _) =>
      if k !in tree || |tree[k].bytes| > c.limits.maxSourceBytes then Rejected(false)
      else if Sha256(tree[k].bytes) != sha256 || !c.editor.isText(tree[k].bytes) then Rejected(false)
      else Returned(Snapshot(t, EvidenceOf(c, k, tree[k]), Some(tree[k])))
  }

  /** `present`: one output within the per-file limits, and its number of edits. */
  function MakePresent(c: Context, file: File, edits: seq<TextEdit>): Option<(File, nat)> {
    if |file.bytes| > c.limits.maxOutputBytes then None
    else if edits == [] then Some((file, 0))
    else if |file.bytes| > c.limits.maxSourceBytes then None
    else
      match c.editor.apply(file.bytes, edits)
      case None => None
      case Some((bytes, count)) =>
        if count > c.limits.maxEdits || |bytes| > c.limits.maxOutputBytes then None
        else Some((File(bytes, file.permissions), count))
  }

  /** `project_after`: an output from its own input, or from another path's by its spelling. */
  function ProjectAfter(c: Context, after: PlannedOutput, own: Option<File>, sources: map<PathName, File>)
    : Result<Option<(File, nat)>>
  {
    match after
    case OutputAbsent => Ok(None)
    case OutputCreate(_, contents, permissions) => Produced(MakePresent(c, File(contents, permissions), []))
    case OutputModify(_, edits) => if own.None? then Corrupt else Produced(MakePresent(c, own.value, edits))
    case OutputRename(_, source, _, edits) =>
      if source !in sources then Corrupt else Produced(MakePresent(c, sources[source], edits))
  }

  function Produced(made: Option<(File, nat)>): Result<Option<(File, nat)>> {
    if made.None? then Corrupt else Ok(made)
  }

  function Bytes(file: Option<File>): nat {
    if file.Some? then |file.value.bytes| else 0
  }

  function Total(files: seq<Option<File>>): nat {
    if files == [] then 0 else Total(files[..|files| - 1]) + Bytes(files[|files| - 1])
  }

  /** The bytes of all files, one after the other. */
  function Concatenated(files: seq<Option<File>>): seq<byte> {
    if files == [] then [] else (if files[0].Some? then files[0].value.bytes else []) + Concatenated(files[1..])
  }

  /** The total is the length of all files put together, counted from whichever end. */
  lemma {:induction false} TotalLength(files: seq<Option<File>>)
    ensures Total(files) == |Concatenated(files)|
    decreases |files|
  {
    if files != [] {
      var n := |files| - 1;
      TotalLength(files[..n]);
      LastConcatenated(files);
    }
  }

  lemma {:induction false} LastConcatenated(files: seq<Option<File>>)
    requires files != []
    ensures var n := |files| - 1;
            |Concatenated(files)| == |Concatenated(files[..n])| + if files[n].Some? then |files[n].value.bytes| else 0
    decreases |files|
  {
    if |files| > 1 {
      var n := |files| - 1;
      LastConcatenated(files[1..]);
      assert files[1..][..n - 1] == files[..n][1..];
    }
  }

  function Inputs(snapshots: seq<Snapshot>): seq<Option<File>> {
    seq(|snapshots|, i requires 0 <= i < |snapshots| => snapshots[i].source)
  }

  function Outputs(paths: seq<ProjectedPath>): seq<Option<File>> {
    seq(|paths|, i requires 0 <= i < |paths| => paths[i].after)
  }

  predicate WithinBudget(b: Budget, sourceBytes: nat, outputBytes: nat) {
    sourceBytes <= b.sourceBytes && outputBytes <= b.outputBytes && sourceBytes + outputBytes <= b.artifactBytes
  }

  /** The present inputs, by spelling. */
  function SourceMap(snapshots: seq<Snapshot>): map<PathName, File> {
    if snapshots == [] then map[]
    else
      var before, last := SourceMap(snapshots[..|snapshots| - 1]), snapshots[|snapshots| - 1];
      if last.source.Some? then before[last.transition.path := last.source.value] else before
  }

  /** The paths with their outputs, all from the same sources, and the outputs by spelling. */
  function ProjectAll(c: Context, sources: map<PathName, File>, snapshots: seq<Snapshot>)
    : Result<(seq<ProjectedPath>, map<PathName, (File, nat)>)>
  {
    if snapshots == [] then Ok(([], map[]))
    else
      match ProjectAll(c, sources, snapshots[..|snapshots| - 1])
      case Corrupt => Corrupt
      case Ok((paths, outputs)) =>
        var last := snapshots[|snapshots| - 1];
        match ProjectAfter(c, last.transition.after, last.source, sources)
        case Corrupt => Corrupt
        case Ok(None) => Ok((paths + [ProjectedPath(last.transition.path, last.before, last.source, None)], outputs))
        case Ok(Some((file, count))) =>
          Ok((paths + [ProjectedPath(last.transition.path, last.before, last.source, Some(file))],
              outputs[last.transition.path := (file, count)]))
  }

  /** One logical change, from the path's source and output by their spelling. */
  function ChangeOf(action: Action, sources: map<PathName, File>, outputs: map<PathName, (File, nat)>): Result<OperationRecord> {
    if (action.Input().Some? && action.Input().value !in sources) || (action.Output().Some? && action.Output().value !in outputs)
    then Corrupt
    else
      match action
      case ModifyFile(path, _, _) =>
        Ok(OperationRecord(Modify, Some(path), None, Some(Sha256(sources[path].bytes)), Some(Sha256(outputs[path].0.bytes)),
                           |sources[path].bytes|, |outputs[path].0.bytes|, outputs[path].1))
      case CreateFile(path, _, _) =>
        Ok(OperationRecord(Create, None, Some(path), None, Some(Sha256(outputs[path].0.bytes)),
                           0, |outputs[path].0.bytes|, outputs[path].1))
      case DeleteFile(path, _) =>
        Ok(OperationRecord(Delete, Some(path), None, Some(Sha256(sources[path].bytes)), None, |sources[path].bytes|, 0, 0))
      case RenameFile(from, to, _, _) =>
        Ok(OperationRecord(Rename, Some(from), Some(to), Some(Sha256(sources[from].bytes)), Some(Sha256(outputs[to].0.bytes)),
                           |sources[from].bytes|, |outputs[to].0.bytes|, outputs[to].1))
  }

  function ChangesOf(plan: seq<Action>, sources: map<PathName, File>, outputs: map<PathName, (File, nat)>)
    : Result<seq<OperationRecord>>
  {
    if plan == [] then Ok([])
    else
      match ChangesOf(plan[..|plan| - 1], sources, outputs)
      case Corrupt => Corrupt
      case Ok(before) =>
        match ChangeOf(plan[|plan| - 1], sources, outputs)
        case Corrupt => Corrupt
        case Ok(last) => Ok(before + [last])
  }

  function AssembleAll(c: Context, plan: seq<Action>, fingerprint: nat, snapshots: seq<Snapshot>): Result<Projection> {
    var sources := SourceMap(snapshots);
    match ProjectAll(c, sources, snapshots)
    case Corrupt => Corrupt
    case Ok((paths, outputs)) =>
      if !WithinBudget(c.budget, Total(Inputs(snapshots)), Total(Outputs(paths))) then Corrupt
      else
        match ChangesOf(plan, sources, outputs)
        case Corrupt => Corrupt
        case Ok(operations) => Ok(Projection(fingerprint, operations, paths))
  }

  // The loops

  lemma {:induction false} TotalNext(files: seq<Option<File>>, n: nat)
    requires n < |files|
    ensures Total(files[..n + 1]) == Total(files[..n]) + Bytes(files[n]) <= Total(files)
    decreases |files| - n
  {
    assert files[..n + 1][..n] == files[..n];
    if n + 1 == |files| {
      assert files[..n + 1] == files;
    } else {
      TotalNext(files, n + 1);
    }
  }

  lemma {:induction false} ProjectMore(c: Context, sources: map<PathName, File>, snapshots: seq<Snapshot>, n: nat)
    requires n <= |snapshots| && ProjectAll(c, sources, snapshots).Ok?
    ensures ProjectAll(c, sources, snapshots[..n]).Ok?
    ensures var paths := ProjectAll(c, sources, snapshots).value.0;
            && ProjectAll(c, sources, snapshots[..n]).value.0 <= paths && |paths| == |snapshots|
            && Total(Outputs(ProjectAll(c, sources, snapshots[..n]).value.0)) <= Total(Outputs(paths))
    decreases |snapshots|
  {
    if n == |snapshots| {
      assert snapshots[..n] == snapshots;
      ProjectLength(c, sources, snapshots);
    } else {
      var most := snapshots[..|snapshots| - 1];
      assert most[..n] == snapshots[..n];
      ProjectMore(c, sources, most, n);
      var paths := ProjectAll(c, sources, snapshots).value.0;
      assert Outputs(paths)[..|most|] == Outputs(ProjectAll(c, sources, most).value.0);
    }
  }

  lemma {:induction false} ProjectLength(c: Context, sources: map<PathName, File>, snapshots: seq<Snapshot>)
    requires ProjectAll(c, sources, snapshots).Ok?
    ensures |ProjectAll(c, sources, snapshots).value.0| == |snapshots|
    decreases |snapshots|
  {
    if snapshots != [] {
      ProjectLength(c, sources, snapshots[..|snapshots| - 1]);
    }
  }

  lemma {:induction false} ChangesFail(plan: seq<Action>, sources: map<PathName, File>, outputs: map<PathName, (File, nat)>, n: nat)
    requires n <= |plan| && ChangesOf(plan[..n], sources, outputs).Corrupt?
    ensures ChangesOf(plan, sources, outputs).Corrupt?
    decreases |plan|
  {
    if n == |plan| {
      assert plan[..n] == plan;
    } else {
      var most := plan[..|plan| - 1];
      assert most[..n] == plan[..n];
      ChangesFail(most, sources, outputs, n);
    }
  }

  /** `changes` */
  method Changes(plan: seq<Action>, sources: map<PathName, File>, outputs: map<PathName, (File, nat)>)
    returns (result: Result<seq<OperationRecord>>)
    ensures result == ChangesOf(plan, sources, outputs)
  {
    var operations := [];
    for i := 0 to |plan|
      invariant ChangesOf(plan[..i], sources, outputs) == Ok(operations)
    {
      assert plan[..i + 1][..i] == plan[..i];
      var change := ChangeOf(plan[i], sources, outputs);
      if change.Corrupt? {
        ChangesFail(plan, sources, outputs, i + 1);
        return Corrupt;
      }
      operations := operations + [change.value];
    }
    assert plan[..|plan|] == plan;
    result := Ok(operations);
  }

  method CollectSources(c: Context, snapshots: seq<Snapshot>) returns (result: Option<(map<PathName, File>, nat)>)
    ensures result == if Total(Inputs(snapshots)) <= c.budget.sourceBytes
                      then Some((SourceMap(snapshots), Total(Inputs(snapshots)))) else None
  {
    var sources: map<PathName, File>, sourceBytes := map[], 0;
    for i := 0 to |snapshots|
      invariant sources == SourceMap(snapshots[..i]) && sourceBytes == Total(Inputs(snapshots)[..i]) <= c.budget.sourceBytes
    {
      TotalNext(Inputs(snapshots), i);
      assert snapshots[..i + 1][..i] == snapshots[..i];
      if snapshots[i].source.Some? {
        sourceBytes := sourceBytes + |snapshots[i].source.value.bytes|;
        if sourceBytes > c.budget.sourceBytes { return None; }
        sources := sources[snapshots[i].transition.path := snapshots[i].source.value];
      }
    }
    assert snapshots[..|snapshots|] == snapshots && Inputs(snapshots)[..|snapshots|] == Inputs(snapshots);
    result := Some((sources, sourceBytes));
  }

  method ComputeOutputs(c: Context, sources: map<PathName, File>, snapshots: seq<Snapshot>)
    returns (result: Option<(seq<ProjectedPath>, map<PathName, (File, nat)>, nat)>)
    ensures result.Some? ==>
              var (paths, outputs, bytes) := result.value;
              ProjectAll(c, sources, snapshots) == Ok((paths, outputs)) && bytes == Total(Outputs(paths)) <= c.budget.outputBytes
    ensures result.None? && ProjectAll(c, sources, snapshots).Ok? ==>
              Total(Outputs(ProjectAll(c, sources, snapshots).value.0)) > c.budget.outputBytes
  {
    hide ProjectAfter;
    var outputs: map<PathName, (File, nat)>, outputBytes, paths := map[], 0, [];
    for i := 0 to |snapshots|
      invariant ProjectAll(c, sources, snapshots[..i]) == Ok((paths, outputs))
      invariant outputBytes == Total(Outputs(paths)) <= c.budget.outputBytes
    {
      assert snapshots[..i + 1][..i] == snapshots[..i];
      var s := snapshots[i];
      var after := ProjectAfter(c, s.transition.after, s.source, sources);
      if after.Corrupt? {
        ProjectFails(c, sources, snapshots, i + 1);
        return None;
      }
      var file := if after.value.Some? then Some(after.value.value.0) else None;
      var more := paths + [ProjectedPath(s.transition.path, s.before, s.source, file)];
      assert Outputs(more)[..|paths|] == Outputs(paths);
      paths := more;
      if after.value.Some? {
        outputBytes := outputBytes + |file.value.bytes|;
        outputs := outputs[s.transition.path := after.value.value];
        if outputBytes > c.budget.outputBytes {
          ExceedsLater(c, sources, snapshots, i + 1);
          return None;
        }
      }
    }
    assert snapshots[..|snapshots|] == snapshots;
    result := Some((paths, outputs, outputBytes));
  }

  /** `assemble`: the sources with their total, then the outputs with theirs, then the changes. */
  method Assemble(c: Context, plan: seq<Action>, fingerprint: nat, snapshots: seq<Snapshot>)
    returns (result: Result<Projection>)
    ensures result == AssembleAll(c, plan, fingerprint, snapshots)
  {
    hide ProjectAll, SourceMap, Total, ChangesOf;
    var collected := CollectSources(c, snapshots);
    if collected.None? { return Corrupt; }
    var (sources, sourceBytes) := collected.value;
    var computed := ComputeOutputs(c, sources, snapshots);
    if computed.None? { return Corrupt; }
    var (paths, outputs, outputBytes) := computed.value;
    if sourceBytes + outputBytes > c.budget.artifactBytes { return Corrupt; }
    var operations := Changes(plan, sources, outputs);
    if operations.Corrupt? { return Corrupt; }
    result := Ok(Projection(fingerprint, operations.value, paths));
  }

  lemma ExceedsLater(c: Context, sources: map<PathName, File>, snapshots: seq<Snapshot>, n: nat)
    requires n <= |snapshots| && ProjectAll(c, sources, snapshots[..n]).Ok?
    ensures ProjectAll(c, sources, snapshots).Ok? ==>
              Total(Outputs(ProjectAll(c, sources, snapshots[..n]).value.0)) <= Total(Outputs(ProjectAll(c, sources, snapshots).value.0))
  {
    if ProjectAll(c, sources, snapshots).Ok? {
      ProjectMore(c, sources, snapshots, n);
    }
  }

  lemma {:induction false} ProjectFails(c: Context, sources: map<PathName, File>, snapshots: seq<Snapshot>, n: nat)
    requires n <= |snapshots| && ProjectAll(c, sources, snapshots[..n]).Corrupt?
    ensures ProjectAll(c, sources, snapshots).Corrupt?
    decreases |snapshots|
  {
    if n == |snapshots| {
      assert snapshots[..n] == snapshots;
    } else {
      var most := snapshots[..|snapshots| - 1];
      assert most[..n] == snapshots[..n];
      ProjectFails(c, sources, most, n);
    }
  }

  /** `project`: compile, take all snapshots on any number of workers, and assemble. */
  method Project(c: Context, plan: seq<Action>, fingerprint: nat, tree: Tree, workers: nat)
    returns (result: Result<Projection>, ghost transitions: seq<PathTransition>)
    ensures !Compilable(plan) ==> result.Corrupt?
    ensures Compilable(plan) ==>
              CompilesTo(plan, transitions) && result == ProjectionOf(c, plan, fingerprint, tree, transitions)
  {
    transitions := [];
    var compiled := CompilePlan(plan);
    if compiled.Corrupt? { return Corrupt, []; }
    transitions := compiled.value;
    var snap := (index: nat, t: PathTransition) => TakeSnapshot(c, tree, t);
    var outputs, admitted := MapOrdered(compiled.value, workers, snap);
    var selection := CollectFirst(outputs);
    ScheduleIndependent(snap, compiled.value, outputs, admitted, selection);
    SequentialSnapshots(c, tree, compiled.value, snap, 0);
    if selection.Primary? { return Corrupt, transitions; }
    result := Assemble(c, plan, fingerprint, selection.values);
  }

  /** All snapshots, or a refusal. */
  function Snapshots(c: Context, tree: Tree, transitions: seq<PathTransition>): Option<seq<Snapshot>> {
    if transitions == [] then Some([])
    else
      match TakeSnapshot(c, tree, transitions[0])
      case Returned(first) =>
        (match Snapshots(c, tree, transitions[1..])
         case None => None
         case Some(rest) => Some([first] + rest))
      case _ => None
  }

  function ProjectionOf(c: Context, plan: seq<Action>, fingerprint: nat, tree: Tree, transitions: seq<PathTransition>): Result<Projection> {
    match Snapshots(c, tree, transitions)
    case None => Corrupt
    case Some(snapshots) => AssembleAll(c, plan, fingerprint, snapshots)
  }

  lemma {:induction false} SequentialSnapshots(
      c: Context, tree: Tree, transitions: seq<PathTransition>, snap: (nat, PathTransition) -> Completion<Snapshot, bool>, i: nat)
    requires i <= |transitions| && forall n, t :: snap(n, t) == TakeSnapshot(c, tree, t)
    ensures match Sequential(snap, transitions, i)
            case Values(values) => Snapshots(c, tree, transitions[i..]) == Some(values)
            case Primary(_, _) => Snapshots(c, tree, transitions[i..]) == None
    decreases |transitions| - i
  {
    if i < |transitions| {
      SequentialSnapshots(c, tree, transitions, snap, i + 1);
      assert transitions[i..][1..] == transitions[i + 1..];
    }
  }
}
