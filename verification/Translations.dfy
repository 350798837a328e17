/** A projected plan means what the plan means, and its journal's evidence is the plan's. */
module Translations {
  import opened Outcomes
  import opened Filesystem
  import opened Records
  import opened Plans
  import opened Meanings
  import opened Projections
  import opened Scheduler
  import opened Assembly
  import Indices

  // What each fold holds at one index

  lemma {:induction false} SnapshotsAll(c: Context, tree: Tree, transitions: seq<PathTransition>)
    ensures Snapshots(c, tree, transitions).Some? <==> forall i | 0 <= i < |transitions| :: TakeSnapshot(c, tree, transitions[i]).Returned?
    ensures Snapshots(c, tree, transitions).Some? ==>
              var snapshots := Snapshots(c, tree, transitions).value;
              && |snapshots| == |transitions|
              && forall i | 0 <= i < |transitions| :: TakeSnapshot(c, tree, transitions[i]) == Returned(snapshots[i])
    decreases |transitions|
  {
    hide TakeSnapshot;
    if transitions != [] {
      SnapshotsAll(c, tree, transitions[1..]);
      assert forall i | 0 < i < |transitions| :: transitions[i] == transitions[1..][i - 1];
    }
  }

  ghost predicate Ascending(snapshots: seq<Snapshot>) {
    forall i, j | 0 <= i < j < |snapshots| :: snapshots[i].transition.path.key < snapshots[j].transition.path.key
  }

  lemma {:induction false} SourcesAll(snapshots: seq<Snapshot>)
    requires Ascending(snapshots)
    ensures forall path | path in SourceMap(snapshots) :: exists i :: 0 <= i < |snapshots| && snapshots[i].transition.path == path
    ensures forall i | 0 <= i < |snapshots| ::
              var path := snapshots[i].transition.path;
              && (path in SourceMap(snapshots) <==> snapshots[i].source.Some?)
              && (snapshots[i].source.Some? ==> SourceMap(snapshots)[path] == snapshots[i].source.value)
    decreases |snapshots|
  {
    hide Ascending;
    if snapshots != [] {
      var n := |snapshots| - 1;
      var most, last := snapshots[..n], snapshots[n];
      AscendingMost(snapshots);
      SourcesAll(most);
      forall path | path in SourceMap(snapshots)
        ensures exists i :: 0 <= i < |snapshots| && snapshots[i].transition.path == path
      {
        if path != last.transition.path {
          var i :| 0 <= i < |most| && most[i].transition.path == path;
          assert snapshots[i] == most[i];
        }
      }
    }
  }

  lemma AscendingMost(snapshots: seq<Snapshot>)
    requires snapshots != [] && Ascending(snapshots)
    ensures var n := |snapshots| - 1;
            && Ascending(snapshots[..n])
            && forall i | 0 <= i < n ::
                 snapshots[..n][i] == snapshots[i] && snapshots[i].transition.path != snapshots[n].transition.path
  {
  }

  lemma {:induction false} OutputsAll(c: Context, sources: map<PathName, File>, snapshots: seq<Snapshot>)
    requires Ascending(snapshots)
    ensures ProjectAll(c, sources, snapshots).Ok? <==>
            forall i | 0 <= i < |snapshots| :: ProjectAfter(c, snapshots[i].transition.after, snapshots[i].source, sources).Ok?
    ensures ProjectAll(c, sources, snapshots).Ok? ==> OutputsHold(c, sources, snapshots)
    decreases |snapshots|
  {
    hide ProjectAfter;
    if snapshots != [] {
      var n := |snapshots| - 1;
      var most := snapshots[..n];
      OutputsAll(c, sources, most);
      assert forall i | 0 <= i < n :: most[i] == snapshots[i];
      if ProjectAll(c, sources, snapshots).Ok? {
        OutputsNext(c, sources, snapshots);
      }
    }
  }

  ghost predicate OutputsHold(c: Context, sources: map<PathName, File>, snapshots: seq<Snapshot>)
    requires ProjectAll(c, sources, snapshots).Ok?
  {
    var (paths, outputs) := ProjectAll(c, sources, snapshots).value;
    && |paths| == |snapshots|
    && (forall path | path in outputs :: exists i :: 0 <= i < |snapshots| && snapshots[i].transition.path == path)
    && (forall i | 0 <= i < |snapshots| :: OutputHolds(c, sources, snapshots[i], paths[i], outputs))
  }

  /** One snapshot's path and output. */
  ghost predicate OutputHolds(c: Context, sources: map<PathName, File>, s: Snapshot, path: ProjectedPath, outputs: map<PathName, (File, nat)>) {
    var after := ProjectAfter(c, s.transition.after, s.source, sources);
    && after.Ok? && path == ProjectedPath(s.transition.path, s.before, s.source, if after.value.Some? then Some(after.value.value.0) else None)
    && (s.transition.path in outputs <==> after.value.Some?)
    && (after.value.Some? ==> outputs[s.transition.path] == after.value.value)
  }

  lemma OutputKeeps(
      c: Context, sources: map<PathName, File>, s: Snapshot, path: ProjectedPath, outputs: map<PathName, (File, nat)>,
      other: PathName, made: (File, nat))
    requires OutputHolds(c, sources, s, path, outputs) && s.transition.path != other
    ensures OutputHolds(c, sources, s, path, outputs[other := made])
  {
  }

  lemma OutputsNext(c: Context, sources: map<PathName, File>, snapshots: seq<Snapshot>)
    requires snapshots != [] && Ascending(snapshots) && ProjectAll(c, sources, snapshots).Ok?
    requires ProjectAll(c, sources, snapshots[..|snapshots| - 1]).Ok? && OutputsHold(c, sources, snapshots[..|snapshots| - 1])
    ensures OutputsHold(c, sources, snapshots)
  {
    hide ProjectAfter, ProjectAll, OutputHolds;
    var n := |snapshots| - 1;
    var most, last := snapshots[..n], snapshots[n];
    var (paths, outputs) := ProjectAll(c, sources, snapshots).value;
    var (paths', outputs') := ProjectAll(c, sources, most).value;
    assert forall i | 0 <= i < n :: most[i] == snapshots[i];
    LastOutput(c, sources, snapshots);
    forall i | 0 <= i < n
      ensures OutputHolds(c, sources, snapshots[i], paths[i], outputs)
    {
      if outputs != outputs' {
        OutputKeeps(c, sources, most[i], paths'[i], outputs', last.transition.path, outputs[last.transition.path]);
      }
    }
    forall path | path in outputs
      ensures exists i :: 0 <= i < |snapshots| && snapshots[i].transition.path == path
    {
      if path != last.transition.path {
        var i :| 0 <= i < |most| && most[i].transition.path == path;
        assert snapshots[i] == most[i];
      }
    }
  }

  lemma LastOutput(c: Context, sources: map<PathName, File>, snapshots: seq<Snapshot>)
    requires snapshots != [] && Ascending(snapshots) && ProjectAll(c, sources, snapshots).Ok?
    requires ProjectAll(c, sources, snapshots[..|snapshots| - 1]).Ok? && OutputsHold(c, sources, snapshots[..|snapshots| - 1])
    ensures var n := |snapshots| - 1;
            var (paths, outputs) := ProjectAll(c, sources, snapshots).value;
            var (paths', outputs') := ProjectAll(c, sources, snapshots[..n]).value;
            var last := snapshots[n].transition.path;
            && |paths| == n + 1 && paths[..n] == paths' && OutputHolds(c, sources, snapshots[n], paths[n], outputs)
            && (outputs == outputs' || (last in outputs && outputs == outputs'[last := outputs[last]]))
  {
    var n := |snapshots| - 1;
    var most, last := snapshots[..n], snapshots[n];
    var outputs' := ProjectAll(c, sources, most).value.1;
    forall path | path in outputs'
      ensures path != last.transition.path
    {
      var i :| 0 <= i < |most| && most[i].transition.path == path;
      assert most[i] == snapshots[i];
    }
    assert last.transition.path !in outputs';
  }

  lemma {:induction false} ChangesAll(plan: seq<Action>, sources: map<PathName, File>, outputs: map<PathName, (File, nat)>)
    ensures ChangesOf(plan, sources, outputs).Ok? <==> forall i | 0 <= i < |plan| :: ChangeOf(plan[i], sources, outputs).Ok?
    ensures ChangesOf(plan, sources, outputs).Ok? ==>
              var operations := ChangesOf(plan, sources, outputs).value;
              && |operations| == |plan|
              && forall i | 0 <= i < |plan| :: ChangeOf(plan[i], sources, outputs) == Ok(operations[i])
    decreases |plan|
  {
    hide ChangeOf;
    if plan != [] {
      var most := plan[..|plan| - 1];
      ChangesAll(most, sources, outputs);
      assert forall i | 0 <= i < |most| :: most[i] == plan[i];
    }
  }

  // What projection asks of a plan

  predicate Spelled(spellings: map<nat, PathName>, path: Option<PathName>) {
    path.Some? ==> path.value.key in spellings && spellings[path.value.key] == path.value
  }

  /** Every path is spelled one way. */
  ghost predicate Uniform(plan: seq<Action>) {
    forall i | 0 <= i < |plan| :: Spelled(Spellings(plan), plan[i].Input()) && Spelled(Spellings(plan), plan[i].Output())
  }

  predicate InputFits(c: Context, action: Action, tree: Tree) {
    && InputMatches(action, tree)
    && (action.Input().Some? ==>
        var bytes := tree[action.Input().value.key].bytes; |bytes| <= c.limits.maxSourceBytes && c.editor.isText(bytes))
  }

  /** What an action makes of the tree, within the per-file limits. */
  function Made(c: Context, action: Action, tree: Tree): Option<(File, nat)>
    requires InputMatches(action, tree)
  {
    match action
    case ModifyFile(path, _, edits) => MakePresent(c, tree[path.key], edits)
    case CreateFile(_, contents, permissions) => MakePresent(c, File(contents, permissions), [])
    case DeleteFile(_, _) => None
    case RenameFile(from, _, _, edits) => MakePresent(c, tree[from.key], edits)
  }

  /** What the per-file limits ask of an output: unedited, that it is not too long; edited, that its
      source is neither too long a source nor too long an output, that the edits apply, and that they are
      not too many and their result not too long. */
  predicate Producible(c: Context, file: File, edits: seq<TextEdit>) {
    && |file.bytes| <= c.limits.maxOutputBytes
    && (edits != [] ==>
          && |file.bytes| <= c.limits.maxSourceBytes
          && c.editor.apply(file.bytes, edits).Some?
          && c.editor.apply(file.bytes, edits).value.1 <= c.limits.maxEdits
          && |c.editor.apply(file.bytes, edits).value.0| <= c.limits.maxOutputBytes)
  }

  /** Exactly then there is an output, and it is the unedited or the edited file. */
  lemma MakesIff(c: Context, file: File, edits: seq<TextEdit>)
    ensures MakePresent(c, file, edits).Some? <==> Producible(c, file, edits)
    ensures Producible(c, file, edits) ==>
              MakePresent(c, file, edits).value == if edits == [] then (file, 0)
                                                   else (File(c.editor.apply(file.bytes, edits).value.0, file.permissions),
                                                         c.editor.apply(file.bytes, edits).value.1)
  {
  }

  /** The action's output stays within the limits. */
  predicate Makes(c: Context, action: Action, tree: Tree)
    requires InputMatches(action, tree)
  {
    match action
    case ModifyFile(path, _, edits) => Producible(c, tree[path.key], edits)
    case CreateFile(_, contents, _) => |contents| <= c.limits.maxOutputBytes
    case DeleteFile(_, _) => true
    case RenameFile(from, _, _, edits) => Producible(c, tree[from.key], edits)
  }

  lemma MadeIff(c: Context, action: Action, tree: Tree)
    requires InputMatches(action, tree)
    ensures action.Output().Some? ==> (Made(c, action, tree).Some? <==> Makes(c, action, tree))
  {
  }

  /** Inputs as expected, and written paths free or read as well. */
  ghost predicate Ready(c: Context, plan: seq<Action>, tree: Tree) {
    && (forall i | 0 <= i < |plan| :: InputFits(c, plan[i], tree))
    && (forall i, k: nat | 0 <= i < |plan| && plan[i].Produces(k) && k in tree :: ConsumedBySome(plan, k))
  }

  ghost predicate Projectable(c: Context, plan: seq<Action>, tree: Tree) {
    && Ready(c, plan, tree) && Uniform(plan)
    && (forall i | 0 <= i < |plan| && plan[i].Output().Some? :: Makes(c, plan[i], tree))
  }

  lemma ReadyMakes(c: Context, plan: seq<Action>, tree: Tree)
    requires Ready(c, plan, tree)
    ensures forall i | 0 <= i < |plan| :: InputMatches(plan[i], tree)
    ensures forall i | 0 <= i < |plan| && plan[i].Output().Some? :: Made(c, plan[i], tree).Some? <==> Makes(c, plan[i], tree)
  {
    forall i | 0 <= i < |plan|
      ensures InputMatches(plan[i], tree)
      ensures plan[i].Output().Some? ==> (Made(c, plan[i], tree).Some? <==> Makes(c, plan[i], tree))
    {
      assert InputFits(c, plan[i], tree);
      MadeIff(c, plan[i], tree);
    }
  }

  lemma MadeMeans(c: Context, action: Action, tree: Tree)
    requires InputMatches(action, tree) && Made(c, action, tree).Some?
    ensures OutputFile(c.editor, action, tree) == Some(Made(c, action, tree).value.0)
    ensures |Made(c, action, tree).value.0.bytes| <= c.limits.maxOutputBytes && Made(c, action, tree).value.1 <= c.limits.maxEdits
    ensures action.CreateFile? ==> Made(c, action, tree).value.1 == 0
  {
  }

  lemma ProjectableEnabled(c: Context, plan: seq<Action>, tree: Tree)
    requires Projectable(c, plan, tree)
    ensures Enabled(c.editor, plan, tree)
  {
    forall i | 0 <= i < |plan| && plan[i].Output().Some?
      ensures OutputFile(c.editor, plan[i], tree).Some?
    {
      ReadyMakes(c, plan, tree);
      MadeMeans(c, plan[i], tree);
    }
    assert forall i | 0 <= i < |plan| :: InputFits(c, plan[i], tree);
  }

  function SnapshotOf(c: Context, tree: Tree, t: PathTransition): Snapshot {
    var k := t.path.key;
    Snapshot(t, if k in tree then EvidenceOf(c, k, tree[k]) else Absent, Lookup(tree, k))
  }

  /** One transition's snapshot. */
  lemma SnapshotReady(c: Context, plan: seq<Action>, tree: Tree, t: PathTransition)
    requires PlansInput(plan, t.path.key, t.before)
    ensures TakeSnapshot(c, tree, t).Returned? <==>
            match t.before
            case InputAbsent => t.path.key !in tree
            case InputPresent(i, _, _) => InputFits(c, plan[i], tree)
    ensures TakeSnapshot(c, tree, t).Returned? ==> TakeSnapshot(c, tree, t).value == SnapshotOf(c, tree, t)
  {
  }

  /** All snapshots succeed exactly when the plan is ready. */
  lemma SnapshotsReady(c: Context, plan: seq<Action>, tree: Tree, transitions: seq<PathTransition>)
    requires Compilable(plan) && CompilesTo(plan, transitions)
    ensures Snapshots(c, tree, transitions).Some? <==> Ready(c, plan, tree)
    ensures Snapshots(c, tree, transitions).Some? ==>
              var snapshots := Snapshots(c, tree, transitions).value;
              && |snapshots| == |transitions| && Ascending(snapshots)
              && forall i | 0 <= i < |transitions| :: snapshots[i] == SnapshotOf(c, tree, transitions[i])
  {
    hide Spellings, Compilable, InputFits;
    SnapshotsAll(c, tree, transitions);
    forall i | 0 <= i < |transitions|
      ensures TakeSnapshot(c, tree, transitions[i]).Returned? ==>
                TakeSnapshot(c, tree, transitions[i]).value == SnapshotOf(c, tree, transitions[i])
    {
      SnapshotReady(c, plan, tree, transitions[i]);
    }
    if Ready(c, plan, tree) {
      forall i | 0 <= i < |transitions|
        ensures TakeSnapshot(c, tree, transitions[i]).Returned?
      {
        ReadySnapshot(c, plan, tree, transitions, i);
      }
    }
    if forall i | 0 <= i < |transitions| :: TakeSnapshot(c, tree, transitions[i]).Returned? {
      SnapshotsMakeReady(c, plan, tree, transitions);
    }
  }

  lemma ReadySnapshot(c: Context, plan: seq<Action>, tree: Tree, transitions: seq<PathTransition>, i: nat)
    requires CompilesTo(plan, transitions) && Ready(c, plan, tree) && i < |transitions|
    ensures TakeSnapshot(c, tree, transitions[i]).Returned?
  {
    hide Spellings, InputFits, TakeSnapshot;
    var k := transitions[i].path.key;
    SnapshotReady(c, plan, tree, transitions[i]);
    SpellingsTouched(plan);
    Touched(plan, k);
    assert transitions[i].before.InputAbsent? ==> !ConsumedBySome(plan, k);
  }

  /** A registered path is read or written by some action. */
  lemma Touched(plan: seq<Action>, k: nat)
    requires k in Spellings(plan)
    ensures exists j :: 0 <= j < |plan| && (plan[j].Consumes(k) || plan[j].Produces(k))
  {
    hide Spellings;
    SpellingsTouched(plan);
    var j :| 0 <= j < |plan| && (plan[j].Input() == Some(Spellings(plan)[k]) || plan[j].Output() == Some(Spellings(plan)[k]));
    assert plan[j].Consumes(k) || plan[j].Produces(k);
  }

  /** Each registered path has its transition. */
  lemma TransitionAt(plan: seq<Action>, transitions: seq<PathTransition>, j: nat, k: nat) returns (n: nat)
    requires CompilesTo(plan, transitions) && j < |plan| && (plan[j].Consumes(k) || plan[j].Produces(k))
    ensures n < |transitions| && transitions[n].path.key == k && k in Spellings(plan) && transitions[n].path == Spellings(plan)[k]
    ensures PlansInput(plan, k, transitions[n].before) && PlansOutput(plan, k, transitions[n].after)
  {
    hide Spellings;
    SpellingsTouched(plan);
    assert k in Spellings(plan);
    var i: int :| 0 <= i < |transitions| && transitions[i].path.key == k;
    n := i;
  }

  lemma TransitionSpelled(plan: seq<Action>, transitions: seq<PathTransition>, i: nat)
    requires CompilesTo(plan, transitions) && i < |transitions|
    ensures var path := transitions[i].path; path.key in Spellings(plan) && path == Spellings(plan)[path.key]
    ensures PlansOutput(plan, transitions[i].path.key, transitions[i].after)
  {
    hide Spellings, PlansInput, PlansOutput;
  }

  lemma TransitionOf(plan: seq<Action>, transitions: seq<PathTransition>, path: PathName) returns (n: nat)
    requires CompilesTo(plan, transitions) && path.key in Spellings(plan) && Spellings(plan)[path.key] == path
    ensures n < |transitions| && transitions[n].path == path
  {
    hide Spellings, PlansInput, PlansOutput;
    var i: int :| 0 <= i < |transitions| && transitions[i].path.key == path.key;
    n := i;
  }

  /** No path has two readers or two writers. */
  lemma OneEach(plan: seq<Action>, i: nat, j: nat, k: nat)
    requires Compilable(plan) && i < |plan| && j < |plan|
    ensures plan[i].Consumes(k) && plan[j].Consumes(k) ==> i == j
    ensures plan[i].Produces(k) && plan[j].Produces(k) ==> i == j
  {
  }

  lemma SnapshotsMakeReady(c: Context, plan: seq<Action>, tree: Tree, transitions: seq<PathTransition>)
    requires Compilable(plan) && CompilesTo(plan, transitions)
    requires forall i | 0 <= i < |transitions| :: TakeSnapshot(c, tree, transitions[i]).Returned?
    ensures Ready(c, plan, tree)
  {
    hide Compilable, CompilesTo, TakeSnapshot;
    forall i | 0 <= i < |plan|
      ensures InputFits(c, plan[i], tree)
    {
      if plan[i].Input().Some? {
        var k := plan[i].Input().value.key;
        var n := TransitionAt(plan, transitions, i, k);
        SnapshotReady(c, plan, tree, transitions[n]);
        assert plan[i].Consumes(k);
        OneEach(plan, i, transitions[n].before.operationIndex, k);
      }
    }
    forall i, k: nat | 0 <= i < |plan| && plan[i].Produces(k) && k in tree
      ensures ConsumedBySome(plan, k)
    {
      var n := TransitionAt(plan, transitions, i, k);
      SnapshotReady(c, plan, tree, transitions[n]);
    }
  }

  // Sources, outputs and changes by spelling

  /** The sources are exactly the present registered paths. */
  ghost predicate SourcesAre(plan: seq<Action>, tree: Tree, sources: map<PathName, File>) {
    forall path: PathName ::
      && (path in sources <==> path.key in Spellings(plan) && Spellings(plan)[path.key] == path && path.key in tree)
      && (path in sources ==> sources[path] == tree[path.key])
  }

  lemma {:induction false} SourceLookup(c: Context, plan: seq<Action>, tree: Tree, transitions: seq<PathTransition>, snapshots: seq<Snapshot>)
    requires CompilesTo(plan, transitions) && |snapshots| == |transitions| && Ascending(snapshots)
    requires forall i | 0 <= i < |transitions| :: snapshots[i] == SnapshotOf(c, tree, transitions[i])
    ensures SourcesAre(plan, tree, SourceMap(snapshots))
  {
    hide Spellings, CompilesTo;
    SourcesAll(snapshots);
    var sources := SourceMap(snapshots);
    forall path: PathName
      ensures path in sources <==> path.key in Spellings(plan) && Spellings(plan)[path.key] == path && path.key in tree
      ensures path in sources ==> sources[path] == tree[path.key]
    {
      if path in sources {
        var i :| 0 <= i < |snapshots| && snapshots[i].transition.path == path;
        TransitionSpelled(plan, transitions, i);
      } else if path.key in Spellings(plan) && Spellings(plan)[path.key] == path {
        var i := TransitionOf(plan, transitions, path);
        assert snapshots[i].transition.path == path;
      }
    }
  }

  /** The one output of a path: that of its writer. */
  ghost function MadeAt(c: Context, plan: seq<Action>, tree: Tree, k: nat): Option<(File, nat)> {
    if j :| 0 <= j < |plan| && plan[j].Produces(k) && InputMatches(plan[j], tree) then Made(c, plan[j], tree) else None
  }

  lemma MadeBy(c: Context, plan: seq<Action>, tree: Tree, j: nat, k: nat)
    requires Compilable(plan) && j < |plan| && plan[j].Produces(k) && InputMatches(plan[j], tree)
    ensures MadeAt(c, plan, tree, k) == Made(c, plan[j], tree)
  {
    hide Compilable, Made;
    var i :| 0 <= i < |plan| && plan[i].Produces(k) && InputMatches(plan[i], tree) && MadeAt(c, plan, tree, k) == Made(c, plan[i], tree);
    OneEach(plan, i, j, k);
  }

  /** One output, from sources that are the present registered paths. */
  lemma ProjectOne(c: Context, plan: seq<Action>, tree: Tree, sources: map<PathName, File>, t: PathTransition)
    requires Compilable(plan) && Ready(c, plan, tree) && SourcesAre(plan, tree, sources)
    requires PlansOutput(plan, t.path.key, t.after)
    ensures var after := ProjectAfter(c, t.after, Lookup(tree, t.path.key), sources);
            && (after.Ok? <==> forall j | 0 <= j < |plan| && plan[j].Produces(t.path.key) ::
                  (plan[j].RenameFile? ==> Spelled(Spellings(plan), plan[j].Input())) && Made(c, plan[j], tree).Some?)
            && (after.Ok? ==> after.value == MadeAt(c, plan, tree, t.path.key))
  {
    hide Compilable, MakePresent, Spellings;
    var k := t.path.key;
    forall j | 0 <= j < |plan| ensures InputMatches(plan[j], tree) {
      assert InputFits(c, plan[j], tree);
    }
    if !t.after.OutputAbsent? {
      var j := t.after.operationIndex;
      forall i | 0 <= i < |plan| && plan[i].Produces(k) ensures i == j {
        OneEach(plan, i, j, k);
      }
      MadeBy(c, plan, tree, j, k);
      if t.after.OutputRename? {
        RegisteredInput(plan, j);
      }
    }
  }

  lemma RegisteredInput(plan: seq<Action>, j: nat)
    requires j < |plan|
    ensures plan[j].Input().Some? ==> plan[j].Input().value.key in Spellings(plan)
    ensures plan[j].Output().Some? ==> plan[j].Output().value.key in Spellings(plan)
  {
    hide Spellings;
    SpellingsTouched(plan);
    assert plan[j].Input().Some? ==> plan[j].Consumes(plan[j].Input().value.key);
    assert plan[j].Output().Some? ==> plan[j].Produces(plan[j].Output().value.key);
  }

  /** What projection gives for one registered path. */
  ghost function PathOf(c: Context, plan: seq<Action>, tree: Tree, t: PathTransition): ProjectedPath {
    var made := MadeAt(c, plan, tree, t.path.key);
    ProjectedPath(t.path, SnapshotOf(c, tree, t).before, Lookup(tree, t.path.key), if made.Some? then Some(made.value.0) else None)
  }

  ghost predicate OutputsAre(c: Context, plan: seq<Action>, tree: Tree, outputs: map<PathName, (File, nat)>) {
    forall path: PathName ::
      && (path in outputs <==> path.key in Spellings(plan) && Spellings(plan)[path.key] == path && MadeAt(c, plan, tree, path.key).Some?)
      && (path in outputs ==> Some(outputs[path]) == MadeAt(c, plan, tree, path.key))
  }

  /** Every output can be made, each rename finding its source by spelling. */
  ghost predicate Makeable(c: Context, plan: seq<Action>, tree: Tree)
    requires forall i | 0 <= i < |plan| :: InputMatches(plan[i], tree)
  {
    forall j | 0 <= j < |plan| && plan[j].Output().Some? ::
      (plan[j].RenameFile? ==> Spelled(Spellings(plan), plan[j].Input())) && Made(c, plan[j], tree).Some?
  }

  ghost predicate Taken(c: Context, tree: Tree, transitions: seq<PathTransition>, snapshots: seq<Snapshot>) {
    && |snapshots| == |transitions| && Ascending(snapshots)
    && forall i | 0 <= i < |transitions| :: snapshots[i] == SnapshotOf(c, tree, transitions[i])
  }

  lemma {:induction false} OutputsReady(c: Context, plan: seq<Action>, tree: Tree, transitions: seq<PathTransition>, snapshots: seq<Snapshot>)
    requires Compilable(plan) && CompilesTo(plan, transitions) && Ready(c, plan, tree) && Taken(c, tree, transitions, snapshots)
    requires forall i | 0 <= i < |plan| :: InputMatches(plan[i], tree)
    ensures ProjectAll(c, SourceMap(snapshots), snapshots).Ok? <==> Makeable(c, plan, tree)
    ensures ProjectAll(c, SourceMap(snapshots), snapshots).Ok? ==>
              var (paths, outputs) := ProjectAll(c, SourceMap(snapshots), snapshots).value;
              && |paths| == |transitions|
              && (forall i | 0 <= i < |transitions| :: paths[i] == PathOf(c, plan, tree, transitions[i]))
              && OutputsAre(c, plan, tree, outputs)
  {
    hide Compilable, Ready, Spellings, ProjectAfter, Made, MadeAt, SourceMap, ProjectAll, SourcesAre, OutputsHold,
         OutputsAre, PlansInput, PlansOutput;
    var sources := SourceMap(snapshots);
    SourceLookup(c, plan, tree, transitions, snapshots);
    OutputsAll(c, sources, snapshots);
    forall i | 0 <= i < |transitions|
      ensures var k := transitions[i].path.key;
              var after := ProjectAfter(c, transitions[i].after, Lookup(tree, k), sources);
              && (after.Ok? <==> forall j | 0 <= j < |plan| && plan[j].Produces(k) ::
                    (plan[j].RenameFile? ==> Spelled(Spellings(plan), plan[j].Input())) && Made(c, plan[j], tree).Some?)
              && (after.Ok? ==> after.value == MadeAt(c, plan, tree, k))
    {
      ProjectOne(c, plan, tree, sources, transitions[i]);
    }
    if ProjectAll(c, sources, snapshots).Ok? {
      forall j | 0 <= j < |plan| && plan[j].Output().Some?
        ensures (plan[j].RenameFile? ==> Spelled(Spellings(plan), plan[j].Input())) && Made(c, plan[j], tree).Some?
      {
        var k := plan[j].Output().value.key;
        var n := TransitionAt(plan, transitions, j, k);
        assert ProjectAfter(c, snapshots[n].transition.after, snapshots[n].source, sources).Ok?;
        assert plan[j].Produces(k);
      }
      OutputLookup(c, plan, tree, transitions, snapshots);
    }
  }

  lemma {:induction false} OutputLookup(c: Context, plan: seq<Action>, tree: Tree, transitions: seq<PathTransition>, snapshots: seq<Snapshot>)
    requires Compilable(plan) && CompilesTo(plan, transitions) && Ready(c, plan, tree) && Taken(c, tree, transitions, snapshots)
    requires ProjectAll(c, SourceMap(snapshots), snapshots).Ok? && OutputsHold(c, SourceMap(snapshots), snapshots)
    ensures var (paths, outputs) := ProjectAll(c, SourceMap(snapshots), snapshots).value;
            && |paths| == |transitions|
            && (forall i | 0 <= i < |transitions| :: paths[i] == PathOf(c, plan, tree, transitions[i]))
            && OutputsAre(c, plan, tree, outputs)
  {
    hide Compilable, Ready, Spellings, ProjectAfter, Made, MadeAt, SourceMap, ProjectAll, SourcesAre, CompilesTo,
         PlansInput, PlansOutput;
    var sources := SourceMap(snapshots);
    SourceLookup(c, plan, tree, transitions, snapshots);
    var (paths, outputs) := ProjectAll(c, sources, snapshots).value;
    forall i | 0 <= i < |transitions|
      ensures paths[i] == PathOf(c, plan, tree, transitions[i])
      ensures transitions[i].path in outputs <==> MadeAt(c, plan, tree, transitions[i].path.key).Some?
      ensures transitions[i].path in outputs ==>
                Some(outputs[transitions[i].path]) == MadeAt(c, plan, tree, transitions[i].path.key)
    {
      TransitionSpelled(plan, transitions, i);
      ProjectOne(c, plan, tree, sources, transitions[i]);
      assert OutputHolds(c, sources, snapshots[i], paths[i], outputs);
    }
    forall path: PathName
      ensures path in outputs <==> path.key in Spellings(plan) && Spellings(plan)[path.key] == path && MadeAt(c, plan, tree, path.key).Some?
      ensures path in outputs ==> Some(outputs[path]) == MadeAt(c, plan, tree, path.key)
    {
      if path in outputs {
        var i :| 0 <= i < |snapshots| && snapshots[i].transition.path == path;
        TransitionSpelled(plan, transitions, i);
      } else if path.key in Spellings(plan) && Spellings(plan)[path.key] == path {
        var i := TransitionOf(plan, transitions, path);
      }
    }
  }

  /** The journal record of an action on the tree it reads. */
  function RecordOf(c: Context, action: Action, tree: Tree): OperationRecord
    requires InputMatches(action, tree) && (action.Output().Some? ==> Made(c, action, tree).Some?)
  {
    match action
    case ModifyFile(path, _, _) =>
      var (file, count) := Made(c, action, tree).value;
      OperationRecord(Modify, Some(path), None, Some(Sha256(tree[path.key].bytes)), Some(Sha256(file.bytes)),
                      |tree[path.key].bytes|, |file.bytes|, count)
    case CreateFile(path, _, _) =>
      var (file, count) := Made(c, action, tree).value;
      OperationRecord(Create, None, Some(path), None, Some(Sha256(file.bytes)), 0, |file.bytes|, count)
    case DeleteFile(path, _) =>
      OperationRecord(Delete, Some(path), None, Some(Sha256(tree[path.key].bytes)), None, |tree[path.key].bytes|, 0, 0)
    case RenameFile(from, to, _, _) =>
      var (file, count) := Made(c, action, tree).value;
      OperationRecord(Rename, Some(from), Some(to), Some(Sha256(tree[from.key].bytes)), Some(Sha256(file.bytes)),
                      |tree[from.key].bytes|, |file.bytes|, count)
  }

  /** The record is that of the action, whose input is there and whose output can be made. */
  predicate Recorded(c: Context, action: Action, tree: Tree, r: OperationRecord) {
    && InputMatches(action, tree) && (action.Output().Some? ==> Made(c, action, tree).Some?)
    && r == RecordOf(c, action, tree)
  }

  /** One change is recorded exactly when both its paths are spelled as registered. */
  lemma ChangeSpelled(c: Context, plan: seq<Action>, tree: Tree, j: nat, sources: map<PathName, File>, outputs: map<PathName, (File, nat)>)
    requires Compilable(plan) && j < |plan| && InputMatches(plan[j], tree) && (plan[j].Output().Some? ==> Made(c, plan[j], tree).Some?)
    requires SourcesAre(plan, tree, sources) && OutputsAre(c, plan, tree, outputs)
    ensures ChangeOf(plan[j], sources, outputs).Ok? <==>
            Spelled(Spellings(plan), plan[j].Input()) && Spelled(Spellings(plan), plan[j].Output())
    ensures ChangeOf(plan[j], sources, outputs).Ok? ==> ChangeOf(plan[j], sources, outputs).value == RecordOf(c, plan[j], tree)
  {
    hide Compilable, Spellings, MadeAt, MakePresent;
    RegisteredInput(plan, j);
    if plan[j].Output().Some? {
      var path := plan[j].Output().value;
      assert plan[j].Produces(path.key);
      MadeBy(c, plan, tree, j, path.key);
      assert path in outputs <==> Spellings(plan)[path.key] == path;
    }
    if plan[j].Input().Some? {
      var path := plan[j].Input().value;
      assert path in sources <==> Spellings(plan)[path.key] == path;
    }
  }

  // The exact result of projection

  /** The paths projection gives, in the transitions' order. */
  ghost function PathsOf(c: Context, plan: seq<Action>, tree: Tree, transitions: seq<PathTransition>): (paths: seq<ProjectedPath>)
    ensures |paths| == |transitions|
  {
    seq(|transitions|, i requires 0 <= i < |transitions| => PathOf(c, plan, tree, transitions[i]))
  }

  function Sources(paths: seq<ProjectedPath>): seq<Option<File>> {
    seq(|paths|, i requires 0 <= i < |paths| => paths[i].source)
  }

  /** The path's input is the file of the tree, with exactly its evidence. */
  predicate ReadExactly(c: Context, tree: Tree, p: ProjectedPath) {
    var k := p.path.key;
    if k !in tree then p.before == Absent && p.source == None
    else
      && p.source == Some(tree[k]) && p.before.Present?
      && p.before.evidence.sha256 == Sha256(tree[k].bytes) && p.before.evidence.bytes == |tree[k].bytes|
      && p.before.evidence.permissions == tree[k].permissions && p.before.evidence.identity == c.identities(k)
  }

  lemma PathsExact(c: Context, plan: seq<Action>, tree: Tree, transitions: seq<PathTransition>)
    ensures var paths := PathsOf(c, plan, tree, transitions); forall i | 0 <= i < |paths| :: ReadExactly(c, tree, paths[i])
  {
    hide MadeAt;
  }

  /** Projection succeeds exactly when every action finds its input, every written path is free or
      read as well, every path is spelled one way, every output can be made, and the byte totals
      fit; and then it gives exactly these paths and these records. */
  lemma {:induction false} ProjectionExact(c: Context, plan: seq<Action>, fingerprint: nat, tree: Tree, transitions: seq<PathTransition>)
    requires Compilable(plan) && CompilesTo(plan, transitions)
    ensures var result := ProjectionOf(c, plan, fingerprint, tree, transitions);
            var paths := PathsOf(c, plan, tree, transitions);
            && (result.Ok? <==>
                  && Projectable(c, plan, tree)
                  && Total(Sources(paths)) <= c.budget.sourceBytes && Total(Outputs(paths)) <= c.budget.outputBytes
                  && Total(Sources(paths)) + Total(Outputs(paths)) <= c.budget.artifactBytes)
            && (result.Ok? ==> forall i | 0 <= i < |paths| :: ReadExactly(c, tree, paths[i]))
            && (result.Ok? ==>
                && result.value.fingerprint == fingerprint && result.value.paths == paths && |result.value.operations| == |plan|
                && forall j | 0 <= j < |plan| :: Recorded(c, plan[j], tree, result.value.operations[j]))
  {
    hide Compilable, CompilesTo, ProjectAll, ChangesOf, SourceMap, InputFits, InputMatches, Made, Makes, RecordOf, Spellings,
         Total, ReadExactly;
    SnapshotsReady(c, plan, tree, transitions);
    if Ready(c, plan, tree) {
      var snapshots := Snapshots(c, tree, transitions).value;
      ReadyMakes(c, plan, tree);
      ReadyExact(c, plan, fingerprint, tree, transitions, snapshots);
      PathsExact(c, plan, tree, transitions);
    }
  }

  lemma {:induction false} ReadyExact(
      c: Context, plan: seq<Action>, fingerprint: nat, tree: Tree, transitions: seq<PathTransition>, snapshots: seq<Snapshot>)
    requires Compilable(plan) && CompilesTo(plan, transitions) && Ready(c, plan, tree) && Taken(c, tree, transitions, snapshots)
    requires forall i | 0 <= i < |plan| :: InputMatches(plan[i], tree)
    ensures var result := AssembleAll(c, plan, fingerprint, snapshots);
            var paths := PathsOf(c, plan, tree, transitions);
            && (result.Ok? <==> Makeable(c, plan, tree) && Uniform(plan)
                                && WithinBudget(c.budget, Total(Sources(paths)), Total(Outputs(paths))))
            && (result.Ok? ==>
                && result.value.fingerprint == fingerprint && result.value.paths == paths && |result.value.operations| == |plan|
                && forall j | 0 <= j < |plan| :: Recorded(c, plan[j], tree, result.value.operations[j]))
  {
    hide Compilable, CompilesTo, Ready, ProjectAll, ChangesOf, ChangeOf, SourceMap, InputMatches, Made, RecordOf, Spellings, Total,
         SourcesAre, OutputsAre, PathOf;
    var sources := SourceMap(snapshots);
    SourceLookup(c, plan, tree, transitions, snapshots);
    OutputsReady(c, plan, tree, transitions, snapshots);
    var paths := PathsOf(c, plan, tree, transitions);
    assert Inputs(snapshots) == Sources(paths) by {
      forall i | 0 <= i < |transitions| ensures Inputs(snapshots)[i] == Sources(paths)[i] {
        PathSource(c, plan, tree, transitions[i]);
      }
    }
    if ProjectAll(c, sources, snapshots).Ok? {
      var (paths', outputs) := ProjectAll(c, sources, snapshots).value;
      assert paths' == paths;
      ChangesAll(plan, sources, outputs);
      forall j | 0 <= j < |plan|
        ensures ChangeOf(plan[j], sources, outputs).Ok? <==>
                Spelled(Spellings(plan), plan[j].Input()) && Spelled(Spellings(plan), plan[j].Output())
        ensures ChangeOf(plan[j], sources, outputs).Ok? ==>
                  ChangeOf(plan[j], sources, outputs).value == RecordOf(c, plan[j], tree)
      {
        ChangeSpelled(c, plan, tree, j, sources, outputs);
      }
    }
  }

  lemma PathSource(c: Context, plan: seq<Action>, tree: Tree, t: PathTransition)
    ensures PathOf(c, plan, tree, t).source == SnapshotOf(c, tree, t).source
  {
  }
}
