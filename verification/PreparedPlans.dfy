/** The journal records of a compiled plan agree with its paths, so its preparation replays. */
module PreparedPlans {
  import opened Outcomes
  import opened Filesystem
  import opened Records
  import opened Replay
  import Protocol
  import opened Plans
  import opened Meanings
  import opened Projections
  import opened Assembly
  import opened Translations
  import Compilation

  ghost predicate ReadBefore(plan: seq<Action>, n: nat, k: nat)
    requires n <= |plan|
  {
    exists i :: 0 <= i < n && plan[i].Consumes(k)
  }

  ghost predicate WrittenBefore(plan: seq<Action>, n: nat, k: nat)
    requires n <= |plan|
  {
    exists i :: 0 <= i < n && plan[i].Produces(k)
  }

  function EndpointOf(file: File): Replay.Endpoint {
    Replay.Endpoint(Sha256(file.bytes), |file.bytes|)
  }

  /** What replay expects of a path once `r` inputs and `w` outputs are registered. */
  ghost function ExpectedAt(c: Context, plan: seq<Action>, tree: Tree, r: nat, w: nat, k: nat): ExpectedPath
    requires r <= |plan| && w <= |plan| && k in Spellings(plan)
  {
    ExpectedPath(Spellings(plan)[k],
                 if ReadBefore(plan, r, k) && k in tree then Some(EndpointOf(tree[k])) else None,
                 if WrittenBefore(plan, w, k) && MadeAt(c, plan, tree, k).Some? then Some(EndpointOf(MadeAt(c, plan, tree, k).value.0))
                 else None)
  }

  ghost predicate Seen(c: Context, plan: seq<Action>, tree: Tree, st: State, r: nat, w: nat) {
    && r <= |plan| && w <= |plan|
    && (forall k: nat :: k in st.inputs <==> ReadBefore(plan, r, k))
    && (forall k: nat :: k in st.outputs <==> WrittenBefore(plan, w, k))
    && (forall k: nat :: k in st.expected <==> ReadBefore(plan, r, k) || WrittenBefore(plan, w, k))
    && (forall k | k in st.expected :: k in Spellings(plan) && st.expected[k] == ExpectedAt(c, plan, tree, r, w, k))
  }

  lemma ReadNext(plan: seq<Action>, n: nat, k: nat)
    requires n < |plan|
    ensures ReadBefore(plan, n + 1, k) <==> ReadBefore(plan, n, k) || plan[n].Consumes(k)
  {
  }

  lemma WrittenNext(plan: seq<Action>, n: nat, k: nat)
    requires n < |plan|
    ensures WrittenBefore(plan, n + 1, k) <==> WrittenBefore(plan, n, k) || plan[n].Produces(k)
  {
  }

  /** Registering the next input. */
  lemma {:induction false} InputRegistered(c: Context, plan: seq<Action>, tree: Tree, st: State, n: nat, w: nat)
    returns (next: State)
    requires Compilable(plan) && Projectable(c, plan, tree) && n < |plan| && Seen(c, plan, tree, st, n, w)
    requires InputMatches(plan[n], tree) && (plan[n].Output().Some? ==> Made(c, plan[n], tree).Some?)
    ensures RegisterInput(st, InputOf(RecordOf(c, plan[n], tree))) == Ok(next)
    ensures Seen(c, plan, tree, next, n + 1, w) && next == st.(inputs := next.inputs, expected := next.expected)
  {
    hide Compilable, Spellings, MadeAt, Made, ReadBefore, WrittenBefore, Ready;
    forall k: nat ensures ReadBefore(plan, n + 1, k) <==> ReadBefore(plan, n, k) || plan[n].Consumes(k) {
      ReadNext(plan, n, k);
    }
    if plan[n].Input().Some? {
      var path := plan[n].Input().value;
      ReadOnce(plan, n, path.key);
      RegisteredInput(plan, n);
      next := RegisterInput(st, Some((path, EndpointOf(tree[path.key])))).value;
    } else {
      next := st;
    }
  }

  lemma ReadOnce(plan: seq<Action>, n: nat, k: nat)
    requires Compilable(plan) && n < |plan|
    ensures plan[n].Consumes(k) ==> !ReadBefore(plan, n, k)
    ensures plan[n].Produces(k) ==> !WrittenBefore(plan, n, k)
  {
  }

  /** Registering the next output. */
  lemma {:induction false} OutputRegistered(c: Context, plan: seq<Action>, tree: Tree, st: State, r: nat, n: nat)
    returns (next: State)
    requires Compilable(plan) && Projectable(c, plan, tree) && n < |plan| && Seen(c, plan, tree, st, r, n)
    requires InputMatches(plan[n], tree) && (plan[n].Output().Some? ==> Made(c, plan[n], tree).Some?)
    ensures RegisterOutput(st, OutputOf(RecordOf(c, plan[n], tree))) == Ok(next)
    ensures Seen(c, plan, tree, next, r, n + 1) && next == st.(outputs := next.outputs, expected := next.expected)
  {
    hide Compilable, Spellings, MadeAt, Made, ReadBefore, WrittenBefore, Ready;
    forall k: nat ensures WrittenBefore(plan, n + 1, k) <==> WrittenBefore(plan, n, k) || plan[n].Produces(k) {
      WrittenNext(plan, n, k);
    }
    if plan[n].Output().Some? {
      var path := plan[n].Output().value;
      assert plan[n].Produces(path.key);
      ReadOnce(plan, n, path.key);
      RegisteredInput(plan, n);
      MadeBy(c, plan, tree, n, path.key);
      next := RegisterOutput(st, Some((path, EndpointOf(Made(c, plan[n], tree).value.0)))).value;
    } else {
      next := st;
    }
  }

  /** The next operation record is accepted. */
  lemma {:induction false} OperationSeen(c: Context, plan: seq<Action>, tree: Tree, st: State, n: nat)
    returns (next: State)
    requires Compilable(plan) && Projectable(c, plan, tree) && n < |plan| && Seen(c, plan, tree, st, n, n)
    requires InputMatches(plan[n], tree) && (plan[n].Output().Some? ==> Made(c, plan[n], tree).Some?)
    requires st.phase == InOperations && st.operationCount == n && st.operationTotal == |plan|
    ensures Step(c.limits, st, Operation(n, RecordOf(c, plan[n], tree))) == Ok(next)
    ensures Seen(c, plan, tree, next, n + 1, n + 1)
    ensures next.phase == InOperations && next.operationCount == n + 1 && next.operationTotal == |plan|
  {
    hide Compilable, Projectable, Seen, Made, InputMatches, RecordOf, ValidOperation, RegisterInput, RegisterOutput,
         InputOf, OutputOf;
    RecordValid(c, plan, tree, n);
    var read := InputRegistered(c, plan, tree, st, n, n);
    var written := OutputRegistered(c, plan, tree, read, n + 1, n);
    next := written.(operationCount := n + 1);
    SeenCount(c, plan, tree, written, n + 1);
  }

  lemma SeenCount(c: Context, plan: seq<Action>, tree: Tree, st: State, n: nat)
    requires Seen(c, plan, tree, st, n, n)
    ensures Seen(c, plan, tree, st.(operationCount := n), n, n)
  {
  }

  lemma RecordValid(c: Context, plan: seq<Action>, tree: Tree, n: nat)
    requires Projectable(c, plan, tree) && n < |plan|
    requires InputMatches(plan[n], tree) && (plan[n].Output().Some? ==> Made(c, plan[n], tree).Some?)
    ensures ValidOperation(c.limits, RecordOf(c, plan[n], tree))
  {
    hide Spellings, MakePresent, Uniform;
    assert InputFits(c, plan[n], tree);
    if plan[n].Output().Some? {
      MadeMeans(c, plan[n], tree);
    }
  }

  lemma NothingSeen(c: Context, plan: seq<Action>, tree: Tree, projection: Projection, id: TransactionId)
    returns (st: State)
    requires |plan| == |projection.operations|
    requires 0 < |plan| <= c.limits.maxFiles && 0 < |projection.paths| <= c.limits.maxFiles
    ensures Parse(c.limits, OperationsTo(projection, id, 0)) == Ok(st) && Seen(c, plan, tree, st, 0, 0)
    ensures st.phase == InOperations && st.operationCount == 0 && st.operationTotal == |plan|
  {
    st := Start(c.limits, HeaderOf(projection, id)).value;
  }

  /** Replay of the operation records of a projected plan. */
  lemma {:induction false} OperationsSeen(
      c: Context, plan: seq<Action>, tree: Tree, projection: Projection, id: TransactionId, n: nat) returns (st: State)
    requires Compilable(plan) && Projectable(c, plan, tree) && n <= |plan| == |projection.operations|
    requires forall j | 0 <= j < |plan| :: InputMatches(plan[j], tree) && (plan[j].Output().Some? ==> Made(c, plan[j], tree).Some?)
    requires forall j | 0 <= j < |plan| :: projection.operations[j] == RecordOf(c, plan[j], tree)
    requires 0 < |plan| <= c.limits.maxFiles && 0 < |projection.paths| <= c.limits.maxFiles
    ensures Parse(c.limits, OperationsTo(projection, id, n)) == Ok(st) && Seen(c, plan, tree, st, n, n)
    ensures st.phase == InOperations && st.operationCount == n && st.operationTotal == |plan|
    decreases n
  {
    hide Compilable, Projectable, Made, InputMatches, RecordOf, Step, Seen;
    if n == 0 {
      st := NothingSeen(c, plan, tree, projection, id);
    } else {
      var before := OperationsSeen(c, plan, tree, projection, id, n - 1);
      ParseAppend(c.limits, OperationsTo(projection, id, n - 1), Operation(n - 1, projection.operations[n - 1]));
      st := OperationSeen(c, plan, tree, before, n - 1);
    }
  }

  /** A path as projected is what replay expects of it, and within the limits. */
  lemma PathExpected(c: Context, plan: seq<Action>, tree: Tree, st: State, t: PathTransition)
    requires Compilable(plan) && Projectable(c, plan, tree) && Seen(c, plan, tree, st, |plan|, |plan|)
    requires t.path.key in Spellings(plan) && t.path == Spellings(plan)[t.path.key]
    ensures var p := PathOf(c, plan, tree, t);
            && ExpectedAs(st.expected, p.path, Protocol.SpecOf(p.before, true), AfterSpec(p.after))
            && WithinLimits(c.limits, Protocol.SpecOf(p.before, true), true) && WithinLimits(c.limits, AfterSpec(p.after), false)
            && (p.before.Present? || p.after.Some?)
  {
    hide Compilable, Spellings, Made, Makes, MadeAt;
    var k := t.path.key;
    ReadyMakes(c, plan, tree);
    Touched(plan, k);
    if j :| 0 <= j < |plan| && plan[j].Consumes(k) {
      assert InputFits(c, plan[j], tree);
      assert ReadBefore(plan, |plan|, k);
    } else {
      assert !ConsumedBySome(plan, k);
    }
    if j :| 0 <= j < |plan| && plan[j].Produces(k) {
      MadeBy(c, plan, tree, j, k);
      MadeMeans(c, plan[j], tree);
      assert WrittenBefore(plan, |plan|, k);
    } else {
      Compilation.NotMade(c, plan, tree, k);
    }
  }

  /** The journal of a compiled plan is coherent: its operation records and its paths, in ascending
      key order and one per endpoint, describe the same transitions. */
  lemma {:induction false} CompiledCoherent(
      c: Context, plan: seq<Action>, fingerprint: nat, tree: Tree, transitions: seq<PathTransition>, id: TransactionId)
    requires Compilable(plan) && CompilesTo(plan, transitions)
    requires ProjectionOf(c, plan, fingerprint, tree, transitions).Ok?
    requires 0 < |plan| <= c.limits.maxFiles && 0 < |transitions| <= c.limits.maxFiles
    ensures Coherent(c.limits, ProjectionOf(c, plan, fingerprint, tree, transitions).value, id)
  {
    hide Compilable, CompilesTo, Projectable, Made, InputMatches, RecordOf, ProjectionOf, Spellings, PathOf, Parse, Seen,
         ExpectedAs, WithinLimits, OperationsTo;
    var projection := ProjectionOf(c, plan, fingerprint, tree, transitions).value;
    var paths := PathsOf(c, plan, tree, transitions);
    ProjectionExact(c, plan, fingerprint, tree, transitions);
    ProjectableMade(c, plan, tree);
    var st := OperationsSeen(c, plan, tree, projection, id, |plan|);
    Compilation.PathsAscend(c, plan, tree, transitions);
    forall i | 0 <= i < |paths|
      ensures ExpectedAs(st.expected, paths[i].path, Protocol.SpecOf(paths[i].before, true), AfterSpec(paths[i].after))
      ensures WithinLimits(c.limits, Protocol.SpecOf(paths[i].before, true), true) && WithinLimits(c.limits, AfterSpec(paths[i].after), false)
      ensures paths[i].before.Present? || paths[i].after.Some?
    {
      TransitionSpelled(plan, transitions, i);
      PathAt(c, plan, tree, transitions, i);
      PathExpected(c, plan, tree, st, transitions[i]);
    }
    ExpectedPresent(st, paths);
    ExpectedCount(c, plan, tree, transitions, st, paths);
  }

  lemma PathAt(c: Context, plan: seq<Action>, tree: Tree, transitions: seq<PathTransition>, i: nat)
    requires i < |transitions|
    ensures PathsOf(c, plan, tree, transitions)[i] == PathOf(c, plan, tree, transitions[i])
    ensures PathOf(c, plan, tree, transitions[i]).path == transitions[i].path
  {
  }

  lemma ExpectedPresent(st: State, paths: seq<ProjectedPath>)
    requires forall i | 0 <= i < |paths| ::
               ExpectedAs(st.expected, paths[i].path, Protocol.SpecOf(paths[i].before, true), AfterSpec(paths[i].after))
    ensures forall i | 0 <= i < |paths| :: paths[i].path.key in st.expected
  {
  }

  lemma ProjectableMade(c: Context, plan: seq<Action>, tree: Tree)
    requires Projectable(c, plan, tree)
    ensures forall j | 0 <= j < |plan| :: InputMatches(plan[j], tree) && (plan[j].Output().Some? ==> Made(c, plan[j], tree).Some?)
  {
    ReadyMakes(c, plan, tree);
  }

  /** There are as many expected paths as transitions. */
  lemma {:induction false} ExpectedCount(
      c: Context, plan: seq<Action>, tree: Tree, transitions: seq<PathTransition>, st: State, paths: seq<ProjectedPath>)
    requires CompilesTo(plan, transitions) && Seen(c, plan, tree, st, |plan|, |plan|)
    requires Compilation.AscendingPaths(paths) && |paths| == |transitions|
    requires forall i | 0 <= i < |paths| :: paths[i].path == transitions[i].path && paths[i].path.key in st.expected
    ensures |st.expected| == |paths|
  {
    hide Spellings, ExpectedAt, PlansInput, PlansOutput;
    var keys := seq(|paths|, i requires 0 <= i < |paths| => paths[i].path.key);
    assert forall m, n | 0 <= m < n < |keys| :: keys[m] != keys[n];
    DistinctCount(keys);
    assert Members(keys) == st.expected.Keys by {
      forall k | k in st.expected
        ensures k in keys
      {
        var i :| 0 <= i < |transitions| && transitions[i].path.key == k;
        assert keys[i] == k;
      }
    }
  }
}
