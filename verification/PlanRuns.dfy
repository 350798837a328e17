/** From logical operations to the tree: compilation, projection, preparation and commit together. */
module PlanRuns {
  import opened Outcomes
  import opened Filesystem
  import opened Records
  import opened Disks
  import opened Plans
  import opened Meanings
  import opened Projections
  import opened Assembly
  import opened Translations
  import opened Applications
  import Compilation
  import PreparedPlans
  import PreparationRuns
  import Preparing
  import Indices

  /** The disk shows the tree the plan is projected from, and the plan is within the count limits. */
  ghost predicate ShowsTree(c: Context, plan: seq<Action>, fingerprint: nat, tree: Tree, w: World) {
    && 0 < |plan| <= c.limits.maxFiles
    && forall transitions | CompilesTo(plan, transitions) ::
         && 0 < |transitions| <= c.limits.maxFiles
         && (ProjectionOf(c, plan, fingerprint, tree, transitions).Ok? ==>
             Preparing.Vacant(ProjectionOf(c, plan, fingerprint, tree, transitions).value, w))
  }

  /** Every touched slot shows the plan's simultaneous meaning, and would after a power loss. */
  ghost predicate ShowsMeaning(c: Context, plan: seq<Action>, tree: Tree, projection: Projection, w: World) {
    forall i, e | 0 <= i < |projection.paths| && May(w, i, e) ::
      Content(w.volume, e) == Meant(c.editor, plan, tree, Indices.Below(|plan|), projection.paths[i].path.key)
  }

  /** Every touched slot shows the initial tree, and would after a power loss. */
  ghost predicate ShowsInitial(tree: Tree, projection: Projection, w: World) {
    forall i, e | 0 <= i < |projection.paths| && May(w, i, e) ::
      Content(w.volume, e) == Lookup(tree, projection.paths[i].path.key)
  }

  /** Every touched slot shows one or the other, and would after a power loss. */
  ghost predicate ShowsEither(c: Context, plan: seq<Action>, tree: Tree, projection: Projection, w: World) {
    forall i, e | 0 <= i < |projection.paths| && May(w, i, e) ::
      || Content(w.volume, e) == Lookup(tree, projection.paths[i].path.key)
      || Content(w.volume, e) == Meant(c.editor, plan, tree, Indices.Below(|plan|), projection.paths[i].path.key)
  }

  lemma {:induction false} AppliedMeaning(
      c: Context, plan: seq<Action>, fingerprint: nat, tree: Tree, transitions: seq<PathTransition>, projection: Projection, w: World)
    requires Compilable(plan) && CompilesTo(plan, transitions)
    requires ProjectionOf(c, plan, fingerprint, tree, transitions) == Ok(projection)
    ensures Applied(projection, w) ==> ShowsMeaning(c, plan, tree, projection, w)
    ensures PreparationRuns.Unapplied(projection, w) ==> ShowsInitial(tree, projection, w)
    ensures Mixed(projection, w) ==> ShowsEither(c, plan, tree, projection, w)
  {
    hide Compilable, CompilesTo, Projectable, Meant, Spellings, PathOf, Content, ProjectionOf, May;
    ProjectionExact(c, plan, fingerprint, tree, transitions);
    var paths := PathsOf(c, plan, tree, transitions);
    forall i | 0 <= i < |paths|
      ensures paths[i].after == Meant(c.editor, plan, tree, Indices.Below(|plan|), paths[i].path.key)
      ensures paths[i].source == Lookup(tree, paths[i].path.key)
    {
      TransitionSpelled(plan, transitions, i);
      PreparedPlans.PathAt(c, plan, tree, transitions, i);
      Compilation.PathMeans(c, plan, tree, transitions[i]);
      PathSource(c, plan, tree, transitions[i]);
    }
  }

  /** `apply_plan` and whatever crashes and recoveries follow it.  A plan that does not compile or
      project changes nothing.  Otherwise the touched slots end with the plan's simultaneous meaning,
      or with the tree as it was, and with no journal; after a leaked staging job artifacts may be left
      besides, and under the two journals recovery rejects the tree is as it was, or, after three faults,
      each touched slot shows its own initial or final state. */
  method ApplyPlan(d: Disk, c: Context, plan: seq<Action>, fingerprint: nat, tree: Tree, workers: nat, id: TransactionId)
    returns (result: Result<Projection>, ghost ending: ApplyEnding)
    requires ShowsTree(c, plan, fingerprint, tree, d.W())
    modifies d
    ensures result.Corrupt? ==> d.W() == old(d.W())
    ensures !Compilable(plan) ==> result.Corrupt?
    ensures result.Ok? ==> Projectable(c, plan, tree)
    ensures result.Ok? && ending == Decided(true) ==> ShowsMeaning(c, plan, tree, result.value, d.W()) && !d.control.operation
    ensures result.Ok? && ending == Decided(false) ==> ShowsInitial(tree, result.value, d.W()) && !d.control.operation
    ensures result.Ok? && ending == Leaked ==> ShowsInitial(tree, result.value, d.W()) && !d.control.operation
    ensures result.Ok? && ending == Rejected(false) ==> ShowsInitial(tree, result.value, d.W())
    ensures result.Ok? && ending == Rejected(true) ==> ShowsEither(c, plan, tree, result.value, d.W()) && d.faults + 3 <= old(d.faults)
    ensures result.Ok? && old(d.faults) == 0 ==> ending == Decided(true)
  {
    hide Compilable, CompilesTo, Projectable, ProjectionOf, ShowsMeaning, ShowsInitial, ShowsEither, Applied, Mixed, PreparationRuns.Unapplied,
         Preparing.Vacant, Coherent;
    ending := Decided(false);
    ghost var transitions;
    result, transitions := Project(c, plan, fingerprint, tree, workers);
    if result.Corrupt? { return; }
    var projection := result.value;
    ProjectionExact(c, plan, fingerprint, tree, transitions);
    PreparedPlans.CompiledCoherent(c, plan, fingerprint, tree, transitions, id);
    ending := ApplyRun(d, c.limits, projection, id);
    AppliedMeaning(c, plan, fingerprint, tree, transitions, projection, d.W());
  }
}
