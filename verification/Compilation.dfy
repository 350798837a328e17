/** A compiled and projected plan does what the plan means, and prepares a journal that replays. */
module Compilation {
  import opened Outcomes
  import opened Filesystem
  import opened Records
  import opened Plans
  import opened Meanings
  import opened Projections
  import opened Assembly
  import opened Translations
  import Indices

  // Meaning

  /** Committing paths one after the other, each to its own output. */
  function CommitInOrder(paths: seq<ProjectedPath>, tree: Tree): Tree {
    if paths == [] then tree
    else
      var before, last := CommitInOrder(paths[..|paths| - 1], tree), paths[|paths| - 1];
      match last.after
      case None => before - {last.path.key}
      case Some(file) => before[last.path.key := file]
  }

  ghost predicate AscendingPaths(paths: seq<ProjectedPath>) {
    forall i, j | 0 <= i < j < |paths| :: paths[i].path.key < paths[j].path.key
  }

  lemma {:induction false} CommitLookup(paths: seq<ProjectedPath>, tree: Tree)
    requires AscendingPaths(paths)
    ensures forall i | 0 <= i < |paths| :: Lookup(CommitInOrder(paths, tree), paths[i].path.key) == paths[i].after
    ensures forall k: nat | (forall i | 0 <= i < |paths| :: paths[i].path.key != k) ::
              Lookup(CommitInOrder(paths, tree), k) == Lookup(tree, k)
    decreases |paths|
  {
    if paths != [] {
      var n := |paths| - 1;
      var most := paths[..n];
      CommitLookup(most, tree);
      assert forall i | 0 <= i < n :: most[i] == paths[i] && paths[i].path.key != paths[n].path.key;
    }
  }

  /** A registered path ends as the plan means it to. */
  lemma PathMeans(c: Context, plan: seq<Action>, tree: Tree, t: PathTransition)
    requires Compilable(plan) && Projectable(c, plan, tree) && t.path.key in Spellings(plan)
    ensures PathOf(c, plan, tree, t).after == Meant(c.editor, plan, tree, Indices.Below(|plan|), t.path.key)
  {
    hide Compilable, Meant, Made, Makes, MadeAt, OutputFile, Spellings;
    var k, all := t.path.key, Indices.Below(|plan|);
    ReadyMakes(c, plan, tree);
    Touched(plan, k);
    if j :| 0 <= j < |plan| && plan[j].Produces(k) {
      MadeBy(c, plan, tree, j, k);
      MadeMeans(c, plan[j], tree);
      AfterCases(c.editor, plan, tree, all, j, k);
    } else {
      var j :| 0 <= j < |plan| && plan[j].Consumes(k);
      AfterCases(c.editor, plan, tree, all, j, k);
      NotMade(c, plan, tree, k);
    }
  }

  lemma NotMade(c: Context, plan: seq<Action>, tree: Tree, k: nat)
    requires forall j | 0 <= j < |plan| :: !plan[j].Produces(k)
    ensures MadeAt(c, plan, tree, k) == None
  {
  }

  lemma Untouched(c: Context, plan: seq<Action>, tree: Tree, k: nat)
    requires k !in Spellings(plan)
    ensures Meant(c.editor, plan, tree, Indices.Below(|plan|), k) == Lookup(tree, k)
  {
    hide Spellings;
    SpellingsTouched(plan);
    assert forall j | 0 <= j < |plan| :: !plan[j].Consumes(k) && !plan[j].Produces(k);
  }

  /** Committing the compiled transitions one path at a time gives the simultaneous meaning of the
      operations on the initial tree, chains and cycles of renames included. */
  lemma {:induction false} SerialCommitMeans(c: Context, plan: seq<Action>, tree: Tree, transitions: seq<PathTransition>)
    requires Compilable(plan) && CompilesTo(plan, transitions) && Projectable(c, plan, tree)
    ensures Means(c.editor, plan, tree, CommitInOrder(PathsOf(c, plan, tree, transitions), tree))
    ensures Enabled(c.editor, plan, tree)
  {
    hide Compilable, CompilesTo, Projectable, Meant, Spellings, PathOf;
    var paths := PathsOf(c, plan, tree, transitions);
    ProjectableEnabled(c, plan, tree);
    PathsAscend(c, plan, tree, transitions);
    CommitLookup(paths, tree);
    forall k: nat
      ensures Lookup(CommitInOrder(paths, tree), k) == Meant(c.editor, plan, tree, Indices.Below(|plan|), k)
    {
      if k in Spellings(plan) {
        SpellingsTouched(plan);
        var n := TransitionOf(plan, transitions, Spellings(plan)[k]);
        PathMeans(c, plan, tree, transitions[n]);
        assert paths[n].path.key == k;
      } else {
        Untouched(c, plan, tree, k);
        forall i | 0 <= i < |paths| ensures paths[i].path.key != k {
          TransitionSpelled(plan, transitions, i);
        }
      }
    }
  }

  lemma {:induction false} PathsAscend(c: Context, plan: seq<Action>, tree: Tree, transitions: seq<PathTransition>)
    requires CompilesTo(plan, transitions)
    ensures var paths := PathsOf(c, plan, tree, transitions);
            AscendingPaths(paths) && forall i | 0 <= i < |paths| :: paths[i].path == transitions[i].path
  {
    hide Spellings, PlansInput, PlansOutput;
    var paths := PathsOf(c, plan, tree, transitions);
    assert forall i | 0 <= i < |paths| :: paths[i] == PathOf(c, plan, tree, transitions[i]);
  }
}
