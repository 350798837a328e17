/** Unedited renames move files: they neither lose, duplicate nor change any. */
module Permutations {
  import opened Outcomes
  import opened Filesystem
  import opened Plans
  import opened Meanings
  import Indices

  /** The files at some paths, counted with multiplicity. */
  ghost function Files(tree: Tree, keys: set<nat>): multiset<File> {
    if keys == {} then multiset{}
    else
      var k :| k in keys;
      Files(tree, keys - {k}) + At(tree, k)
  }

  function At(tree: Tree, k: nat): multiset<File> {
    if k in tree then multiset{tree[k]} else multiset{}
  }

  lemma {:induction false} FilesAdd(tree: Tree, keys: set<nat>, k: nat)
    requires k !in keys
    ensures Files(tree, keys + {k}) == Files(tree, keys) + At(tree, k)
    decreases |keys|
  {
    var all := keys + {k};
    var j :| j in all && Files(tree, all) == Files(tree, all - {j}) + At(tree, j);
    if j == k {
      assert all - {j} == keys;
    } else {
      assert all - {j} == keys - {j} + {k};
      FilesAdd(tree, keys - {j}, k);
      FilesAdd(tree, keys - {j}, j);
      assert keys - {j} + {j} == keys;
    }
  }

  /** Paths that hold nothing add nothing. */
  lemma {:induction false} FilesAbsent(tree: Tree, keys: set<nat>, absent: set<nat>)
    requires keys !! absent && forall k | k in absent :: k !in tree
    ensures Files(tree, keys + absent) == Files(tree, keys)
    decreases |absent|
  {
    if absent == {} {
      assert keys + absent == keys;
    } else {
      var k :| k in absent;
      FilesAbsent(tree, keys, absent - {k});
      FilesAdd(tree, keys + (absent - {k}), k);
      assert keys + (absent - {k}) + {k} == keys + absent;
    }
  }

  ghost predicate PlainRenames(plan: seq<Action>) {
    forall i | 0 <= i < |plan| :: plan[i].RenameFile? && plan[i].edits == []
  }

  function Sources(plan: seq<Action>): set<nat> {
    set i | 0 <= i < |plan| && plan[i].RenameFile? :: plan[i].from.key
  }

  function Destinations(plan: seq<Action>): set<nat> {
    set i | 0 <= i < |plan| && plan[i].RenameFile? :: plan[i].to.key
  }

  /** Each destination holds exactly the file its source held. */
  lemma Moved(editor: Editor, plan: seq<Action>, tree: Tree, result: Tree, i: nat)
    requires Compilable(plan) && Enabled(editor, plan, tree) && Means(editor, plan, tree, result) && PlainRenames(plan) && i < |plan|
    ensures plan[i].from.key in tree && At(result, plan[i].to.key) == At(tree, plan[i].from.key)
  {
    assert InputMatches(plan[i], tree) && plan[i].Produces(plan[i].to.key);
    AfterCases(editor, plan, tree, Indices.Below(|plan|), i, plan[i].to.key);
    assert Lookup(result, plan[i].to.key) == Meant(editor, plan, tree, Indices.Below(|plan|), plan[i].to.key);
  }

  lemma {:induction false} MovedFiles(editor: Editor, plan: seq<Action>, tree: Tree, result: Tree, n: nat)
    requires Compilable(plan) && Enabled(editor, plan, tree) && Means(editor, plan, tree, result) && PlainRenames(plan) && n <= |plan|
    ensures Files(tree, Sources(plan[..n])) == Files(result, Destinations(plan[..n]))
    decreases n
  {
    hide Compilable, Enabled, Means, Sources, Destinations, Files, Lookup;
    if n == 0 {
      NoFiles(plan, tree, result);
    } else {
      MovedFiles(editor, plan, tree, result, n - 1);
      Moved(editor, plan, tree, result, n - 1);
      EndpointsNext(plan, n - 1);
      FilesAdd(tree, Sources(plan[..n - 1]), plan[n - 1].from.key);
      FilesAdd(result, Destinations(plan[..n - 1]), plan[n - 1].to.key);
    }
  }

  lemma NoFiles(plan: seq<Action>, tree: Tree, result: Tree)
    ensures Files(tree, Sources(plan[..0])) == multiset{} == Files(result, Destinations(plan[..0]))
  {
    assert Sources(plan[..0]) == {} == Destinations(plan[..0]);
  }

  lemma EndpointsNext(plan: seq<Action>, n: nat)
    requires Compilable(plan) && PlainRenames(plan) && n < |plan|
    ensures Sources(plan[..n + 1]) == Sources(plan[..n]) + {plan[n].from.key} && plan[n].from.key !in Sources(plan[..n])
    ensures Destinations(plan[..n + 1]) == Destinations(plan[..n]) + {plan[n].to.key} && plan[n].to.key !in Destinations(plan[..n])
  {
    var before, after := plan[..n], plan[..n + 1];
    assert forall i | 0 <= i < n :: after[i] == before[i] == plan[i];
    assert after[n] == plan[n];
    assert plan[n].Consumes(plan[n].from.key) && plan[n].Produces(plan[n].to.key);
    assert forall i | 0 <= i < n :: !plan[i].Consumes(plan[n].from.key) && !plan[i].Produces(plan[n].to.key);
    assert forall i | 0 <= i < n :: plan[i].from.key != plan[n].from.key && plan[i].to.key != plan[n].to.key by {
      assert forall i | 0 <= i < n :: plan[i].Consumes(plan[i].from.key) && plan[i].Produces(plan[i].to.key);
    }
  }

  /** Over the touched paths a plan of unedited renames permutes the bytes and permissions, and it
      changes no other path: in chains, in cycles, and in both together. */
  lemma RenamesPermute(editor: Editor, plan: seq<Action>, tree: Tree, result: Tree)
    requires Compilable(plan) && Enabled(editor, plan, tree) && Means(editor, plan, tree, result) && PlainRenames(plan)
    ensures var touched := Sources(plan) + Destinations(plan);
            && Files(result, touched) == Files(tree, touched)
            && (forall k: nat | k !in touched :: Lookup(result, k) == Lookup(tree, k))
  {
    hide Compilable, Enabled, Sources, Destinations, Files, Meant;
    var from, to := Sources(plan), Destinations(plan);
    assert plan[..|plan|] == plan;
    MovedFiles(editor, plan, tree, result, |plan|);
    forall k: nat | k !in to ensures Lookup(result, k) == if k in from then None else Lookup(tree, k) {
      Unwritten(editor, plan, tree, k);
      assert Lookup(result, k) == Meant(editor, plan, tree, Indices.Below(|plan|), k);
    }
    forall k | k in to - from ensures k !in tree {
      Unread(editor, plan, tree, k);
    }
    FilesAbsent(tree, from, to - from);
    assert from + (to - from) == from + to;
    forall k | k in from - to ensures k !in result {
      assert Lookup(result, k) == None;
    }
    FilesAbsent(result, to, from - to);
    assert to + (from - to) == from + to;
  }

  /** A destination that is no source was free. */
  lemma Unread(editor: Editor, plan: seq<Action>, tree: Tree, k: nat)
    requires Enabled(editor, plan, tree) && PlainRenames(plan) && k in Destinations(plan) && k !in Sources(plan)
    ensures k !in tree
  {
    var i :| 0 <= i < |plan| && plan[i].to.key == k;
    assert plan[i].Produces(k);
    Readers(plan, k);
  }

  lemma Readers(plan: seq<Action>, k: nat)
    requires PlainRenames(plan)
    ensures k in Sources(plan) <==> ConsumedBySome(plan, k)
  {
    if k in Sources(plan) {
      var i :| 0 <= i < |plan| && plan[i].from.key == k;
      assert plan[i].Consumes(k);
    }
    assert forall j | 0 <= j < |plan| && plan[j].Consumes(k) :: plan[j].from.key in Sources(plan);
  }

  lemma Unwritten(editor: Editor, plan: seq<Action>, tree: Tree, k: nat)
    requires PlainRenames(plan) && k !in Destinations(plan)
    ensures Meant(editor, plan, tree, Indices.Below(|plan|), k) == if k in Sources(plan) then None else Lookup(tree, k)
  {
    hide Sources, InputMatches, OutputFile;
    Readers(plan, k);
    forall j | 0 <= j < |plan|
      ensures !plan[j].Produces(k)
    {
      assert plan[j].to.key in Destinations(plan);
    }
    hide Destinations, PlainRenames;
    assert forall j: nat | j < |plan| :: j in Indices.Below(|plan|);
  }
}
