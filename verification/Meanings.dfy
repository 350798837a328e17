/** What a plan means: all its actions at once, or one at a time in some order. */
module Meanings {
  import opened Outcomes
  import opened Filesystem
  import opened Records
  import opened Plans
  import Indices

  /** The files of the tree, by portable path. */
  type Tree = map<nat, File>

  /** The text engine: what it accepts as text, and the edited text with the number of edits, or
      a refusal. */
  datatype Editor = Editor(isText: seq<byte> -> bool, apply: (seq<byte>, seq<TextEdit>) -> Option<(seq<byte>, nat)>)

  function Lookup(tree: Tree, k: nat): Option<File> {
    if k in tree then Some(tree[k]) else None
  }

  function Edited(editor: Editor, file: File, edits: seq<TextEdit>): Option<File> {
    if edits == [] then Some(file)
    else
      match editor.apply(file.bytes, edits)
      case None => None
      case Some((bytes, _)) => Some(File(bytes, file.permissions))
  }

  /** The file an action writes, when it reads this tree. */
  function OutputFile(editor: Editor, action: Action, tree: Tree): Option<File> {
    match action
    case ModifyFile(path, _, edits) => if path.key in tree then Edited(editor, tree[path.key], edits) else None
    case CreateFile(_, contents, permissions) => Some(File(contents, permissions))
    case DeleteFile(_, _) => None
    case RenameFile(from, _, _, edits) => if from.key in tree then Edited(editor, tree[from.key], edits) else None
  }

  /** The file an action reads is the one it names by hash. */
  predicate InputMatches(action: Action, tree: Tree) {
    action.CreateFile? || (action.Input().value.key in tree && Sha256(tree[action.Input().value.key].bytes) == action.sha256)
  }

  // At once

  /** What the actions of `done`, all reading the initial tree, make of one path. */
  ghost function Meant(editor: Editor, plan: seq<Action>, tree: Tree, done: set<nat>, k: nat): Option<File> {
    if i :| i in done && i < |plan| && plan[i].Produces(k) then OutputFile(editor, plan[i], tree)
    else if i :| i in done && i < |plan| && plan[i].Consumes(k) then None
    else Lookup(tree, k)
  }

  ghost predicate BecomesOf(editor: Editor, plan: seq<Action>, tree: Tree, done: set<nat>, result: Tree) {
    forall k: nat :: Lookup(result, k) == Meant(editor, plan, tree, done, k)
  }

  /** The simultaneous meaning of a plan: every action reads the initial tree. */
  ghost predicate Means(editor: Editor, plan: seq<Action>, tree: Tree, result: Tree) {
    BecomesOf(editor, plan, tree, Indices.Below(|plan|), result)
  }

  /** Every action finds its input and makes its output, and every written path is absent or is
      read by an action as well. */
  ghost predicate Enabled(editor: Editor, plan: seq<Action>, tree: Tree) {
    && (forall i | 0 <= i < |plan| :: InputMatches(plan[i], tree))
    && (forall i | 0 <= i < |plan| && plan[i].Output().Some? :: OutputFile(editor, plan[i], tree).Some?)
    && (forall i, k: nat | 0 <= i < |plan| && plan[i].Produces(k) && k in tree :: ConsumedBySome(plan, k))
  }

  ghost predicate ConsumedBySome(plan: seq<Action>, k: nat) {
    exists j :: 0 <= j < |plan| && plan[j].Consumes(k)
  }

  /** A plan means one tree. */
  lemma MeaningUnique(editor: Editor, plan: seq<Action>, tree: Tree, left: Tree, right: Tree)
    requires Means(editor, plan, tree, left) && Means(editor, plan, tree, right)
    ensures left == right
  {
    hide Meant;
    forall k: nat ensures Lookup(left, k) == Lookup(right, k) {
      assert Lookup(left, k) == Meant(editor, plan, tree, Indices.Below(|plan|), k);
    }
    forall k: nat ensures k in left <==> k in right {
      assert Lookup(left, k) == Lookup(right, k);
    }
    forall k | k in left ensures left[k] == right[k] {
      assert Lookup(left, k) == Lookup(right, k);
    }
  }

  // One at a time

  /** Running one action on a tree: its destination must be free once its input is taken. */
  function Execute(editor: Editor, action: Action, tree: Tree): Option<Tree> {
    if !InputMatches(action, tree) then None
    else
      var rest := if action.Input().Some? then tree - {action.Input().value.key} else tree;
      if action.Output().None? then Some(rest)
      else if action.Output().value.key in rest then None
      else
        match OutputFile(editor, action, tree)
        case None => None
        case Some(file) => Some(rest[action.Output().value.key := file])
  }

  ghost function ExecuteAll(editor: Editor, plan: seq<Action>, order: seq<nat>, tree: Tree): Option<Tree>
    requires forall n | 0 <= n < |order| :: order[n] < |plan|
  {
    if order == [] then Some(tree)
    else
      match Execute(editor, plan[order[0]], tree)
      case None => None
      case Some(next) => ExecuteAll(editor, plan, order[1..], next)
  }

  /** Who writes a path that someone reads has been done only once the reader has. */
  ghost predicate Closed(plan: seq<Action>, done: set<nat>) {
    forall i: nat, j: nat, k: nat | i in done && i < |plan| && j < |plan| && plan[i].Produces(k) && plan[j].Consumes(k) ::
      j in done
  }

  /** Reading and writing roles at one path, in a partial execution. */
  lemma AfterCases(editor: Editor, plan: seq<Action>, tree: Tree, done: set<nat>, i: nat, k: nat)
    requires Compilable(plan) && i in done && i < |plan|
    ensures plan[i].Produces(k) ==> Meant(editor, plan, tree, done, k) == OutputFile(editor, plan[i], tree)
    ensures plan[i].Consumes(k) && (forall j | j in done && j < |plan| :: !plan[j].Produces(k)) ==>
              Meant(editor, plan, tree, done, k) == None
  {
  }

  /** A path that the next action neither reads nor writes is as before. */
  lemma AfterFrame(editor: Editor, plan: seq<Action>, tree: Tree, done: set<nat>, i: nat, k: nat)
    requires Compilable(plan) && i < |plan| && !plan[i].Produces(k) && !plan[i].Consumes(k)
    ensures Meant(editor, plan, tree, done + {i}, k) == Meant(editor, plan, tree, done, k)
  {
    if j :| j in done && j < |plan| && plan[j].Produces(k) {
      AfterCases(editor, plan, tree, done, j, k);
      AfterCases(editor, plan, tree, done + {i}, j, k);
    } else if j :| j in done && j < |plan| && plan[j].Consumes(k) {
      AfterCases(editor, plan, tree, done, j, k);
      AfterCases(editor, plan, tree, done + {i}, j, k);
    }
  }

  /** Before its turn an action's input is as it was, whatever ran earlier. */
  lemma InputUntouched(editor: Editor, plan: seq<Action>, tree: Tree, done: set<nat>, i: nat, k: nat)
    requires Compilable(plan) && Closed(plan, done) && i < |plan| && i !in done && plan[i].Consumes(k)
    ensures Meant(editor, plan, tree, done, k) == Lookup(tree, k)
  {
    assert forall j | j in done && j < |plan| :: !plan[j].Produces(k) && !plan[j].Consumes(k);
  }

  /** Adding an action to a closed set. */
  lemma ClosedMore(plan: seq<Action>, done: set<nat>, i: nat)
    requires Closed(plan, done) && i < |plan|
    ensures Closed(plan, done + {i}) <==>
            forall j: nat, k: nat | j < |plan| && plan[i].Produces(k) && plan[j].Consumes(k) :: j in done + {i}
  {
  }

  /** The next action finds its destination free exactly when no action still to run reads it. */
  lemma DestinationFree(editor: Editor, plan: seq<Action>, tree: Tree, done: set<nat>, i: nat, k: nat)
    requires Compilable(plan) && Enabled(editor, plan, tree) && Closed(plan, done)
    requires i < |plan| && i !in done && plan[i].Produces(k) && !plan[i].Consumes(k)
    ensures Meant(editor, plan, tree, done, k).None? <==> Closed(plan, done + {i})
  {
    ClosedMore(plan, done, i);
    assert forall j | j in done && j < |plan| :: !plan[j].Produces(k);
    if j: nat :| j < |plan| && plan[j].Consumes(k) {
      assert forall j': nat | j' < |plan| && plan[j'].Consumes(k) :: j' == j;
      if j in done {
        AfterCases(editor, plan, tree, done, j, k);
      } else {
        InputUntouched(editor, plan, tree, done, j, k);
        assert InputMatches(plan[j], tree);
      }
    } else {
      assert !ConsumedBySome(plan, k);
    }
  }

  /** After its turn an action's input is gone, unless the action wrote it again. */
  lemma InputTaken(editor: Editor, plan: seq<Action>, tree: Tree, done: set<nat>, i: nat, k: nat)
    requires Compilable(plan) && Closed(plan, done) && i < |plan| && i !in done
    requires plan[i].Consumes(k) && !plan[i].Produces(k)
    ensures Meant(editor, plan, tree, done + {i}, k) == None
  {
    AfterCases(editor, plan, tree, done + {i}, i, k);
  }

  /** One step of a one-at-a-time run: it succeeds exactly when nobody is left to read what it
      overwrites, and then brings the tree to the partial meaning with that action added. */
  lemma ExecuteNext(editor: Editor, plan: seq<Action>, tree: Tree, done: set<nat>, now: Tree, i: nat)
    requires Compilable(plan) && Enabled(editor, plan, tree) && Closed(plan, done)
    requires i < |plan| && i !in done && BecomesOf(editor, plan, tree, done, now)
    ensures Execute(editor, plan[i], now).Some? <==> Closed(plan, done + {i})
    ensures Execute(editor, plan[i], now).Some? ==>
              BecomesOf(editor, plan, tree, done + {i}, Execute(editor, plan[i], now).value)
  {
    ExecuteSucceeds(editor, plan, tree, done, now, i);
    hide Meant, Closed, Compilable, Edited;
    var action := plan[i];
    if Execute(editor, action, now).Some? {
      var next := Execute(editor, action, now).value;
      forall k: nat
        ensures Lookup(next, k) == Meant(editor, plan, tree, done + {i}, k)
      {
        if action.Produces(k) {
          AfterCases(editor, plan, tree, done + {i}, i, k);
        } else if action.Consumes(k) {
          InputTaken(editor, plan, tree, done, i, k);
        } else {
          AfterFrame(editor, plan, tree, done, i, k);
          assert Lookup(now, k) == Meant(editor, plan, tree, done, k);
        }
      }
    }
  }

  lemma ExecuteSucceeds(editor: Editor, plan: seq<Action>, tree: Tree, done: set<nat>, now: Tree, i: nat)
    requires Compilable(plan) && Enabled(editor, plan, tree) && Closed(plan, done)
    requires i < |plan| && i !in done && BecomesOf(editor, plan, tree, done, now)
    ensures InputMatches(plan[i], now) && OutputFile(editor, plan[i], now) == OutputFile(editor, plan[i], tree)
    ensures Execute(editor, plan[i], now).Some? <==> Closed(plan, done + {i})
  {
    hide Meant, Edited;
    var action := plan[i];
    assert InputMatches(action, tree);
    ClosedMore(plan, done, i);
    if action.Input().Some? {
      var from := action.Input().value.key;
      InputUntouched(editor, plan, tree, done, i, from);
      assert Lookup(now, from) == Meant(editor, plan, tree, done, from);
    }
    if action.Output().Some? {
      var to := action.Output().value.key;
      if !action.Consumes(to) {
        DestinationFree(editor, plan, tree, done, i, to);
        assert Lookup(now, to) == Meant(editor, plan, tree, done, to);
      } else {
        assert forall j: nat | j < |plan| && plan[j].Consumes(to) :: j == i;
      }
    }
  }

  // Orders

  /** Each action of the plan, once. */
  ghost predicate IsOrder(plan: seq<Action>, order: seq<nat>) {
    && |order| == |plan|
    && (forall n | 0 <= n < |order| :: order[n] < |plan|)
    && (forall m, n | 0 <= m < n < |order| :: order[m] != order[n])
  }

  function Members(order: seq<nat>): set<nat> {
    set i | i in order
  }

  /** A set of actions each of which overwrites what another of them reads. */
  ghost predicate Cycle(plan: seq<Action>, c: set<nat>) {
    && c != {}
    && forall i | i in c :: i < |plan| && Blocked(plan, c, i)
  }

  /** Another action of the set reads what this one writes. */
  ghost predicate Blocked(plan: seq<Action>, c: set<nat>, i: nat)
    requires i < |plan|
  {
    exists j :: j in c && j != i && j < |plan| && plan[i].Output().Some? && plan[j].Consumes(plan[i].Output().value.key)
  }

  ghost predicate Acyclic(plan: seq<Action>) {
    forall c: set<nat> :: !Cycle(plan, c)
  }

  /** Running the rest of an order from a partial meaning: if it succeeds, everything was read
      before it was overwritten, and the tree ends as the simultaneous meaning. */
  lemma {:induction false} OrderMeans(editor: Editor, plan: seq<Action>, tree: Tree, done: set<nat>, now: Tree, order: seq<nat>)
    requires Compilable(plan) && Enabled(editor, plan, tree) && Closed(plan, done) && BecomesOf(editor, plan, tree, done, now)
    requires forall n | 0 <= n < |order| :: order[n] < |plan| && order[n] !in done
    requires forall m, n | 0 <= m < n < |order| :: order[m] != order[n]
    ensures ExecuteAll(editor, plan, order, now).Some? ==>
              var all := done + Members(order);
              && BecomesOf(editor, plan, tree, all, ExecuteAll(editor, plan, order, now).value)
              && forall c: set<nat> | Cycle(plan, c) && c * done == {} :: c * all == {}
    decreases |order|
  {
    hide BecomesOf, Closed, Compilable, Enabled, Cycle, Blocked;
    if order == [] {
      assert done + Members(order) == done;
    } else if Execute(editor, plan[order[0]], now).Some? {
      var i, rest := order[0], order[1..];
      ExecuteNext(editor, plan, tree, done, now, i);
      OrderMeans(editor, plan, tree, done + {i}, Execute(editor, plan[i], now).value, rest);
      assert done + Members(order) == done + {i} + Members(rest);
      forall c: set<nat> | Cycle(plan, c) && c * done == {}
        ensures c * (done + {i}) == {}
      {
        CycleBlocked(plan, c);
        if i in c {
          CycleStuck(plan, done, c, i);
        }
      }
    }
  }

  /** No action of a cycle can be the next. */
  lemma CycleStuck(plan: seq<Action>, done: set<nat>, c: set<nat>, i: nat)
    requires c * done == {} && i < |plan| && Blocked(plan, c, i)
    ensures !Closed(plan, done + {i})
  {
    var j :| j in c && j != i && j < |plan| && plan[i].Output().Some? && plan[j].Consumes(plan[i].Output().value.key);
    assert j in done ==> j in c * done;
    assert plan[i].Produces(plan[i].Output().value.key) && j !in done + {i};
  }

  lemma CycleBlocked(plan: seq<Action>, c: set<nat>)
    requires Cycle(plan, c)
    ensures forall i | i in c :: i < |plan| && Blocked(plan, c, i)
  {
  }

  lemma CycleInside(plan: seq<Action>, c: set<nat>)
    ensures Cycle(plan, c) ==> c * Indices.Below(|plan|) != {}
  {
    assert Cycle(plan, c) ==> c <= Indices.Below(|plan|);
  }

  /** Without a cycle, an order that runs everything that is left. */
  lemma {:induction false} OrderFrom(editor: Editor, plan: seq<Action>, tree: Tree, done: set<nat>, now: Tree)
    returns (order: seq<nat>)
    requires Compilable(plan) && Enabled(editor, plan, tree) && Closed(plan, done) && BecomesOf(editor, plan, tree, done, now)
    requires Acyclic(plan) && done <= Indices.Below(|plan|)
    ensures |order| == |plan| - |done| && forall n | 0 <= n < |order| :: order[n] < |plan| && order[n] !in done
    ensures forall m, n | 0 <= m < n < |order| :: order[m] != order[n]
    ensures ExecuteAll(editor, plan, order, now).Some?
    decreases |plan| - |done|
  {
    hide BecomesOf, Compilable, Enabled, Closed;
    var left := Indices.Below(|plan|) - done;
    Indices.SubsetCount(done, Indices.Below(|plan|));
    if left == {} {
      assert done == Indices.Below(|plan|);
      order := [];
    } else {
      var i := Unblocked(plan, done, left);
      ExecuteNext(editor, plan, tree, done, now, i);
      Indices.SubsetCount(done + {i}, Indices.Below(|plan|));
      var rest := OrderFrom(editor, plan, tree, done + {i}, Execute(editor, plan[i], now).value);
      order := [i] + rest;
    }
  }

  lemma Unblocked(plan: seq<Action>, done: set<nat>, left: set<nat>) returns (i: nat)
    requires Acyclic(plan) && Closed(plan, done) && left != {} && left == Indices.Below(|plan|) - done
    ensures i in left && Closed(plan, done + {i})
  {
    assert !Cycle(plan, left);
    i :| i in left && !Blocked(plan, left, i);
  }

  /** Some one-at-a-time order runs exactly when no cycle of actions overwrites what it reads; and
      every order that runs gives the simultaneous meaning. */
  lemma OrderIffAcyclic(editor: Editor, plan: seq<Action>, tree: Tree)
    requires Compilable(plan) && Enabled(editor, plan, tree)
    ensures (exists order :: IsOrder(plan, order) && ExecuteAll(editor, plan, order, tree).Some?) <==> Acyclic(plan)
    ensures forall order | IsOrder(plan, order) && ExecuteAll(editor, plan, order, tree).Some? ::
              Means(editor, plan, tree, ExecuteAll(editor, plan, order, tree).value)
  {
    hide BecomesOf, Closed, Compilable, Enabled, Cycle, Members, ExecuteAll;
    NothingDone(editor, plan, tree);
    forall order | IsOrder(plan, order) && ExecuteAll(editor, plan, order, tree).Some?
      ensures Means(editor, plan, tree, ExecuteAll(editor, plan, order, tree).value) && Acyclic(plan)
    {
      OrderMeans(editor, plan, tree, {}, tree, order);
      OrderCovers(plan, order);
      assert {} + Members(order) == Indices.Below(|plan|);
      forall c: set<nat>
        ensures !Cycle(plan, c)
      {
        assert c * {} == {};
        CycleInside(plan, c);
      }
    }
    if Acyclic(plan) {
      var order := OrderFrom(editor, plan, tree, {}, tree);
      assert IsOrder(plan, order);
    }
  }

  lemma NothingDone(editor: Editor, plan: seq<Action>, tree: Tree)
    ensures Closed(plan, {}) && BecomesOf(editor, plan, tree, {}, tree)
  {
  }

  lemma OrderCovers(plan: seq<Action>, order: seq<nat>)
    requires IsOrder(plan, order)
    ensures Members(order) == Indices.Below(|plan|)
  {
    var s := Members(order);
    DistinctCount(order);
    Indices.AllIndices(s, |plan|);
  }

  lemma {:induction false} DistinctCount(order: seq<nat>)
    requires forall m, n | 0 <= m < n < |order| :: order[m] != order[n]
    ensures |Members(order)| == |order|
    decreases |order|
  {
    if order != [] {
      var most, last := order[..|order| - 1], order[|order| - 1];
      DistinctCount(most);
      var s := Members(most);
      assert Members(order) == s + {last};
      assert last !in s;
    }
  }
}
