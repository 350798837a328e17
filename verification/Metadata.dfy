/** The node, depth and byte budget of extension JSON, walked with an explicit stack. */
module Metadata {

  datatype Value = Scalar | Array(items: seq<Value>) | Object(values: seq<Value>)
  {
    function Children(): seq<Value> {
      match this
      case Scalar => []
      case Array(items) => items
      case Object(values) => values
    }
  }

  /** The number of values in the tree. */
  function Size(v: Value): (n: nat)
    ensures n > 0
    decreases v, 1
  {
    match v
    case Scalar => 1
    case Array(items) => 1 + SizeAll(items)
    case Object(values) => 1 + SizeAll(values)
  }

  function SizeAll(vs: seq<Value>): (n: nat)
    ensures n >= |vs|
    decreases vs, 0
  {
    if vs == [] then 0 else SizeAll(vs[..|vs| - 1]) + Size(vs[|vs| - 1])
  }

  /** The number of values on the longest path down. */
  function Height(v: Value): (n: nat)
    ensures n > 0
    decreases v, 1
  {
    match v
    case Scalar => 1
    case Array(items) => 1 + HeightAll(items)
    case Object(values) => 1 + HeightAll(values)
  }

  function HeightAll(vs: seq<Value>): nat
    decreases vs, 0
  {
    if vs == [] then 0 else Max(HeightAll(vs[..|vs| - 1]), Height(vs[|vs| - 1]))
  }

  function Max(a: nat, b: nat): nat {
    if a < b then b else a
  }

  lemma {:induction false} HeightBound(vs: seq<Value>, limit: nat)
    ensures HeightAll(vs) <= limit <==> forall i | 0 <= i < |vs| :: Height(vs[i]) <= limit
    decreases |vs|
  {
    if vs != [] {
      var most := vs[..|vs| - 1];
      HeightBound(most, limit);
      assert forall i | 0 <= i < |most| :: most[i] == vs[i];
    }
  }

  /** The values still to visit, each with its depth. */
  type Stack = seq<(Value, nat)>

  function StackSize(stack: Stack): (n: nat)
    ensures n >= |stack|
  {
    if stack == [] then 0 else StackSize(stack[..|stack| - 1]) + Size(stack[|stack| - 1].0)
  }

  ghost predicate StackFits(stack: Stack, depth: nat) {
    forall i | 0 <= i < |stack| :: stack[i].1 - 1 + Height(stack[i].0) <= depth
  }

  function Pushed(stack: Stack, children: seq<Value>, depth: nat): (r: Stack)
    ensures |r| == |stack| + |children|
  {
    stack + seq(|children|, i requires 0 <= i < |children| => (children[i], depth))
  }

  lemma {:induction false} PushedSize(stack: Stack, children: seq<Value>, depth: nat)
    ensures StackSize(Pushed(stack, children, depth)) == StackSize(stack) + SizeAll(children)
    decreases |children|
  {
    if children == [] {
      assert Pushed(stack, children, depth) == stack;
    } else {
      var most := children[..|children| - 1];
      PushedSize(stack, most, depth);
      assert Pushed(stack, children, depth)[..|stack| + |most|] == Pushed(stack, most, depth);
    }
  }

  lemma PushedFits(stack: Stack, children: seq<Value>, depth: nat, limit: nat)
    ensures StackFits(Pushed(stack, children, depth + 1), limit) <==>
            StackFits(stack, limit) && (children == [] || depth + HeightAll(children) <= limit)
  {
    var pushed := Pushed(stack, children, depth + 1);
    assert forall i | 0 <= i < |stack| :: pushed[i] == stack[i];
    assert forall i | 0 <= i < |children| :: pushed[|stack| + i] == (children[i], depth + 1);
    if depth <= limit {
      HeightBound(children, limit - depth);
    }
  }

  /** Replacing the top value by its children leaves the size one less and the fit as it was. */
  lemma VisitStep(stack: Stack, limit: nat)
    requires stack != []
    ensures var (value, depth) := stack[|stack| - 1];
            var rest, children := stack[..|stack| - 1], value.Children();
            && StackSize(stack) == StackSize(rest) + 1 + SizeAll(children)
            && StackSize(Pushed(rest, children, depth + 1)) == StackSize(stack) - 1
            && (StackFits(stack, limit) ==> depth <= limit && depth + HeightAll(children) <= limit)
            && (depth <= limit ==> (StackFits(stack, limit) <==> StackFits(Pushed(rest, children, depth + 1), limit)))
  {
    var (value, depth) := stack[|stack| - 1];
    var rest, children := stack[..|stack| - 1], value.Children();
    assert stack == rest + [(value, depth)];
    PushedSize(rest, children, depth + 1);
    PushedFits(rest, children, depth, limit);
    assert Height(value) == 1 + HeightAll(children);
  }

  lemma StackEnds(root: Value, limit: nat)
    ensures StackSize([]) == 0 && StackFits([], limit)
    ensures StackSize([(root, 1)]) == Size(root) && (StackFits([(root, 1)], limit) <==> Height(root) <= limit)
  {
    assert [(root, 1)][..0] == [];
    assert [(root, 1)][0].0 == root;
  }

  lemma ChildHeight(children: seq<Value>)
    requires children != []
    ensures HeightAll(children) > 0
  {
    HeightBound(children, 0);
    assert Height(children[0]) > 0;
  }

  function SaturatingSub(a: nat, b: nat): nat {
    if a < b then 0 else a - b
  }

  function Sum(chunks: seq<nat>): nat {
    if chunks == [] then 0 else Sum(chunks[..|chunks| - 1]) + chunks[|chunks| - 1]
  }

  class JsonBudget {
    const nodeLimit: nat
    const depthLimit: nat
    const byteLimit: nat
    var nodes: nat
    var bytes: nat

    ghost predicate Valid()
      reads this
    {
      nodes <= nodeLimit && bytes <= byteLimit
    }

    constructor (nodeLimit: nat, depthLimit: nat, byteLimit: nat)
      ensures Valid() && nodes == 0 && bytes == 0
      ensures this.nodeLimit == nodeLimit && this.depthLimit == depthLimit && this.byteLimit == byteLimit
    {
      this.nodeLimit, this.depthLimit, this.byteLimit := nodeLimit, depthLimit, byteLimit;
      nodes, bytes := 0, 0;
    }

    /** Refuses early only what a full walk would refuse, and keeps the counted nodes and the stack
        together within the node limit. */
    method PushChildren(stack: Stack, children: seq<Value>, depth: nat) returns (ok: bool, pushed: Stack)
      ensures ok ==> pushed == Pushed(stack, children, depth + 1)
      ensures ok && children != [] ==> nodes + |pushed| <= nodeLimit
      ensures !ok ==> nodes + StackSize(stack) + SizeAll(children) > nodeLimit
                      || depth + HeightAll(children) > depthLimit
    {
      if |children| == 0 {
        return true, Pushed(stack, children, depth + 1);
      }
      if depth >= depthLimit || |children| > SaturatingSub(SaturatingSub(nodeLimit, nodes), |stack|) {
        ChildHeight(children);
        return false, stack;
      }
      ok, pushed := true, Pushed(stack, children, depth + 1);
    }

    /** `visit_value` succeeds exactly when the whole tree fits. */
    method VisitValue(root: Value) returns (ok: bool)
      requires Valid()
      modifies `nodes
      ensures Valid()
      ensures ok <==> old(nodes) + Size(root) <= nodeLimit && Height(root) <= depthLimit
      ensures ok ==> nodes == old(nodes) + Size(root)
    {
      hide Size, SizeAll, Height, HeightAll, StackSize, StackFits;
      var stack: Stack := [(root, 1)];
      StackEnds(root, depthLimit);
      while stack != []
        invariant Valid() && nodes + StackSize(stack) == old(nodes) + Size(root)
        invariant Height(root) <= depthLimit <==> StackFits(stack, depthLimit)
        invariant nodes + |stack| <= nodeLimit || |stack| == 1
        decreases StackSize(stack)
      {
        var (value, depth) := stack[|stack| - 1];
        var rest := stack[..|stack| - 1];
        VisitStep(stack, depthLimit);
        if nodes >= nodeLimit { return false; }
        if depth > depthLimit { return false; }
        nodes := nodes + 1;
        var children := value.Children();
        var pushed;
        ok, pushed := PushChildren(rest, children, depth);
        if !ok { return false; }
        stack := pushed;
      }
      ok := true;
    }

    /** One write of the encoder into the byte counter. */
    method Write(length: nat) returns (ok: bool)
      requires Valid()
      modifies `bytes
      ensures Valid() && (ok <==> old(bytes) + length <= byteLimit)
      ensures bytes == if ok then old(bytes) + length else old(bytes)
    {
      if bytes + length > byteLimit { return false; }
      bytes := bytes + length;
      ok := true;
    }

    /** `visit_map`: the values of one object, and the chunks the encoder writes for it. */
    method VisitMap(values: seq<Value>, chunks: seq<nat>) returns (ok: bool)
      requires Valid()
      modifies this
      ensures Valid()
      ensures ok <==> values == [] || (old(nodes) + SizeAll(values) <= nodeLimit && HeightAll(values) <= depthLimit
                                       && old(bytes) + Sum(chunks) <= byteLimit)
      ensures ok ==> nodes == old(nodes) + SizeAll(values)
      ensures ok ==> bytes == old(bytes) + (if values == [] then 0 else Sum(chunks))
    {
      if values == [] { return true; }
      for i := 0 to |values|
        invariant Valid() && nodes == old(nodes) + SizeAll(values[..i]) && HeightAll(values[..i]) <= depthLimit
        invariant bytes == old(bytes)
      {
        Prefix(values, i);
        ok := VisitValue(values[i]);
        if !ok { return; }
      }
      assert values[..|values|] == values;
      for i := 0 to |chunks|
        invariant Valid() && nodes == old(nodes) + SizeAll(values) && bytes == old(bytes) + Sum(chunks[..i])
      {
        SumPrefix(chunks, i);
        ok := Write(chunks[i]);
        if !ok { return; }
      }
      assert chunks[..|chunks|] == chunks;
      ok := true;
    }
  }

  lemma {:induction false} Prefix(values: seq<Value>, i: nat)
    requires i < |values|
    ensures SizeAll(values[..i + 1]) == SizeAll(values[..i]) + Size(values[i]) <= SizeAll(values)
    ensures HeightAll(values[..i + 1]) == Max(HeightAll(values[..i]), Height(values[i])) <= HeightAll(values)
    decreases |values| - i
  {
    var next := values[..i + 1];
    assert next[..i] == values[..i];
    if i + 1 == |values| {
      assert next == values;
    } else {
      Prefix(values, i + 1);
    }
  }

  lemma {:induction false} SumPrefix(chunks: seq<nat>, i: nat)
    requires i < |chunks|
    ensures Sum(chunks[..i + 1]) == Sum(chunks[..i]) + chunks[i] <= Sum(chunks)
    decreases |chunks| - i
  {
    assert chunks[..i + 1][..i] == chunks[..i];
    if i + 1 == |chunks| {
      assert chunks[..i + 1] == chunks;
    } else {
      SumPrefix(chunks, i + 1);
    }
  }
}
