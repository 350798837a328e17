/** Finite sets of path indices. */
module Indices {

  function Below(n: nat): (s: set<nat>)
    ensures |s| == n && forall i: nat :: i in s <==> i < n
  {
    if n == 0 then {} else Below(n - 1) + {n - 1}
  }

  /** A set that holds exactly the indices below `n` has `n` elements. */
  lemma IndexCount(s: set<nat>, n: nat)
    requires forall i: nat :: i in s <==> i < n
    ensures |s| == n
  {
    assert s == Below(n);
  }

  lemma {:induction false} SubsetCount<T>(s: set<T>, all: set<T>)
    requires s <= all
    ensures |s| <= |all| && (|s| == |all| ==> s == all)
    decreases |all|
  {
    if s != {} {
      var x :| x in s;
      SubsetCount(s - {x}, all - {x});
      assert s == s - {x} + {x} && all == all - {x} + {x};
    }
  }

  /** `n` indices below `n` are all of them. */
  lemma AllIndices(s: set<nat>, n: nat)
    requires |s| == n && forall i | i in s :: i < n
    ensures forall i: nat | i < n :: i in s
  {
    SubsetCount(s, Below(n));
  }
}
