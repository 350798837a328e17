/** Which journals a recovery may be interrupted on and resumed: exactly those whose
    rollbacks began at the highest commit intent. */
module Reentrancy {
  import opened Outcomes
  import opened Filesystem
  import opened Records
  import opened Replay
  import Grammar

  /** What replay guarantees of every accepted journal that is prepared and unfinished. */
  predicate Orderly(st: State) {
    && st.finished.None? && st.phase in {InPrepared, InCommit, InRollback}
    && (forall c | c in st.commitIntents :: c < |st.paths|)
    && (st.lastCommitIntent.None? <==> st.commitIntents == {})
    && (st.lastCommitIntent.Some? ==>
          && st.lastCommitIntent.value in st.commitIntents
          && forall c | c in st.commitIntents :: c <= st.lastCommitIntent.value && (c != st.lastCommitIntent.value ==> c in st.committed))
    && st.committed <= st.commitIntents
    && (st.phase == InPrepared <==> st.commitIntents == {})
    && (st.phase == InRollback <==> st.lastRollbackIntent.Some?)
    && (st.lastRollbackIntent.None? <==> st.rollbackIntents == {})
    && (st.lastRollbackIntent.Some? ==>
          && st.lastRollbackIntent.value in st.rollbackIntents
          && forall r | r in st.rollbackIntents :: r >= st.lastRollbackIntent.value && (r != st.lastRollbackIntent.value ==> r in st.rolledBack))
    && st.rolledBack <= st.rollbackIntents <= st.commitIntents
  }

  lemma LastIntents(s: seq<nat>, all: bool)
    requires s != [] && (Grammar.Ascending(s) || Grammar.Descending(s))
    ensures Grammar.Last(s).value in Grammar.Elements(s)
    ensures forall x | x in Grammar.Elements(s) && x != Grammar.Last(s).value :: x in Grammar.Completed(s, all)
    ensures Grammar.Completed(s, all) <= Grammar.Elements(s)
    ensures Grammar.Ascending(s) ==> forall x | x in Grammar.Elements(s) :: x <= Grammar.Last(s).value
    ensures Grammar.Descending(s) ==> forall x | x in Grammar.Elements(s) :: x >= Grammar.Last(s).value
  {
    Grammar.Splits(s);
  }

  lemma OrderlyTail(st: State, t: Grammar.Tail)
    requires Grammar.JustPrepared(st) && Grammar.WellFormed(|st.paths|, t) && t.finish.None?
    ensures Orderly(Grammar.After(st, t))
  {
    hide Grammar.Ascending, Grammar.Descending, Grammar.Completed;
    Grammar.EmptyElements(t.commits);
    Grammar.EmptyElements(t.rollbacks);
    if t.commits != [] { LastIntents(t.commits, t.committed); }
    if t.rollbacks != [] {
      LastIntents(t.rollbacks, t.undone);
      assert t.rollbacks[0] in t.commits;
    }
    EmptyCompleted(t.commits, t.committed);
    EmptyCompleted(t.rollbacks, t.undone);
  }

  lemma EmptyCompleted(s: seq<nat>, all: bool)
    ensures s == [] ==> Grammar.Completed(s, all) == {}
  {
  }

  /** Soundness of replay: every accepted, prepared, unfinished journal is orderly. */
  lemma AcceptedOrderly(limits: Limits, records: seq<Record>, st: State)
    requires Parse(limits, records) == Ok(st) && st.prepared && st.finished.None?
    ensures Orderly(st)
  {
    var n, start, t := Grammar.PreparedJournal(limits, records, st);
    OrderlyTail(start, t);
  }

  // What recovery appends

  function OpenIntent(st: State, i: nat): seq<Record> {
    if i in st.rollbackIntents then [] else [RollbackIntent(i)]
  }

  /** The records a complete recovery sweep appends for the paths from `i` up. */
  function Appended(st: State, i: nat): seq<Record>
    requires i <= |st.paths|
    decreases |st.paths| - i
  {
    if i == |st.paths| then []
    else
      Appended(st, i + 1)
      + if i in st.commitIntents && i !in st.rolledBack then OpenIntent(st, i) + [RollbackDone(i)] else []
  }

  /** Rollback began at the highest commit intent, or has not begun. */
  predicate FromTheTop(st: State) {
    forall c, r | c in st.commitIntents && r in st.rollbackIntents && r < c :: c in st.rollbackIntents
  }

  function From(s: set<nat>, i: nat): set<nat> {
    set c | c in s && c >= i
  }

  /** The journal state once the paths from `i` up have been dealt with. */
  predicate Reached(st: State, now: State, i: nat) {
    && Orderly(now) && now.paths == st.paths && now.commitIntents == st.commitIntents
    && now.rollbackIntents == st.rollbackIntents + From(st.commitIntents, i)
    && now.rolledBack == st.rolledBack + From(st.commitIntents, i)
    && FromTheTop(now)
  }

  /** One path more. */
  lemma ReachedStep(limits: Limits, st: State, now: State, i: nat) returns (next: State)
    requires Orderly(st) && FromTheTop(st) && Reached(st, now, i + 1) && i < |st.paths|
    requires i in st.commitIntents && i !in st.rolledBack
    ensures Run(limits, now, OpenIntent(st, i) + [RollbackDone(i)]) == Ok(next) && Reached(st, next, i)
  {
    hide ApplyOperation, ApplyPathIntent, ApplyPathStaged, ApplyPrepared, ApplyFinished, ApplyCommitIntent,
         ApplyCommitDone, Run;
    var marked := now;
    if i !in st.rollbackIntents {
      marked := now.(phase := InRollback, rollbackIntents := now.rollbackIntents + {i}, lastRollbackIntent := Some(i));
      assert i !in From(st.commitIntents, i + 1);
      if now.lastRollbackIntent.Some? {
        var l := now.lastRollbackIntent.value;
        assert l < i ==> i in now.rollbackIntents;
        assert l in From(st.commitIntents, i + 1);
      }
      assert Step(limits, now, RollbackIntent(i)) == Ok(marked);
    }
    next := marked.(rolledBack := marked.rolledBack + {i});
    assert marked.lastRollbackIntent == Some(i);
    assert Step(limits, marked, RollbackDone(i)) == Ok(next);
    assert From(st.commitIntents, i) == From(st.commitIntents, i + 1) + {i};
    RunTwo(limits, now, OpenIntent(st, i), RollbackDone(i), marked);
  }

  lemma RunTwo(limits: Limits, st: State, first: seq<Record>, r: Record, mid: State)
    requires first == [] ==> mid == st
    requires first != [] ==> |first| == 1 && Step(limits, st, first[0]) == Ok(mid)
    ensures Run(limits, st, first + [r]) == Step(limits, mid, r)
  {
    RunAppend(limits, st, first, r);
    if first != [] {
      RunAppend(limits, st, [], first[0]);
      assert [] + first == first && [] + [first[0]] == first;
    }
  }

  lemma {:induction false} RunConcat(limits: Limits, st: State, first: seq<Record>, second: seq<Record>)
    ensures Run(limits, st, first + second) ==
            match Run(limits, st, first) { case Corrupt => Corrupt case Ok(mid) => Run(limits, mid, second) }
    decreases |second|
  {
    if second == [] {
      assert first + second == first;
    } else {
      var most := second[..|second| - 1];
      var r := second[|second| - 1];
      RunConcat(limits, st, first, most);
      assert first + second == (first + most) + [r] && second == most + [r];
      RunAppend(limits, st, first + most, r);
      if Run(limits, st, first).Ok? {
        RunAppend(limits, Run(limits, st, first).value, most, r);
      }
    }
  }

  /** From the top, the whole sweep is accepted. */
  lemma {:induction false} SweepAccepted(limits: Limits, st: State, i: nat) returns (now: State)
    requires Orderly(st) && FromTheTop(st) && i <= |st.paths|
    ensures Run(limits, st, Appended(st, i)) == Ok(now) && Reached(st, now, i)
    decreases |st.paths| - i
  {
    hide Orderly, FromTheTop;
    if i == |st.paths| {
      now := st;
      StartReached(st);
    } else {
      var before := SweepAccepted(limits, st, i + 1);
      if i in st.commitIntents && i !in st.rolledBack {
        now := ReachedStep(limits, st, before, i);
        RunConcat(limits, st, Appended(st, i + 1), OpenIntent(st, i) + [RollbackDone(i)]);
      } else {
        now := before;
        KeptReached(st, now, i);
        assert Appended(st, i) == Appended(st, i + 1);
      }
    }
  }

  lemma StartReached(st: State)
    requires Orderly(st) && FromTheTop(st)
    ensures Reached(st, st, |st.paths|)
  {
    assert From(st.commitIntents, |st.paths|) == {};
  }

  lemma KeptReached(st: State, now: State, i: nat)
    requires Orderly(st) && Reached(st, now, i + 1) && (i !in st.commitIntents || i in st.rolledBack)
    ensures Reached(st, now, i)
  {
    if i in st.commitIntents {
      assert From(st.commitIntents, i) == From(st.commitIntents, i + 1) + {i};
      assert now.rollbackIntents == st.rollbackIntents + From(st.commitIntents, i);
      assert now.rolledBack == st.rolledBack + From(st.commitIntents, i);
    } else {
      assert From(st.commitIntents, i) == From(st.commitIntents, i + 1);
    }
  }

  /** Above the highest path the rollback skipped, the sweep appends nothing. */
  lemma {:induction false} QuietAbove(st: State, top: nat, i: nat)
    requires Orderly(st) && top < i <= |st.paths| && st.lastRollbackIntent.Some? && st.lastRollbackIntent.value < top
    requires forall c | c in st.commitIntents && c > top :: c in st.rollbackIntents
    ensures Appended(st, i) == []
    decreases |st.paths| - i
  {
    if i < |st.paths| {
      QuietAbove(st, top, i + 1);
    }
  }

  /** The highest of a nonempty set of indices. */
  lemma {:induction false} Highest(s: set<nat>) returns (top: nat)
    requires s != {}
    ensures top in s && forall c | c in s :: c <= top
  {
    var some :| some in s;
    var rest := s - {some};
    top := some;
    if rest != {} {
      var other := Highest(rest);
      top := if other > some then other else some;
    }
    forall c | c in s ensures c <= top {
      assert c == some || c in rest;
    }
  }

  /** If rollback skipped a path, the first record the sweep appends is one replay rejects. */
  lemma SkippedRejected(limits: Limits, st: State)
    requires Orderly(st) && !FromTheTop(st)
    ensures Run(limits, st, Appended(st, 0)).Corrupt?
  {
    var c, r :| c in st.commitIntents && r in st.rollbackIntents && r < c && c !in st.rollbackIntents;
    assert c in st.commitIntents - st.rollbackIntents;
    var top := Highest(st.commitIntents - st.rollbackIntents);
    assert st.lastRollbackIntent.value <= r < c <= top;
    forall c | c in st.commitIntents && c > top ensures c in st.rollbackIntents {
      assert c in st.rollbackIntents || c in st.commitIntents - st.rollbackIntents;
    }
    QuietAbove(st, top, top + 1);
    assert Appended(st, top) == [RollbackIntent(top), RollbackDone(top)];
    assert Step(limits, st, RollbackIntent(top)).Corrupt?;
    RunTwoRejected(limits, st, RollbackIntent(top), RollbackDone(top));
    RejectedBelow(limits, st, top, 0);
  }

  lemma RunTwoRejected(limits: Limits, st: State, first: Record, second: Record)
    requires Step(limits, st, first).Corrupt?
    ensures Run(limits, st, [first, second]).Corrupt?
  {
    RunAppend(limits, st, [], first);
    assert [] + [first] == [first];
    RunAppend(limits, st, [first], second);
    assert [first] + [second] == [first, second];
  }

  lemma {:induction false} RejectedBelow(limits: Limits, st: State, top: nat, i: nat)
    requires i <= top < |st.paths| && Run(limits, st, Appended(st, top)).Corrupt?
    ensures Run(limits, st, Appended(st, i)).Corrupt?
    decreases top - i
  {
    if i < top {
      RejectedBelow(limits, st, top, i + 1);
      RunConcat(limits, st, Appended(st, i + 1), if i in st.commitIntents && i !in st.rolledBack then OpenIntent(st, i) + [RollbackDone(i)] else []);
    }
  }

  /** Recovery is re-entrant on exactly the journals whose rollback has not skipped a path:
      replay accepts everything a sweep appends, so any interruption leaves a journal the
      next recovery can resume, if and only if rollback began at the highest intent. */
  lemma ReentrantIff(limits: Limits, records: seq<Record>, st: State)
    requires Parse(limits, records) == Ok(st) && st.prepared && st.finished.None?
    ensures Parse(limits, records + Appended(st, 0)).Ok? <==> FromTheTop(st)
    ensures FromTheTop(st) ==> forall n | 0 <= n <= |Appended(st, 0)| :: Parse(limits, records + Appended(st, 0)[..n]).Ok?
  {
    AcceptedOrderly(limits, records, st);
    if FromTheTop(st) {
      var now := SweepAccepted(limits, st, 0);
      ParseConcat(limits, records, Appended(st, 0), st);
      forall n | 0 <= n <= |Appended(st, 0)|
        ensures Parse(limits, records + Appended(st, 0)[..n]).Ok?
      {
        var all := Appended(st, 0);
        assert records + all[..n] + all[n..] == records + all;
        if Parse(limits, records + all[..n]).Corrupt? {
          RejectedStays(limits, records + all[..n], all[n..]);
        }
      }
    } else {
      SkippedRejected(limits, st);
      ParseConcat(limits, records, Appended(st, 0), st);
    }
  }

  /** The journal a failed two-path commit leaves when the second path stayed unchanged: it
      is accepted, and attesting the second path above the first makes it rejected. */
  lemma SkippedExample(limits: Limits, st: State)
    requires Grammar.JustPrepared(st) && |st.paths| >= 2
    ensures var records := [CommitIntent(0), CommitDone(0), CommitIntent(1), RollbackIntent(0), RollbackDone(0)];
            && Run(limits, st, records).Ok? && !FromTheTop(Run(limits, st, records).value)
            && Run(limits, st, records + [RollbackIntent(1)]).Corrupt?
  {
    hide Run, Step, Grammar.After, Grammar.Render;
    var t := Grammar.Tail([0, 1], false, [0], true, None);
    var records := [CommitIntent(0), CommitDone(0), CommitIntent(1), RollbackIntent(0), RollbackDone(0)];
    SkippedTail(st, t, records);
    Grammar.TailAccepted(limits, st, t);
    RunAppend(limits, st, records, RollbackIntent(1));
    HigherRejected(limits, Grammar.After(st, t));
  }

  lemma SkippedTail(st: State, t: Grammar.Tail, records: seq<Record>)
    requires Grammar.JustPrepared(st) && |st.paths| >= 2 && t == Grammar.Tail([0, 1], false, [0], true, None)
    requires records == [CommitIntent(0), CommitDone(0), CommitIntent(1), RollbackIntent(0), RollbackDone(0)]
    ensures Grammar.WellFormed(|st.paths|, t) && Grammar.Render(t) == records
    ensures var now := Grammar.After(st, t);
            0 in now.rollbackIntents && 1 in now.commitIntents && 1 !in now.rollbackIntents && now.lastRollbackIntent == Some(0)
  {
    assert Grammar.CommitRecords([0], true) == [CommitIntent(0), CommitDone(0)] by {
      assert [0][..0] == [];
    }
    assert Grammar.CommitRecords([0, 1], false) == [CommitIntent(0), CommitDone(0), CommitIntent(1)] by {
      assert [0, 1][..1] == [0];
    }
    assert Grammar.RollbackRecords([0], true) == [RollbackIntent(0), RollbackDone(0)] by {
      assert [0][..0] == [];
    }
  }

  lemma HigherRejected(limits: Limits, st: State)
    requires st.lastRollbackIntent == Some(0)
    ensures Step(limits, st, RollbackIntent(1)).Corrupt?
  {
  }
}
