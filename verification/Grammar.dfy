/** The language of transaction records that replay accepts after `Prepared`, given
    independently of the automaton: ascending commits, then descending rollbacks among
    them, then at most one outcome. */
module Grammar {
  import opened Outcomes
  import opened Filesystem
  import opened Records
  import opened Replay

  /** The transaction part of a journal: which paths were committed and rolled back, in
      order, and whether the last of each was completed. */
  datatype Tail = Tail(commits: seq<nat>, committed: bool, rollbacks: seq<nat>, undone: bool, finish: Option<FinishOutcome>)

  predicate Ascending(s: seq<nat>) {
    forall i, j | 0 <= i < j < |s| :: s[i] < s[j]
  }

  predicate Descending(s: seq<nat>) {
    forall i, j | 0 <= i < j < |s| :: s[i] > s[j]
  }

  /** What an outcome says about the transaction it closes. */
  predicate Closes(n: nat, t: Tail, outcome: FinishOutcome) {
    match outcome
    case Committed => |t.commits| == n && t.committed
    case RolledBack => t.commits != []
    case Aborted => t.commits == []
  }

  predicate WellFormed(n: nat, t: Tail) {
    && Ascending(t.commits) && (forall c | c in t.commits :: c < n) && (t.commits == [] ==> t.committed)
    && Descending(t.rollbacks) && (forall r | r in t.rollbacks :: r in t.commits) && (t.rollbacks == [] ==> t.undone)
    && (t.finish.Some? ==> Closes(n, t, t.finish.value))
  }

  /** Commit intents, each completed but perhaps the last. */
  function CommitRecords(s: seq<nat>, committed: bool): seq<Record> {
    if s == [] then []
    else
      var c := s[|s| - 1];
      CommitRecords(s[..|s| - 1], true) + [CommitIntent(c)] + if committed then [CommitDone(c)] else []
  }

  /** Rollback intents, each completed but perhaps the last. */
  function RollbackRecords(s: seq<nat>, undone: bool): seq<Record> {
    if s == [] then []
    else
      var r := s[|s| - 1];
      RollbackRecords(s[..|s| - 1], true) + [RollbackIntent(r)] + if undone then [RollbackDone(r)] else []
  }

  function Render(t: Tail): seq<Record> {
    CommitRecords(t.commits, t.committed) + RollbackRecords(t.rollbacks, t.undone)
    + if t.finish.Some? then [Finished(t.finish.value)] else []
  }

  function Elements(s: seq<nat>): set<nat> {
    set x | x in s
  }

  function Completed(s: seq<nat>, all: bool): set<nat> {
    Elements(if all || s == [] then s else s[..|s| - 1])
  }

  function Last(s: seq<nat>): Option<nat> {
    if s == [] then None else Some(s[|s| - 1])
  }

  /** A journal that has just recorded its preparation. */
  predicate JustPrepared(st: State) {
    && st.phase == InPrepared && st.prepared && st.finished.None?
    && st.commitIntents == {} && st.committed == {} && st.rollbackIntents == {} && st.rolledBack == {}
    && st.lastCommitIntent.None? && st.lastRollbackIntent.None?
  }

  /** The replayed state a tail stands for. */
  function After(st: State, t: Tail): State {
    st.(phase := if t.finish.Some? then InFinished else if t.rollbacks != [] then InRollback else if t.commits != [] then InCommit else InPrepared,
        commitIntents := Elements(t.commits), committed := Completed(t.commits, t.committed), lastCommitIntent := Last(t.commits),
        rollbackIntents := Elements(t.rollbacks), rolledBack := Completed(t.rollbacks, t.undone), lastRollbackIntent := Last(t.rollbacks),
        finished := t.finish)
  }

  // Taking the last record off a tail

  function Shorter(t: Tail): Tail
    requires t.commits != [] || t.rollbacks != [] || t.finish.Some?
  {
    if t.finish.Some? then t.(finish := None)
    else if t.rollbacks != [] then
      if t.undone then t.(undone := false) else t.(rollbacks := t.rollbacks[..|t.rollbacks| - 1], undone := true)
    else if t.committed then t.(committed := false)
    else t.(commits := t.commits[..|t.commits| - 1], committed := true)
  }

  function LastRecord(t: Tail): Record
    requires t.commits != [] || t.rollbacks != [] || t.finish.Some?
  {
    if t.finish.Some? then Finished(t.finish.value)
    else if t.rollbacks != [] then
      var r := t.rollbacks[|t.rollbacks| - 1];
      if t.undone then RollbackDone(r) else RollbackIntent(r)
    else
      var c := t.commits[|t.commits| - 1];
      if t.committed then CommitDone(c) else CommitIntent(c)
  }

  predicate Nonempty(t: Tail) {
    t.commits != [] || t.rollbacks != [] || t.finish.Some?
  }

  lemma Splits(s: seq<nat>)
    requires s != []
    ensures var most := s[..|s| - 1]; var last := s[|s| - 1];
            && Elements(s) == Elements(most) + {last} && last in s
            && (forall x | x in most :: x in s)
            && (Ascending(s) ==> Ascending(most) && forall x | x in most :: x < last)
            && (Descending(s) ==> Descending(most) && forall x | x in most :: x > last)
  {
    var most := s[..|s| - 1];
    assert s == most + [s[|s| - 1]];
  }

  lemma RenderShorter(n: nat, t: Tail)
    requires WellFormed(n, t) && Nonempty(t)
    ensures WellFormed(n, Shorter(t)) && Render(t) == Render(Shorter(t)) + [LastRecord(t)]
  {
    hide Ascending, Descending;
    if t.commits != [] { Splits(t.commits); }
    if t.rollbacks != [] { Splits(t.rollbacks); }
  }

  // One record

  lemma CountElements(s: seq<nat>)
    requires Ascending(s) || Descending(s)
    ensures |Elements(s)| == |s|
  {
    if s == [] {
      assert Elements(s) == {};
    } else {
      Splits(s);
      CountElements(s[..|s| - 1]);
    }
  }

  lemma LastFinish(limits: Limits, st: State, t: Tail)
    requires JustPrepared(st) && WellFormed(|st.paths|, t) && t.finish.Some?
    ensures Step(limits, After(st, Shorter(t)), LastRecord(t)) == Ok(After(st, t))
  {
    hide ApplyOperation, ApplyPathIntent, ApplyPathStaged, ApplyPrepared, Ascending, Descending;
    CountElements(t.commits);
    if t.commits != [] { assert t.commits[0] in Elements(t.commits); }
  }

  lemma LastRollback(limits: Limits, st: State, t: Tail)
    requires JustPrepared(st) && WellFormed(|st.paths|, t) && t.finish.None? && t.rollbacks != []
    ensures Step(limits, After(st, Shorter(t)), LastRecord(t)) == Ok(After(st, t))
  {
    hide ApplyOperation, ApplyPathIntent, ApplyPathStaged, ApplyPrepared, ApplyFinished, Ascending;
    Splits(t.rollbacks);
    assert t.rollbacks[0] in t.commits;
    var most := t.rollbacks[..|t.rollbacks| - 1];
    if most != [] { Splits(most); }
  }

  lemma LastCommit(limits: Limits, st: State, t: Tail)
    requires JustPrepared(st) && WellFormed(|st.paths|, t) && t.finish.None? && t.rollbacks == [] && t.commits != []
    ensures Step(limits, After(st, Shorter(t)), LastRecord(t)) == Ok(After(st, t))
  {
    hide ApplyOperation, ApplyPathIntent, ApplyPathStaged, ApplyPrepared, ApplyFinished, Descending;
    Splits(t.commits);
    var most := t.commits[..|t.commits| - 1];
    if most != [] { Splits(most); }
  }

  /** Replay of the last record of a tail leads from the shorter tail to the whole one. */
  lemma LastStep(limits: Limits, st: State, t: Tail)
    requires JustPrepared(st) && WellFormed(|st.paths|, t) && Nonempty(t)
    ensures Step(limits, After(st, Shorter(t)), LastRecord(t)) == Ok(After(st, t))
  {
    hide Step, After, Shorter, LastRecord, WellFormed;
    if t.finish.Some? {
      LastFinish(limits, st, t);
    } else if t.rollbacks != [] {
      LastRollback(limits, st, t);
    } else {
      LastCommit(limits, st, t);
    }
  }

  /** Every well-formed tail is accepted, and replay reads off exactly what it says. */
  lemma {:induction false} TailAccepted(limits: Limits, st: State, t: Tail)
    requires JustPrepared(st) && WellFormed(|st.paths|, t)
    ensures Run(limits, st, Render(t)) == Ok(After(st, t))
    decreases |t.commits| + |t.rollbacks|, if t.finish.Some? then 1 else 0, (if t.committed then 1 else 0) + (if t.undone then 1 else 0)
  {
    hide Step, LastRecord, WellFormed, After;
    if Nonempty(t) {
      RenderShorter(|st.paths|, t);
      TailAccepted(limits, st, Shorter(t));
      RunAppend(limits, st, Render(Shorter(t)), LastRecord(t));
      LastStep(limits, st, t);
    } else {
      EmptyTail(st, t);
    }
  }

  lemma EmptyTail(st: State, t: Tail)
    requires JustPrepared(st) && WellFormed(|st.paths|, t) && !Nonempty(t)
    ensures After(st, t) == st && t == Tail([], true, [], true, None) && Render(t) == []
  {
    assert Elements([]) == {};
  }

  // The converse

  lemma Grows(s: seq<nat>, x: nat)
    ensures (s + [x])[..|s|] == s && (s + [x])[|s|] == x && Elements(s + [x]) == Elements(s) + {x}
    ensures Ascending(s) && (s == [] || s[|s| - 1] < x) ==> Ascending(s + [x])
    ensures Descending(s) && (s == [] || s[|s| - 1] > x) ==> Descending(s + [x])
  {
    if s != [] { Splits(s); }
    Splits(s + [x]);
  }

  lemma LastElement(s: seq<nat>)
    requires s != []
    ensures s[|s| - 1] in Elements(s)
  {
  }

  lemma NextCommitIntent(limits: Limits, st: State, t: Tail, c: nat) returns (u: Tail)
    requires JustPrepared(st) && WellFormed(|st.paths|, t) && ApplyCommitIntent(After(st, t), c).Ok?
    ensures WellFormed(|st.paths|, u) && Nonempty(u) && Shorter(u) == t && LastRecord(u) == CommitIntent(c)
  {
    hide Ascending, Descending, Elements;
    Grows(t.commits, c);
    GrownMembers(t.commits, c);
    if t.commits != [] {
      LastDone(t.commits, t.committed);
    }
    u := t.(commits := t.commits + [c], committed := false);
  }

  lemma GrownMembers(s: seq<nat>, x: nat)
    ensures forall y | y in s + [x] :: y in s || y == x
  {
  }

  /** The last index is completed only if all are. */
  lemma {:induction false} LastDone(s: seq<nat>, all: bool)
    requires s != [] && (Ascending(s) || Descending(s))
    ensures s[|s| - 1] in Completed(s, all) <==> all
  {
    Splits(s);
  }

  lemma NextCommitDone(limits: Limits, st: State, t: Tail, c: nat) returns (u: Tail)
    requires JustPrepared(st) && WellFormed(|st.paths|, t) && ApplyCommitDone(After(st, t), c).Ok?
    ensures WellFormed(|st.paths|, u) && Nonempty(u) && Shorter(u) == t && LastRecord(u) == CommitDone(c)
  {
    hide Ascending, Descending, Elements, Completed;
    LastDone(t.commits, t.committed);
    u := t.(committed := true);
  }

  lemma Member(s: seq<nat>, x: nat)
    ensures x in Elements(s) <==> x in s
  {
  }

  lemma NextRollbackIntent(limits: Limits, st: State, t: Tail, r: nat) returns (u: Tail)
    requires JustPrepared(st) && WellFormed(|st.paths|, t) && ApplyRollbackIntent(After(st, t), r).Ok?
    ensures WellFormed(|st.paths|, u) && Nonempty(u) && Shorter(u) == t && LastRecord(u) == RollbackIntent(r)
  {
    hide Ascending, Descending, Completed, Elements;
    Member(t.commits, r);
    Grows(t.rollbacks, r);
    GrownMembers(t.rollbacks, r);
    if t.rollbacks != [] {
      LastDone(t.rollbacks, t.undone);
    }
    u := t.(rollbacks := t.rollbacks + [r], undone := false);
  }

  lemma NextRollbackDone(limits: Limits, st: State, t: Tail, r: nat) returns (u: Tail)
    requires JustPrepared(st) && WellFormed(|st.paths|, t) && ApplyRollbackDone(After(st, t), r).Ok?
    ensures WellFormed(|st.paths|, u) && Nonempty(u) && Shorter(u) == t && LastRecord(u) == RollbackDone(r)
  {
    hide Ascending, Descending, Elements, Completed;
    LastDone(t.rollbacks, t.undone);
    u := t.(undone := true);
  }

  /** All paths are committed exactly when every index has its completed intent. */
  lemma CommittedCount(s: seq<nat>, all: bool)
    requires Ascending(s) && Elements(s) == Completed(s, all)
    ensures s == [] || all
    ensures |Completed(s, all)| == |s|
  {
    CountElements(s);
    if s != [] {
      LastElement(s);
      LastDone(s, all);
    }
  }

  lemma NextFinish(limits: Limits, st: State, t: Tail, outcome: FinishOutcome) returns (u: Tail)
    requires JustPrepared(st) && WellFormed(|st.paths|, t) && After(st, t).phase != InFinished && ApplyFinished(After(st, t), outcome).Ok?
    ensures WellFormed(|st.paths|, u) && Nonempty(u) && Shorter(u) == t && LastRecord(u) == Finished(outcome)
  {
    hide Ascending, Descending, Elements, Completed;
    u := t.(finish := Some(outcome));
    if outcome == Committed { CommittedCount(t.commits, t.committed); }
    EmptyElements(t.commits);
  }

  lemma EmptyElements(s: seq<nat>)
    ensures Elements(s) == {} <==> s == []
  {
    if s != [] { LastElement(s); }
  }

  lemma NextRecord(limits: Limits, st: State, t: Tail, r: Record) returns (u: Tail)
    requires JustPrepared(st) && WellFormed(|st.paths|, t) && Step(limits, After(st, t), r).Ok?
    ensures WellFormed(|st.paths|, u) && Nonempty(u) && Shorter(u) == t && LastRecord(u) == r
  {
    hide WellFormed, ApplyCommitDone, ApplyCommitIntent, ApplyRollbackDone, ApplyRollbackIntent, ApplyFinished,
         Elements;
    match r {
      case CommitIntent(index) => u := NextCommitIntent(limits, st, t, index);
      case CommitDone(index) => u := NextCommitDone(limits, st, t, index);
      case RollbackIntent(index) => u := NextRollbackIntent(limits, st, t, index);
      case RollbackDone(index) => u := NextRollbackDone(limits, st, t, index);
      case Finished(outcome) => u := NextFinish(limits, st, t, outcome);
      case _ => assert false;
    }
  }

  /** Every accepted record sequence is the rendering of a well-formed tail. */
  lemma {:induction false} TailRecognized(limits: Limits, st: State, records: seq<Record>) returns (t: Tail)
    requires JustPrepared(st) && Run(limits, st, records).Ok?
    ensures WellFormed(|st.paths|, t) && records == Render(t)
  {
    hide Step, WellFormed, Shorter, LastRecord, After;
    if |records| == 0 {
      t := Tail([], true, [], true, None);
      EmptyWell(|st.paths|);
    } else {
      var most := records[..|records| - 1];
      var shorter := TailRecognized(limits, st, most);
      TailAccepted(limits, st, shorter);
      t := NextRecord(limits, st, shorter, records[|records| - 1]);
      RenderShorter(|st.paths|, t);
      assert records == most + [records[|records| - 1]];
    }
  }

  lemma EmptyWell(n: nat)
    ensures WellFormed(n, Tail([], true, [], true, None)) && Render(Tail([], true, [], true, None)) == []
  {
  }

  /** Replay accepts exactly the renderings of well-formed tails. */
  lemma AcceptedIffWellFormed(limits: Limits, st: State, records: seq<Record>)
    requires JustPrepared(st)
    ensures Run(limits, st, records).Ok? <==> exists t :: WellFormed(|st.paths|, t) && Render(t) == records
  {
    if Run(limits, st, records).Ok? {
      var t := TailRecognized(limits, st, records);
    }
    forall t | WellFormed(|st.paths|, t) && Render(t) == records
      ensures Run(limits, st, records).Ok?
    {
      TailAccepted(limits, st, t);
    }
  }

  // Whole journals

  /** Before `Prepared`, no transaction record has been accepted. */
  predicate NoTail(st: State) {
    && st.commitIntents == {} && st.committed == {} && st.rollbackIntents == {} && st.rolledBack == {}
    && st.lastCommitIntent.None? && st.lastRollbackIntent.None?
    && ((st.phase in {InOperations, InPaths, InStaged} && st.finished.None?) || st.phase == InFinished)
  }

  lemma NoTailStep(limits: Limits, st: State, r: Record, next: State)
    requires !st.prepared && NoTail(st) && Step(limits, st, r) == Ok(next)
    ensures if next.prepared then r.Prepared? && JustPrepared(next) else NoTail(next)
  {
  }

  lemma {:induction false} NoTailRun(limits: Limits, records: seq<Record>, st: State)
    requires Parse(limits, records) == Ok(st) && !st.prepared
    ensures NoTail(st)
    decreases |records|
  {
    if |records| > 1 {
      var most := records[..|records| - 1];
      assert records == most + [records[|records| - 1]];
      ParseAppend(limits, most, records[|records| - 1]);
      var before := Parse(limits, most).value;
      if before.prepared {
        PreparedStays(limits, before, records[|records| - 1], st);
      } else {
        NoTailRun(limits, most, before);
        NoTailStep(limits, before, records[|records| - 1], st);
      }
    }
  }

  lemma PreparedStays(limits: Limits, st: State, r: Record, next: State)
    requires st.prepared && Step(limits, st, r) == Ok(next)
    ensures next.prepared
  {
    hide ValidOperation, ExpectedAs, CoversExpected;
  }

  /** Every accepted prepared journal is a preparation followed by a well-formed tail, and
      its replayed state is the one the tail stands for. */
  lemma {:induction false} PreparedJournal(limits: Limits, records: seq<Record>, st: State)
    returns (n: nat, start: State, t: Tail)
    requires Parse(limits, records) == Ok(st) && st.prepared
    ensures 0 < n <= |records| && Parse(limits, records[..n]) == Ok(start) && JustPrepared(start)
    ensures WellFormed(|start.paths|, t) && records[n..] == Render(t) && st == After(start, t)
    decreases |records|
  {
    hide WellFormed, After, Shorter, LastRecord, Step, NoTail, JustPrepared;
    var r := records[|records| - 1];
    if |records| == 1 {
      StartUnprepared(limits, records);
    }
    var most := records[..|records| - 1];
    assert records == most + [r];
    ParseAppend(limits, most, r);
    var before := Parse(limits, most).value;
    if before.prepared {
      var shorter;
      n, start, shorter := PreparedJournal(limits, most, before);
      t := NextRecord(limits, start, shorter, r);
      RenderShorter(|start.paths|, t);
      LastStep(limits, start, t);
      assert records[..n] == most[..n] && records[n..] == most[n..] + [r];
    } else {
      NoTailRun(limits, most, before);
      NoTailStep(limits, before, r, st);
      n, start, t := |records|, st, Tail([], true, [], true, None);
      EmptyWell(|st.paths|);
      EmptyTail(st, t);
      assert records[..n] == records;
    }
  }

  lemma StartUnprepared(limits: Limits, records: seq<Record>)
    requires |records| == 1 && Parse(limits, records).Ok?
    ensures !Parse(limits, records).value.prepared
  {
  }
}
