/** A retained commit and its undo are inverse on bytes, permissions and absence. */
module RoundTrips {
  import opened Outcomes
  import opened Filesystem
  import opened Records
  import opened Replay
  import opened Disks
  import opened Slots
  import opened Protocol
  import opened Transactions
  import opened Retained
  import opened UndoStates
  import opened UndoRecovery
  import opened UndoRuns

  // A prepared journal's path count

  ghost predicate Counted(limits: Limits, st: State) {
    && 0 < st.pathTotal <= limits.maxFiles
    && (st.prepared ==> |st.paths| == st.pathTotal && st.phase !in {InOperations, InPaths, InStaged})
  }

  lemma CountedStep(limits: Limits, st: State, r: Record, next: State)
    requires Counted(limits, st) && Step(limits, st, r) == Ok(next)
    ensures Counted(limits, next)
  {
  }

  lemma {:induction false} CountedRun(limits: Limits, st: State, records: seq<Record>, next: State)
    requires Counted(limits, st) && Run(limits, st, records) == Ok(next)
    ensures Counted(limits, next)
    decreases |records|
  {
    hide Step, Counted;
    if records != [] {
      var before := Run(limits, st, records[..|records| - 1]).value;
      CountedRun(limits, st, records[..|records| - 1], before);
      CountedStep(limits, before, records[|records| - 1], next);
    }
  }

  lemma PreparedCount(t: Transaction, w: World, st: State)
    requires Unfinished(t, w, st)
    ensures 0 < |t.paths| <= t.limits.maxFiles && |w.live| == |t.paths|
  {
    var start := Start(t.limits, w.records[0]).value;
    CountedRun(t.limits, start, w.records[1..], st);
  }

  // What evidence says of the content

  /** The file a slot's exact evidence describes. */
  function Described(s: SlotEvidence): Option<File> {
    match s
    case Absent => None
    case Present(e) => Some(File(e.sha256.preimage, e.permissions))
  }

  lemma InitialDescribed(v: Volume, p: StagedPath)
    requires StagedWell(v, p)
    ensures BeforeContent(v, p) == Described(p.before)
  {
  }

  lemma BeforeDescribed(t: Transaction, w: World)
    requires Staged(t, w) && AllBefore(t, w) && |w.possible| == |t.paths|
    ensures forall i | 0 <= i < |t.paths| :: Content(w.volume, w.live[i]) == Described(t.paths[i].before)
  {
    forall i | 0 <= i < |t.paths|
      ensures Content(w.volume, w.live[i]) == Described(t.paths[i].before)
    {
      assert StagedWell(w.volume, t.paths[i]) && May(w, i, w.live[i]);
      InitialDescribed(w.volume, t.paths[i]);
    }
  }

  lemma ReadyDescribed(t: Transaction, w: World, st: State)
    requires Ready(t, w, st)
    ensures |w.live| == |t.paths| && forall i | 0 <= i < |t.paths| :: Content(w.volume, w.live[i]) == Described(t.paths[i].before)
  {
    ReadyExact(t, w, st);
    forall i | 0 <= i < |t.paths|
      ensures Content(w.volume, w.live[i]) == Described(t.paths[i].before)
    {
      assert StagedWell(w.volume, t.paths[i]) && ExactAt(w.volume, w.live[i], t.paths[i]);
    }
  }

  lemma ConcludedRetains(t: Transaction, w: World)
    requires Concluded(t, w, true, true) && 0 < |t.paths| <= t.limits.maxFiles
    ensures Retains(t, w)
  {
    assert w.control in w.possibleControl;
  }

  /** A retained commit that succeeds, and later its undo, with any kills, power losses, failures and
      recoveries in between: if each recovery begins on a steady disk, as after every reboot, either the
      undo took hold and every slot has the bytes, permissions and absence it had before the commit, or
      every slot still has its committed output and the receipt stands. */
  method CommitThenUndo(d: Disk, t: Transaction, room: bool, transaction: TransactionId, reboots: bool, ghost st: State)
    returns (committed: bool, undone: bool, ghost steady: bool)
    requires Ready(t, d.W(), st) && !d.poisoned
    modifies d
    ensures (committed ==> |d.live| == |t.paths|) && (undone ==> committed) && (reboots ==> steady)
    ensures steady && undone ==> !d.control.receipt && AllBefore(t, d.W()) && |old(d.live)| == |t.paths|
    ensures steady && undone ==> forall i | 0 <= i < |t.paths| :: Content(d.volume, d.live[i]) == old(Content(d.volume, d.live[i]))
    ensures steady && committed && !undone ==> d.control.receipt && AllAfter(t, d.W())
    ensures reboots && committed && !undone ==> Retains(t, d.W())
    ensures old(d.faults) == 0 && room ==> undone && steady
  {
    hide Ready, Unfinished, Concluded, Undone, Retains, AllBefore, AllAfter, RetainedStopped, Content, Described, UndoResolved;
    ReadyUnfinished(t, d.W(), st);
    PreparedCount(t, d.W(), st);
    ReadyDescribed(t, d.W(), st);
    committed, undone, steady := false, false, true;
    ghost var next, orphan;
    var o;
    o, next, orphan := CommitRetained(d, t, room, st);
    if !o.Done? { return; }
    committed := true;
    ConcludedRetains(t, d.W());
    undone, steady := UndoRun(d, t, transaction, reboots);
    if steady {
      ResolvedStaged(t, d.W(), undone);
      if undone { BeforeDescribed(t, d.W()); }
    }
  }

  lemma ResolvedStaged(t: Transaction, w: World, undone: bool)
    requires UndoResolved(t, w, undone)
    ensures Staged(t, w) && |w.possible| == |t.paths| && w.control.receipt == !undone
  {
  }
}
