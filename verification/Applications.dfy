/** A whole `apply_plan`: preparation, commit, and every crash and recovery that follows. */
module Applications {
  import opened Outcomes
  import opened Filesystem
  import opened Records
  import opened Replay
  import opened Disks
  import opened Protocol
  import opened Transactions
  import opened Recovery
  import opened Runs
  import opened Projections
  import opened Preparing
  import opened Preparation
  import opened PreparationRuns

  /** Every slot shows its projected output, and would after a power loss. */
  ghost predicate Applied(plan: Projection, w: World) {
    forall i, e | 0 <= i < |plan.paths| && May(w, i, e) :: Content(w.volume, e) == plan.paths[i].after
  }

  /** The paths of `t` have the outputs the plan was projected to. */
  ghost predicate SameOutputs(plan: Projection, t: Transaction) {
    |t.paths| == |plan.paths| && forall i | 0 <= i < |t.paths| :: StagesAs(plan.paths[i], t.paths[i])
  }

  lemma AfterOutput(v: Volume, p: ProjectedPath, s: StagedPath)
    requires StagesAs(p, s) && StagedWell(v, s)
    ensures AfterContent(v, s) == p.after
  {
  }

  lemma ResolvedApplied(plan: Projection, t: Transaction, w: World, keep: bool)
    requires Resolved(t, w, true, keep) && SameOutputs(plan, t)
    ensures Applied(plan, w)
  {
    hide Content, StagesAs, StagedWell;
    ResolvedTree(t, w, true, keep);
    forall i, e | 0 <= i < |plan.paths| && May(w, i, e)
      ensures Content(w.volume, e) == plan.paths[i].after
    {
      assert Content(w.volume, e) == AfterContent(w.volume, t.paths[i]);
      AfterOutput(w.volume, plan.paths[i], t.paths[i]);
    }
  }

  lemma VacantProjected(plan: Projection, w: World)
    requires Vacant(plan, w)
    ensures forall i | 0 <= i < |plan.paths| :: Projected(w.volume, plan.paths[i])
  {
  }

  /** Every slot shows its projected output or its input, and would after a power loss. */
  ghost predicate Mixed(plan: Projection, w: World) {
    forall i, e | 0 <= i < |plan.paths| && May(w, i, e) ::
      Content(w.volume, e) == plan.paths[i].source || Content(w.volume, e) == plan.paths[i].after
  }

  lemma OwnMixed(plan: Projection, t: Transaction, w: World)
    requires Staged(t, w) && EachOwn(t, w) && SameInputs(plan, t) && SameOutputs(plan, t)
    ensures Mixed(plan, w)
  {
    hide Content, StagesAs, StagedWell;
    forall i, e | 0 <= i < |plan.paths| && May(w, i, e)
      ensures Content(w.volume, e) == plan.paths[i].source || Content(w.volume, e) == plan.paths[i].after
    {
      AfterOutput(w.volume, plan.paths[i], t.paths[i]);
      BeforeInput(w.volume, plan, t, i);
    }
  }

  lemma BeforeInput(v: Volume, plan: Projection, t: Transaction, i: nat)
    requires SameInputs(plan, t) && i < |t.paths| && StagedWell(v, t.paths[i])
    ensures BeforeContent(v, t.paths[i]) == plan.paths[i].source
  {
  }

  /** How a run ends: with every slot decided, with artifacts of a staging job left behind, or with one
      of the two journals recovery rejects. */
  datatype ApplyEnding = Decided(committed: bool) | Leaked | Rejected(skipped: bool)

  /** Preparing and committing a plan, whatever fails, is killed or loses power on the way, and however
      often recovery is itself interrupted, ends with every slot showing its output or with every slot
      showing its input, and with no journal.  After a staging job that leaked only artifacts may be
      left besides.  There are two exceptions, journals that replay rejects: under one every slot shows
      its input, under the other, which takes three faults, its input or its output.  Without a fault
      the plan is applied. */
  method ApplyRun(d: Disk, limits: Limits, plan: Projection, id: TransactionId) returns (ghost ending: ApplyEnding)
    requires Vacant(plan, d.W()) && Coherent(limits, plan, id) && |plan.paths| > 0
    modifies d
    ensures ending == Decided(true) ==> Applied(plan, d.W()) && !d.control.operation
    ensures ending == Decided(false) ==> Unapplied(plan, d.W()) && !d.control.operation
    ensures ending == Leaked ==> Unapplied(plan, d.W()) && !d.control.operation && d.faults < old(d.faults)
    ensures ending.Rejected? ==> Parse(limits, d.records).Corrupt?
    ensures ending == Rejected(false) ==> Unapplied(plan, d.W())
    ensures ending == Rejected(true) ==> Mixed(plan, d.W()) && d.faults + 3 <= old(d.faults)
    ensures old(d.faults) == 0 ==> ending == Decided(true)
  {
    hide Vacant, Coherent, Ready, PreparingAt, PreparedAt, Leftover, Resolved, Unapplied, Applied, Unprepared, AllAfter, AllBefore,
         StagesAs, Projected, EachOwn, Staged, Mixed, SameInputs;
    VacantProjected(plan, d.W());
    ghost var v := d.volume;
    ghost var st;
    var o, staged, leaked;
    o, staged, st, leaked := Prepare(d, limits, plan, id);
    var t := Transaction(limits, id, staged);
    if o.Done? {
      StagedInputs(plan, v, t);
      ghost var committed, end;
      committed, end := CommitRun(d, t, st);
      ending := if end == Complete then Decided(committed) else Rejected(end == RejectedSkipped);
      CommitEnded(plan, t, d.W(), committed, end);
      return;
    }
    ghost var failed := d.W();
    if !leaked && !PreparingAt(limits, plan, id, failed, st) { StagedInputs(plan, v, t); }
    if PreparingAt(limits, plan, id, failed, st) { PreparingLeft(limits, plan, id, failed, st); }
    PreparedUnprepared(limits, plan, id, t, failed, st);
    RecoverUnpreparedUntilDone(d, limits, plan, id, t, st);
    ending := if leaked then Leaked else Decided(false);
  }

  lemma PreparingLeft(limits: Limits, plan: Projection, id: TransactionId, w: World, st: State)
    requires PreparingAt(limits, plan, id, w, st)
    ensures Leftover(limits, plan, id, w, st)
  {
  }

  lemma CommitEnded(plan: Projection, t: Transaction, w: World, committed: bool, end: Ending)
    requires SameInputs(plan, t) && SameOutputs(plan, t)
    requires end == Complete ==> Resolved(t, w, committed, false)
    requires end != Complete ==> Staged(t, w) && if end == RejectedBare then AllBefore(t, w) else EachOwn(t, w)
    ensures end == Complete ==> !w.control.operation && if committed then Applied(plan, w) else Unapplied(plan, w)
    ensures end == RejectedBare ==> Unapplied(plan, w)
    ensures end == RejectedSkipped ==> Mixed(plan, w)
  {
    if end == Complete {
      ResolvedCommitted(t, w, committed);
      if committed {
        ResolvedApplied(plan, t, w, false);
      } else {
        ResolvedUnapplied(plan, t, w, false);
      }
    } else if end == RejectedBare {
      BeforeUnapplied(plan, t, w);
    } else {
      OwnMixed(plan, t, w);
    }
  }

  lemma ResolvedCommitted(t: Transaction, w: World, committed: bool)
    requires Resolved(t, w, committed, false)
    ensures !w.control.operation
  {
  }
}
