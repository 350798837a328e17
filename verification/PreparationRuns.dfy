/** A preparation that does not succeed, and the recoveries that follow it. */
module PreparationRuns {
  import opened Outcomes
  import opened Filesystem
  import opened Records
  import opened Replay
  import opened Disks
  import opened Protocol
  import opened Cleanups
  import opened Rollbacks
  import opened Transactions
  import opened Resolutions
  import opened Recovery
  import opened Runs
  import opened Projections
  import opened Preparing
  import opened Preparation

  /** Every slot shows its input, or is absent as it was, and would after a power loss. */
  ghost predicate Unapplied(plan: Projection, w: World) {
    forall i, e | 0 <= i < |plan.paths| && May(w, i, e) :: Content(w.volume, e) == plan.paths[i].source
  }

  lemma PreparesUnapplied(plan: Projection, w: World)
    requires Prepares(plan, w)
    ensures Unapplied(plan, w)
  {
    forall i, e | 0 <= i < |plan.paths| && May(w, i, e) ensures Content(w.volume, e) == plan.paths[i].source {
      assert Projected(w.volume, plan.paths[i]) && Preparable(w.volume, plan.paths[i], e);
    }
  }

  /** The paths of `t` have the inputs the plan was projected from. */
  ghost predicate SameInputs(plan: Projection, t: Transaction) {
    && |t.paths| == |plan.paths|
    && forall i | 0 <= i < |t.paths| :: t.paths[i].before == plan.paths[i].before
         && (plan.paths[i].before.Present? <==> plan.paths[i].source.Some?)
         && (plan.paths[i].before.Present? ==> var e := plan.paths[i].before.evidence; var f := plan.paths[i].source.value;
              e.sha256 == Sha256(f.bytes) && e.permissions == f.permissions)
  }

  lemma ResolvedUnapplied(plan: Projection, t: Transaction, w: World, keep: bool)
    requires Resolved(t, w, false, keep) && SameInputs(plan, t)
    ensures Unapplied(plan, w)
  {
    ResolvedTree(t, w, false, keep);
    forall i, e | 0 <= i < |plan.paths| && May(w, i, e) ensures Content(w.volume, e) == plan.paths[i].source {
      assert Content(w.volume, e) == BeforeContent(w.volume, t.paths[i]);
      assert StagedWell(w.volume, t.paths[i]);
    }
  }

  lemma BeforeUnapplied(plan: Projection, t: Transaction, w: World)
    requires Staged(t, w) && AllBefore(t, w) && SameInputs(plan, t)
    ensures Unapplied(plan, w)
  {
    forall i, e | 0 <= i < |plan.paths| && May(w, i, e) ensures Content(w.volume, e) == plan.paths[i].source {
      assert Content(w.volume, e) == BeforeContent(w.volume, t.paths[i]);
      assert StagedWell(w.volume, t.paths[i]);
    }
  }

  /** What an unsuccessful preparation leaves for recovery, a leaked staging job included: `t` is the
      transaction in case its preparation was recorded after all. */
  ghost predicate Unprepared(limits: Limits, plan: Projection, id: TransactionId, t: Transaction, w: World, st: State) {
    Leftover(limits, plan, id, w, st) || (SameInputs(plan, t) && t.limits == limits && Sound(t, w, st, false) && !IsCommitted(st))
  }

  /** One recovery, in a new process or in the same boot: it either completes, every slot showing its
      input and the journal gone, or leaves the next one as good a start. */
  method RecoverUnprepared(d: Disk, limits: Limits, plan: Projection, id: TransactionId, ghost t: Transaction, ghost st: State)
    returns (o: Outcome, ghost next: State)
    requires Unprepared(limits, plan, id, t, d.W(), st)
    modifies d
    ensures d.Valid()
    ensures if o.Done? then Unapplied(plan, d.W()) && !d.control.operation else Unprepared(limits, plan, id, t, d.W(), next) && d.faults < old(d.faults)
    ensures o.Crashed? ==> AfterCrash(d.W())
    ensures d.faults <= old(d.faults)
  {
    hide Leftover, Vacant, Sound, Resolved, Discarding, Discarded, Discardable, Contained, Accepts, Interrupted,
         FinishedAs, Concluded, Unapplied, SameInputs, ControlWithin, PreparingAt, Rebooted;
    ghost var w := d.W();
    UnpreparedOpens(limits, plan, id, t, w, st);
    o, next := Recover(d, limits, t, st, false);
    if Leftover(limits, plan, id, w, st) {
      next := PreparationRecovered(limits, plan, id, w, d.W(), st, o);
      LeftoverUnapplied(limits, plan, id, d.W(), next);
    } else if o.Done? {
      ResolvedUnapplied(plan, t, d.W(), false);
      ResolvedGone(t, d.W(), false);
    }
  }

  lemma LeftoverUnapplied(limits: Limits, plan: Projection, id: TransactionId, w: World, st: State)
    requires Leftover(limits, plan, id, w, st)
    ensures Unapplied(plan, w)
  {
    PreparesUnapplied(plan, w);
  }

  lemma ResolvedGone(t: Transaction, w: World, keep: bool)
    requires Resolved(t, w, false, keep)
    ensures !w.control.operation
  {
  }

  lemma UnpreparedOpens(limits: Limits, plan: Projection, id: TransactionId, t: Transaction, w: World, st: State)
    requires Unprepared(limits, plan, id, t, w, st)
    ensures w.Valid() && Opens(limits, w)
    ensures Leftover(limits, plan, id, w, st) && w.records != [] ==>
              Parse(limits, w.records) == Ok(st) && Discards(st) && |st.paths| <= |w.live| && Discardable(st, w)
    ensures !Leftover(limits, plan, id, w, st) ==>
              t.limits == limits && SameInputs(plan, t) && Sound(t, w, st, false) && !IsCommitted(st) && (Interrupted(t, w, st) || FinishedAs(t, w, st, false))
  {
    if Leftover(limits, plan, id, w, st) {
      LeftoverOpens(limits, plan, id, w, st);
      if w.records != [] { LeftoverDiscardable(limits, plan, id, w, st); }
    } else {
      SoundEither(t, w, st, false);
      SoundOpens(t, w, st, false);
    }
  }

  lemma PreparedUnprepared(limits: Limits, plan: Projection, id: TransactionId, t: Transaction, w: World, st: State)
    requires Leftover(limits, plan, id, w, st) || (PreparedAt(t, w, st) && SameInputs(plan, t) && t.limits == limits)
    ensures Unprepared(limits, plan, id, t, w, st)
  {
  }

  lemma UnpreparedCrash(limits: Limits, plan: Projection, id: TransactionId, t: Transaction, w: World, x: World, st: State)
    requires Unprepared(limits, plan, id, t, w, st) && CrashOf(w, x)
    ensures Unprepared(limits, plan, id, t, x, st)
  {
    hide Leftover;
    CrashWithin(w, x);
    if Leftover(limits, plan, id, w, st) {
      LeftoverControl(limits, plan, id, w, x, st, {});
    } else if Unfinished(t, w, st) {
      UnfinishedCrash(t, w, x, st);
    } else {
      FinishedDiskCrash(t, w, x, IsCommitted(st), false);
      FinishedOn(t, w, x, st, false);
    }
  }

  lemma CrashWithin(w: World, x: World)
    requires CrashOf(w, x)
    ensures ControlWithin(w, x, {})
  {
    CrashShrinks(w, x);
  }

  /** The evidence of every input is that of the bytes and permissions read with it, and a
      staged path keeps it. */
  lemma StagedInputs(plan: Projection, v: Volume, t: Transaction)
    requires |t.paths| == |plan.paths| && forall i | 0 <= i < |t.paths| :: StagesAs(plan.paths[i], t.paths[i]) && Projected(v, plan.paths[i])
    ensures SameInputs(plan, t)
  {
  }

  /** After an unsuccessful preparation, a leak included, any number of process kills, power losses and
      recoveries, in the same boot or not, end with every slot showing its input and the journal gone. */
  method RecoverUnpreparedUntilDone(d: Disk, limits: Limits, plan: Projection, id: TransactionId, ghost t: Transaction, ghost st: State)
    requires Unprepared(limits, plan, id, t, d.W(), st)
    modifies d
    ensures d.Valid() && Unapplied(plan, d.W()) && !d.control.operation && d.faults <= old(d.faults)
  {
    hide Unprepared, Unapplied, CrashOf;
    ghost var now := st;
    var o := Crashed;
    UnpreparedOpens(limits, plan, id, t, d.W(), st);
    while o != Done
      invariant d.Valid() && d.faults <= old(d.faults)
      invariant if o == Done then Unapplied(plan, d.W()) && !d.control.operation else Unprepared(limits, plan, id, t, d.W(), now)
      decreases o != Done, d.faults
    {
      ghost var w := d.W();
      var crash: bool := *;
      if crash {
        d.Crash();
        UnpreparedCrash(limits, plan, id, t, w, d.W(), now);
      }
      o, now := RecoverUnprepared(d, limits, plan, id, t, now);
    }
  }
}
