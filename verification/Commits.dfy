/** The forward protocol: revalidate, commit each slot in path order behind a durable
    intent, and route every failure. */
module Commits {
  import opened Outcomes
  import opened Filesystem
  import opened Records
  import opened Replay
  import opened Disks
  import opened Slots
  import opened Protocol
  import opened Probes
  import opened Journaling

  datatype MutationState = Unchanged | HasChanged | LinkedInstall | Ambiguous

  /** `mutate`: carries one staged path from its before to its after state. */
  method Mutate(d: Disk, t: Transaction, i: nat) returns (o: Outcome)
    requires Staged(t, d.W()) && i < |t.paths| && d.live[i] == Initial(t.paths[i])
    modifies d
    ensures d.Valid() && Within(old(d.W()), d.W(), i, InFlight(t.paths[i]))
    ensures o.Crashed? ==> AfterCrash(d.W())
    ensures !o.Crashed? ==> Local(old(d.W()), d.W(), i) && d.poisoned == old(d.poisoned)
    ensures o.Done? ==> d.live[i] == After(t.paths[i])
    ensures o.Failed? ==>
              o.recoveryRequired && (d.W() == old(d.W()) || (d.live[i] in InFlight(t.paths[i]) && d.live[i] != Initial(t.paths[i])))
    ensures if o.Done? then d.faults == old(d.faults) else d.faults < old(d.faults)
  {
    var p := t.paths[i];
    InitialProbes(d.volume, p);
    match (p.before, p.after)
    case (Absent, Present(_)) =>
      o := InstallAbsentFrom(d, i, Stage);
    case (Present(before), Absent) =>
      o := RemoveExact(d, i, before);
    case (Present(_), Present(_)) =>
      o := ReplaceFrom(d, i, Stage);
    case (Absent, Absent) =>
      assert false;
  }

  /** `classify`: what a failed mutation left behind. */
  method Classify(d: Disk, t: Transaction, i: nat) returns (state: MutationState)
    requires Staged(t, d.W()) && i < |t.paths|
    requires d.live[i] in InFlight(t.paths[i])
    modifies d`faults
    ensures d.faults <= old(d.faults)
    ensures state == HasChanged ==> d.live[i] == After(t.paths[i])
    ensures state == LinkedInstall ==> d.live[i] == CreateLinked(t.paths[i]) && t.paths[i].before.Absent?
    ensures state == Unchanged ==> d.live[i] == Initial(t.paths[i])
  {
    var p := t.paths[i];
    InitialProbes(d.volume, p);
    AfterProbes(d.volume, p);
    if p.before.Absent? {
      CreateLinkedProbes(d.volume, p);
    }
    if p.after.Present? {
      var same := d.ReadSameFile(i, Stage);
      if same == Found(true) {
        return LinkedInstall;
      } else if same == Unsafe {
        return Ambiguous;
      }
    }
    var after := d.VerifySlot(i, p.after);
    if after {
      return HasChanged;
    }
    var before := d.VerifySlot(i, p.before);
    state := if before then Unchanged else Ambiguous;
  }

  /** Path `i` has a durable commit intent, perhaps a durable completion, and no path has
      a rollback intent. */
  ghost predicate Intended(t: Transaction, w: World, st: State, i: nat) {
    && Unfinished(t, w, st) && i < |t.paths|
    && Resumable(st, |t.paths|) && st.lastRollbackIntent.None? && Started(st) == i + 1
  }

  /** Where a failed `commit_one` leaves the disk, by the reported mutation state. */
  ghost predicate StoppedAt(t: Transaction, w: World, st: State, i: nat, state: MutationState) {
    match state
    case Unchanged =>
      || (Unfinished(t, w, st) && Advancing(st, |t.paths|, i))
      || (Intended(t, w, st, i) && w.possible[i] == {Initial(t.paths[i])})
    case HasChanged => Intended(t, w, st, i) && w.live[i] == After(t.paths[i]) && w.possible[i] <= InFlight(t.paths[i])
    case LinkedInstall =>
      && Intended(t, w, st, i) && t.paths[i].before.Absent?
      && w.live[i] == CreateLinked(t.paths[i]) && w.possible[i] <= InFlight(t.paths[i])
    case Ambiguous => Intended(t, w, st, i)
  }

  /** The beginning of `commit_one`: revalidation and the durable intent. */
  method BeginCommit(d: Disk, t: Transaction, i: nat, ghost st: State) returns (o: Outcome, ghost next: State)
    requires Unfinished(t, d.W(), st) && Advancing(st, |t.paths|, i) && i < |t.paths|
    modifies d
    ensures d.Valid() && SameStore(old(d.W()), d.W())
    ensures o.Done? ==> Intended(t, d.W(), next, i) && i !in next.committed && d.possible[i] == {Initial(t.paths[i])}
    ensures o.Failed? ==> StoppedAt(t, d.W(), next, i, Unchanged)
    ensures o.Crashed? ==> Unfinished(t, d.W(), next) && Resumable(next, |t.paths|) && AfterCrash(d.W())
    ensures o.Done? ==> d.faults == old(d.faults) && d.poisoned == old(d.poisoned)
    ensures !o.Done? && !old(d.poisoned) ==> d.faults < old(d.faults)
    ensures d.faults <= old(d.faults)
  {
    hide Parse, Step, Allowed, Journaled;
    InitialProbes(d.volume, t.paths[i]);
    InitialOnly(t, d.W(), st, i);
    next := st;
    var intact := d.VerifySlot(i, t.paths[i].before);
    if !intact {
      return Failed(false), st;
    }
    NoteCommitIntent(t, d.W(), st, i);
    o, next := AppendRecord(d, t, CommitIntent(i), st, WithCommitIntent(st, i));
  }

  lemma InitialOnly(t: Transaction, w: World, st: State, i: nat)
    requires Unfinished(t, w, st) && i < |t.paths| && Advancing(st, |t.paths|, i)
    ensures w.possible[i] == {Initial(t.paths[i])} && w.live[i] == Initial(t.paths[i])
    ensures i !in st.committed
  {
    assert w.possible[i] <= Allowed(t.paths[i], st, i);
    assert i !in st.commitIntents;
    assert w.live[i] in w.possible[i];
  }

  /** The end of `commit_one`: the durable completion. */
  method EndCommit(d: Disk, t: Transaction, i: nat, ghost st: State) returns (o: Outcome, ghost next: State)
    requires Intended(t, d.W(), st, i) && i !in st.committed && d.possible[i] == {After(t.paths[i])}
    modifies d
    ensures d.Valid() && SameStore(old(d.W()), d.W())
    ensures o.Done? ==> Unfinished(t, d.W(), next) && Advancing(next, |t.paths|, i + 1)
    ensures o.Failed? ==> StoppedAt(t, d.W(), next, i, HasChanged)
    ensures o.Crashed? ==> Unfinished(t, d.W(), next) && Resumable(next, |t.paths|) && AfterCrash(d.W())
    ensures o.Done? ==> d.faults == old(d.faults) && d.poisoned == old(d.poisoned)
    ensures !o.Done? && !old(d.poisoned) ==> d.faults < old(d.faults)
    ensures d.faults <= old(d.faults)
  {
    assert d.W().live[i] in d.W().possible[i];
    NoteCommitDone(t, d.W(), st, i);
    o, next := AppendRecord(d, t, CommitDone(i), st, WithCommitDone(st, i));
  }

  /** The middle of `commit_one`: the mutation and its directory synchronization. */
  method CommitIntended(d: Disk, t: Transaction, i: nat, ghost st: State) returns (o: Outcome, state: MutationState)
    requires Intended(t, d.W(), st, i) && i !in st.committed && d.W().possible[i] == {Initial(t.paths[i])}
    modifies d
    ensures d.Valid() && Within(old(d.W()), d.W(), i, InFlight(t.paths[i]))
    ensures o.Done? ==> Intended(t, d.W(), st, i) && d.W().possible[i] == {After(t.paths[i])} && d.live[i] == After(t.paths[i])
    ensures o.Failed? ==> StoppedAt(t, d.W(), st, i, state)
    ensures o.Failed? && state == Ambiguous ==> o.recoveryRequired
    ensures o.Crashed? ==> Intended(t, d.W(), st, i) && AfterCrash(d.W())
    ensures if o.Done? then d.faults == old(d.faults) else d.faults < old(d.faults)
    ensures !o.Crashed? ==> d.poisoned == old(d.poisoned)
  {
    hide Parse, Step, Journaled, StagedWell;
    var p := t.paths[i];
    ghost var w := d.W();
    state := Unchanged;
    assert InFlight(p) <= Allowed(p, st, i);
    o := Mutate(d, t, i);
    UnfinishedWithin(t, w, d.W(), st, i, InFlight(p));
    if o.Crashed? { return; }
    if o.Failed? {
      state := Classify(d, t, i);
      o := Failed(state == Ambiguous);
      return;
    }
    ghost var x := d.W();
    o := d.SyncParent(i);
    if o.Crashed? {
      WithinCrash(w, x, d.W(), i, InFlight(p));
      UnfinishedCrash(t, x, d.W(), st);
      return;
    }
    if o.Failed? {
      state := Classify(d, t, i);
      return;
    }
    UnfinishedWithin(t, x, d.W(), st, i, {});
  }

  /** `commit_one`: revalidation, intent, mutation, directory synchronization, completion. */
  method CommitOne(d: Disk, t: Transaction, i: nat, ghost st: State)
    returns (o: Outcome, state: MutationState, ghost next: State)
    requires Unfinished(t, d.W(), st) && Advancing(st, |t.paths|, i) && i < |t.paths|
    modifies d
    ensures d.Valid() && SameStore(old(d.W()), d.W())
    ensures o.Done? ==> Unfinished(t, d.W(), next) && Advancing(next, |t.paths|, i + 1)
    ensures o.Failed? ==> StoppedAt(t, d.W(), next, i, state)
    ensures o.Failed? && state == Ambiguous ==> o.recoveryRequired
    ensures o.Crashed? ==> Unfinished(t, d.W(), next) && Resumable(next, |t.paths|) && AfterCrash(d.W())
    ensures o.Done? ==> d.faults == old(d.faults) && d.poisoned == old(d.poisoned)
    ensures !o.Done? && !old(d.poisoned) ==> d.faults < old(d.faults)
    ensures d.faults <= old(d.faults)
  {
    state := Unchanged;
    o, next := BeginCommit(d, t, i, st);
    if !o.Done? { return; }
    o, state := CommitIntended(d, t, i, next);
    if !o.Done? { return; }
    state := HasChanged;
    o, next := EndCommit(d, t, i, next);
  }
}
