/** `prepare_operation_plan`: journal, staging jobs, and the `Prepared` record. */
module Preparation {
  import opened Outcomes
  import opened Filesystem
  import opened Records
  import opened Replay
  import opened Disks
  import opened Slots
  import opened Protocol
  import opened Cleanups
  import opened Transactions
  import opened Projections
  import opened Preparing
  import opened Staging

  // The staging jobs

  /** What the result of a job says about its path. */
  predicate Resulted(v: Volume, p: ProjectedPath, possible: set<Entries>, r: JobResult) {
    match r
    case JobStaged(s) => possible == {Initial(s)} && StagedWell(v, s) && StagesAs(p, s)
    case JobFailed(recoveryRequired) => !recoveryRequired ==> possible == {BareEntries(p)}
    case JobPanicked => true
    case JobCancelled => possible == {BareEntries(p)}
  }

  predicate IsError(r: JobResult) {
    r.JobFailed? || r.JobPanicked?
  }

  /** Files were added and entries of the preparation changed; nothing else. */
  ghost predicate Builds(plan: Projection, w: World, x: World) {
    && Prepares(plan, x) && Grows(w.volume, x.volume) && x.possibleControl <= w.possibleControl
    && x == w.(volume := x.volume, live := x.live, possible := x.possible, control := x.control, possibleControl := x.possibleControl)
  }

  lemma BuildsTrans(plan: Projection, w: World, x: World, y: World)
    requires Builds(plan, w, x) && Builds(plan, x, y)
    ensures Builds(plan, w, y)
  {
  }

  lemma BuildingBuilds(plan: Projection, w: World, x: World, i: nat)
    requires Building(plan, w, x, i) && Prepares(plan, x)
    ensures Builds(plan, w, x)
  {
  }

  lemma ResultedGrows(v: Volume, x: Volume, p: ProjectedPath, possible: set<Entries>, r: JobResult)
    requires Resulted(v, p, possible, r) && Grows(v, x)
    ensures Resulted(x, p, possible, r)
  {
  }

  /** The results so far, and the paths no job has touched yet. */
  ghost predicate Results(plan: Projection, w: World, results: seq<JobResult>) {
    && |w.live| == |w.possible| == |plan.paths| && |results| <= |plan.paths|
    && (forall i | 0 <= i < |results| :: Resulted(w.volume, plan.paths[i], w.possible[i], results[i]))
    && (forall i | |results| <= i < |plan.paths| :: w.possible[i] == {BareEntries(plan.paths[i])})
    && (forall i | 0 <= i < |results| && results[i].JobCancelled? :: exists j | 0 <= j < i :: IsError(results[j]))
  }

  lemma ResultsNext(plan: Projection, w: World, x: World, results: seq<JobResult>, r: JobResult)
    requires Results(plan, w, results) && |results| < |plan.paths|
    requires OnlyPath(w, x, |results|) && Grows(w.volume, x.volume)
    requires Resulted(x.volume, plan.paths[|results|], x.possible[|results|], r)
    requires r.JobCancelled? ==> exists j | 0 <= j < |results| :: IsError(results[j])
    ensures Results(plan, x, results + [r])
  {
    hide Resulted;
    var more := results + [r];
    forall i | 0 <= i < |more| ensures Resulted(x.volume, plan.paths[i], x.possible[i], more[i]) {
      if i < |results| { ResultedGrows(w.volume, x.volume, plan.paths[i], w.possible[i], results[i]); }
    }
    forall i | 0 <= i < |more| && more[i].JobCancelled? ensures exists j | 0 <= j < i :: IsError(more[j]) {
      if i < |results| {
        var j :| 0 <= j < i && IsError(results[j]);
        assert IsError(more[j]);
      } else {
        var j :| 0 <= j < |results| && IsError(results[j]);
        assert IsError(more[j]);
      }
    }
  }

  /** The staging jobs.  Once one has failed the scheduler may cancel those not started. */
  method RunJobs(d: Disk, plan: Projection) returns (o: Outcome, results: seq<JobResult>)
    requires Prepares(plan, d.W()) && Results(plan, d.W(), [])
    modifies d
    ensures d.Valid() && Builds(plan, old(d.W()), d.W())
    ensures o.Done? || o.Crashed?
    ensures o.Done? ==> Results(plan, d.W(), results) && |results| == |plan.paths|
    ensures o.Done? ==> d.control == old(d.control) && d.poisoned == old(d.poisoned)
    ensures o.Crashed? ==> AfterCrash(d.W())
    ensures o.Crashed? || (exists i | 0 <= i < |results| :: !results[i].JobStaged?) ==> d.faults < old(d.faults)
    ensures o.Done? && (forall i | 0 <= i < |results| :: results[i].JobStaged?) ==> d.faults == old(d.faults)
    ensures d.faults <= old(d.faults)
  {
    hide Prepares, Results, Builds, Building, OnlyPath;
    ghost var w := d.W();
    results := [];
    var failed, cancelled := false, false;
    StartBuilds(plan, w);
    while |results| < |plan.paths|
      invariant |results| <= |plan.paths| && d.Valid() && Prepares(plan, d.W()) && Builds(plan, w, d.W()) && Results(plan, d.W(), results)
      invariant failed ==> exists j | 0 <= j < |results| :: IsError(results[j])
      invariant !failed ==> d.faults == old(d.faults) && forall j | 0 <= j < |results| :: results[j].JobStaged?
      invariant cancelled ==> failed
      invariant failed ==> d.faults < old(d.faults)
      invariant d.control == w.control && d.poisoned == old(d.poisoned)
    {
      var stop: bool := *;
      cancelled := failed && (cancelled || stop);
      ghost var x := d.W();
      if cancelled {
        SkipJob(plan, x, results);
        results := results + [JobCancelled];
      } else {
        var r;
        o, r := RunJob(d, plan, results);
        BuildsTrans(plan, w, x, d.W());
        if o.Crashed? { return; }
        ghost var done := results;
        results := results + [r];
        if IsError(r) {
          failed := true;
          assert IsError(results[|done|]);
        }
        ErrorsStay(done, r);
      }
    }
    o := Done;
  }

  lemma ErrorsStay(results: seq<JobResult>, r: JobResult)
    ensures (exists j | 0 <= j < |results| :: IsError(results[j])) ==> exists j | 0 <= j < |results + [r]| :: IsError((results + [r])[j])
  {
    if j :| 0 <= j < |results| && IsError(results[j]) {
      assert IsError((results + [r])[j]);
    }
  }

  lemma StartBuilds(plan: Projection, w: World)
    requires Prepares(plan, w)
    ensures Builds(plan, w, w) && w.Valid()
  {
  }

  lemma SkipJob(plan: Projection, w: World, results: seq<JobResult>)
    requires Prepares(plan, w) && Results(plan, w, results) && |results| < |plan.paths|
    requires exists j | 0 <= j < |results| :: IsError(results[j])
    ensures Results(plan, w, results + [JobCancelled])
    ensures exists j | 0 <= j < |results + [JobCancelled]| :: IsError((results + [JobCancelled])[j])
  {
    ResultsNext(plan, w, w, results, JobCancelled);
    ErrorsStay(results, JobCancelled);
  }

  /** The next job. */
  method RunJob(d: Disk, plan: Projection, results: seq<JobResult>) returns (o: Outcome, r: JobResult)
    requires Prepares(plan, d.W()) && Results(plan, d.W(), results) && |results| < |plan.paths|
    modifies d
    ensures d.Valid() && Builds(plan, old(d.W()), d.W()) && Prepares(plan, d.W())
    ensures o.Done? || o.Crashed?
    ensures o.Done? ==> Results(plan, d.W(), results + [r]) && (r.JobStaged? || IsError(r))
    ensures o.Done? ==> d.control == old(d.control) && d.poisoned == old(d.poisoned)
    ensures o.Crashed? ==> AfterCrash(d.W())
    ensures o.Crashed? || !r.JobStaged? ==> d.faults < old(d.faults)
    ensures o.Done? && r.JobStaged? ==> d.faults == old(d.faults)
  {
    hide Prepares, Builds, Building;
    ghost var w := d.W();
    o, r := StageOne(d, plan, |results|);
    BuildingBuilds(plan, w, d.W(), |results|);
    if o.Done? {
      BuildingGrows(plan, w, d.W(), |results|);
      ResultsNext(plan, w, d.W(), results, r);
    }
  }

  // `collect`

  /** The lowest failing index: the error every schedule reports. */
  function Primary(results: seq<JobResult>): (p: Option<nat>)
    ensures p.Some? ==> p.value < |results| && IsError(results[p.value]) && forall j | 0 <= j < p.value :: !IsError(results[j])
    ensures p.None? ==> forall j | 0 <= j < |results| :: !IsError(results[j])
  {
    if results == [] then None
    else
      var earlier := Primary(results[..|results| - 1]);
      if earlier.Some? then earlier else if IsError(results[|results| - 1]) then Some(|results| - 1) else None
  }

  /** An artifact outlives a failed preparation: a job panicked, or one whose error is not
      the one reported could not clean up after itself. */
  predicate Leaks(results: seq<JobResult>) {
    exists i | 0 <= i < |results| :: results[i].JobPanicked? || (results[i] == JobFailed(true) && Primary(results) != Some(i))
  }

  /** Exactly if a job panicked, or a later job than some failing one could not clean up. */
  lemma LeaksIff(results: seq<JobResult>)
    ensures Leaks(results) <==>
            || JobPanicked in results
            || exists j, i :: 0 <= j < i < |results| && results[i] == JobFailed(true) && (results[j].JobFailed? || results[j].JobPanicked?)
  {
    if i :| 0 <= i < |results| && results[i] == JobFailed(true) && Primary(results) != Some(i) {
      assert IsError(results[i]);
      assert Primary(results).value < i;
    }
    if j, i :| 0 <= j < i < |results| && results[i] == JobFailed(true) && (results[j].JobFailed? || results[j].JobPanicked?) {
      assert IsError(results[j]);
      assert Primary(results) != Some(i);
    }
    if JobPanicked in results {
      var i :| 0 <= i < |results| && results[i] == JobPanicked;
      assert results[i].JobPanicked?;
    }
  }

  lemma AllStaged(plan: Projection, w: World, results: seq<JobResult>)
    requires Results(plan, w, results) && Primary(results).None?
    ensures forall i | 0 <= i < |results| :: results[i].JobStaged?
  {
    forall i | 0 <= i < |results| ensures results[i].JobStaged? {
      assert !IsError(results[i]);
    }
  }

  /** Every path a finished job left bare, or that is to be cleaned up after `from`. */
  ghost predicate Tidied(plan: Projection, w: World, results: seq<JobResult>, from: nat) {
    && |w.live| == |w.possible| == |plan.paths| == |results|
    && (forall i | 0 <= i < from && i < |results| && results[i].JobStaged? :: w.possible[i] == {BareEntries(plan.paths[i])})
    && (forall i | 0 <= i < |results| && (results[i] == JobFailed(false) || results[i].JobCancelled?) :: w.possible[i] == {BareEntries(plan.paths[i])})
    && (forall i | from <= i < |results| && results[i].JobStaged? :: w.possible[i] == {w.live[i]})
  }

  lemma ResultsTidied(plan: Projection, w: World, results: seq<JobResult>)
    requires Results(plan, w, results) && |results| == |plan.paths| && w.Valid()
    ensures Tidied(plan, w, results, 0)
  {
    forall i | 0 <= i < |results| && results[i].JobStaged? ensures w.possible[i] == {w.live[i]} {
      assert Resulted(w.volume, plan.paths[i], w.possible[i], results[i]) && w.live[i] in w.possible[i];
    }
    forall i | 0 <= i < |results| && (results[i] == JobFailed(false) || results[i].JobCancelled?)
      ensures w.possible[i] == {BareEntries(plan.paths[i])}
    {
      assert Resulted(w.volume, plan.paths[i], w.possible[i], results[i]);
    }
  }

  lemma TidiedBare(plan: Projection, w: World, results: seq<JobResult>)
    requires Tidied(plan, w, results, |results|) && !Leaks(results)
    requires Primary(results).Some? ==> results[Primary(results).value] != JobFailed(true)
    ensures AllBare(plan, w)
  {
    forall i | 0 <= i < |results| ensures w.possible[i] <= {BareEntries(plan.paths[i])} {
      assert results[i] == JobFailed(true) ==> Primary(results) != Some(i);
    }
  }

  lemma CleanedJob(plan: Projection, w: World, x: World, results: seq<JobResult>, i: nat)
    requires Tidied(plan, w, results, i) && i < |results| && OnlyPath(w, x, i)
    requires results[i].JobStaged? ==> x.possible[i] == {BareEntries(plan.paths[i])}
    requires !results[i].JobStaged? ==> x.possible == w.possible && x.live == w.live
    ensures Tidied(plan, x, results, i + 1)
  {
  }

  /** `cleanup` of the staged paths when another job failed. */
  method CleanupStaged(d: Disk, plan: Projection, results: seq<JobResult>) returns (o: Outcome)
    requires Prepares(plan, d.W()) && Results(plan, d.W(), results) && |results| == |plan.paths|
    modifies d
    ensures d.Valid() && Builds(plan, old(d.W()), d.W())
    ensures o.Done? ==> Tidied(plan, d.W(), results, |results|) && d.control == old(d.control)
    ensures o.Failed? ==> o.recoveryRequired && d.control == old(d.control)
    ensures !o.Crashed? ==> d.poisoned == old(d.poisoned)
    ensures o.Crashed? ==> AfterCrash(d.W())
    ensures d.faults <= old(d.faults)
  {
    hide Prepares, Results, Builds, Building, OnlyPath, Tidied, Preparable, Projected;
    ghost var w := d.W();
    StartBuilds(plan, w);
    ResultsTidied(plan, w, results);
    var i := 0;
    while i < |results|
      invariant 0 <= i <= |results| && d.Valid() && Prepares(plan, d.W()) && Builds(plan, w, d.W()) && Tidied(plan, d.W(), results, i)
      invariant d.control == w.control && d.poisoned == old(d.poisoned) && d.faults <= old(d.faults)
    {
      ghost var x := d.W();
      if results[i].JobStaged? {
        PreparesEntry(plan, x, i);
        TidiedEntry(plan, x, results, i);
        var r;
        o, r := CleanupJob(d, plan, i);
        BuildingBuilds(plan, x, d.W(), i);
        BuildsTrans(plan, w, x, d.W());
        if o.Crashed? { return; }
        OnlyControl(x, d.W(), i);
        if r.recoveryRequired { return Failed(true); }
      } else {
        OnlySame(x, i);
      }
      CleanedJob(plan, x, d.W(), results, i);
      i := i + 1;
    }
    o := Done;
  }

  lemma OnlyControl(w: World, x: World, i: nat)
    requires OnlyPath(w, x, i)
    ensures x.control == w.control
  {
  }

  lemma OnlySame(w: World, i: nat)
    ensures OnlyPath(w, w, i)
  {
  }

  lemma TidiedEntry(plan: Projection, w: World, results: seq<JobResult>, i: nat)
    requires Tidied(plan, w, results, i) && i < |results| && results[i].JobStaged?
    ensures i < |plan.paths| == |w.possible| && w.possible[i] == {w.live[i]}
  {
  }

  /** `collect`: all staged paths, or the primary error after cleaning up the staged ones. */
  method Collect(d: Disk, plan: Projection, results: seq<JobResult>) returns (o: Outcome, paths: seq<StagedPath>)
    requires Prepares(plan, d.W()) && Results(plan, d.W(), results) && |results| == |plan.paths|
    modifies d
    ensures d.Valid() && Builds(plan, old(d.W()), d.W())
    ensures o.Done? ==> d.W() == old(d.W()) && d.faults == old(d.faults) && |paths| == |results|
    ensures o.Done? ==> forall i | 0 <= i < |results| :: results[i] == JobStaged(paths[i])
    ensures !o.Done? ==> exists i | 0 <= i < |results| :: !results[i].JobStaged?
    ensures o == Failed(false) && !Leaks(results) ==> AllBare(plan, d.W())
    ensures o.Failed? ==> d.control == old(d.control)
    ensures !o.Crashed? ==> d.poisoned == old(d.poisoned)
    ensures o.Crashed? ==> AfterCrash(d.W())
    ensures d.faults <= old(d.faults)
  {
    hide Prepares, Results, Builds, Tidied, AllBare;
    paths := [];
    StartBuilds(plan, d.W());
    var primary := Primary(results);
    if primary.Some? {
      o := CleanupStaged(d, plan, results);
      if o.Done? {
        var recoveryRequired := results[primary.value] == JobFailed(true);
        o := Failed(recoveryRequired);
        if !recoveryRequired && !Leaks(results) { TidiedBare(plan, d.W(), results); }
      }
      return;
    }
    AllStaged(plan, d.W(), results);
    var i := 0;
    while i < |results|
      invariant 0 <= i <= |results| == |results| && |paths| == i
      invariant forall j | 0 <= j < i :: results[j] == JobStaged(paths[j])
    {
      paths := paths + [results[i].path];
      i := i + 1;
    }
    o := Done;
  }

  // The journal

  /** A journal whose replay has recorded intents at most, over a disk without artifacts. */
  lemma BarePreparing(limits: Limits, plan: Projection, id: TransactionId, w: World, st: State)
    requires PlanWorld(plan, w) && AllBare(plan, w)
    requires w.records != [] ==>
               Parse(limits, w.records) == Ok(st) && Unstaged(st, plan, id) && st.phase in {InOperations, InPaths}
    requires w.records != [] ==>
               |st.paths| <= |plan.paths| && forall i | 0 <= i < |st.paths| :: st.paths[i] == IntendedPath(plan.paths[i], id, i)
    ensures PreparingAt(limits, plan, id, w, st)
  {
    forall i, e | 0 <= i < |plan.paths| && May(w, i, e) ensures Preparable(w.volume, plan.paths[i], e) {
      assert w.possible[i] <= {BareEntries(plan.paths[i])};
    }
  }

  /** A preparation under way with its journal in place. */
  ghost predicate Open(limits: Limits, plan: Projection, id: TransactionId, w: World, st: State) {
    PreparingAt(limits, plan, id, w, st) && forall k | k in w.possibleControl :: k.operation
  }

  method AppendOpen(d: Disk, limits: Limits, plan: Projection, id: TransactionId, r: Record, ghost st: State, ghost next: State)
    returns (o: Outcome, ghost now: State)
    requires Open(limits, plan, id, d.W(), st) && PreparingAt(limits, plan, id, d.W().(records := d.records + [r]), next)
    modifies d
    ensures d.Valid() && Open(limits, plan, id, d.W(), now)
    ensures o.Done? ==> now == next && d.W() == old(d.W()).(records := old(d.records) + [r])
    ensures o.Failed? ==>
              (now == st && d.W() == old(d.W())) || (now == next && d.W() == old(d.W()).(records := old(d.records) + [r]))
    ensures o.Failed? ==> o.recoveryRequired
    ensures o.Done? ==> d.faults == old(d.faults) && d.poisoned == old(d.poisoned)
    ensures !o.Done? && !old(d.poisoned) ==> d.faults < old(d.faults)
    ensures o.Crashed? ==> AfterCrash(d.W())
    ensures d.faults <= old(d.faults)
  {
    hide PreparingAt, Leftover;
    ghost var w := d.W();
    ghost var written := w.(records := w.records + [r]);
    OpenAt(limits, plan, id, w, st);
    LeftoverOpens(limits, plan, id, w, st);
    o := d.Append(r);
    now := if d.records == w.records then st else next;
    if o.Crashed? {
      if CrashOf(w, d.W()) {
        CrashShrinks(w, d.W());
        PreparingControl(limits, plan, id, w, d.W(), st, {});
      } else {
        CrashShrinks(written, d.W());
        PreparingControl(limits, plan, id, written, d.W(), next, {});
      }
    }
  }

  lemma OperationsOpen(limits: Limits, plan: Projection, id: TransactionId, w: World, n: nat) returns (st: State)
    requires PlanWorld(plan, w) && AllBare(plan, w) && Coherent(limits, plan, id) && n <= |plan.operations|
    ensures PreparingAt(limits, plan, id, w.(records := OperationsTo(plan, id, n)), st) && st.finished.None?
  {
    OperationsReplay(limits, plan, id, n);
    st := Parse(limits, OperationsTo(plan, id, n)).value;
    BarePreparing(limits, plan, id, w.(records := OperationsTo(plan, id, n)), st);
  }

  lemma IntentsOpen(limits: Limits, plan: Projection, id: TransactionId, w: World, n: nat) returns (st: State)
    requires PlanWorld(plan, w) && AllBare(plan, w) && Coherent(limits, plan, id) && n <= |plan.paths|
    ensures PreparingAt(limits, plan, id, w.(records := IntentsTo(plan, id, n)), st)
    ensures st.finished.None?
    ensures n == |plan.paths| ==> |st.paths| == n && forall i | 0 <= i < n :: !st.paths[i].staged
    ensures Parse(limits, IntentsTo(plan, id, n)) == Ok(st)
  {
    st := IntentsReplay(limits, plan, id, n);
    BarePreparing(limits, plan, id, w.(records := IntentsTo(plan, id, n)), st);
  }

  /** Nothing but the journal has been written yet. */
  ghost predicate Planned(limits: Limits, plan: Projection, id: TransactionId, w: World) {
    && PlanWorld(plan, w) && AllBare(plan, w) && Coherent(limits, plan, id)
    && forall k | k in w.possibleControl :: k.operation
  }

  lemma PlannedStays(limits: Limits, plan: Projection, id: TransactionId, w: World, x: World)
    requires Planned(limits, plan, id, w) && x == w.(records := x.records)
    ensures Planned(limits, plan, id, x)
  {
  }

  /** `append_operations`, after the header. */
  method AppendOperations(d: Disk, limits: Limits, plan: Projection, id: TransactionId)
    returns (o: Outcome, ghost st: State)
    requires Planned(limits, plan, id, d.W()) && d.records == OperationsTo(plan, id, 0)
    modifies d
    ensures d.Valid() && (o.Done? || Open(limits, plan, id, d.W(), st))
    ensures !o.Crashed? ==> Planned(limits, plan, id, d.W()) && d.records != [] && (o.Failed? ==> st.finished.None?)
    ensures o.Done? ==> d.records == IntentsTo(plan, id, 0) && d.faults == old(d.faults) && d.poisoned == old(d.poisoned)
    ensures !o.Done? && !old(d.poisoned) ==> d.faults < old(d.faults)
    ensures o.Crashed? ==> AfterCrash(d.W())
    ensures d.faults <= old(d.faults)
  {
    hide PreparingAt, Leftover, Coherent, PlanWorld, AllBare;
    st := OperationsOpen(limits, plan, id, d.W(), 0);
    PlannedValid(limits, plan, id, d.W());
    var i := 0;
    while i < |plan.operations|
      invariant 0 <= i <= |plan.operations| && d.Valid()
      invariant Planned(limits, plan, id, d.W()) && d.records == OperationsTo(plan, id, i)
      invariant PreparingAt(limits, plan, id, d.W(), st) && st.finished.None?
      invariant d.faults == old(d.faults) && d.poisoned == old(d.poisoned)
    {
      ghost var w := d.W();
      ghost var next := OperationsOpen(limits, plan, id, w, i + 1);
      o, st := AppendOpen(d, limits, plan, id, Operation(i, plan.operations[i]), st, next);
      if !o.Crashed? { PlannedStays(limits, plan, id, w, d.W()); }
      if !o.Done? { return; }
      i := i + 1;
    }
    o := Done;
  }

  lemma PlannedValid(limits: Limits, plan: Projection, id: TransactionId, w: World)
    requires Planned(limits, plan, id, w)
    ensures w.Valid() && |w.live| == |w.possible| == |plan.paths|
  {
  }

  /** The path intents, each before any artifact of any path. */
  method AppendIntents(d: Disk, limits: Limits, plan: Projection, id: TransactionId)
    returns (o: Outcome, ghost st: State)
    requires Planned(limits, plan, id, d.W()) && d.records == IntentsTo(plan, id, 0)
    modifies d
    ensures d.Valid() && Open(limits, plan, id, d.W(), st)
    ensures !o.Crashed? ==> Planned(limits, plan, id, d.W()) && d.records != [] && st.finished.None?
    ensures o.Done? ==>
              d.records == IntentsTo(plan, id, |plan.paths|) && d.faults == old(d.faults) && d.poisoned == old(d.poisoned)
    ensures o.Done? ==> |st.paths| == |plan.paths| && st.finished.None? && forall i | 0 <= i < |st.paths| :: !st.paths[i].staged
    ensures !o.Done? && !old(d.poisoned) ==> d.faults < old(d.faults)
    ensures o.Crashed? ==> AfterCrash(d.W())
    ensures d.faults <= old(d.faults)
  {
    hide PreparingAt, Leftover, Coherent, PlanWorld, AllBare, Parse, IntentOf;
    st := IntentsOpen(limits, plan, id, d.W(), 0);
    PlannedValid(limits, plan, id, d.W());
    var i := 0;
    while i < |plan.paths|
      invariant 0 <= i <= |plan.paths| && d.Valid()
      invariant Planned(limits, plan, id, d.W()) && d.records == IntentsTo(plan, id, i) && Parse(limits, d.records) == Ok(st)
      invariant PreparingAt(limits, plan, id, d.W(), st) && st.finished.None?
      invariant i == |plan.paths| ==> |st.paths| == |plan.paths| && forall j | 0 <= j < |st.paths| :: !st.paths[j].staged
      invariant d.faults == old(d.faults) && d.poisoned == old(d.poisoned)
    {
      ghost var w := d.W();
      ghost var next := IntentsOpen(limits, plan, id, w, i + 1);
      o, st := AppendOpen(d, limits, plan, id, IntentOf(plan.paths[i], id, i), st, next);
      if !o.Crashed? { PlannedStays(limits, plan, id, w, d.W()); }
      if !o.Done? { return; }
      i := i + 1;
    }
    o := Done;
  }

  // Failed preparations

  lemma BuildsOpen(limits: Limits, plan: Projection, id: TransactionId, w: World, x: World, st: State)
    requires Open(limits, plan, id, w, st) && Builds(plan, w, x) && w.records != []
    requires |st.paths| == |plan.paths| && forall i | 0 <= i < |st.paths| :: !st.paths[i].staged
    ensures Open(limits, plan, id, x, st)
  {
  }

  lemma AbortedOpen(limits: Limits, plan: Projection, id: TransactionId, w: World, st: State)
    requires Open(limits, plan, id, w, st) && w.records != [] && st.finished.None?
    ensures PreparingAt(limits, plan, id, w.(records := w.records + [Finished(Aborted)]), WithFinish(st, Aborted))
  {
    ParseAppend(limits, w.records, Finished(Aborted));
    var x := w.(records := w.records + [Finished(Aborted)]);
    forall i, e | 0 <= i < |plan.paths| && May(x, i, e) ensures May(w, i, e) {
    }
  }

  lemma OpenPrepares(limits: Limits, plan: Projection, id: TransactionId, w: World, st: State)
    requires Open(limits, plan, id, w, st)
    ensures Prepares(plan, w) && w.Valid() && !w.control.undo && !w.control.receipt && w.control.operation
  {
    assert w.control in w.possibleControl || !w.Valid();
  }

  /** `finish_failed_prepare` */
  method FinishFailedPrepare(d: Disk, limits: Limits, plan: Projection, id: TransactionId, ghost st: State)
    returns (o: Outcome, ghost next: State)
    requires Open(limits, plan, id, d.W(), st) && d.records != [] && (st.finished.None? || d.poisoned)
    modifies d
    ensures d.Valid() && Leftover(limits, plan, id, d.W(), next)
    ensures o.Failed? ==> o.recoveryRequired
    ensures old(AllBare(plan, d.W())) ==> PreparingAt(limits, plan, id, d.W(), next) && (o.Done? ==> Vacant(plan, d.W()))
    ensures o.Crashed? ==> AfterCrash(d.W())
    ensures d.faults <= old(d.faults)
  {
    hide PreparingAt, Leftover, Prepares, AllBare, Open, Vacant, Leftover;
    next := st;
    OpenPrepares(limits, plan, id, d.W(), st);
    OpenAt(limits, plan, id, d.W(), st);
    if d.poisoned {
      return Failed(true), st;
    }
    AbortedOpen(limits, plan, id, d.W(), st);
    ghost var w := d.W();
    o, next := AppendOpen(d, limits, plan, id, Finished(Aborted), st, WithFinish(st, Aborted));
    OpenPrepares(limits, plan, id, d.W(), next);
    OpenAt(limits, plan, id, d.W(), next);
    if !o.Done? { return; }
    ghost var x := d.W();
    BareRecords(plan, w, x);
    LeftoverOpens(limits, plan, id, x, next);
    o := ReplaceControl(d, d.control.(operation := false));
    LeftoverControl(limits, plan, id, x, d.W(), next, {x.control.(operation := false)});
    if AllBare(plan, w) {
      PreparingControl(limits, plan, id, x, d.W(), next, {x.control.(operation := false)});
      if o.Done? { PreparingVacant(limits, plan, id, d.W(), next); }
    }
  }

  lemma OpenAt(limits: Limits, plan: Projection, id: TransactionId, w: World, st: State)
    requires Open(limits, plan, id, w, st)
    ensures PreparingAt(limits, plan, id, w, st) && Leftover(limits, plan, id, w, st)
  {
  }

  lemma BareRecords(plan: Projection, w: World, x: World)
    requires x == w.(records := x.records)
    ensures AllBare(plan, w) ==> AllBare(plan, x)
  {
  }

  // Staged paths and the `Prepared` record

  /** Every path is staged, durably. */
  ghost predicate Complete(plan: Projection, w: World, staged: seq<StagedPath>) {
    && PlanWorld(plan, w) && |staged| == |plan.paths|
    && (forall k | k in w.possibleControl :: k.operation)
    && forall i | 0 <= i < |staged| :: w.possible[i] == {Initial(staged[i])} && StagedWell(w.volume, staged[i]) && StagesAs(plan.paths[i], staged[i])
  }

  lemma ResultsComplete(plan: Projection, w: World, results: seq<JobResult>, staged: seq<StagedPath>)
    requires Results(plan, w, results) && |results| == |plan.paths| == |staged| && forall i | 0 <= i < |results| :: results[i] == JobStaged(staged[i])
    requires PlanWorld(plan, w) && forall k | k in w.possibleControl :: k.operation
    ensures Complete(plan, w, staged)
  {
    forall i | 0 <= i < |staged|
      ensures w.possible[i] == {Initial(staged[i])} && StagedWell(w.volume, staged[i]) && StagesAs(plan.paths[i], staged[i])
    {
      assert Resulted(w.volume, plan.paths[i], w.possible[i], results[i]);
    }
  }

  lemma InitialEvident(v: Volume, p: ProjectedPath, s: StagedPath, id: TransactionId, i: nat)
    requires StagedWell(v, s) && StagesAs(p, s) && Projected(v, p)
    ensures Preparable(v, p, Initial(s)) && Evident(v, RecoveryPathOf(id, s, i), Initial(s)) && Recorded(p, id, i, RecoveryPathOf(id, s, i))
    ensures Evident(v, IntendedPath(p, id, i), Initial(s))
  {
  }

  lemma StagedOpen(limits: Limits, plan: Projection, id: TransactionId, w: World, staged: seq<StagedPath>, n: nat)
    returns (st: State)
    requires Complete(plan, w, staged) && Coherent(limits, plan, id) && n <= |staged| && |plan.paths| > 0
    ensures PreparingAt(limits, plan, id, w.(records := StagedTo(plan, id, staged, n)), st)
  {
    hide Coherent, Preparable, Evident, Recorded, StagedWell, StagesAs, Projected;
    st := StagedReplay(limits, plan, id, staged, n);
    var x := w.(records := StagedTo(plan, id, staged, n));
    forall i, e | 0 <= i < |plan.paths| && May(x, i, e)
      ensures Preparable(x.volume, plan.paths[i], e) && Evident(x.volume, st.paths[i], e)
    {
      assert w.possible[i] == {Initial(staged[i])};
      InitialEvident(w.volume, plan.paths[i], staged[i], id, i);
    }
    forall i | 0 <= i < |plan.paths| ensures Recorded(plan.paths[i], id, i, st.paths[i]) {
      assert w.possible[i] == {Initial(staged[i])};
      InitialEvident(w.volume, plan.paths[i], staged[i], id, i);
      IntendedRecorded(plan.paths[i], id, i);
    }
    StagedNonempty(plan, id, staged, n);
  }

  lemma IntendedRecorded(p: ProjectedPath, id: TransactionId, i: nat)
    ensures Recorded(p, id, i, IntendedPath(p, id, i))
  {
  }

  lemma {:induction false} StagedNonempty(plan: Projection, id: TransactionId, staged: seq<StagedPath>, n: nat)
    requires n <= |staged|
    ensures StagedTo(plan, id, staged, n) != []
  {
    if n == 0 { IntentsNonempty(plan, id, |plan.paths|); }
  }

  lemma {:induction false} IntentsNonempty(plan: Projection, id: TransactionId, n: nat)
    requires n <= |plan.paths|
    ensures IntentsTo(plan, id, n) != []
  {
    if n == 0 { OperationsNonempty(plan, id, |plan.operations|); }
  }

  lemma {:induction false} OperationsNonempty(plan: Projection, id: TransactionId, n: nat)
    requires n <= |plan.operations|
    ensures OperationsTo(plan, id, n) != []
  {
  }

  /** The transaction a complete staging prepared. */
  lemma CompleteReady(limits: Limits, plan: Projection, id: TransactionId, w: World, staged: seq<StagedPath>)
    returns (st: State)
    requires Complete(plan, w, staged) && Coherent(limits, plan, id) && |plan.paths| > 0
    requires w.records == StagedTo(plan, id, staged, |staged|) + [PreparedRecord(plan)]
    ensures Ready(Transaction(limits, id, staged), w, st)
  {
    hide Coherent, StagedWell, StagesAs, Projected;
    st := PreparedReplay(limits, plan, id, staged);
    var t := Transaction(limits, id, staged);
    forall i | 0 <= i < |t.paths| ensures w.possible[i] <= Allowed(t.paths[i], st, i) && StagedWell(w.volume, t.paths[i]) {
      assert w.possible[i] == {Initial(staged[i])};
    }
  }

  // The whole preparation

  lemma VacantFresh(limits: Limits, plan: Projection, id: TransactionId, w: World, st: State)
    requires Vacant(plan, w)
    ensures PreparingAt(limits, plan, id, w.(records := []), st)
    ensures w.Valid() && |w.live| == |plan.paths| && !w.control.undo && !w.control.receipt && AllBare(plan, w) && PlanWorld(plan, w)
  {
    BarePreparing(limits, plan, id, w.(records := []), st);
  }

  lemma Planning(limits: Limits, plan: Projection, id: TransactionId, w: World)
    requires PlanWorld(plan, w) && AllBare(plan, w) && Coherent(limits, plan, id) && w.possibleControl == {Control(true, false, false)}
    ensures Planned(limits, plan, id, w)
  {
  }

  /** The journal file and its header. */
  method OpenOperation(d: Disk, limits: Limits, plan: Projection, id: TransactionId, ghost st: State)
    returns (o: Outcome, ghost next: State)
    requires Vacant(plan, d.W()) && Coherent(limits, plan, id)
    modifies d
    ensures d.Valid()
    ensures o.Done? ==>
              Planned(limits, plan, id, d.W()) && d.records == OperationsTo(plan, id, 0) && !d.poisoned && d.faults == old(d.faults)
    ensures !o.Done? ==> PreparingAt(limits, plan, id, d.W(), next) && d.faults < old(d.faults)
    ensures o == Failed(false) ==> AllBare(plan, d.W()) && d.records == []
    ensures o.Crashed? ==> AfterCrash(d.W())
  {
    hide PreparingAt, Leftover, Coherent, PlanWorld, AllBare, Vacant, ControlWithin;
    next := st;
    VacantFresh(limits, plan, id, d.W(), st);
    ghost var v := d.W();
    d.records := [];
    ghost var w := d.W();
    BareRecords(plan, v, w);
    o := CreateControl(d, d.control.(operation := true));
    PreparingControl(limits, plan, id, w, d.W(), st, {w.control.(operation := true)});
    WithinRecords(w, d.W(), {w.control.(operation := true)});
    if !o.Done? {
      CreatedBare(limits, plan, id, d.W(), next);
      return;
    }
    OpenedPlan(plan, v, d.W());
    Planning(limits, plan, id, d.W());
    d.poisoned := false;
    ghost var y := d.W();
    ghost var header := OperationsOpen(limits, plan, id, y, 0);
    assert y.records + [HeaderOf(plan, id)] == OperationsTo(plan, id, 0);
    PlannedOpen(limits, plan, id, y, st);
    o, next := AppendOpen(d, limits, plan, id, HeaderOf(plan, id), st, header);
    OpenAt(limits, plan, id, d.W(), next);
    if o.Done? { PlannedStays(limits, plan, id, y, d.W()); }
  }

  lemma WithinRecords(w: World, x: World, extra: set<Control>)
    requires ControlWithin(w, x, extra)
    ensures x.records == w.records
  {
  }

  lemma CreatedBare(limits: Limits, plan: Projection, id: TransactionId, w: World, st: State)
    requires PreparingAt(limits, plan, id, w, st) && w.records == []
    ensures AllBare(plan, w)
  {
  }

  lemma OpenedPlan(plan: Projection, v: World, x: World)
    requires Vacant(plan, v) && x.volume == v.volume && x.live == v.live && x.possible == v.possible && x.possibleControl == {x.control} && x.control == v.control.(operation := true)
    ensures PlanWorld(plan, x) && AllBare(plan, x) && x.possibleControl == {Control(true, false, false)}
  {
  }

  lemma PlannedOpen(limits: Limits, plan: Projection, id: TransactionId, w: World, st: State)
    requires Planned(limits, plan, id, w) && PreparingAt(limits, plan, id, w, st)
    ensures Open(limits, plan, id, w, st)
  {
  }

  lemma PlannedResults(limits: Limits, plan: Projection, id: TransactionId, w: World, st: State)
    requires Planned(limits, plan, id, w) && Open(limits, plan, id, w, st)
    ensures Prepares(plan, w) && Results(plan, w, []) && AllBare(plan, w) && PlanWorld(plan, w)
  {
    forall i | 0 <= i < |plan.paths| ensures w.possible[i] == {BareEntries(plan.paths[i])} {
      assert w.possible[i] <= {BareEntries(plan.paths[i])} && w.live[i] in w.possible[i];
    }
  }

  lemma BuildsPlan(plan: Projection, w: World, x: World)
    requires Builds(plan, w, x) && forall k | k in w.possibleControl :: k.operation
    ensures PlanWorld(plan, x) && forall k | k in x.possibleControl :: k.operation
  {
  }

  /** The exit of a preparation whose journal or staging failed without leaving doubt. */
  method FailPrepare(d: Disk, limits: Limits, plan: Projection, id: TransactionId, ghost st: State, ghost bare: bool)
    returns (o: Outcome, ghost next: State)
    requires Open(limits, plan, id, d.W(), st) && d.records != [] && (st.finished.None? || d.poisoned)
    requires bare ==> AllBare(plan, d.W())
    modifies d
    ensures d.Valid() && Leftover(limits, plan, id, d.W(), next) && !o.Done?
    ensures bare ==> PreparingAt(limits, plan, id, d.W(), next) && (o == Failed(false) ==> Vacant(plan, d.W()))
    ensures o.Crashed? ==> AfterCrash(d.W())
    ensures d.faults <= old(d.faults)
  {
    o, next := FinishFailedPrepare(d, limits, plan, id, st);
    o := if o.Done? then Failed(false) else o;
  }

  /** `stage_all` from the jobs on, and the `Prepared` record. */
  method StageAll(d: Disk, limits: Limits, plan: Projection, id: TransactionId, ghost st: State)
    returns (o: Outcome, staged: seq<StagedPath>, ghost next: State, leaked: bool)
    requires Planned(limits, plan, id, d.W()) && Open(limits, plan, id, d.W(), st) && d.records == IntentsTo(plan, id, |plan.paths|) && !d.poisoned
    requires |plan.paths| > 0 && |st.paths| == |plan.paths| && st.finished.None? && forall i | 0 <= i < |st.paths| :: !st.paths[i].staged
    modifies d
    ensures d.Valid()
    ensures o.Done? ==>
              Complete(plan, d.W(), staged) && d.records == IntentsTo(plan, id, |plan.paths|) && !d.poisoned && d.faults == old(d.faults) && Coherent(limits, plan, id)
    ensures o.Done? ==> !leaked
    ensures !o.Done? ==> Leftover(limits, plan, id, d.W(), next) && d.faults < old(d.faults)
    ensures !o.Done? && !leaked ==> PreparingAt(limits, plan, id, d.W(), next) && (o == Failed(false) ==> Vacant(plan, d.W()))
    ensures o.Crashed? ==> AfterCrash(d.W())
  {
    hide PreparingAt, Leftover, Prepares, Coherent, Results, Builds, Open, Complete, Vacant, AllBare, PlanWorld;
    ghost var w := d.W();
    next := st;
    leaked := false;
    staged := [];
    IntentsNonempty(plan, id, |plan.paths|);
    PlannedResults(limits, plan, id, w, st);
    PlannedCoherent(limits, plan, id, w);
    var results;
    o, results := RunJobs(d, plan);
    BuildsOpen(limits, plan, id, w, d.W(), st);
    OpenAt(limits, plan, id, d.W(), st);
    OpenPrepares(limits, plan, id, d.W(), st);
    BuildsRecords(plan, w, d.W());
    if o.Crashed? { return; }
    ghost var x := d.W();
    o, staged := Collect(d, plan, results);
    BuildsTrans(plan, w, x, d.W());
    BuildsRecords(plan, w, d.W());
    BuildsOpen(limits, plan, id, w, d.W(), st);
    OpenAt(limits, plan, id, d.W(), st);
    OpenPrepares(limits, plan, id, d.W(), st);
    if o == Failed(false) {
      leaked := Leaks(results);
      o, next := FailPrepare(d, limits, plan, id, st, !leaked);
      return;
    }
    if !o.Done? { return; }
    BuildsPlan(plan, w, d.W());
    ResultsComplete(plan, d.W(), results, staged);
  }

  lemma BuildsRecords(plan: Projection, w: World, x: World)
    requires Builds(plan, w, x)
    ensures x.records == w.records
  {
  }

  lemma PlannedCoherent(limits: Limits, plan: Projection, id: TransactionId, w: World)
    requires Planned(limits, plan, id, w)
    ensures Coherent(limits, plan, id)
  {
  }

  /** The `PathStaged` records and `Prepared`. */
  method RecordStaged(d: Disk, limits: Limits, plan: Projection, id: TransactionId, staged: seq<StagedPath>)
    returns (o: Outcome, ghost next: State)
    requires Complete(plan, d.W(), staged) && Coherent(limits, plan, id) && |plan.paths| > 0
    requires d.records == IntentsTo(plan, id, |plan.paths|) && !d.poisoned
    modifies d
    ensures d.Valid()
    ensures o.Done? ==> Ready(Transaction(limits, id, staged), d.W(), next) && !d.poisoned && d.faults == old(d.faults)
    ensures o == Failed(true) || !o.Failed?
    ensures !o.Done? ==> d.faults < old(d.faults)
    ensures !o.Done? ==> PreparingAt(limits, plan, id, d.W(), next) || PreparedAt(Transaction(limits, id, staged), d.W(), next)
    ensures o.Crashed? ==> AfterCrash(d.W())
  {
    hide PreparingAt, Leftover, Coherent, Complete, PreparedAt, Ready;
    next := StagedOpen(limits, plan, id, d.W(), staged, 0);
    CompleteShape(plan, d.W(), staged);
    var i := 0;
    while i < |staged|
      invariant 0 <= i <= |staged| && d.Valid()
      invariant Complete(plan, d.W(), staged) && d.records == StagedTo(plan, id, staged, i)
      invariant PreparingAt(limits, plan, id, d.W(), next)
      invariant d.faults == old(d.faults) && !d.poisoned
    {
      ghost var w := d.W();
      ghost var after := StagedOpen(limits, plan, id, w, staged, i + 1);
      CompleteOpen(limits, plan, id, w, staged, next);
      o, next := AppendOpen(d, limits, plan, id, StagedRecord(staged[i], i), next, after);
      OpenAt(limits, plan, id, d.W(), next);
      if !o.Done? { return; }
      CompleteRecords(plan, w, d.W(), staged);
      i := i + 1;
    }
    o, next := RecordPrepared(d, limits, plan, id, staged, next);
  }

  lemma CompleteShape(plan: Projection, w: World, staged: seq<StagedPath>)
    requires Complete(plan, w, staged)
    ensures w.Valid() && |staged| == |plan.paths|
  {
  }

  lemma CompleteOpen(limits: Limits, plan: Projection, id: TransactionId, w: World, staged: seq<StagedPath>, st: State)
    requires Complete(plan, w, staged) && PreparingAt(limits, plan, id, w, st)
    ensures Open(limits, plan, id, w, st)
  {
  }

  lemma CompleteRecords(plan: Projection, w: World, x: World, staged: seq<StagedPath>)
    requires Complete(plan, w, staged) && x == w.(records := x.records)
    ensures Complete(plan, x, staged)
  {
  }

  /** A transaction whose preparation is durable, wherever a crash has left it since. */
  ghost predicate PreparedAt(t: Transaction, w: World, st: State) {
    Unfinished(t, w, st) && Advancing(st, |t.paths|, 0)
  }

  method RecordPrepared(d: Disk, limits: Limits, plan: Projection, id: TransactionId, staged: seq<StagedPath>, ghost st: State)
    returns (o: Outcome, ghost next: State)
    requires Complete(plan, d.W(), staged) && Coherent(limits, plan, id) && |plan.paths| > 0
    requires d.records == StagedTo(plan, id, staged, |staged|) && !d.poisoned && PreparingAt(limits, plan, id, d.W(), st)
    modifies d
    ensures d.Valid()
    ensures o.Done? ==> Ready(Transaction(limits, id, staged), d.W(), next) && !d.poisoned && d.faults == old(d.faults)
    ensures o == Failed(true) || !o.Failed?
    ensures !o.Done? ==> d.faults < old(d.faults)
    ensures !o.Done? ==> PreparingAt(limits, plan, id, d.W(), next) || PreparedAt(Transaction(limits, id, staged), d.W(), next)
    ensures o.Crashed? ==> AfterCrash(d.W())
  {
    hide PreparingAt, Leftover, Coherent, Complete, PreparedAt, Ready;
    ghost var w := d.W();
    ghost var t := Transaction(limits, id, staged);
    ghost var written := w.(records := w.records + [PreparedRecord(plan)]);
    CompleteShape(plan, w, staged);
    CompleteRecords(plan, w, written, staged);
    ghost var ready := CompleteReady(limits, plan, id, written, staged);
    ReadyPrepared(t, written, ready);
    o := d.Append(PreparedRecord(plan));
    next := if d.records == w.records then st else ready;
    if o.Crashed? {
      if CrashOf(w, d.W()) {
        CrashShrinks(w, d.W());
        PreparingControl(limits, plan, id, w, d.W(), st, {});
      } else {
        PreparedCrash(t, written, d.W(), ready);
      }
    }
  }

  lemma ReadyPrepared(t: Transaction, w: World, st: State)
    requires Ready(t, w, st)
    ensures PreparedAt(t, w, st)
  {
  }

  lemma PreparedCrash(t: Transaction, w: World, x: World, st: State)
    requires PreparedAt(t, w, st) && CrashOf(w, x)
    ensures PreparedAt(t, x, st) && x.records == w.records && AfterCrash(x)
  {
    UnfinishedCrash(t, w, x, st);
    CrashShrinks(w, x);
  }

  /** A journal append failed, or a crash came, before any artifact was written. */
  method AfterFailure(d: Disk, limits: Limits, plan: Projection, id: TransactionId, ghost st: State, failure: Outcome)
    returns (o: Outcome, ghost next: State)
    requires failure != Done && d.Valid() && Open(limits, plan, id, d.W(), st)
    requires failure.Failed? ==> Planned(limits, plan, id, d.W()) && d.records != [] && st.finished.None?
    requires failure.Crashed? ==> AfterCrash(d.W())
    modifies d
    ensures d.Valid() && !o.Done?
    ensures PreparingAt(limits, plan, id, d.W(), next) && (o == Failed(false) ==> Vacant(plan, d.W()))
    ensures o.Crashed? ==> AfterCrash(d.W())
    ensures d.faults <= old(d.faults)
  {
    hide PreparingAt, Leftover, Prepares, Coherent, Open, Vacant, AllBare, PlanWorld;
    next := st;
    OpenAt(limits, plan, id, d.W(), st);
    if failure.Crashed? {
      return failure, st;
    }
    PlannedBare(limits, plan, id, d.W());
    o, next := FailPrepare(d, limits, plan, id, st, true);
  }

  lemma PlannedBare(limits: Limits, plan: Projection, id: TransactionId, w: World)
    requires Planned(limits, plan, id, w)
    ensures AllBare(plan, w)
  {
  }

  lemma CompleteStages(plan: Projection, w: World, staged: seq<StagedPath>)
    requires Complete(plan, w, staged)
    ensures |staged| == |plan.paths| && forall i | 0 <= i < |staged| :: StagesAs(plan.paths[i], staged[i])
  {
  }

  /** `prepare_operation_plan`, from the projected plan on.  Success means a prepared
      transaction whose paths are exactly staged, no slot touched.  A plain error means that
      nothing is left but perhaps the journal file, still empty, whose creation failed with effect;
      every other exit leaves a journal recovery discards.  If a staging job panicked or failed to
      clean up unreported, artifacts may be left besides. */
  method Prepare(d: Disk, limits: Limits, plan: Projection, id: TransactionId)
    returns (o: Outcome, staged: seq<StagedPath>, ghost st: State, leaked: bool)
    requires Vacant(plan, d.W()) && Coherent(limits, plan, id) && |plan.paths| > 0
    modifies d
    ensures d.Valid()
    ensures o.Done? ==> Ready(Transaction(limits, id, staged), d.W(), st) && !d.poisoned && d.faults == old(d.faults)
    ensures o.Done? || (!leaked && !PreparingAt(limits, plan, id, d.W(), st)) ==>
              |staged| == |plan.paths| && forall i | 0 <= i < |staged| :: StagesAs(plan.paths[i], staged[i])
    ensures !o.Done? ==> d.faults < old(d.faults)
    ensures !o.Done? && leaked ==> Leftover(limits, plan, id, d.W(), st)
    ensures o == Failed(false) && !leaked ==> Vacant(plan, d.W()) || (AllBare(plan, d.W()) && d.records == [])
    ensures !o.Done? && !leaked ==>
              PreparingAt(limits, plan, id, d.W(), st) || PreparedAt(Transaction(limits, id, staged), d.W(), st)
    ensures o.Crashed? ==> AfterCrash(d.W())
  {
    hide PreparingAt, Leftover, PreparedAt, Prepares, Coherent, Open, Complete, Vacant, AllBare, PlanWorld, Ready;
    leaked, staged := false, [];
    ghost var none: State := *;
    o, st := OpenOperation(d, limits, plan, id, none);
    if !o.Done? { return; }
    o, st := AppendOperations(d, limits, plan, id);
    if !o.Done? {
      o, st := AfterFailure(d, limits, plan, id, st, o);
      return;
    }
    o, st := AppendIntents(d, limits, plan, id);
    if !o.Done? {
      o, st := AfterFailure(d, limits, plan, id, st, o);
      return;
    }
    o, staged, st, leaked := StageAll(d, limits, plan, id, st);
    if !o.Done? { return; }
    CompleteStages(plan, d.W(), staged);
    o, st := RecordStaged(d, limits, plan, id, staged);
  }
}
