/** Bounded scheduling of independent jobs over shared state, for every interleaving of the workers. */
module Scheduler {
  import opened Outcomes

  const HARD_MAX_WORKERS: nat := 16

  datatype ScheduleError<+E> = Operation(error: E) | Panicked(message: string) | Cancelled

  datatype JobResult<+R, +E> = Success(value: R) | Failure(error: ScheduleError<E>)

  /** How the operation ends on one input. */
  datatype Completion<+R, +E> = Returned(value: R) | Rejected(error: E) | Unwound(message: string)

  /** `run_job`: a panic is a failure of its own job. */
  function RunJob<T, R, E>(operation: (nat, T) -> Completion<R, E>, index: nat, item: T): (r: JobResult<R, E>)
    ensures r != Failure(Cancelled)
  {
    match operation(index, item)
    case Returned(value) => Success(value)
    case Rejected(error) => Failure(Operation(error))
    case Unwound(message) => Failure(Panicked(message))
  }

  /** Where a worker stands between two accesses to the shared state. */
  datatype Worker<+T, +R, +E> =
    | Idle
    | Locked
    | Admitting
    | Running(index: nat, item: T)
    | Finishing(index: nat, result: JobResult<R, E>)
    | Reporting(index: nat)
    | Stopped
  {
    predicate HoldsLock() { Locked? || Admitting? }

    predicate HoldsJob(i: nat) { (Running? || Finishing?) && index == i }

    function Rank(): nat {
      match this
      case Stopped => 0
      case Admitting => 1
      case Locked => 2
      case Idle => 3
      case Reporting(_) => 4
      case Finishing(_, _) => 5
      case Running(_, _) => 6
    }
  }

  function Ranks<T, R, E>(workers: seq<Worker<T, R, E>>): nat {
    if workers == [] then 0 else workers[0].Rank() + Ranks(workers[1..])
  }

  lemma {:induction false} RanksUpdate<T, R, E>(workers: seq<Worker<T, R, E>>, w: nat, next: Worker<T, R, E>)
    requires w < |workers|
    ensures Ranks(workers[w := next]) == Ranks(workers) - workers[w].Rank() + next.Rank()
    decreases |workers|
  {
    if w > 0 {
      RanksUpdate(workers[1..], w - 1, next);
      assert workers[w := next][1..] == workers[1..][w - 1 := next];
    } else {
      assert workers[w := next][1..] == workers[1..];
    }
  }

  /** `bounded_worker_count` */
  function BoundedWorkerCount(requested: nat, jobs: nat): (n: nat)
    ensures n <= jobs && n <= HARD_MAX_WORKERS && (n == 0 <==> jobs == 0)
  {
    var clamped := if requested < 1 then 1 else if requested > HARD_MAX_WORKERS then HARD_MAX_WORKERS else requested;
    if jobs == 0 then 0 else if clamped < jobs then clamped else jobs
  }

  /** The job of this index ran and failed. */
  ghost predicate FailedAt<R, E>(results: seq<Option<JobResult<R, E>>>, i: nat) {
    i < |results| && results[i].Some? && results[i].value.Failure?
  }

  ghost predicate SomeFailed<R, E>(results: seq<Option<JobResult<R, E>>>) {
    exists i :: FailedAt(results, i)
  }

  /** Some worker has taken the job and not yet recorded its result. */
  ghost predicate Held<T, R, E>(workers: seq<Worker<T, R, E>>, i: nat) {
    exists w :: 0 <= w < |workers| && workers[w].HoldsJob(i)
  }

  lemma HeldMoves<T, R, E>(workers: seq<Worker<T, R, E>>, w: nat, next: Worker<T, R, E>, i: nat)
    requires w < |workers| && (next.HoldsJob(i) || (Held(workers, i) && !workers[w].HoldsJob(i)))
    ensures Held(workers[w := next], i)
  {
    if next.HoldsJob(i) {
      assert workers[w := next][w].HoldsJob(i);
    } else {
      var v :| 0 <= v < |workers| && workers[v].HoldsJob(i);
      assert workers[w := next][v].HoldsJob(i);
    }
  }

  /** The worker's own view agrees with the shared state. */
  ghost predicate WorkerSound<T, R, E>(
      operation: (nat, T) -> Completion<R, E>, items: seq<T>, admitted: nat,
      results: seq<Option<JobResult<R, E>>>, worker: Worker<T, R, E>)
    requires admitted <= |items|
  {
    match worker
    case Running(i, item) => i < admitted && item == items[i]
    case Finishing(i, result) => i < admitted && result == RunJob(operation, i, items[i])
    case Reporting(i) => FailedAt(results, i)
    case _ => true
  }

  /** Exactly the admitted jobs have or will have results, each its own. */
  ghost predicate JobsSound<T, R, E>(
      operation: (nat, T) -> Completion<R, E>, items: seq<T>, admitted: nat,
      results: seq<Option<JobResult<R, E>>>, workers: seq<Worker<T, R, E>>)
    requires |results| == |items|
  {
    forall i | 0 <= i < |items| ::
      && (results[i].Some? ==> i < admitted && results[i].value == RunJob(operation, i, items[i]))
      && (i < admitted && results[i].None? ==> Held(workers, i))
  }

  /** A worker that moves without losing its job, taking the next job if it moves to one. */
  lemma JobsMove<T, R, E>(
      operation: (nat, T) -> Completion<R, E>, items: seq<T>, admitted: nat,
      results: seq<Option<JobResult<R, E>>>, workers: seq<Worker<T, R, E>>, w: nat, next: Worker<T, R, E>)
    requires w < |workers| && |results| == |items| && JobsSound(operation, items, admitted, results, workers)
    requires forall i: nat | workers[w].HoldsJob(i) :: next.HoldsJob(i)
    ensures JobsSound(operation, items, admitted, results, workers[w := next])
    ensures next.HoldsJob(admitted) ==> JobsSound(operation, items, admitted + 1, results, workers[w := next])
  {
    hide Held;
    forall i: nat | i < |items| && ((Held(workers, i) && (workers[w].HoldsJob(i) ==> next.HoldsJob(i))) || next.HoldsJob(i))
      ensures Held(workers[w := next], i)
    {
      HeldMoves(workers, w, next, i);
    }
  }

  lemma JobsRecord<T, R, E>(
      operation: (nat, T) -> Completion<R, E>, items: seq<T>, admitted: nat,
      results: seq<Option<JobResult<R, E>>>, workers: seq<Worker<T, R, E>>, w: nat, next: Worker<T, R, E>)
    requires w < |workers| && |results| == |items| && JobsSound(operation, items, admitted, results, workers)
    requires admitted <= |items| && workers[w].Finishing?
    requires WorkerSound(operation, items, admitted, results, workers[w])
    ensures var results' := results[workers[w].index := Some(workers[w].result)];
            && JobsSound(operation, items, admitted, results', workers[w := next])
            && (forall i | FailedAt(results, i) :: FailedAt(results', i))
            && (SomeFailed(results) ==> SomeFailed(results'))
  {
    hide Held;
    var index := workers[w].index;
    var results' := results[index := Some(workers[w].result)];
    forall i: nat | i < |items| && i != index && Held(workers, i)
      ensures Held(workers[w := next], i)
    {
      HeldMoves(workers, w, next, i);
    }
    if SomeFailed(results) {
      var i :| FailedAt(results, i);
      assert FailedAt(results', i);
    }
  }

  /** The queue, the results and the cancellation flag that the workers share, and the workers. */
  class Pool<T, R, E> {
    const operation: (nat, T) -> Completion<R, E>
    ghost const items: seq<T>
    var queue: seq<(nat, T)>
    var results: seq<Option<JobResult<R, E>>>
    var cancelled: bool
    var holder: Option<nat>
    var workers: seq<Worker<T, R, E>>

    ghost predicate Valid()
      reads this
    {
      && |results| == |items| && |queue| <= |items|
      && (forall k | 0 <= k < |queue| ::
            queue[k] == (|items| - |queue| + k, items[|items| - |queue| + k]))
      && JobsSound(operation, items, |items| - |queue|, results, workers)
      && (forall w | 0 <= w < |workers| :: WorkerSound(operation, items, |items| - |queue|, results, workers[w]))
      && (forall w | 0 <= w < |workers| && workers[w].Stopped? :: queue == [] || SomeFailed(results))
      && (cancelled ==> SomeFailed(results))
      && (holder.Some? ==> holder.value < |workers|)
      && (forall w | 0 <= w < |workers| :: workers[w].HoldsLock() <==> holder == Some(w))
    }

    /** Every step shortens this, so every interleaving ends. */
    ghost function Remaining(): nat
      reads this
    {
      6 * |queue| + Ranks(workers)
    }

    /** A worker that has not stopped can move unless it waits for the lock. */
    predicate Enabled(w: nat)
      reads this
    {
      w < |workers| && !workers[w].Stopped? && (workers[w].Idle? ==> holder.None?)
    }

    constructor (operation: (nat, T) -> Completion<R, E>, items: seq<T>, workerCount: nat)
      ensures Valid() && |workers| == workerCount && this.items == items && this.operation == operation
    {
      this.operation, this.items := operation, items;
      queue := seq(|items|, i requires 0 <= i < |items| => (i, items[i]));
      results := seq(|items|, _ => None);
      cancelled, holder := false, None;
      workers := seq(workerCount, _ => Idle);
    }

    /** One access of one worker to the shared state, as in `run_worker`. */
    method Advance(w: nat)
      requires Valid() && Enabled(w)
      modifies this
      ensures Valid() && |workers| == |old(workers)| && Remaining() < old(Remaining())
    {
      match workers[w]
      case Idle => TakeLock(w);
      case Locked => ReadFlag(w);
      case Admitting => PopFront(w);
      case Running(index, item) => Run(w);
      case Finishing(index, result) => Record(w);
      case Reporting(index) => Cancel(w);
    }

    /** When no worker can move, all have stopped: there is no deadlock, and every admitted job has
        its result. */
    lemma Joined()
      requires Valid() && workers != [] && forall w: nat | w < |workers| :: !Enabled(w)
      ensures queue == [] || SomeFailed(results)
      ensures forall i | 0 <= i < |items| - |queue| :: results[i] == Some(RunJob(operation, i, items[i]))
      ensures forall i | |items| - |queue| <= i < |items| :: results[i].None?
    {
      assert holder.Some? ==> Enabled(holder.value);
      forall w: nat | w < |workers|
        ensures workers[w].Stopped?
      {
        assert !Enabled(w);
      }
      assert workers[0].Stopped?;
    }

    method TakeLock(w: nat)
      requires Valid() && Enabled(w) && workers[w].Idle?
      modifies `workers, `holder
      ensures Valid() && |workers| == |old(workers)| && Remaining() < old(Remaining())
    {
      hide JobsSound, Held, Ranks, SomeFailed;
      RanksUpdate(workers, w, Locked);
      JobsMove(operation, items, |items| - |queue|, results, workers, w, Locked);
      holder, workers := Some(w), workers[w := Locked];
    }

    /** A relaxed memory may still show the flag unset after a failure. */
    method ReadFlag(w: nat)
      requires Valid() && Enabled(w) && workers[w].Locked?
      modifies `workers, `holder
      ensures Valid() && |workers| == |old(workers)| && Remaining() < old(Remaining())
    {
      hide JobsSound, Held, Ranks, SomeFailed;
      var stale: bool := *;
      if cancelled && !stale {
        RanksUpdate(workers, w, Stopped);
        JobsMove(operation, items, |items| - |queue|, results, workers, w, Stopped);
        holder, workers := None, workers[w := Stopped];
      } else {
        RanksUpdate(workers, w, Admitting);
        JobsMove(operation, items, |items| - |queue|, results, workers, w, Admitting);
        workers := workers[w := Admitting];
      }
    }

    /** Admits the job at the front of the queue, or stops at its end, and unlocks. */
    method PopFront(w: nat)
      requires Valid() && Enabled(w) && workers[w].Admitting?
      modifies `workers, `holder, `queue
      ensures Valid() && |workers| == |old(workers)| && Remaining() < old(Remaining())
    {
      hide JobsSound, Held, Ranks, SomeFailed;
      holder := None;
      if queue == [] {
        RanksUpdate(workers, w, Stopped);
        JobsMove(operation, items, |items| - |queue|, results, workers, w, Stopped);
        workers := workers[w := Stopped];
        } else {
        var (index, item) := queue[0];
        RanksUpdate(workers, w, Running(index, item));
        JobsMove(operation, items, |items| - |queue|, results, workers, w, Running(index, item));
        queue, workers := queue[1..], workers[w := Running(index, item)];
        }
    }

    method Run(w: nat)
      requires Valid() && Enabled(w) && workers[w].Running?
      modifies `workers
      ensures Valid() && |workers| == |old(workers)| && Remaining() < old(Remaining())
    {
      hide JobsSound, Held, Ranks, SomeFailed;
      var index, item := workers[w].index, workers[w].item;
      var result := RunJob(operation, index, item);
      RanksUpdate(workers, w, Finishing(index, result));
      JobsMove(operation, items, |items| - |queue|, results, workers, w, Finishing(index, result));
      workers := workers[w := Finishing(index, result)];
    }

    method Record(w: nat)
      requires Valid() && Enabled(w) && workers[w].Finishing?
      modifies `workers, `results
      ensures Valid() && |workers| == |old(workers)| && Remaining() < old(Remaining())
    {
      hide JobsSound, Held, Ranks, SomeFailed;
      var index, result := workers[w].index, workers[w].result;
      var next := if result.Failure? then Reporting(index) else Idle;
      RanksUpdate(workers, w, next);
      JobsRecord(operation, items, |items| - |queue|, results, workers, w, next);
      results, workers := results[index := Some(result)], workers[w := next];
    }

    method Cancel(w: nat)
      requires Valid() && Enabled(w) && workers[w].Reporting?
      modifies `workers, `cancelled
      ensures Valid() && |workers| == |old(workers)| && Remaining() < old(Remaining())
    {
      hide JobsSound, Held, Ranks;
      RanksUpdate(workers, w, Idle);
      JobsMove(operation, items, |items| - |queue|, results, workers, w, Idle);
      cancelled, workers := true, workers[w := Idle];
    }
  }

  /** The jobs below `n` ran, the others were cancelled, and only because one of the first failed. */
  ghost predicate Admitted<T, R, E>(
      operation: (nat, T) -> Completion<R, E>, items: seq<T>, outputs: seq<JobResult<R, E>>, n: nat) {
    && |outputs| == |items| && n <= |items|
    && (forall i | 0 <= i < n :: outputs[i] == RunJob(operation, i, items[i]))
    && (forall i | n <= i < |items| :: outputs[i] == Failure(Cancelled))
    && (n < |items| ==> exists i :: 0 <= i < n && outputs[i].Failure?)
  }

  /** `map_ordered`: whatever the interleaving, it ends, one result per input in input order. */
  method MapOrdered<T, R, E>(items: seq<T>, requested: nat, operation: (nat, T) -> Completion<R, E>)
    returns (outputs: seq<JobResult<R, E>>, ghost admitted: nat)
    ensures |outputs| == |items|
    ensures forall i | 0 <= i < |items| :: outputs[i] == RunJob(operation, i, items[i]) || outputs[i] == Failure(Cancelled)
    ensures Admitted(operation, items, outputs, admitted)
  {
    var workerCount := BoundedWorkerCount(requested, |items|);
    if workerCount == 0 {
      return [], 0;
    }
    var pool := new Pool(operation, items, workerCount);
    while exists w: nat | w < |pool.workers| :: pool.Enabled(w)
      invariant pool.Valid() && fresh(pool) && |pool.workers| == workerCount
      decreases pool.Remaining()
    {
      var w: nat :| w < |pool.workers| && pool.Enabled(w);
      pool.Advance(w);
    }
    assert forall w: nat | w < |pool.workers| :: !pool.Enabled(w);
    pool.Joined();
    admitted := |items| - |pool.queue|;
    var results := pool.results;
    outputs := seq(|items|, i requires 0 <= i < |results| => if results[i].Some? then results[i].value else Failure(Cancelled));
  }

  // The error a caller reports

  datatype Selection<+R, +E> = Values(values: seq<R>) | Primary(index: nat, error: ScheduleError<E>)

  /** Running the jobs from `i` on one at a time, up to the first failure. */
  function Sequential<T, R, E>(operation: (nat, T) -> Completion<R, E>, items: seq<T>, i: nat): Selection<R, E>
    requires i <= |items|
    decreases |items| - i
  {
    if i == |items| then Values([])
    else
      match RunJob(operation, i, items[i])
      case Failure(error) => Primary(i, error)
      case Success(value) =>
        match Sequential(operation, items, i + 1)
        case Primary(index, error) => Primary(index, error)
        case Values(rest) => Values([value] + rest)
  }

  /** The first failure of any kind, as `projection::collect` selects it. */
  ghost predicate IsFirst<R, E>(outputs: seq<JobResult<R, E>>, selection: Selection<R, E>) {
    match selection
    case Values(values) =>
      |values| == |outputs| && forall i | 0 <= i < |outputs| :: outputs[i] == Success(values[i])
    case Primary(index, error) =>
      && index < |outputs| && outputs[index] == Failure(error)
      && forall i | 0 <= i < index :: outputs[i].Success?
  }

  /** `projection::collect` */
  method CollectFirst<R, E>(outputs: seq<JobResult<R, E>>) returns (selection: Selection<R, E>)
    ensures IsFirst(outputs, selection)
  {
    var values := [];
    for i := 0 to |outputs|
      invariant IsFirst(outputs[..i], Values(values))
    {
      assert outputs[..i + 1] == outputs[..i] + [outputs[i]];
      match outputs[i] {
        case Failure(error) =>
          assert forall k | 0 <= k < i :: outputs[k] == outputs[..i][k];
          return Primary(i, error);
        case Success(value) =>
          values := values + [value];
      }
    }
    assert outputs[..|outputs|] == outputs;
    selection := Values(values);
  }

  function Successes<R, E>(outputs: seq<JobResult<R, E>>): seq<R> {
    if outputs == [] then []
    else
      var before := Successes(outputs[..|outputs| - 1]);
      match outputs[|outputs| - 1]
      case Success(value) => before + [value]
      case Failure(_) => before
  }

  predicate Genuine<R, E>(r: JobResult<R, E>) {
    r.Failure? && r != Failure(Cancelled)
  }

  /** `stage::collect`: the first failure that is not a cancellation, and every value to clean up. */
  method CollectPrimary<R, E(==)>(outputs: seq<JobResult<R, E>>)
    returns (primary: Option<(nat, ScheduleError<E>)>, values: seq<R>)
    ensures values == Successes(outputs)
    ensures primary.None? ==> forall i | 0 <= i < |outputs| :: !Genuine(outputs[i])
    ensures primary.Some? ==>
              var (index, error) := primary.value;
              && index < |outputs| && outputs[index] == Failure(error) && Genuine(outputs[index])
              && forall i | 0 <= i < index :: !Genuine(outputs[i])
  {
    primary, values := None, [];
    for i := 0 to |outputs|
      invariant values == Successes(outputs[..i])
      invariant primary.None? ==> forall k | 0 <= k < i :: !Genuine(outputs[k])
      invariant primary.Some? ==>
                  var (index, error) := primary.value;
                  && index < i && outputs[index] == Failure(error) && Genuine(outputs[index])
                  && forall k | 0 <= k < index :: !Genuine(outputs[k])
    {
      assert outputs[..i + 1][..i] == outputs[..i];
      match outputs[i] {
        case Success(value) =>
          values := values + [value];
        case Failure(Cancelled) =>
        case Failure(error) =>
          if primary.None? {
            primary := Some((i, error));
          }
      }
    }
    assert outputs[..|outputs|] == outputs;
  }

  /** The lowest failing job always ran, holds its own error, and has only successes below it: so
      what either caller reports is what running the jobs one by one would report, whatever the
      number of workers and their interleaving. */
  lemma {:induction false} FirstIsSequential<T, R, E>(
      operation: (nat, T) -> Completion<R, E>, items: seq<T>, outputs: seq<JobResult<R, E>>, admitted: nat, i: nat)
    requires Admitted(operation, items, outputs, admitted) && i <= |items|
    requires forall k | 0 <= k < i :: outputs[k].Success?
    ensures match Sequential(operation, items, i)
            case Values(values) =>
              && admitted == |items| && |values| == |items| - i
              && forall k | i <= k < |items| :: outputs[k] == Success(values[k - i])
            case Primary(index, error) =>
              && i <= index < admitted && outputs[index] == Failure(error) && error != Cancelled
              && forall k | 0 <= k < index :: outputs[k].Success?
    decreases |items| - i
  {
    if i < |items| {
      assert i < admitted;
      if outputs[i].Success? {
        FirstIsSequential(operation, items, outputs, admitted, i + 1);
      }
    }
  }

  lemma ScheduleIndependent<T, R, E>(
      operation: (nat, T) -> Completion<R, E>, items: seq<T>, outputs: seq<JobResult<R, E>>, admitted: nat,
      selection: Selection<R, E>)
    requires Admitted(operation, items, outputs, admitted)
    ensures IsFirst(outputs, selection) <==> selection == Sequential(operation, items, 0)
  {
    FirstIsSequential(operation, items, outputs, admitted, 0);
    match Sequential(operation, items, 0) {
      case Primary(_, _) =>
      case Values(values) =>
        if IsFirst(outputs, selection) && selection.Values? {
          assert forall i | 0 <= i < |values| :: outputs[i] == Success(selection.values[i]);
          assert selection.values == values;
        }
    }
  }

  /** The staging caller skips cancellations and still reports the same error. */
  lemma PrimaryIndependent<T, R, E>(
      operation: (nat, T) -> Completion<R, E>, items: seq<T>, outputs: seq<JobResult<R, E>>, admitted: nat, index: nat)
    requires Admitted(operation, items, outputs, admitted) && index < |outputs|
    ensures Genuine(outputs[index]) && (forall i | 0 <= i < index :: !Genuine(outputs[i])) <==>
            Sequential(operation, items, 0).Primary? && Sequential(operation, items, 0).index == index
  {
    FirstIsSequential(operation, items, outputs, admitted, 0);
  }
}
