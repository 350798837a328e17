/** The state directory over whole runs: pending journals, the root lock, and the receipt store's
    capacity. */
module Stores {
  import opened Outcomes
  import opened Records

  /** A stored receipt: the bytes of the backups it retains, and its own. */
  datatype StoredReceipt = StoredReceipt(retainedBytes: nat, storedBytes: nat)

  type Receipts = map<TransactionId, StoredReceipt>

  /** The configured bounds. */
  datatype StoreLimits = StoreLimits(maxReceipts: nat, maxBytes: nat, maxJournalBytes: nat)

  /** One caller's own bounds on what it retains. */
  datatype Retention = Retention(maxReceipts: nat, maxBytes: nat)

  function Cost(r: StoredReceipt): nat {
    r.retainedBytes + r.storedBytes
  }

  ghost function TotalCost(receipts: Receipts): nat
    decreases |receipts|
  {
    if receipts == map[] then 0
    else
      var k :| k in receipts;
      TotalCost(receipts - {k}) + Cost(receipts[k])
  }

  /** The total does not depend on the order of the receipts. */
  lemma {:induction false} TotalWithout(receipts: Receipts, k: TransactionId)
    requires k in receipts
    ensures TotalCost(receipts) == TotalCost(receipts - {k}) + Cost(receipts[k])
    decreases |receipts|
  {
    var j :| j in receipts && TotalCost(receipts) == TotalCost(receipts - {j}) + Cost(receipts[j]);
    if j != k {
      TotalWithout(receipts - {j}, k);
      TotalWithout(receipts - {k}, j);
      assert receipts - {j} - {k} == receipts - {k} - {j};
    }
  }

  lemma NoReceipts()
    ensures TotalCost(map[]) == 0
  {
  }

  lemma TotalAdded(receipts: Receipts, k: TransactionId, r: StoredReceipt)
    requires k !in receipts
    ensures TotalCost(receipts[k := r]) == TotalCost(receipts) + Cost(r)
  {
    TotalWithout(receipts[k := r], k);
    assert receipts[k := r] - {k} == receipts;
  }

  /** The total of one number per receipt. */
  ghost function Sum(receipts: Receipts, of: StoredReceipt -> nat): nat
    decreases |receipts|
  {
    if receipts == map[] then 0
    else
      var k :| k in receipts;
      Sum(receipts - {k}, of) + of(receipts[k])
  }

  lemma {:induction false} SumWithout(receipts: Receipts, of: StoredReceipt -> nat, k: TransactionId)
    requires k in receipts
    ensures Sum(receipts, of) == Sum(receipts - {k}, of) + of(receipts[k])
    decreases |receipts|
  {
    var j :| j in receipts && Sum(receipts, of) == Sum(receipts - {j}, of) + of(receipts[j]);
    if j != k {
      SumWithout(receipts - {j}, of, k);
      SumWithout(receipts - {k}, of, j);
      assert receipts - {j} - {k} == receipts - {k} - {j};
    }
  }

  ghost function RetainedBytes(receipts: Receipts): nat {
    Sum(receipts, (r: StoredReceipt) => r.retainedBytes)
  }

  ghost function StoredBytes(receipts: Receipts): nat {
    Sum(receipts, (r: StoredReceipt) => r.storedBytes)
  }

  /** The total is that of the retained bytes and of the receipts' own. */
  lemma {:induction false} TotalSplits(receipts: Receipts)
    ensures TotalCost(receipts) == RetainedBytes(receipts) + StoredBytes(receipts)
    decreases |receipts|
  {
    if receipts != map[] {
      var k :| k in receipts;
      TotalWithout(receipts, k);
      SumWithout(receipts, (r: StoredReceipt) => r.retainedBytes, k);
      SumWithout(receipts, (r: StoredReceipt) => r.storedBytes, k);
      TotalSplits(receipts - {k});
    }
  }

  /** Reading refuses a receipt larger than the journal bound, which writing does not check. */
  predicate Readable(limits: StoreLimits, r: StoredReceipt) {
    r.storedBytes <= limits.maxJournalBytes
  }

  ghost predicate WithinBounds(limits: StoreLimits, receipts: Receipts) {
    |receipts| <= limits.maxReceipts && TotalCost(receipts) <= limits.maxBytes
  }

  ghost predicate AllReadable(limits: StoreLimits, receipts: Receipts) {
    forall k | k in receipts :: Readable(limits, receipts[k])
  }

  lemma UsageIff(limits: StoreLimits, receipts: Receipts)
    ensures TotalCost(receipts) == RetainedBytes(receipts) + StoredBytes(receipts)
    ensures WithinBounds(limits, receipts) && AllReadable(limits, receipts) <==>
            && |receipts| <= limits.maxReceipts && RetainedBytes(receipts) + StoredBytes(receipts) <= limits.maxBytes
            && forall k | k in receipts :: receipts[k].storedBytes <= limits.maxJournalBytes
  {
    TotalSplits(receipts);
  }

  /** `store_usage`: the counts, in whatever order the receipts are listed; it fails exactly when
      the store is over a bound or holds a receipt it cannot read. */
  method StoreUsage(limits: StoreLimits, receipts: Receipts) returns (usage: Option<(nat, nat)>)
    ensures usage.Some? <==>
            && |receipts| <= limits.maxReceipts && RetainedBytes(receipts) + StoredBytes(receipts) <= limits.maxBytes
            && forall k | k in receipts :: receipts[k].storedBytes <= limits.maxJournalBytes
    ensures usage.Some? ==> usage.value == (|receipts|, RetainedBytes(receipts) + StoredBytes(receipts))
  {
    hide TotalCost, RetainedBytes, StoredBytes;
    TotalSplits(receipts);
    NoReceipts();
    if |receipts| > limits.maxReceipts { return None; }
    var bytes, left := 0, receipts;
    while left != map[]
      invariant forall k | k in left :: k in receipts && left[k] == receipts[k]
      invariant forall k | k in receipts && k !in left :: Readable(limits, receipts[k])
      invariant bytes + TotalCost(left) == TotalCost(receipts) && bytes <= limits.maxBytes
      decreases |left|
    {
      var id :| id in left;
      TotalWithout(left, id);
      if !Readable(limits, receipts[id]) { return None; }
      bytes := bytes + Cost(receipts[id]);
      if bytes > limits.maxBytes { return None; }
      left := left - {id};
    }
    usage := Some((|receipts|, bytes));
  }

  predicate ValidPolicy(limits: StoreLimits, policy: Retention) {
    0 < policy.maxReceipts <= limits.maxReceipts && 0 < policy.maxBytes <= limits.maxBytes
  }

  /** There is room for one more receipt, for the caller and for the store. */
  ghost predicate Room(limits: StoreLimits, policy: Retention, receipts: Receipts, r: StoredReceipt) {
    && ValidPolicy(limits, policy) && WithinBounds(limits, receipts) && AllReadable(limits, receipts)
    && |receipts| + 1 <= policy.maxReceipts && TotalCost(receipts) + Cost(r) <= policy.maxBytes
  }

  /** `prepare_retention`, up to the write. */
  method PrepareRetention(limits: StoreLimits, policy: Retention, receipts: Receipts, id: TransactionId, r: StoredReceipt)
    returns (result: Option<Receipts>)
    requires id !in receipts
    ensures result.Some? <==> Room(limits, policy, receipts, r)
    ensures result.Some? ==> result.value == receipts[id := r] && WithinBounds(limits, result.value)
    ensures result.Some? ==> |result.value| <= policy.maxReceipts && TotalCost(result.value) <= policy.maxBytes
    ensures result.Some? ==> (AllReadable(limits, result.value) <==> Readable(limits, r))
    ensures result.Some? <==>
            && 0 < policy.maxReceipts <= limits.maxReceipts && 0 < policy.maxBytes <= limits.maxBytes
            && |receipts| < policy.maxReceipts
            && RetainedBytes(receipts) + StoredBytes(receipts) + r.retainedBytes + r.storedBytes <= policy.maxBytes
            && forall k | k in receipts :: receipts[k].storedBytes <= limits.maxJournalBytes
  {
    hide TotalCost, RetainedBytes, StoredBytes;
    UsageIff(limits, receipts);
    if !ValidPolicy(limits, policy) { return None; }
    var usage := StoreUsage(limits, receipts);
    if usage.None? { return None; }
    var (count, bytes) := usage.value;
    if count + 1 > policy.maxReceipts || count + 1 > limits.maxReceipts { return None; }
    if bytes + Cost(r) > policy.maxBytes || bytes + Cost(r) > limits.maxBytes { return None; }
    TotalAdded(receipts, id, r);
    assert receipts[id := r].Keys == receipts.Keys + {id};
    result := Some(receipts[id := r]);
    assert Readable(limits, r) ==> AllReadable(limits, result.value);
    assert result.value[id] == r;
  }

  // Whole runs under the root lock

  datatype Journal = EditJournal | OperationJournal | UndoJournal

  /** What the state directory holds. */
  datatype Store = Store(active: set<Journal>, receipts: Receipts)

  /** What the process that holds the root lock is doing. */
  datatype Task = Entering | Clear | Working(journal: Journal) | Recovering

  /** The directory as processes see it, every state it may show after a power loss, and the lock. */
  datatype Root = Root(store: Store, possible: set<Store>, holder: Option<nat>, task: Task)

  /** A process takes the lock when nobody holds it. */
  ghost predicate Acquire(r: Root, r': Root, process: nat) {
    r.holder.None? && r' == r.(holder := Some(process), task := Entering)
  }

  /** `ensure_no_pending`, or the same three probes before an edit. */
  ghost predicate CheckPending(r: Root, r': Root, process: nat) {
    r.holder == Some(process) && r.task == Entering && r.store.active == {} && r' == r.(task := Clear)
  }

  /** Recovery refuses more than one active journal. */
  ghost predicate BeginRecovery(r: Root, r': Root, process: nat) {
    r.holder == Some(process) && r.task == Entering && |r.store.active| <= 1 && r' == r.(task := Recovering)
  }

  ghost predicate Changes(r: Root, r': Root, store: Store, task: Task) {
    r' == r.(store := store, possible := r.possible + {store}, task := task)
  }

  ghost predicate CreateJournal(r: Root, r': Root, process: nat, journal: Journal) {
    r.holder == Some(process) && r.task == Clear && Changes(r, r', r.store.(active := r.store.active + {journal}), Working(journal))
  }

  /** The receipt of a retained commit, while its operation journal is active. */
  ghost predicate WriteReceipt(limits: StoreLimits, r: Root, r': Root, process: nat, policy: Retention, id: TransactionId, s: StoredReceipt) {
    && r.holder == Some(process) && r.task == Working(OperationJournal) && id !in r.store.receipts
    && Room(limits, policy, r.store.receipts, s)
    && Changes(r, r', r.store.(receipts := r.store.receipts[id := s]), r.task)
  }

  /** A receipt discarded, consumed by its undo, or transitional and taken back. */
  ghost predicate RemoveReceipt(r: Root, r': Root, process: nat, id: TransactionId) {
    r.holder == Some(process) && r.task != Entering && Changes(r, r', r.store.(receipts := r.store.receipts - {id}), r.task)
  }

  /** The end of a transaction or of its recovery. */
  ghost predicate RemoveJournal(r: Root, r': Root, process: nat, journal: Journal) {
    && r.holder == Some(process) && (r.task == Working(journal) || r.task == Recovering)
    && Changes(r, r', r.store.(active := r.store.active - {journal}), if r.task == Recovering then Recovering else Clear)
  }

  ghost predicate Synchronize(r: Root, r': Root) {
    r' == r.(possible := {r.store})
  }

  /** The holder is done, returns an error, or dies: the lock goes, the directory stays. */
  ghost predicate Release(r: Root, r': Root) {
    r' == r.(holder := None, task := Entering)
  }

  /** The power goes: the directory shows any of its possible states. */
  ghost predicate LosePower(r: Root, r': Root) {
    r'.store in r.possible && r' == Root(r'.store, {r'.store}, None, Entering)
  }

  ghost predicate Next(limits: StoreLimits, r: Root, r': Root) {
    || (exists p :: Acquire(r, r', p))
    || (exists p :: CheckPending(r, r', p))
    || (exists p :: BeginRecovery(r, r', p))
    || (exists p, j :: CreateJournal(r, r', p, j))
    || (exists p, policy, id, s :: WriteReceipt(limits, r, r', p, policy, id, s))
    || (exists p, id :: RemoveReceipt(r, r', p, id))
    || (exists p, j :: RemoveJournal(r, r', p, j))
    || Synchronize(r, r') || Release(r, r') || LosePower(r, r')
  }

  /** At most one journal, and the store within its bounds. */
  ghost predicate Sound(limits: StoreLimits, s: Store) {
    |s.active| <= 1 && WithinBounds(limits, s.receipts)
  }

  ghost predicate Invariant(limits: StoreLimits, r: Root) {
    && r.store in r.possible && (forall s | s in r.possible :: Sound(limits, s))
    && (r.holder.None? ==> r.task == Entering)
    && (r.task == Clear ==> r.store.active == {})
    && (r.task.Working? ==> r.store.active <= {r.task.journal})
  }

  lemma FewerReceipts(limits: StoreLimits, receipts: Receipts, id: TransactionId)
    requires WithinBounds(limits, receipts)
    ensures WithinBounds(limits, receipts - {id})
  {
    if id in receipts {
      TotalWithout(receipts, id);
      assert (receipts - {id}).Keys == receipts.Keys - {id};
    } else {
      assert receipts - {id} == receipts;
    }
  }

  lemma MoreReceipts(limits: StoreLimits, policy: Retention, receipts: Receipts, id: TransactionId, s: StoredReceipt)
    requires id !in receipts && Room(limits, policy, receipts, s)
    ensures WithinBounds(limits, receipts[id := s])
  {
    TotalAdded(receipts, id, s);
    assert receipts[id := s].Keys == receipts.Keys + {id};
  }

  lemma FewerJournals(active: set<Journal>, journal: Journal)
    ensures |active - {journal}| <= |active|
  {
    if journal in active { assert active == active - {journal} + {journal}; }
    else { assert active - {journal} == active; }
  }

  lemma ChangesKeep(limits: StoreLimits, r: Root, r': Root, store: Store, task: Task)
    requires Invariant(limits, r) && r.holder.Some? && Changes(r, r', store, task) && Sound(limits, store)
    requires task == Clear ==> store.active == {}
    requires task.Working? ==> store.active <= {task.journal}
    ensures Invariant(limits, r')
  {
  }

  lemma CreateKeeps(limits: StoreLimits, r: Root, r': Root, p: nat, journal: Journal)
    requires Invariant(limits, r) && CreateJournal(r, r', p, journal)
    ensures Invariant(limits, r')
  {
    var store := r.store.(active := r.store.active + {journal});
    assert store.active == {journal};
    ChangesKeep(limits, r, r', store, Working(journal));
  }

  lemma WriteKeeps(limits: StoreLimits, r: Root, r': Root, p: nat, policy: Retention, id: TransactionId, s: StoredReceipt)
    requires Invariant(limits, r) && WriteReceipt(limits, r, r', p, policy, id, s)
    ensures Invariant(limits, r')
  {
    MoreReceipts(limits, policy, r.store.receipts, id, s);
    ChangesKeep(limits, r, r', r.store.(receipts := r.store.receipts[id := s]), r.task);
  }

  lemma RemoveKeeps(limits: StoreLimits, r: Root, r': Root, p: nat, id: TransactionId)
    requires Invariant(limits, r) && RemoveReceipt(r, r', p, id)
    ensures Invariant(limits, r')
  {
    FewerReceipts(limits, r.store.receipts, id);
    ChangesKeep(limits, r, r', r.store.(receipts := r.store.receipts - {id}), r.task);
  }

  lemma RetireKeeps(limits: StoreLimits, r: Root, r': Root, p: nat, journal: Journal)
    requires Invariant(limits, r) && RemoveJournal(r, r', p, journal)
    ensures Invariant(limits, r')
  {
    FewerJournals(r.store.active, journal);
    ChangesKeep(limits, r, r', r.store.(active := r.store.active - {journal}), if r.task == Recovering then Recovering else Clear);
  }

  /** Every step keeps the invariant. */
  lemma NextKeeps(limits: StoreLimits, r: Root, r': Root)
    requires Invariant(limits, r) && Next(limits, r, r')
    ensures Invariant(limits, r')
  {
    hide WithinBounds, Room, CreateJournal, WriteReceipt, RemoveReceipt, RemoveJournal;
    if p, j :| CreateJournal(r, r', p, j) {
      CreateKeeps(limits, r, r', p, j);
    } else if p, policy, id, s :| WriteReceipt(limits, r, r', p, policy, id, s) {
      WriteKeeps(limits, r, r', p, policy, id, s);
    } else if p, id :| RemoveReceipt(r, r', p, id) {
      RemoveKeeps(limits, r, r', p, id);
    } else if p, j :| RemoveJournal(r, r', p, j) {
      RetireKeeps(limits, r, r', p, j);
    }
  }

  ghost predicate Run(limits: StoreLimits, run: seq<Root>) {
    forall n | 0 <= n < |run| - 1 :: Next(limits, run[n], run[n + 1])
  }

  /** In every run of any number of processes, with crashes, power losses and recoveries anywhere, at
      most one journal is ever active and the receipts never exceed the configured count and bytes;
      so recovery never meets two journals. */
  lemma {:induction false} RunKeeps(limits: StoreLimits, run: seq<Root>, n: nat)
    requires Run(limits, run) && n < |run| && Invariant(limits, run[0])
    ensures Invariant(limits, run[n]) && Sound(limits, run[n].store)
    decreases n
  {
    if n > 0 {
      RunKeeps(limits, run, n - 1);
      assert Next(limits, run[n - 1], run[n - 1 + 1]);
      NextKeeps(limits, run[n - 1], run[n]);
    }
  }
}
