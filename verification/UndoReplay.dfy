/** Replay of the undo journal. */
module UndoReplay {
  import opened Outcomes
  import opened Filesystem
  import opened Records
  import opened Indices

  datatype UndoState = UndoState(receipt: Receipt, pathCount: nat, intents: set<nat>, rolledBack: set<nat>, finished: bool)

  function UndoStart(limits: Limits, header: Record): Result<UndoState> {
    if header.Header? && header.contract.ReceiptContract? && header.operationCount == 0 && 0 < header.pathCount <= limits.maxFiles
    then Ok(UndoState(header.contract.receipt, header.pathCount, {}, {}, false))
    else Corrupt
  }

  function UndoStep(us: UndoState, r: Record): Result<UndoState> {
    if us.finished then Corrupt
    else
      match r
      case RollbackIntent(i) =>
        if i >= us.pathCount || i in us.intents then Corrupt else Ok(us.(intents := us.intents + {i}))
      case RollbackDone(i) =>
        if i >= us.pathCount || i !in us.intents || i in us.rolledBack then Corrupt
        else Ok(us.(rolledBack := us.rolledBack + {i}))
      case Finished(outcome) =>
        if outcome != RolledBack || |us.rolledBack| != us.pathCount || us.intents != us.rolledBack then Corrupt
        else Ok(us.(finished := true))
      case _ => Corrupt
  }

  function UndoParse(limits: Limits, records: seq<Record>): Result<UndoState> {
    if |records| == 0 then Corrupt
    else if |records| == 1 then UndoStart(limits, records[0])
    else
      match UndoParse(limits, records[..|records| - 1])
      case Corrupt => Corrupt
      case Ok(us) => UndoStep(us, records[|records| - 1])
  }

  lemma UndoParseAppend(limits: Limits, records: seq<Record>, r: Record)
    requires |records| > 0
    ensures UndoParse(limits, records + [r]) ==
            match UndoParse(limits, records) { case Corrupt => Corrupt case Ok(us) => UndoStep(us, r) }
  {
    assert (records + [r])[..|records|] == records;
  }

  // The language of undo journals, without the automaton

  /** The record may follow these: an intent of a path that has none, a completion of an intent that has
      none, or the end once every path is completed; nothing follows the end. */
  ghost predicate Follows(n: nat, before: seq<Record>, r: Record) {
    && (forall outcome :: Finished(outcome) !in before)
    && match r
       case RollbackIntent(i) => i < n && RollbackIntent(i) !in before
       case RollbackDone(i) => RollbackIntent(i) in before && RollbackDone(i) !in before
       case Finished(outcome) => outcome == RolledBack && forall i: nat | i < n :: RollbackDone(i) in before
       case _ => false
  }

  /** A header that names a receipt, no operation and some paths, then records that may follow. */
  ghost predicate UndoJournal(limits: Limits, records: seq<Record>) {
    && records != [] && records[0].Header? && records[0].contract.ReceiptContract?
    && records[0].operationCount == 0 && 0 < records[0].pathCount <= limits.maxFiles
    && forall k | 0 < k < |records| :: Follows(records[0].pathCount, records[..k], records[k])
  }

  /** What the records say. */
  ghost predicate Recounts(us: UndoState, records: seq<Record>) {
    && records != [] && records[0].Header? && records[0].contract.ReceiptContract?
    && us.receipt == records[0].contract.receipt && us.pathCount == records[0].pathCount
    && (forall i: nat :: i in us.intents <==> RollbackIntent(i) in records)
    && (forall i: nat :: i in us.rolledBack <==> RollbackDone(i) in records)
    && (us.finished <==> Finished(RolledBack) in records)
    && (forall outcome | Finished(outcome) in records :: outcome == RolledBack)
    && us.rolledBack <= us.intents && (forall i | i in us.intents :: i < us.pathCount)
  }

  /** Replay accepts exactly these journals, and holds exactly what they record. */
  lemma {:induction false} UndoParsesIff(limits: Limits, records: seq<Record>)
    ensures UndoParse(limits, records).Ok? <==> UndoJournal(limits, records)
    ensures UndoParse(limits, records).Ok? ==> Recounts(UndoParse(limits, records).value, records)
    decreases |records|
  {
    if |records| > 1 {
      var most, last := records[..|records| - 1], records[|records| - 1];
      UndoParsesIff(limits, most);
      assert forall k | 0 < k < |most| :: records[..k] == most[..k];
      assert records == most + [last];
      if UndoParse(limits, most).Ok? {
        UndoStepIff(UndoParse(limits, most).value, most, last);
      }
    }
  }

  lemma UndoStepIff(us: UndoState, records: seq<Record>, r: Record)
    requires Recounts(us, records)
    ensures UndoStep(us, r).Ok? <==> Follows(us.pathCount, records, r)
    ensures UndoStep(us, r).Ok? ==> Recounts(UndoStep(us, r).value, records + [r])
  {
    if us.rolledBack == us.intents && |us.rolledBack| == us.pathCount {
      AllIndices(us.rolledBack, us.pathCount);
    }
    if forall i: nat | i < us.pathCount :: RollbackDone(i) in records {
      assert forall i: nat | i < us.pathCount :: i in us.rolledBack;
      assert us.intents == us.rolledBack;
      assert forall i: nat :: i in us.rolledBack <==> i < us.pathCount;
      IndexCount(us.rolledBack, us.pathCount);
    }
  }

  /** Undo intents were taken from the last path downwards, each completed before the next. */
  ghost predicate Descends(us: UndoState, n: nat) {
    && us.pathCount == n
    && (forall i | i in us.intents :: i < n)
    && (forall i, k: nat | i in us.intents && i < k < n :: k in us.rolledBack)
    && us.rolledBack <= us.intents
  }

  lemma UndoIntentStep(us: UndoState, n: nat, i: nat)
    requires Descends(us, n) && !us.finished && i < n && i !in us.intents
    requires forall k: nat | i < k < n :: k in us.rolledBack
    ensures UndoStep(us, RollbackIntent(i)) == Ok(us.(intents := us.intents + {i}))
    ensures Descends(us.(intents := us.intents + {i}), n)
  {
  }

  lemma UndoDoneStep(us: UndoState, n: nat, i: nat)
    requires Descends(us, n) && !us.finished && i in us.intents && i !in us.rolledBack
    ensures UndoStep(us, RollbackDone(i)) == Ok(us.(rolledBack := us.rolledBack + {i}))
    ensures Descends(us.(rolledBack := us.rolledBack + {i}), n)
  {
  }

  lemma UndoFinishStep(us: UndoState, n: nat)
    requires Descends(us, n) && !us.finished && forall i: nat | i < n :: i in us.rolledBack
    ensures UndoStep(us, Finished(RolledBack)) == Ok(us.(finished := true))
  {
    assert forall i: nat :: i in us.rolledBack <==> i < n;
    assert us.intents == us.rolledBack;
    IndexCount(us.rolledBack, n);
  }

  /** Soundness: a finished undo journal restored every path of its receipt. */
  lemma {:induction false} FinishedUndo(limits: Limits, records: seq<Record>, us: UndoState)
    requires UndoParse(limits, records) == Ok(us)
    ensures us.rolledBack <= us.intents && (forall i | i in us.intents :: i < us.pathCount)
    ensures us.finished ==> us.intents == us.rolledBack && forall i: nat | i < us.pathCount :: i in us.rolledBack
    decreases |records|
  {
    if |records| > 1 {
      var most := records[..|records| - 1];
      FinishedUndo(limits, most, UndoParse(limits, most).value);
      if us.finished { AllIndices(us.rolledBack, us.pathCount); }
    }
  }
}
