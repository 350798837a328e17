/** The V1 edit journal: its records and their replay. */
module EditJournal {
  import opened Outcomes
  import opened Filesystem
  import R = Records
  import Indices

  datatype FileRecord = FileRecord(path: R.PathName, oldSha256: Digest, newSha256: Digest, bytesBefore: nat, bytesAfter: nat, editCount: nat)

  datatype EditRecord =
    | Header(transaction: R.TransactionId, fileCount: nat)
    | PreparedFile(index: nat, file: FileRecord)
    | Prepared(fileCount: nat)
    | CommitIntent(index: nat)
    | CommitDone(index: nat)
    | RollbackIntent(index: nat)
    | RollbackDone(index: nat)
    | Finished(outcome: R.FinishOutcome)

  datatype Parsed = Parsed(
    transaction: R.TransactionId,
    fileCount: nat,
    files: map<nat, FileRecord>,
    prepared: bool,
    intents: set<nat>,
    committed: set<nat>,
    rollbackIntents: set<nat>,
    finished: Option<R.FinishOutcome>)

  function Start(limits: R.Limits, header: EditRecord): Result<Parsed> {
    if header.Header? && header.fileCount <= limits.maxFiles
    then Ok(Parsed(header.transaction, header.fileCount, map[], false, {}, {}, {}, None))
    else Corrupt
  }

  /** One record more.  Unlike the intents, a completed rollback may be recorded again. */
  function Step(p: Parsed, r: EditRecord): Result<Parsed> {
    if p.finished.Some? then Corrupt
    else
      match r
      case Header(_, _) => Corrupt
      case PreparedFile(index, file) =>
        if p.prepared || index >= p.fileCount || index in p.files then Corrupt
        else Ok(p.(files := p.files[index := file]))
      case Prepared(count) =>
        if p.prepared || count != p.fileCount || |p.files| != p.fileCount then Corrupt
        else Ok(p.(prepared := true))
      case CommitIntent(index) =>
        if !p.prepared || index !in p.files || index in p.intents then Corrupt
        else Ok(p.(intents := p.intents + {index}))
      case CommitDone(index) =>
        if index !in p.intents || index in p.committed then Corrupt
        else Ok(p.(committed := p.committed + {index}))
      case RollbackIntent(index) =>
        if index !in p.intents || index in p.rollbackIntents then Corrupt
        else Ok(p.(rollbackIntents := p.rollbackIntents + {index}))
      case RollbackDone(index) =>
        if index !in p.rollbackIntents then Corrupt else Ok(p)
      case Finished(outcome) => Ok(p.(finished := Some(outcome)))
  }

  function Run(p: Parsed, records: seq<EditRecord>): Result<Parsed> {
    if records == [] then Ok(p)
    else
      match Run(p, records[..|records| - 1])
      case Corrupt => Corrupt
      case Ok(before) => Step(before, records[|records| - 1])
  }

  predicate FileWithinLimits(limits: R.Limits, file: FileRecord) {
    file.bytesBefore <= limits.maxSourceBytes && file.bytesAfter <= limits.maxOutputBytes && file.editCount <= limits.maxEdits
  }

  predicate WithinLimits(limits: R.Limits, p: Parsed) {
    forall k | k in p.files :: FileWithinLimits(limits, p.files[k])
  }

  /** `parse_journal` */
  function Parse(limits: R.Limits, records: seq<EditRecord>): Result<Parsed> {
    if records == [] then Corrupt
    else
      match Start(limits, records[0])
      case Corrupt => Corrupt
      case Ok(start) =>
        match Run(start, records[1..])
        case Corrupt => Corrupt
        case Ok(parsed) => if WithinLimits(limits, parsed) then Ok(parsed) else Corrupt
  }

  lemma RunAppend(p: Parsed, records: seq<EditRecord>, r: EditRecord)
    ensures Run(p, records + [r]) == match Run(p, records) { case Corrupt => Corrupt case Ok(before) => Step(before, r) }
  {
    assert (records + [r])[..|records|] == records;
  }

  /** A record after preparation is accepted or not by its own step alone. */
  lemma ParseAppend(limits: R.Limits, records: seq<EditRecord>, r: EditRecord)
    requires Parse(limits, records).Ok? && Parse(limits, records).value.prepared
    ensures Parse(limits, records + [r]) == Step(Parse(limits, records).value, r)
  {
    assert (records + [r])[0] == records[0] && (records + [r])[1..] == records[1..] + [r];
    RunAppend(Start(limits, records[0]).value, records[1..], r);
  }

  lemma {:induction false} RunConcat(p: Parsed, records: seq<EditRecord>, more: seq<EditRecord>)
    ensures Run(p, records + more) == match Run(p, records) { case Corrupt => Corrupt case Ok(middle) => Run(middle, more) }
    decreases |more|
  {
    if more == [] {
      assert records + more == records;
    } else {
      var most := more[..|more| - 1];
      RunConcat(p, records, most);
      assert (records + more)[..|records + more| - 1] == records + most;
    }
  }

  lemma {:induction false} PreparedFiles(p: Parsed, more: seq<EditRecord>)
    requires p.prepared && Run(p, more).Ok?
    ensures Run(p, more).value.prepared && Run(p, more).value.files == p.files
    decreases |more|
  {
    if more != [] {
      PreparedFiles(p, more[..|more| - 1]);
    }
  }

  /** After preparation a journal replays record by record on top of what it holds. */
  lemma ParseMore(limits: R.Limits, records: seq<EditRecord>, p: Parsed, more: seq<EditRecord>)
    requires Parse(limits, records) == Ok(p) && p.prepared
    ensures Parse(limits, records + more) == Run(p, more)
  {
    assert (records + more)[0] == records[0] && (records + more)[1..] == records[1..] + more;
    RunConcat(Start(limits, records[0]).value, records[1..], more);
    if Run(p, more).Ok? {
      PreparedFiles(p, more);
    }
  }

  lemma {:induction false} RunFails(p: Parsed, records: seq<EditRecord>, n: nat)
    requires n <= |records| && Run(p, records[..n]).Corrupt?
    ensures Run(p, records).Corrupt?
    decreases |records|
  {
    if n == |records| {
      assert records[..n] == records;
    } else {
      var most := records[..|records| - 1];
      assert most[..n] == records[..n];
      RunFails(p, most, n);
    }
  }

  /** A rejected journal stays rejected. */
  lemma RejectedStays(limits: R.Limits, records: seq<EditRecord>, more: seq<EditRecord>)
    requires records != [] && Start(limits, records[0]).Ok? && Run(Start(limits, records[0]).value, records[1..]).Corrupt?
    ensures Parse(limits, records + more).Corrupt?
  {
    var all := (records + more)[1..];
    assert (records + more)[0] == records[0] && all[..|records| - 1] == records[1..];
    RunFails(Start(limits, records[0]).value, all, |records| - 1);
  }

  // The language of V1 journals, without the automaton

  /** The record may follow these in a journal of `n` files.  Nothing asks for order, nor for a completed
      rollback to be recorded once. */
  ghost predicate Follows(n: nat, before: seq<EditRecord>, r: EditRecord) {
    && (forall outcome :: Finished(outcome) !in before)
    && match r
       case Header(_, _) => false
       case PreparedFile(i, _) => i < n && Prepared(n) !in before && forall file :: PreparedFile(i, file) !in before
       case Prepared(count) => count == n && Prepared(n) !in before && forall i: nat | i < n :: Planned(before, i)
       case CommitIntent(i) => i < n && Prepared(n) in before && CommitIntent(i) !in before
       case CommitDone(i) => CommitIntent(i) in before && CommitDone(i) !in before
       case RollbackIntent(i) => CommitIntent(i) in before && RollbackIntent(i) !in before
       case RollbackDone(i) => RollbackIntent(i) in before
       case Finished(_) => true
  }

  ghost predicate Planned(records: seq<EditRecord>, i: nat) {
    exists file :: PreparedFile(i, file) in records
  }

  /** A header within the limits, then files within the limits and records that may follow. */
  ghost predicate Accepted(limits: R.Limits, records: seq<EditRecord>) {
    && records != [] && records[0].Header? && records[0].fileCount <= limits.maxFiles
    && (forall k | 0 < k < |records| :: Follows(records[0].fileCount, records[..k], records[k]))
    && forall k | 0 < k < |records| && records[k].PreparedFile? ::
         var file := records[k].file;
         file.bytesBefore <= limits.maxSourceBytes && file.bytesAfter <= limits.maxOutputBytes && file.editCount <= limits.maxEdits
  }

  /** What the records say. */
  ghost predicate Recounts(p: Parsed, records: seq<EditRecord>) {
    && (forall i: nat, file :: PreparedFile(i, file) in records <==> i in p.files && p.files[i] == file)
    && (forall i | i in p.files :: i < p.fileCount)
    && (p.prepared <==> Prepared(p.fileCount) in records)
    && (p.prepared ==> forall i: nat | i < p.fileCount :: i in p.files)
    && (forall i: nat :: CommitIntent(i) in records <==> i in p.intents)
    && (forall i: nat :: CommitDone(i) in records <==> i in p.committed)
    && (forall i: nat :: RollbackIntent(i) in records <==> i in p.rollbackIntents)
    && (forall outcome :: Finished(outcome) in records <==> p.finished == Some(outcome))
    && (forall i | i in p.intents :: i < p.fileCount)
  }

  lemma StepIff(p: Parsed, records: seq<EditRecord>, r: EditRecord)
    requires Recounts(p, records) && (p.intents != {} ==> p.prepared)
    ensures Step(p, r).Ok? <==> Follows(p.fileCount, records, r)
    ensures Step(p, r).Ok? ==>
              var next := Step(p, r).value;
              && Recounts(next, records + [r]) && (next.intents != {} ==> next.prepared)
              && next.fileCount == p.fileCount && next.transaction == p.transaction
  {
    if r.Prepared? { PlannedAll(p, records); }
    if r.PreparedFile? && r.index in p.files { assert PreparedFile(r.index, p.files[r.index]) in records; }
    if p.finished.Some? { assert Finished(p.finished.value) in records; }
  }

  lemma PlannedAll(p: Parsed, records: seq<EditRecord>)
    requires Recounts(p, records)
    ensures |p.files| == p.fileCount <==> forall i: nat | i < p.fileCount :: Planned(records, i)
    ensures |p.files| == p.fileCount ==> forall i: nat | i < p.fileCount :: i in p.files
  {
    assert |p.files| == |p.files.Keys|;
    if |p.files| == p.fileCount {
      Indices.AllIndices(p.files.Keys, p.fileCount);
      forall i: nat | i < p.fileCount ensures Planned(records, i) {
        assert PreparedFile(i, p.files[i]) in records;
      }
    }
    if forall i: nat | i < p.fileCount :: Planned(records, i) {
      forall i: nat | i < p.fileCount ensures i in p.files {
        assert Planned(records, i);
        var file :| PreparedFile(i, file) in records;
      }
      assert forall i: nat :: i in p.files.Keys <==> i < p.fileCount;
      Indices.IndexCount(p.files.Keys, p.fileCount);
    }
  }

  lemma {:induction false} RunIff(limits: R.Limits, header: EditRecord, tail: seq<EditRecord>)
    requires Start(limits, header).Ok?
    ensures var result := Run(Start(limits, header).value, tail);
            && (result.Ok? <==> forall k | 0 <= k < |tail| :: Follows(header.fileCount, [header] + tail[..k], tail[k]))
            && (result.Ok? ==>
                  && Recounts(result.value, [header] + tail) && (result.value.intents != {} ==> result.value.prepared)
                  && result.value.fileCount == header.fileCount && result.value.transaction == header.transaction)
    decreases |tail|
  {
    hide Follows, Step, Recounts;
    var start := Start(limits, header).value;
    if tail == [] {
      assert Recounts(start, [header] + tail) by { NothingRecounted(limits, header); assert [header] + tail == [header]; }
    } else {
      var n := |tail| - 1;
      var most := tail[..n];
      RunIff(limits, header, most);
      assert forall k | 0 <= k < n :: most[..k] == tail[..k] && most[k] == tail[k];
      assert [header] + tail == [header] + most + [tail[n]];
      if Run(start, most).Ok? {
        StepIff(Run(start, most).value, [header] + most, tail[n]);
      }
    }
  }

  lemma NothingRecounted(limits: R.Limits, header: EditRecord)
    requires Start(limits, header).Ok?
    ensures Recounts(Start(limits, header).value, [header])
  {
  }

  /** Replay accepts exactly these journals, and holds exactly what they record. */
  lemma ParsesIff(limits: R.Limits, records: seq<EditRecord>)
    ensures Parse(limits, records).Ok? <==> Accepted(limits, records)
    ensures Parse(limits, records).Ok? ==>
              var p := Parse(limits, records).value;
              Recounts(p, records) && p.transaction == records[0].transaction && p.fileCount == records[0].fileCount
  {
    hide Follows, Recounts;
    if records != [] && Start(limits, records[0]).Ok? {
      var header, tail := records[0], records[1..];
      var result := Run(Start(limits, header).value, tail);
      RunIff(limits, header, tail);
      assert records == [header] + tail;
      forall k | 0 <= k < |tail|
        ensures Follows(header.fileCount, [header] + tail[..k], tail[k]) <==> Follows(header.fileCount, records[..k + 1], records[k + 1])
      {
        assert [header] + tail[..k] == records[..k + 1];
      }
      assert (forall k | 0 < k < |records| :: Follows(header.fileCount, records[..k], records[k])) <==> result.Ok? by {
        assert forall k | 0 < k < |records| ::
            Follows(header.fileCount, [header] + tail[..k - 1], tail[k - 1]) <==> Follows(header.fileCount, records[..k], records[k]);
      }
      if result.Ok? { LimitsIff(limits, result.value, records); }
    }
  }

  lemma LimitsIff(limits: R.Limits, p: Parsed, records: seq<EditRecord>)
    requires Recounts(p, records) && records != [] && records[0].Header?
    ensures WithinLimits(limits, p) <==>
            forall k | 0 < k < |records| && records[k].PreparedFile? ::
              var file := records[k].file;
              file.bytesBefore <= limits.maxSourceBytes && file.bytesAfter <= limits.maxOutputBytes && file.editCount <= limits.maxEdits
  {
    forall k | 0 < k < |records| && records[k].PreparedFile?
      ensures records[k].index in p.files && p.files[records[k].index] == records[k].file
    {
      assert PreparedFile(records[k].index, records[k].file) in records;
    }
    forall i | i in p.files
      ensures exists k :: 0 < k < |records| && records[k] == PreparedFile(i, p.files[i])
    {
      assert PreparedFile(i, p.files[i]) in records;
      var k :| 0 <= k < |records| && records[k] == PreparedFile(i, p.files[i]);
      assert k != 0;
    }
  }

  lemma NothingRun(start: Parsed, entries: seq<EditRecord>)
    requires entries != []
    ensures Run(start, entries[1..1]) == Ok(start)
  {
  }

  lemma RunNext(start: Parsed, entries: seq<EditRecord>, i: nat)
    requires 1 <= i < |entries| && Run(start, entries[1..i]).Ok?
    ensures Run(start, entries[1..i + 1]) == Step(Run(start, entries[1..i]).value, entries[i])
  {
    assert entries[1..i + 1] == entries[1..i] + [entries[i]];
    RunAppend(start, entries[1..i], entries[i]);
  }

  lemma RejectedAt(limits: R.Limits, entries: seq<EditRecord>, i: nat)
    requires 1 <= i < |entries| && Start(limits, entries[0]).Ok? && Run(Start(limits, entries[0]).value, entries[1..i + 1]).Corrupt?
    ensures Parse(limits, entries).Corrupt?
  {
    assert entries[..i + 1][1..] == entries[1..i + 1] && entries == entries[..i + 1] + entries[i + 1..];
    RejectedStays(limits, entries[..i + 1], entries[i + 1..]);
  }

  /** The loop of `parse_journal`, over its own sets. */
  method ParseJournal(limits: R.Limits, entries: seq<EditRecord>) returns (result: Result<Parsed>)
    ensures result == Parse(limits, entries)
  {
    hide Run, WithinLimits;
    if entries == [] || !entries[0].Header? || entries[0].fileCount > limits.maxFiles { return Corrupt; }
    var fileCount := entries[0].fileCount;
    var files: map<nat, FileRecord> := map[];
    var intents: set<nat>, committed: set<nat>, rollbackIntents: set<nat> := {}, {}, {};
    var finished: Option<R.FinishOutcome>, prepared := None, false;
    ghost var start := Start(limits, entries[0]).value;
    NothingRun(start, entries);
    var i := 1;
    while i < |entries|
      invariant 1 <= i <= |entries|
      invariant Run(start, entries[1..i]) ==
                Ok(Parsed(entries[0].transaction, fileCount, files, prepared, intents, committed, rollbackIntents, finished))
    {
      RunNext(start, entries, i);
      var accepted := finished.None?;
      match entries[i] {
        case Header(_, _) =>
          accepted := false;
        case PreparedFile(index, file) =>
          accepted := accepted && !prepared && index < fileCount && index !in files;
          files := files[index := file];
        case Prepared(count) =>
          accepted := accepted && !prepared && count == fileCount && |files| == fileCount;
          prepared := true;
        case CommitIntent(index) =>
          accepted := accepted && prepared && index in files && index !in intents;
          intents := intents + {index};
        case CommitDone(index) =>
          accepted := accepted && index in intents && index !in committed;
          committed := committed + {index};
        case RollbackIntent(index) =>
          accepted := accepted && index in intents && index !in rollbackIntents;
          rollbackIntents := rollbackIntents + {index};
        case RollbackDone(index) =>
          accepted := accepted && index in rollbackIntents;
        case Finished(outcome) =>
          finished := Some(outcome);
      }
      if !accepted {
        RejectedAt(limits, entries, i);
        return Corrupt;
      }
      i := i + 1;
    }
    assert entries[1..i] == entries[1..];
    var parsed := Parsed(entries[0].transaction, fileCount, files, prepared, intents, committed, rollbackIntents, finished);
    result := if WithinLimits(limits, parsed) then Ok(parsed) else Corrupt;
  }
}
