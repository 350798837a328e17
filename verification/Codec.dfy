/** The journal file: one checksummed line per record, read back up to a torn tail. */
module Codec {
  import opened Outcomes
  import opened Filesystem
  import opened Records

  const NEWLINE: byte := 10

  datatype Schema = V2 | V3

  const CURRENT: Schema := V3

  /** A checksum of everything a line stores, modelled as collision free. */
  datatype Checksum = Checksum(schema: Schema, seqNumber: nat, record: Record)

  datatype Stored = Stored(schema: Schema, seqNumber: nat, record: Record, checksum: Checksum)

  /** The line encoding, abstractly. */
  datatype Encoding = Encoding(encode: Stored -> seq<byte>, decode: seq<byte> -> Option<Stored>)

  /** Decoding inverts encoding, and an encoded line is never empty and holds no newline. */
  ghost predicate Faithful(c: Encoding) {
    forall s :: c.decode(c.encode(s)) == Some(s) && c.encode(s) != [] && NEWLINE !in c.encode(s)
  }

  function StoredAs(schema: Schema, n: nat, r: Record): Stored {
    Stored(schema, n, r, Checksum(schema, n, r))
  }

  function Line(c: Encoding, schema: Schema, n: nat, r: Record): seq<byte> {
    c.encode(StoredAs(schema, n, r)) + [NEWLINE]
  }

  /** `validate_order` */
  predicate InOrder(n: nat, r: Record) {
    (n == 0) == r.Header?
  }

  // Lines

  function IndexOf(b: seq<byte>): (n: nat)
    requires NEWLINE in b
    ensures n < |b| && b[n] == NEWLINE && NEWLINE !in b[..n]
  {
    if b[0] == NEWLINE then 0
    else
      assert b == [b[0]] + b[1..];
      var n := 1 + IndexOf(b[1..]);
      assert b[..n] == [b[0]] + b[1..][..n - 1];
      n
  }

  /** The complete lines of a file, without their newlines; a torn tail is dropped. */
  function Lines(b: seq<byte>): seq<seq<byte>> {
    if NEWLINE !in b then [] else [b[..IndexOf(b)]] + Lines(b[IndexOf(b) + 1..])
  }

  /** The length of the complete lines. */
  function CompleteLength(b: seq<byte>): (n: nat)
    ensures n <= |b|
  {
    if NEWLINE !in b then 0 else IndexOf(b) + 1 + CompleteLength(b[IndexOf(b) + 1..])
  }

  predicate Whole(b: seq<byte>) {
    b == [] || b[|b| - 1] == NEWLINE
  }

  lemma FirstNewline(b: seq<byte>, k: nat)
    requires k < |b| && b[k] == NEWLINE
    ensures IndexOf(b) <= k
  {
    var n := IndexOf(b);
    assert forall j | 0 <= j < n :: b[j] == b[..n][j] && b[j] != NEWLINE;
  }

  lemma FirstLine(first: seq<byte>, rest: seq<byte>)
    requires NEWLINE !in first
    ensures var b := first + [NEWLINE] + rest;
            NEWLINE in b && IndexOf(b) == |first| && b[..IndexOf(b)] == first && b[IndexOf(b) + 1..] == rest
  {
    var b := first + [NEWLINE] + rest;
    assert b[|first|] == NEWLINE;
    var n := IndexOf(b);
    assert forall k | 0 <= k < |first| :: b[k] == first[k];
    FirstNewline(b, |first|);
  }

  lemma Cut(first: seq<byte>, rest: seq<byte>)
    requires NEWLINE !in first
    ensures var b := first + [NEWLINE] + rest;
            Lines(b) == [first] + Lines(rest) && CompleteLength(b) == |first| + 1 + CompleteLength(rest)
  {
    FirstLine(first, rest);
  }

  lemma SplitFirst(b: seq<byte>) returns (first: seq<byte>, rest: seq<byte>)
    requires b != [] && Whole(b)
    ensures NEWLINE !in first && b == first + [NEWLINE] + rest && Whole(rest)
  {
    assert b[|b| - 1] in b;
    var n := IndexOf(b);
    first, rest := b[..n], b[n + 1..];
    assert b == first + [NEWLINE] + rest;
  }

  /** Appending to a file of whole lines appends its lines. */
  lemma {:induction false} LinesAppend(b: seq<byte>, more: seq<byte>)
    requires Whole(b)
    ensures Lines(b + more) == Lines(b) + Lines(more)
    ensures CompleteLength(b + more) == |b| + CompleteLength(more)
    decreases |b|, 1
  {
    if b == [] {
      assert b + more == more;
    } else {
      LinesAppendStep(b, more);
    }
  }

  lemma LinesAppendStep(b: seq<byte>, more: seq<byte>)
    requires Whole(b) && b != []
    ensures Lines(b + more) == Lines(b) + Lines(more)
    ensures CompleteLength(b + more) == |b| + CompleteLength(more)
    decreases |b|, 0
  {
    hide Lines, CompleteLength;
    var first, rest := SplitFirst(b);
    Cut(first, rest);
    Cut(first, rest + more);
    assert b + more == first + [NEWLINE] + (rest + more);
    LinesAppend(rest, more);
    assert rest + [] == rest;
    LinesAppend(rest, []);
    NoLines();
  }

  lemma NoLines()
    ensures Lines([]) == [] && CompleteLength([]) == 0
  {
  }

  /** A torn tail adds no line. */
  lemma TornTail(b: seq<byte>, tail: seq<byte>)
    requires Whole(b) && NEWLINE !in tail
    ensures Lines(b + tail) == Lines(b) && CompleteLength(b + tail) == |b|
  {
    LinesAppend(b, tail);
  }

  lemma OneLine(line: seq<byte>)
    requires NEWLINE !in line
    ensures Lines(line + [NEWLINE]) == [line] && CompleteLength(line + [NEWLINE]) == |line| + 1
  {
    assert line + [NEWLINE] == line + [NEWLINE] + [];
    FirstLine(line, []);
  }

  // Reading

  datatype Journal = Journal(schema: Option<Schema>, records: seq<Record>)

  /** A journal of these records; an empty one has no schema yet. */
  function Reading(schema: Schema, records: seq<Record>): Journal {
    Journal(if records == [] then None else Some(schema), records)
  }

  /** One line on top of what has been read. */
  function ReadLine(c: Encoding, before: Journal, line: seq<byte>): Result<Journal> {
    if line == [] then Corrupt
    else
      match c.decode(line)
      case None => Corrupt
      case Some(stored) =>
        if before.schema.Some? && before.schema.value != stored.schema then Corrupt
        else if stored.seqNumber != |before.records| then Corrupt
        else if !InOrder(stored.seqNumber, stored.record) then Corrupt
        else if stored.checksum != Checksum(stored.schema, stored.seqNumber, stored.record) then Corrupt
        else Ok(Journal(Some(stored.schema), before.records + [stored.record]))
  }

  function ReadLines(c: Encoding, lines: seq<seq<byte>>): Result<Journal> {
    if lines == [] then Ok(Journal(None, []))
    else
      match ReadLines(c, lines[..|lines| - 1])
      case Corrupt => Corrupt
      case Ok(before) => ReadLine(c, before, lines[|lines| - 1])
  }

  /** `read_with_schema`: what a file of at most `max` bytes says, up to its torn tail. */
  function Read(c: Encoding, file: seq<byte>, max: nat): Result<Journal> {
    if max == 0 || |file| > max then Corrupt else ReadLines(c, Lines(file))
  }

  lemma ReadAppend(c: Encoding, lines: seq<seq<byte>>, line: seq<byte>)
    ensures ReadLines(c, lines + [line]) ==
            match ReadLines(c, lines) { case Corrupt => Corrupt case Ok(before) => ReadLine(c, before, line) }
  {
    assert (lines + [line])[..|lines|] == lines;
  }

  /** `read_with_schema` and `parse_complete`: a line at a time, until no newline is left. */
  method ReadFile(c: Encoding, file: seq<byte>, max: nat) returns (journal: Result<Journal>)
    ensures journal == Read(c, file, max)
    ensures journal.Ok? ==> 0 < max && |file| <= max && HeaderFirst(journal.value.records)
    ensures forall schema, records ::
              journal == Ok(Reading(schema, records)) <==> 0 < max && |file| <= max && SealedLines(c, Lines(file), schema, records)
  {
    hide Lines, ReadLines, ReadLine, SealedLines, HeaderFirst;
    forall schema, records
      ensures Read(c, file, max) == Ok(Reading(schema, records)) <==>
              0 < max && |file| <= max && SealedLines(c, Lines(file), schema, records)
    {
      ReadIff(c, Lines(file), schema, records);
    }
    if Read(c, file, max).Ok? {
      ReadsSealed(c, Lines(file));
    }
    if max == 0 || |file| > max {
      return Corrupt;
    }
    NothingRead(c);
    var read, rest := Journal(None, []), file;
    ghost var done: seq<seq<byte>> := [];
    while NEWLINE in rest
      invariant ReadLines(c, done) == Ok(read) && Lines(file) == done + Lines(rest)
      decreases |rest|
    {
      var n := IndexOf(rest);
      var line := rest[..n];
      ReadAppend(c, done, line);
      NextLine(rest);
      assert done + ([line] + Lines(rest[n + 1..])) == (done + [line]) + Lines(rest[n + 1..]);
      done, rest := done + [line], rest[n + 1..];
      var next := ReadLine(c, read, line);
      if next.Corrupt? {
        CorruptStays(c, done, Lines(rest));
        return Corrupt;
      }
      read := next.value;
    }
    NextLine(rest);
    assert done + [] == done;
    journal := Ok(read);
  }

  lemma NothingRead(c: Encoding)
    ensures ReadLines(c, []) == Ok(Journal(None, []))
  {
  }

  lemma NextLine(b: seq<byte>)
    ensures Lines(b) == if NEWLINE !in b then [] else [b[..IndexOf(b)]] + Lines(b[IndexOf(b) + 1..])
  {
  }

  lemma {:induction false} CorruptStays(c: Encoding, lines: seq<seq<byte>>, more: seq<seq<byte>>)
    requires ReadLines(c, lines).Corrupt?
    ensures ReadLines(c, lines + more).Corrupt?
    decreases |more|
  {
    if more == [] {
      assert lines + more == lines;
    } else {
      var most := more[..|more| - 1];
      CorruptStays(c, lines, most);
      assert (lines + more)[..|lines + more| - 1] == lines + most;
    }
  }

  // Writing

  lemma LineRead(c: Encoding, file: seq<byte>, schema: Schema, n: nat, r: Record)
    requires Faithful(c) && Whole(file) && ReadLines(c, Lines(file)).Ok?
    requires var journal := ReadLines(c, Lines(file)).value;
             n == |journal.records| && InOrder(n, r) && (journal.schema.None? || journal.schema == Some(schema))
    ensures var journal := ReadLines(c, Lines(file)).value;
            ReadLines(c, Lines(file + Line(c, schema, n, r))) == Ok(Journal(Some(schema), journal.records + [r]))
    ensures Whole(file + Line(c, schema, n, r))
  {
    hide Lines;
    var stored := StoredAs(schema, n, r);
    var line := c.encode(stored);
    assert c.decode(line) == Some(stored);
    LinesAppend(file, line + [NEWLINE]);
    OneLine(line);
    ReadAppend(c, Lines(file), line);
  }

  lemma LineLength(c: Encoding, schema: Schema, n: nat, r: Record)
    ensures |Line(c, schema, n, r)| > 0
  {
  }

  /** Cutting a line short tears it off. */
  lemma TornLine(c: Encoding, file: seq<byte>, schema: Schema, n: nat, r: Record, k: nat)
    requires Faithful(c) && Whole(file) && k < |Line(c, schema, n, r)|
    ensures Lines(file + Line(c, schema, n, r)[..k]) == Lines(file)
    ensures CompleteLength(file + Line(c, schema, n, r)[..k]) == |file|
  {
    hide Lines, CompleteLength, Whole;
    CutLine(c, schema, n, r, k);
    TornTail(file, Line(c, schema, n, r)[..k]);
  }

  lemma CutLine(c: Encoding, schema: Schema, n: nat, r: Record, k: nat)
    requires Faithful(c) && k < |Line(c, schema, n, r)|
    ensures NEWLINE !in Line(c, schema, n, r)[..k]
  {
    var encoded := c.encode(StoredAs(schema, n, r));
    assert NEWLINE !in encoded;
    assert Line(c, schema, n, r)[..k] == encoded[..k];
  }

  class Writer {
    const c: Encoding
    const maxBytes: nat
    const schema: Schema
    var file: seq<byte>
    var nextSeq: nat
    var bytes: nat
    var poisoned: bool
    /** The records a reader of the file gets. */
    ghost var log: seq<Record>

    ghost predicate Valid()
      reads this
    {
      && Faithful(c) && maxBytes > 0 && |file| <= maxBytes
      && Read(c, file, maxBytes) == Ok(Reading(schema, log))
      && (!poisoned ==> Whole(file) && nextSeq == |log| && bytes == |file|)
    }

    /** `Writer::new` */
    constructor (c: Encoding, maxBytes: nat)
      requires Faithful(c) && maxBytes > 0
      ensures Valid() && !poisoned && log == [] && file == [] && schema == CURRENT && this.c == c && this.maxBytes == maxBytes
    {
      this.c, this.maxBytes, schema := c, maxBytes, CURRENT;
      file, nextSeq, bytes, poisoned, log := [], 0, 0, false, [];
    }

    /** `append`.  A refusal changes nothing.  A failed write leaves any part of the line, even
        the whole of it, and a writer that refuses everything from then on. */
    method Append(r: Record) returns (ok: bool)
      requires Valid()
      modifies this
      ensures Valid()
      ensures (old(poisoned) || r.Header? != (old(log) == []) || |old(file)| + |Line(c, schema, |old(log)|, r)| > maxBytes) ==>
                !ok && file == old(file) && log == old(log) && poisoned == old(poisoned)
      ensures !old(poisoned) && r.Header? == (old(log) == []) && |old(file)| + |Line(c, schema, |old(log)|, r)| <= maxBytes ==>
                poisoned == !ok
      ensures ok ==> file == old(file) + Line(c, schema, |old(log)|, r) && log == old(log) + [r]
      ensures !ok ==> old(file) <= file <= old(file) + Line(c, schema, |old(log)|, r)
      ensures !ok ==> log == if file == old(file) + Line(c, schema, |old(log)|, r) then old(log) + [r] else old(log)
    {
      hide Lines, ReadLines, Line;
      LineLength(c, schema, |log|, r);
      if poisoned { return false; }
      if !InOrder(nextSeq, r) { return false; }
      var line := Line(c, schema, nextSeq, r);
      if bytes + |line| > maxBytes { return false; }
      poisoned := true;
      LineRead(c, file, schema, nextSeq, r);
      var fails: bool := *;
      if fails {
        var k: int := *;
        if 0 <= k < |line| {
          TornLine(c, file, schema, nextSeq, r, k);
          file := file + line[..k];
          return false;
        }
      }
      file := file + line;
      log := log + [r];
      if fails { return false; }
      bytes := bytes + |line|;
      nextSeq := nextSeq + 1;
      poisoned := false;
      ok := true;
    }

    /** `resume`, on a file that reads. */
    constructor Resume(c: Encoding, file: seq<byte>, maxBytes: nat)
      requires Faithful(c) && Read(c, file, maxBytes).Ok?
      ensures Valid() && !poisoned && log == Read(c, file, maxBytes).value.records
      ensures this.file == file[..CompleteLength(file)] && this.c == c && this.maxBytes == maxBytes
      ensures schema == if log == [] then CURRENT else Read(c, file, maxBytes).value.schema.value
    {
      var journal := Read(c, file, maxBytes).value;
      CompletePart(file);
      this.c, this.maxBytes := c, maxBytes;
      ReadSchema(c, Lines(file));
      schema := if journal.schema.Some? then journal.schema.value else CURRENT;
      this.file := file[..CompleteLength(file)];
      nextSeq, bytes, poisoned, log := |journal.records|, CompleteLength(file), false, journal.records;
    }
  }

  /** The complete part ends at the last newline and holds the same lines. */
  lemma {:induction false} CompletePart(b: seq<byte>)
    ensures Whole(b[..CompleteLength(b)]) && NEWLINE !in b[CompleteLength(b)..]
    ensures Lines(b[..CompleteLength(b)]) == Lines(b)
    decreases |b|, 1
  {
    if NEWLINE !in b {
      NoLines();
    } else {
      CompleteStep(b);
    }
  }

  lemma CompleteStep(b: seq<byte>)
    requires NEWLINE in b
    ensures Whole(b[..CompleteLength(b)]) && NEWLINE !in b[CompleteLength(b)..]
    ensures Lines(b[..CompleteLength(b)]) == Lines(b)
    decreases |b|, 0
  {
    hide Lines, CompleteLength;
    var n := IndexOf(b);
    var first, rest := b[..n], b[n + 1..];
    assert b == first + [NEWLINE] + rest;
    Cut(first, rest);
    CompletePart(rest);
    var kept := rest[..CompleteLength(rest)];
    assert b[..CompleteLength(b)] == first + [NEWLINE] + kept;
    assert b[CompleteLength(b)..] == rest[CompleteLength(rest)..];
    Cut(first, kept);
  }

  lemma {:induction false} ReadSchema(c: Encoding, lines: seq<seq<byte>>)
    requires ReadLines(c, lines).Ok?
    ensures ReadLines(c, lines).value.schema.None? <==> ReadLines(c, lines).value.records == []
    ensures |ReadLines(c, lines).value.records| == |lines|
    decreases |lines|
  {
    if lines != [] {
      ReadSchema(c, lines[..|lines| - 1]);
    }
  }

  /** The header comes first and only first. */
  predicate HeaderFirst(records: seq<Record>) {
    forall i | 0 <= i < |records| :: records[i].Header? <==> i == 0
  }

  /** Every line stores its record, under this schema, with its own number and checksum. */
  predicate SealedLines(c: Encoding, lines: seq<seq<byte>>, schema: Schema, records: seq<Record>) {
    && |lines| == |records| && HeaderFirst(records)
    && forall i | 0 <= i < |lines| ::
         lines[i] != [] && c.decode(lines[i]) == Some(Stored(schema, i, records[i], Checksum(schema, i, records[i])))
  }

  /** A file reads exactly when its lines seal one schema's records in sequence, header first and
      only first; and then those are the records read. */
  lemma ReadIff(c: Encoding, lines: seq<seq<byte>>, schema: Schema, records: seq<Record>)
    ensures ReadLines(c, lines) == Ok(Journal(if records == [] then None else Some(schema), records)) <==>
            SealedLines(c, lines, schema, records)
  {
    hide ReadLines;
    SealedAll(c, lines, schema, records);
    assert forall i | 0 <= i < |lines| && |lines| == |records| ::
      Seals(c, lines[i], schema, i, records[i]) <==>
      && lines[i] != [] && c.decode(lines[i]) == Some(Stored(schema, i, records[i], Checksum(schema, i, records[i])))
      && (records[i].Header? <==> i == 0);
  }

  /** Whatever reads is sealed. */
  lemma ReadsSealed(c: Encoding, lines: seq<seq<byte>>)
    requires ReadLines(c, lines).Ok?
    ensures var journal := ReadLines(c, lines).value;
            && (journal.schema.None? <==> journal.records == []) && HeaderFirst(journal.records)
            && forall schema | journal.schema == Some(schema) :: SealedLines(c, lines, schema, journal.records)
  {
    hide ReadLines, SealedLines;
    var journal := ReadLines(c, lines).value;
    ReadSchema(c, lines);
    var schema := if journal.schema.Some? then journal.schema.value else CURRENT;
    ReadIff(c, lines, schema, journal.records);
    assert HeaderFirst(journal.records) by { SealedOrder(c, lines, schema, journal.records); }
  }

  lemma SealedOrder(c: Encoding, lines: seq<seq<byte>>, schema: Schema, records: seq<Record>)
    requires SealedLines(c, lines, schema, records)
    ensures HeaderFirst(records)
  {
  }

  lemma {:induction false} SealedAll(c: Encoding, lines: seq<seq<byte>>, schema: Schema, records: seq<Record>)
    ensures ReadLines(c, lines) == Ok(Reading(schema, records)) <==>
            |lines| == |records| && forall i | 0 <= i < |lines| :: Seals(c, lines[i], schema, i, records[i])
    decreases |lines|, 1
  {
    if lines == [] {
    } else {
      ReadSchemaOk(c, lines);
      if |records| == |lines| {
        SealedStep(c, lines, schema, records);
      }
    }
  }

  lemma ReadSchemaOk(c: Encoding, lines: seq<seq<byte>>)
    ensures ReadLines(c, lines).Ok? ==> |ReadLines(c, lines).value.records| == |lines|
  {
    if ReadLines(c, lines).Ok? { ReadSchema(c, lines); }
  }

  lemma SealedStep(c: Encoding, lines: seq<seq<byte>>, schema: Schema, records: seq<Record>)
    requires lines != [] && |records| == |lines|
    ensures ReadLines(c, lines) == Ok(Reading(schema, records)) <==>
            forall i | 0 <= i < |lines| :: Seals(c, lines[i], schema, i, records[i])
    decreases |lines|, 0
  {
    hide Seals, ReadLines;
    var n := |lines| - 1;
    var most, last := lines[..n], records[n];
    ReadSchemaOk(c, most);
    SealedAll(c, most, schema, records[..n]);
    assert records == records[..n] + [last];
    LastSealed(c, lines, schema, records);
    assert forall i | 0 <= i < n :: most[i] == lines[i] && records[..n][i] == records[i];
    if ReadLines(c, most) == Ok(Reading(schema, records[..n])) && Seals(c, lines[n], schema, n, last) {
      assert forall i | 0 <= i < n :: Seals(c, most[i], schema, i, records[..n][i]);
    }
    if forall i | 0 <= i < |lines| :: Seals(c, lines[i], schema, i, records[i]) {
      assert forall i | 0 <= i < n :: Seals(c, most[i], schema, i, records[..n][i]);
    }
  }

  /** Reading one line more gives these records exactly when the line seals the last of them. */
  lemma LastSealed(c: Encoding, lines: seq<seq<byte>>, schema: Schema, records: seq<Record>)
    requires lines != [] && |records| == |lines|
    requires ReadLines(c, lines[..|lines| - 1]).Ok? ==> |ReadLines(c, lines[..|lines| - 1]).value.records| == |lines| - 1
    ensures var n := |lines| - 1;
            ReadLines(c, lines) == Ok(Reading(schema, records)) <==>
            ReadLines(c, lines[..n]) == Ok(Reading(schema, records[..n])) && Seals(c, lines[n], schema, n, records[n])
  {
    var n := |lines| - 1;
    var before := ReadLines(c, lines[..n]);
    if before.Ok? {
      if n > 0 { ReadSchema(c, lines[..n]); } else { NothingRead(c); }
      assert records == records[..n] + [records[n]];
    }
  }

  /** The line stores this record, with this number and its own checksum. */
  predicate Seals(c: Encoding, line: seq<byte>, schema: Schema, n: nat, r: Record) {
    line != [] && c.decode(line) == Some(StoredAs(schema, n, r)) && (r.Header? <==> n == 0)
  }

  /** The bytes of records appended in sequence. */
  function Written(c: Encoding, schema: Schema, first: nat, records: seq<Record>): seq<byte>
    decreases |records|
  {
    if records == [] then []
    else Line(c, schema, first, records[0]) + Written(c, schema, first + 1, records[1..])
  }

  /** How many of the records lie wholly within the first `k` bytes. */
  function Durable(c: Encoding, schema: Schema, first: nat, records: seq<Record>, k: nat): (m: nat)
    ensures m <= |records|
    decreases |records|
  {
    if records == [] || k < |Line(c, schema, first, records[0])| then 0
    else 1 + Durable(c, schema, first + 1, records[1..], k - |Line(c, schema, first, records[0])|)
  }

  /** The records that may follow `n` others. */
  predicate Orderly(n: nat, records: seq<Record>) {
    forall i | 0 <= i < |records| :: records[i].Header? <==> n + i == 0
  }

  /** The file reads as these records, up to a torn tail. */
  ghost predicate Holds(c: Encoding, file: seq<byte>, schema: Schema, records: seq<Record>) {
    ReadLines(c, Lines(file)) == Ok(Reading(schema, records))
  }

  /** After any file that reads, appending records and then losing any tail of what was appended
      leaves a file that reads as the earlier records and those whose lines are complete. */
  lemma {:induction false} TruncatedRead(
      c: Encoding, file: seq<byte>, schema: Schema, prior: seq<Record>, records: seq<Record>, k: nat)
    requires Faithful(c) && Whole(file) && Holds(c, file, schema, prior) && Orderly(|prior|, records)
    requires k <= |Written(c, schema, |prior|, records)|
    ensures var cut := file + Written(c, schema, |prior|, records)[..k];
            var m := Durable(c, schema, |prior|, records, k);
            && Holds(c, cut, schema, prior + records[..m])
            && cut[..CompleteLength(cut)] == file + Written(c, schema, |prior|, records[..m])
    decreases |records|
  {
    hide Holds, Lines, CompleteLength;
    if records == [] {
      WholeLength(file);
      assert file + [][..k] == file && prior + [] == prior && file[..|file|] == file + [];
    } else if k < |Line(c, schema, |prior|, records[0])| {
      TruncatedHere(c, file, schema, prior, records, k);
    } else {
      var line := Line(c, schema, |prior|, records[0]);
      HoldsMore(c, file, schema, prior, records[0]);
      assert forall i | 0 <= i < |records[1..]| :: records[1..][i] == records[1 + i];
      TruncatedRead(c, file + line, schema, prior + [records[0]], records[1..], k - |line|);
      FirstDurable(c, file, schema, prior, records, k);
    }
  }

  /** The bytes and the durable records, with the first record taken to be part of the file. */
  lemma FirstDurable(c: Encoding, file: seq<byte>, schema: Schema, prior: seq<Record>, records: seq<Record>, k: nat)
    requires records != [] && |Line(c, schema, |prior|, records[0])| <= k <= |Written(c, schema, |prior|, records)|
    ensures var line := Line(c, schema, |prior|, records[0]);
            var prior' := prior + [records[0]];
            var rest := Written(c, schema, |prior'|, records[1..]);
            var m := Durable(c, schema, |prior'|, records[1..], k - |line|);
            && k - |line| <= |rest|
            && Durable(c, schema, |prior|, records, k) == m + 1
            && file + Written(c, schema, |prior|, records)[..k] == (file + line) + rest[..k - |line|]
            && prior + records[..m + 1] == prior' + records[1..][..m]
            && file + Written(c, schema, |prior|, records[..m + 1])
               == (file + line) + Written(c, schema, |prior'|, records[1..][..m])
  {
    var line := Line(c, schema, |prior|, records[0]);
    var rest := Written(c, schema, |prior| + 1, records[1..]);
    assert (line + rest)[..k] == line + rest[..k - |line|];
    var m := Durable(c, schema, |prior| + 1, records[1..], k - |line|);
    assert records[..m + 1][1..] == records[1..][..m];
  }

  lemma HoldsMore(c: Encoding, file: seq<byte>, schema: Schema, prior: seq<Record>, r: Record)
    requires Faithful(c) && Whole(file) && Holds(c, file, schema, prior) && (r.Header? <==> prior == [])
    ensures Whole(file + Line(c, schema, |prior|, r)) && Holds(c, file + Line(c, schema, |prior|, r), schema, prior + [r])
  {
    LineRead(c, file, schema, |prior|, r);
  }

  lemma TruncatedHere(c: Encoding, file: seq<byte>, schema: Schema, prior: seq<Record>, records: seq<Record>, k: nat)
    requires Faithful(c) && Whole(file) && Holds(c, file, schema, prior)
    requires records != [] && k < |Line(c, schema, |prior|, records[0])|
    ensures k <= |Written(c, schema, |prior|, records)| && Durable(c, schema, |prior|, records, k) == 0
    ensures var cut := file + Written(c, schema, |prior|, records)[..k];
            && Holds(c, cut, schema, prior + records[..0])
            && cut[..CompleteLength(cut)] == file + Written(c, schema, |prior|, records[..0])
  {
    hide Lines, CompleteLength;
    var line := Line(c, schema, |prior|, records[0]);
    assert Written(c, schema, |prior|, records)[..k] == line[..k];
    TornLine(c, file, schema, |prior|, records[0], k);
    assert prior + records[..0] == prior;
    assert (file + line[..k])[..|file|] == file + [];
  }

  lemma WholeLength(file: seq<byte>)
    requires Whole(file)
    ensures CompleteLength(file) == |file|
  {
    TornTail(file, []);
    assert file + [] == file;
  }

  /** A journal cut anywhere, taken up again and appended to reads as its durable records followed
      by the appended ones, with its own schema. */
  lemma ResumedRead(c: Encoding, schema: Schema, records: seq<Record>, k: nat, more: seq<Record>)
    requires Faithful(c) && Orderly(0, records) && k <= |Written(c, schema, 0, records)|
    requires Orderly(Durable(c, schema, 0, records, k), more)
    ensures var m := Durable(c, schema, 0, records, k);
            var cut := Written(c, schema, 0, records)[..k];
            var next := cut[..CompleteLength(cut)] + Written(c, schema, m, more);
            && Holds(c, cut, schema, records[..m])
            && cut[..CompleteLength(cut)] == Written(c, schema, 0, records[..m])
            && Holds(c, next, schema, records[..m] + more)
  {
    hide Holds, Lines, CompleteLength, Durable, Written;
    NothingHeld(c, schema);
    TruncatedRead(c, [], schema, [], records, k);
    var m := Durable(c, schema, 0, records, k);
    var cut := Written(c, schema, 0, records)[..k];
    assert [] + cut == cut && [] + records[..m] == records[..m];
    var kept := Written(c, schema, 0, records[..m]);
    assert [] + kept == kept;
    CompleteHolds(c, cut, schema, records[..m]);
    var tail := Written(c, schema, m, more);
    TruncatedRead(c, kept, schema, records[..m], more, |tail|);
    AllDurable(c, schema, m, more);
    assert tail[..|tail|] == tail && more[..|more|] == more;
  }

  /** Records sealed one after the other, header first and only first, read back within the limit. */
  lemma WrittenRead(c: Encoding, schema: Schema, records: seq<Record>, max: nat)
    requires Faithful(c) && HeaderFirst(records) && 0 < max && |Written(c, schema, 0, records)| <= max
    ensures Read(c, Written(c, schema, 0, records), max) == Ok(Journal(if records == [] then None else Some(schema), records))
  {
    hide Lines, CompleteLength, Durable, Written;
    NothingHeld(c, schema);
    var file := Written(c, schema, 0, records);
    TruncatedRead(c, [], schema, [], records, |file|);
    AllDurable(c, schema, 0, records);
    assert [] + file[..|file|] == file && [] + records[..|records|] == records;
  }

  lemma NothingHeld(c: Encoding, schema: Schema)
    ensures Holds(c, [], schema, []) && Whole([])
  {
    NoLines();
  }

  lemma CompleteHolds(c: Encoding, file: seq<byte>, schema: Schema, records: seq<Record>)
    requires Holds(c, file, schema, records)
    ensures Whole(file[..CompleteLength(file)]) && Holds(c, file[..CompleteLength(file)], schema, records)
  {
    CompletePart(file);
  }

  lemma {:induction false} AllDurable(c: Encoding, schema: Schema, first: nat, records: seq<Record>)
    ensures Durable(c, schema, first, records, |Written(c, schema, first, records)|) == |records|
    decreases |records|
  {
    if records != [] {
      AllDurable(c, schema, first + 1, records[1..]);
    }
  }
}
