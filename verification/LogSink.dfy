/**
 The rolling log writer: batches of records go to numbered files, a file that has
 reached the size limit is followed by a new one, and only the newest files are
 kept. Reads and writes of the directory succeed.
 */
module LogSink {
  import opened LogDirectory
  import opened LogFileNames
  import opened LogText
  import opened Sequences
  import opened Wrappers

  datatype Options = Options(maxBytes: nat, maxFiles: nat)

  /** A record to write: its JSON text, or nothing when it cannot be serialized. */
  type Entry = Option<Bytes>

  /** What a file holding these records contains. */
  function Flat(records: seq<Bytes>): (bytes: Bytes)
    decreases |records|
  {
    if records == [] then []
    else Flat(records[..|records| - 1]) + records[|records| - 1] + [NEWLINE]
  }

  function Size(records: seq<Bytes>): (size: nat) {
    |Flat(records)|
  }

  lemma FlatSnoc(records: seq<Bytes>, record: Bytes)
    ensures Flat(records + [record]) == Flat(records) + record + [NEWLINE]
  {
    assert (records + [record])[..|records|] == records;
  }

  lemma {:induction false} FlatJoin(a: seq<Bytes>, b: seq<Bytes>)
    ensures Flat(a + b) == Flat(a) + Flat(b)
    decreases |b|
  {
    if b == [] {
      assert a + b == a;
    } else {
      var n := |b| - 1;
      FlatJoin(a, b[..n]);
      FlatSnoc(a + b[..n], b[n]);
      assert a + b == a + b[..n] + [b[n]];
      assert Flat(a) + Flat(b[..n]) + b[n] + [NEWLINE] == Flat(a) + (Flat(b[..n]) + b[n] + [NEWLINE]);
    }
  }

  // ------------------------------------------------------------------- the writer

  /**
   The directory, the active file's size and number, and what is buffered for it.
   `archive` is what this run has put into each of its files, pruned or not.
   */
  datatype Sink = Sink(files: Files, written: nat, number: nat, buffer: seq<Bytes>, archive: map<nat, seq<Bytes>>) {
    predicate Open() {
      FileName(number) in files && number in archive
    }
  }

  function Below(n: nat): (r: nat) {
    if n == 0 then 0 else n - 1
  }

  function Flush(s: Sink): (r: Sink)
    requires s.Open()
    ensures r.Open() && r.buffer == [] && r.number == s.number
  {
    if s.buffer == [] then s
    else
      Sink(s.files[FileName(s.number) := s.files[FileName(s.number)] + Flat(s.buffer)],
        s.written + Size(s.buffer), s.number, [], s.archive[s.number := s.archive[s.number] + s.buffer])
  }

  /** The directory with room for one file more, and that file. */
  ghost function OpenedNext(o: Options, files: Files, number: nat): (r: Files) {
    Create(Prune(files, Below(o.maxFiles), Some(number)), number + 1)
  }

  ghost function RotatedFiles(o: Options, files: Files, number: nat): (r: Files)
    ensures FileName(number + 1) in r
  {
    ProtectedSurvives(OpenedNext(o, files, number), o.maxFiles, number + 1);
    Prune(OpenedNext(o, files, number), o.maxFiles, Some(number + 1))
  }

  lemma PrunedAfterOpening(o: Options, files: Files, number: nat, next: Files)
    requires next == OpenedNext(o, files, number)
    ensures Prune(next, o.maxFiles, Some(number + 1)) == RotatedFiles(o, files, number)
  {
  }

  ghost function Rotate(o: Options, s: Sink): (r: Sink)
    ensures r.Open() && r.number == s.number + 1
  {
    Sink(RotatedFiles(o, s.files, s.number), 0, s.number + 1, s.buffer, s.archive[s.number + 1 := []])
  }

  /** Rotates before a record that would land past the limit. */
  ghost function MakeRoom(o: Options, s: Sink): (r: Sink)
    requires s.Open()
    ensures r.Open() && r.number >= s.number
  {
    if s.written + Size(s.buffer) >= o.maxBytes then Rotate(o, Flush(s)) else s
  }

  function Put(s: Sink, e: Entry): (r: Sink) {
    s.(buffer := s.buffer + RecordOf(e))
  }

  /** The record an entry stands for. */
  function RecordOf(e: Entry): (r: seq<Bytes>) {
    if e.None? then [] else [e.value]
  }

  ghost function WriteEntry(o: Options, s: Sink, e: Entry): (r: Sink)
    requires s.Open()
    ensures r.Open() && r.number >= s.number
  {
    Put(MakeRoom(o, s), e)
  }

  ghost function WriteEntries(o: Options, s: Sink, batch: seq<Entry>): (r: Sink)
    requires s.Open()
    ensures r.Open() && r.number >= s.number
    decreases |batch|
  {
    if batch == [] then s
    else WriteEntry(o, WriteEntries(o, s, batch[..|batch| - 1]), batch[|batch| - 1])
  }

  ghost function WriteBatch(o: Options, s: Sink, batch: seq<Entry>): (r: Sink)
    requires s.Open()
    ensures r.Open() && r.number >= s.number
  {
    Flush(WriteEntries(o, s, batch))
  }

  /** The number of the first file a run opens. */
  ghost function FirstNumber(existing: Files): (first: nat)
    ensures first >= 1 && forall n :: n in NumbersIn(existing.Keys) ==> n < first
  {
    NextNumber(NumbersIn(existing.Keys))
  }

  ghost function StartFiles(o: Options, existing: Files): (r: Files) {
    Create(Prune(existing, Below(o.maxFiles), None), FirstNumber(existing))
  }

  ghost function Start(o: Options, existing: Files): (s: Sink)
    ensures s.Open() && s.number == FirstNumber(existing)
  {
    var number := FirstNumber(existing);
    Sink(StartFiles(o, existing), 0, number, [], map[number := []])
  }

  ghost function Run(o: Options, existing: Files, batches: seq<seq<Entry>>): (s: Sink)
    ensures s.Open() && s.number >= FirstNumber(existing)
    decreases |batches|
  {
    if batches == [] then Start(o, existing)
    else WriteBatch(o, Run(o, existing, batches[..|batches| - 1]), batches[|batches| - 1])
  }

  // ------------------------------------------------------------------- invariants

  /** All numbers ever used: the files found at the start and this run's. */
  ghost predicate Numbered(existing: Files, s: Sink) {
    && FirstNumber(existing) <= s.number < NUMBER_LIMIT
    && (forall n :: n in s.archive <==> FirstNumber(existing) <= n <= s.number)
    && NumbersIn(s.files.Keys) <= NumbersIn(existing.Keys) + s.archive.Keys
  }

  /** Whether a file is one of this run's. */
  predicate Own(archive: map<nat, seq<Bytes>>, name: string) {
    FileNumber(name).Some? && FileNumber(name).value in archive
  }

  predicate HoldsAll(existing: Files, s: Sink, name: string)
    requires name in s.files
  {
    if Own(s.archive, name) then
      name == FileName(NumberOf(name)) && s.files[name] == Flat(s.archive[NumberOf(name)])
    else
      name in existing && s.files[name] == existing[name]
  }

  /** A file still present holds all it ever held. */
  ghost predicate Intact(existing: Files, s: Sink) {
    && s.number in s.archive && s.written == Size(s.archive[s.number])
    && (forall name :: name in s.files ==> HoldsAll(existing, s, name))
  }

  /** A file no pruning can delete: unlisted, or listed under a number it is not written as. */
  predicate IsOther(name: string) {
    FileNumber(name).None? || !Canonical(name)
  }

  ghost predicate KeepsOthers(before: Files, after: Files) {
    forall name :: name in before && IsOther(name) ==> name in after
  }

  predicate Fits(o: Options, count: nat) {
    count <= if o.maxFiles == 0 then 1 else o.maxFiles
  }

  /** Whatever is gone is older than whatever is there. */
  predicate DroppedOldest(all: set<nat>, files: set<nat>) {
    forall m, n :: m in all && m !in files && n in files ==> m < n
  }

  /** Of all numbers the newest remain, no more than allowed, the active one first. */
  predicate NewestRemain(o: Options, all: set<nat>, files: set<nat>, number: nat) {
    Fits(o, |files|) && DroppedOldest(all, files) && IsHighest(files, number)
  }

  /** Over a directory of canonical names retention works. */
  ghost predicate Retains(o: Options, existing: Files, s: Sink) {
    AllCanonical(existing.Keys) ==>
      && AllCanonical(s.files.Keys)
      && NewestRemain(o, NumbersIn(existing.Keys) + s.archive.Keys, NumbersIn(s.files.Keys), s.number)
  }

  /** A file that was closed is full, and without its last record no file is. */
  predicate FullButLast(o: Options, records: seq<Bytes>, closed: bool) {
    && (closed ==> Size(records) >= o.maxBytes)
    && (o.maxBytes >= 1 && records != [] ==> Size(records[..|records| - 1]) < o.maxBytes)
  }

  predicate Sized(o: Options, s: Sink)
    requires s.number in s.archive
  {
    && FullButLast(o, s.archive[s.number] + s.buffer, false)
    && (forall n :: n in s.archive && n != s.number ==> FullButLast(o, s.archive[n], true))
  }

  /** The records of files `low` to `high`, in order. */
  ghost function Chain(archive: map<nat, seq<Bytes>>, low: nat, high: nat): (r: seq<Bytes>)
    decreases high
  {
    if low > high then []
    else
      var own := if high in archive then archive[high] else [];
      if high == 0 then own else Chain(archive, low, high - 1) + own
  }

  ghost predicate Inv(o: Options, existing: Files, s: Sink) {
    && s.Open()
    && Numbered(existing, s)
    && Intact(existing, s)
    && KeepsOthers(existing, s.files)
    && Retains(o, existing, s)
    && Sized(o, s)
  }

  ghost function Recorded(existing: Files, s: Sink): (r: seq<Bytes>) {
    Chain(s.archive, FirstNumber(existing), s.number) + s.buffer
  }

  lemma {:induction false} ChainIgnores(archive: map<nat, seq<Bytes>>, n: nat, records: seq<Bytes>, low: nat, high: nat)
    requires high < n
    ensures Chain(archive[n := records], low, high) == Chain(archive, low, high)
    decreases high
  {
    if low <= high && high > 0 {
      ChainIgnores(archive, n, records, low, high - 1);
    }
  }

  lemma ChainExtended(archive: map<nat, seq<Bytes>>, n: nat, more: seq<Bytes>, low: nat)
    requires n in archive && low <= n
    ensures Chain(archive[n := archive[n] + more], low, n) == Chain(archive, low, n) + more
  {
    if n > 0 {
      ChainIgnores(archive, n, archive[n] + more, low, n - 1);
      assert Chain(archive, low, n - 1) + (archive[n] + more) == Chain(archive, low, n - 1) + archive[n] + more;
    }
  }

  // -------------------------------------------------------------------- flushing

  lemma FlushKeepsContents(existing: Files, s: Sink)
    requires s.Open() && Numbered(existing, s) && Intact(existing, s) && s.buffer != []
    ensures Numbered(existing, Flush(s)) && Intact(existing, Flush(s))
  {
    var t := Flush(s);
    NameThenNumber(s.number);
    FlatJoin(s.archive[s.number], s.buffer);
    assert t.files.Keys == s.files.Keys && t.archive.Keys == s.archive.Keys;
    forall name | name in t.files ensures HoldsAll(existing, t, name) {
      assert HoldsAll(existing, s, name);
    }
  }

  lemma FlushKeepsRest(o: Options, existing: Files, s: Sink)
    requires s.Open() && KeepsOthers(existing, s.files) && Retains(o, existing, s) && Sized(o, s)
    ensures KeepsOthers(existing, Flush(s).files) && Retains(o, existing, Flush(s)) && Sized(o, Flush(s))
  {
    var t := Flush(s);
    assert t.files.Keys == s.files.Keys && t.archive.Keys == s.archive.Keys;
    assert t.archive[t.number] + t.buffer == s.archive[s.number] + s.buffer;
  }

  lemma FlushKeepsRecords(existing: Files, s: Sink)
    requires s.Open() && FirstNumber(existing) <= s.number
    ensures Recorded(existing, Flush(s)) == Recorded(existing, s)
  {
    if s.buffer != [] {
      var t := Flush(s);
      ChainExtended(s.archive, s.number, s.buffer, FirstNumber(existing));
      NothingAround(Chain(t.archive, FirstNumber(existing), t.number));
    }
  }

  lemma FlushKeepsInv(o: Options, existing: Files, s: Sink)
    requires Inv(o, existing, s)
    ensures Inv(o, existing, Flush(s)) && Recorded(existing, Flush(s)) == Recorded(existing, s)
  {
    if s.buffer != [] {
      FlushKeepsContents(existing, s);
      FlushKeepsRest(o, existing, s);
      FlushKeepsRecords(existing, s);
    }
  }

  // -------------------------------------------------------------------- rotating

  lemma PruneKeepsOrder(all: set<nat>, files: set<nat>, keep: nat, protect: Option<nat>)
    requires DroppedOldest(all, files) && files <= all
    requires protect.Some? ==> IsHighest(files, protect.value)
    ensures DroppedOldest(all, Kept(files, keep, protect))
  {
    var kept := Kept(files, keep, protect);
    forall m, n | m in all && m !in kept && n in kept
      ensures m < n
    {
      if m in files {
        KeptIsNewest(files, keep, protect, n, m);
      }
    }
  }

  /** The numbers a rotation away from `number` leaves. */
  ghost function RotatedNumbers(o: Options, numbers: set<nat>, number: nat): (r: set<nat>)
    ensures number + 1 in r && r <= numbers + {number + 1}
  {
    Kept(Kept(numbers, Below(o.maxFiles), Some(number)) + {number + 1}, o.maxFiles, Some(number + 1))
  }

  lemma RotateKeepsNewest(o: Options, all: set<nat>, files: set<nat>, number: nat)
    requires NewestRemain(o, all, files, number) && files <= all && (forall n :: n in all ==> n <= number)
    ensures NewestRemain(o, all + {number + 1}, RotatedNumbers(o, files, number), number + 1)
  {
    var first := Kept(files, Below(o.maxFiles), Some(number));
    var created := first + {number + 1};
    PruneKeepsOrder(all, files, Below(o.maxFiles), Some(number));
    assert DroppedOldest(all + {number + 1}, created);
    PruneKeepsOrder(all + {number + 1}, created, o.maxFiles, Some(number + 1));
    KeptFits(created, o.maxFiles, Some(number + 1));
  }

  lemma OpenedNumbers(o: Options, files: Files, number: nat)
    requires AllCanonical(files.Keys) && number + 1 < NUMBER_LIMIT
    ensures NumbersIn(OpenedNext(o, files, number).Keys)
      == Kept(NumbersIn(files.Keys), Below(o.maxFiles), Some(number)) + {number + 1}
    ensures AllCanonical(OpenedNext(o, files, number).Keys)
  {
    var pruned := Prune(files, Below(o.maxFiles), Some(number));
    CanonicalPrune(files, Below(o.maxFiles), Some(number));
    CreatedNumbers(pruned, number + 1);
    assert OpenedNext(o, files, number) == Create(pruned, number + 1);
  }

  lemma RotatedFileNumbers(o: Options, files: Files, number: nat)
    requires AllCanonical(files.Keys) && number + 1 < NUMBER_LIMIT
    ensures NumbersIn(RotatedFiles(o, files, number).Keys) == RotatedNumbers(o, NumbersIn(files.Keys), number)
    ensures AllCanonical(RotatedFiles(o, files, number).Keys)
  {
    OpenedNumbers(o, files, number);
    CanonicalPrune(OpenedNext(o, files, number), o.maxFiles, Some(number + 1));
    PrunedAfterOpening(o, files, number, OpenedNext(o, files, number));
  }

  lemma RotatedKeepsOthers(o: Options, files: Files, number: nat)
    ensures KeepsOthers(files, RotatedFiles(o, files, number))
  {
    var pruned := Prune(files, Below(o.maxFiles), Some(number));
    forall name | name in files && IsOther(name) ensures name in RotatedFiles(o, files, number) {
      OtherNamesSurvivePruning(files, Below(o.maxFiles), Some(number), name);
      OtherNamesSurvivePruning(Create(pruned, number + 1), o.maxFiles, Some(number + 1), name);
    }
  }

  /** What a rotation from `s` to `t` does, apart from which files it prunes. */
  ghost predicate Moved(s: Sink, t: Sink) {
    && t.number == s.number + 1 && t.written == 0 && t.buffer == s.buffer
    && t.archive == s.archive[t.number := []]
    && FileName(t.number) in t.files && t.files[FileName(t.number)] == []
    && (forall name :: name in t.files && name != FileName(t.number) ==>
          name in s.files && t.files[name] == s.files[name])
    && KeepsOthers(s.files, t.files)
  }

  /** The next number is free: nothing is listed under it. */
  lemma NextIsFree(existing: Files, s: Sink)
    requires Numbered(existing, s) && s.number + 1 < NUMBER_LIMIT
    ensures FileName(s.number + 1) !in s.files
  {
    NameThenNumber(s.number + 1);
    ListedNumber(s.files.Keys, FileName(s.number + 1));
  }

  lemma RotateMoves(o: Options, existing: Files, s: Sink)
    requires Numbered(existing, s) && s.number + 1 < NUMBER_LIMIT
    ensures Moved(s, Rotate(o, s))
  {
    NextIsFree(existing, s);
    RotatedKeepsOthers(o, s.files, s.number);
  }

  lemma MoveKeepsNumbers(existing: Files, s: Sink, t: Sink)
    requires Numbered(existing, s) && Moved(s, t) && t.number < NUMBER_LIMIT
    ensures Numbered(existing, t)
  {
    assert t.archive.Keys == s.archive.Keys + {t.number};
    NameThenNumber(t.number);
  }

  lemma MoveKeepsContents(existing: Files, s: Sink, t: Sink)
    requires Numbered(existing, s) && Intact(existing, s) && Moved(s, t) && t.number < NUMBER_LIMIT
    ensures Intact(existing, t)
  {
    NameThenNumber(t.number);
    forall name | name in t.files ensures HoldsAll(existing, t, name) {
      if name != FileName(t.number) {
        assert HoldsAll(existing, s, name);
        if FileNumber(name).Some? {
          assert NumberOf(name) in NumbersIn(s.files.Keys);
        }
      }
    }
  }

  lemma MoveKeepsSizes(o: Options, existing: Files, s: Sink, t: Sink)
    requires Numbered(existing, s) && Intact(existing, s) && Sized(o, s) && Moved(s, t)
    requires s.buffer == [] && s.written >= o.maxBytes
    ensures Sized(o, t)
  {
    assert s.archive[s.number] + [] == s.archive[s.number];
    assert t.archive[t.number] + t.buffer == [];
  }

  lemma MoveKeepsRecords(existing: Files, s: Sink, t: Sink)
    requires Moved(s, t)
    ensures Recorded(existing, t) == Recorded(existing, s)
  {
    var first := FirstNumber(existing);
    ChainIgnores(s.archive, t.number, [], first, s.number);
    assert Chain(s.archive, first, s.number) + [] == Chain(s.archive, first, s.number);
  }

  lemma NumbersAreBounded(existing: Files, s: Sink)
    requires Numbered(existing, s)
    ensures forall n :: n in NumbersIn(existing.Keys) + s.archive.Keys ==> n <= s.number
  {
  }

  lemma RotatedArchive(s: Sink, numbers: set<nat>)
    ensures numbers + s.archive[s.number + 1 := []].Keys == numbers + s.archive.Keys + {s.number + 1}
  {
  }

  lemma RotateRetains(o: Options, existing: Files, s: Sink)
    requires Numbered(existing, s) && Retains(o, existing, s) && s.number + 1 < NUMBER_LIMIT
    ensures Retains(o, existing, Rotate(o, s))
  {
    if AllCanonical(existing.Keys) {
      NumbersAreBounded(existing, s);
      RotatedArchive(s, NumbersIn(existing.Keys));
      RotatedRetains(o, existing, s, NumbersIn(existing.Keys) + s.archive.Keys);
    }
  }

  lemma RotatedRetains(o: Options, existing: Files, s: Sink, all: set<nat>)
    requires AllCanonical(s.files.Keys) && s.number + 1 < NUMBER_LIMIT
    requires NumbersIn(existing.Keys) + s.archive[s.number + 1 := []].Keys == all + {s.number + 1}
    requires NewestRemain(o, all, NumbersIn(s.files.Keys), s.number)
    requires NumbersIn(s.files.Keys) <= all && (forall n :: n in all ==> n <= s.number)
    ensures Retains(o, existing, Rotate(o, s))
  {
    RotatedFileNumbers(o, s.files, s.number);
    NewestStayNewest(o, existing, s.number, Rotate(o, s), all, NumbersIn(s.files.Keys));
  }

  lemma NewestStayNewest(o: Options, existing: Files, number: nat, t: Sink, all: set<nat>, numbers: set<nat>)
    requires t.number == number + 1 && NumbersIn(existing.Keys) + t.archive.Keys == all + {t.number}
    requires AllCanonical(t.files.Keys) && NumbersIn(t.files.Keys) == RotatedNumbers(o, numbers, number)
    requires NewestRemain(o, all, numbers, number) && numbers <= all && (forall n :: n in all ==> n <= number)
    ensures Retains(o, existing, t)
  {
    RotateKeepsNewest(o, all, numbers, number);
  }

  lemma OthersStay(a: Files, b: Files, c: Files)
    requires KeepsOthers(a, b) && KeepsOthers(b, c)
    ensures KeepsOthers(a, c)
  {
  }

  lemma RotateKeepsInv(o: Options, existing: Files, s: Sink)
    requires Inv(o, existing, s) && s.buffer == [] && s.written >= o.maxBytes && s.number + 1 < NUMBER_LIMIT
    ensures Inv(o, existing, Rotate(o, s)) && Recorded(existing, Rotate(o, s)) == Recorded(existing, s)
  {
    var t := Rotate(o, s);
    RotateMoves(o, existing, s);
    MoveKeepsNumbers(existing, s, t);
    MoveKeepsContents(existing, s, t);
    MoveKeepsSizes(o, existing, s, t);
    MoveKeepsRecords(existing, s, t);
    OthersStay(existing, s.files, t.files);
    RotateRetains(o, existing, s);
  }

  // --------------------------------------------------------------------- writing

  lemma BufferKeepsSizes(o: Options, s: Sink, record: Bytes)
    requires s.Open() && Sized(o, s) && s.written == Size(s.archive[s.number])
    requires o.maxBytes >= 1 ==> s.written + Size(s.buffer) < o.maxBytes
    ensures Sized(o, s.(buffer := s.buffer + [record]))
  {
    var held := s.archive[s.number] + s.buffer;
    FlatJoin(s.archive[s.number], s.buffer);
    assert s.archive[s.number] + (s.buffer + [record]) == held + [record];
    assert (held + [record])[..|held|] == held;
  }

  lemma BufferKeepsInv(o: Options, existing: Files, s: Sink, record: Bytes)
    requires Inv(o, existing, s) && (o.maxBytes >= 1 ==> s.written + Size(s.buffer) < o.maxBytes)
    ensures var t := s.(buffer := s.buffer + [record]);
      Inv(o, existing, t) && Recorded(existing, t) == Recorded(existing, s) + [record]
  {
    var t := s.(buffer := s.buffer + [record]);
    BufferKeepsSizes(o, s, record);
    SameFilesSameInv(existing, s, t);
    Associate(Chain(s.archive, FirstNumber(existing), s.number), s.buffer, [record]);
  }

  lemma SameFilesSameInv(existing: Files, s: Sink, t: Sink)
    requires Numbered(existing, s) && Intact(existing, s)
    requires t.files == s.files && t.archive == s.archive && t.number == s.number && t.written == s.written
    ensures Numbered(existing, t) && Intact(existing, t)
  {
    forall name | name in t.files ensures HoldsAll(existing, t, name) {
      assert HoldsAll(existing, s, name);
    }
  }

  function RecordsOf(batch: seq<Entry>): (r: seq<Bytes>)
    decreases |batch|
  {
    if batch == [] then [] else RecordsOf(batch[..|batch| - 1]) + RecordOf(batch[|batch| - 1])
  }

  function AllRecords(batches: seq<seq<Entry>>): (r: seq<Bytes>)
    decreases |batches|
  {
    if batches == [] then [] else AllRecords(batches[..|batches| - 1]) + RecordsOf(batches[|batches| - 1])
  }

  lemma MakeRoomKeepsInv(o: Options, existing: Files, s: Sink)
    requires Inv(o, existing, s) && MakeRoom(o, s).number < NUMBER_LIMIT
    ensures var t := MakeRoom(o, s);
      && Inv(o, existing, t) && Recorded(existing, t) == Recorded(existing, s)
      && (o.maxBytes >= 1 ==> t.written + Size(t.buffer) < o.maxBytes)
  {
    if s.written + Size(s.buffer) >= o.maxBytes {
      FlushKeepsInv(o, existing, s);
      FlushedSize(s);
      RotateKeepsInv(o, existing, Flush(s));
    }
  }

  lemma FlushedSize(s: Sink)
    requires s.Open()
    ensures Flush(s).written == s.written + Size(s.buffer)
  {
  }

  lemma PutKeepsInv(o: Options, existing: Files, s: Sink, e: Entry)
    requires Inv(o, existing, s) && (o.maxBytes >= 1 ==> s.written + Size(s.buffer) < o.maxBytes)
    ensures Inv(o, existing, Put(s, e)) && Recorded(existing, Put(s, e)) == Recorded(existing, s) + RecordOf(e)
  {
    if e.Some? {
      BufferKeepsInv(o, existing, s, e.value);
    } else {
      assert s.buffer + [] == s.buffer;
      assert Put(s, e) == s;
      assert Recorded(existing, s) + [] == Recorded(existing, s);
    }
  }

  lemma EntryKeepsInv(o: Options, existing: Files, s: Sink, e: Entry)
    requires Inv(o, existing, s) && WriteEntry(o, s, e).number < NUMBER_LIMIT
    ensures Inv(o, existing, WriteEntry(o, s, e))
    ensures Recorded(existing, WriteEntry(o, s, e)) == Recorded(existing, s) + RecordOf(e)
  {
    MakeRoomKeepsInv(o, existing, s);
    PutKeepsInv(o, existing, MakeRoom(o, s), e);
  }

  lemma {:induction false} EntriesKeepInv(o: Options, existing: Files, s: Sink, batch: seq<Entry>)
    requires Inv(o, existing, s) && WriteEntries(o, s, batch).number < NUMBER_LIMIT
    ensures Inv(o, existing, WriteEntries(o, s, batch))
    ensures Recorded(existing, WriteEntries(o, s, batch)) == Recorded(existing, s) + RecordsOf(batch)
    decreases |batch|
  {
    if batch == [] {
      assert Recorded(existing, s) + [] == Recorded(existing, s);
    } else {
      var n := |batch| - 1;
      EntriesKeepInv(o, existing, s, batch[..n]);
      EntryKeepsInv(o, existing, WriteEntries(o, s, batch[..n]), batch[n]);
      Associate(Recorded(existing, s), RecordsOf(batch[..n]), RecordOf(batch[n]));
    }
  }

  // -------------------------------------------------------------------- starting

  lemma StartKeepsNewest(o: Options, numbers: set<nat>, number: nat)
    requires forall n :: n in numbers ==> n < number
    ensures NewestRemain(o, numbers + {number}, Kept(numbers, Below(o.maxFiles), None) + {number}, number)
  {
    KeptFits(numbers, Below(o.maxFiles), None);
    PruneKeepsOrder(numbers, numbers, Below(o.maxFiles), None);
  }

  lemma StartNumbers(o: Options, existing: Files)
    requires FirstNumber(existing) < NUMBER_LIMIT && AllCanonical(existing.Keys)
    ensures NumbersIn(StartFiles(o, existing).Keys)
      == Kept(NumbersIn(existing.Keys), Below(o.maxFiles), None) + {FirstNumber(existing)}
    ensures AllCanonical(StartFiles(o, existing).Keys)
  {
    CanonicalPrune(existing, Below(o.maxFiles), None);
    CreatedNumbers(Prune(existing, Below(o.maxFiles), None), FirstNumber(existing));
  }

  lemma StartRetains(o: Options, existing: Files)
    requires FirstNumber(existing) < NUMBER_LIMIT
    ensures Retains(o, existing, Start(o, existing))
  {
    if AllCanonical(existing.Keys) {
      StartNumbers(o, existing);
      StartKeepsNewest(o, NumbersIn(existing.Keys), FirstNumber(existing));
      StartArchive(o, existing);
    }
  }

  lemma StartArchive(o: Options, existing: Files)
    ensures Start(o, existing).archive.Keys == {FirstNumber(existing)}
  {
  }

  lemma StartKeepsOthers(o: Options, existing: Files)
    ensures KeepsOthers(existing, StartFiles(o, existing))
  {
    forall name | name in existing && IsOther(name) ensures name in StartFiles(o, existing) {
      OtherNamesSurvivePruning(existing, Below(o.maxFiles), None, name);
    }
  }

  lemma FirstIsFree(existing: Files)
    requires FirstNumber(existing) < NUMBER_LIMIT
    ensures var first := FirstNumber(existing);
      FileName(first) !in existing && FileNumber(FileName(first)) == Some(first)
  {
    NameThenNumber(FirstNumber(existing));
    ListedNumber(existing.Keys, FileName(FirstNumber(existing)));
  }

  /** Pruning leaves files that were there, under their numbers. */
  lemma PrunedIsThere(files: Files, keep: nat, protect: Option<nat>)
    ensures NumbersIn(Prune(files, keep, protect).Keys) <= NumbersIn(files.Keys)
  {
  }

  lemma StartNumbersAreKnown(o: Options, existing: Files)
    requires FirstNumber(existing) < NUMBER_LIMIT
    ensures NumbersIn(StartFiles(o, existing).Keys) <= NumbersIn(existing.Keys) + {FirstNumber(existing)}
  {
    PrunedIsThere(existing, Below(o.maxFiles), None);
    CreatedNumbers(Prune(existing, Below(o.maxFiles), None), FirstNumber(existing));
  }

  lemma StartIsNumbered(o: Options, existing: Files)
    requires FirstNumber(existing) < NUMBER_LIMIT
    ensures Numbered(existing, Start(o, existing))
  {
    StartArchive(o, existing);
    StartNumbersAreKnown(o, existing);
    FirstIsNumbered(existing, Start(o, existing));
  }

  lemma FirstIsNumbered(existing: Files, s: Sink)
    requires s.number == FirstNumber(existing) < NUMBER_LIMIT && s.archive.Keys == {s.number}
    requires NumbersIn(s.files.Keys) <= NumbersIn(existing.Keys) + {s.number}
    ensures Numbered(existing, s)
  {
    assert forall n :: n in s.archive <==> n in s.archive.Keys;
  }

  /** A file the start finds and does not prune is as it was, and its number is not the run's. */
  lemma FoundIsKept(o: Options, existing: Files, name: string)
    requires FirstNumber(existing) < NUMBER_LIMIT
    requires name in StartFiles(o, existing) && name != FileName(FirstNumber(existing))
    ensures name in existing && StartFiles(o, existing)[name] == existing[name]
    ensures !Own(Start(o, existing).archive, name)
  {
    StartArchive(o, existing);
    assert name in Prune(existing, Below(o.maxFiles), None);
    if FileNumber(name).Some? {
      assert NumberOf(name) in NumbersIn(existing.Keys);
    }
  }

  lemma StartIsIntact(o: Options, existing: Files)
    requires FirstNumber(existing) < NUMBER_LIMIT
    ensures Intact(existing, Start(o, existing))
  {
    var s := Start(o, existing);
    FirstIsFree(existing);
    forall name | name in s.files ensures HoldsAll(existing, s, name) {
      if name != FileName(s.number) {
        FoundIsKept(o, existing, name);
      }
    }
  }

  lemma StartKeepsInv(o: Options, existing: Files)
    requires FirstNumber(existing) < NUMBER_LIMIT
    ensures Inv(o, existing, Start(o, existing)) && Recorded(existing, Start(o, existing)) == []
  {
    var s := Start(o, existing);
    StartIsNumbered(o, existing);
    StartIsIntact(o, existing);
    StartKeepsOthers(o, existing);
    StartRetains(o, existing);
    assert Chain(s.archive, s.number, s.number - 1) == [];
  }

  lemma {:induction false} RunKeepsInv(o: Options, existing: Files, batches: seq<seq<Entry>>)
    requires Run(o, existing, batches).number < NUMBER_LIMIT
    ensures var s := Run(o, existing, batches);
      Inv(o, existing, s) && s.buffer == [] && Recorded(existing, s) == AllRecords(batches)
    decreases |batches|
  {
    if batches == [] {
      StartKeepsInv(o, existing);
    } else {
      var n := |batches| - 1;
      var before := Run(o, existing, batches[..n]);
      RunKeepsInv(o, existing, batches[..n]);
      EntriesKeepInv(o, existing, before, batches[n]);
      FlushKeepsInv(o, existing, WriteEntries(o, before, batches[n]));
    }
  }

  // ----------------------------------------------------------------- what is promised

  /**
   The files of a run, pruned or not, hold exactly the records it was given, in
   order and unsplit; a file present holds all it ever held; and no file that was
   there before is ever written to. (The file number has not overflowed.)
   */
  lemma RecordsAreConserved(o: Options, existing: Files, batches: seq<seq<Entry>>)
    requires Run(o, existing, batches).number < NUMBER_LIMIT
    ensures var s := Run(o, existing, batches);
      && Chain(s.archive, FirstNumber(existing), s.number) == AllRecords(batches)
      && (forall name :: name in s.files ==> HoldsAll(existing, s, name))
      && (forall n :: n in s.archive ==> FileName(n) !in existing)
  {
    RunKeepsInv(o, existing, batches);
    var s := Run(o, existing, batches);
    assert Chain(s.archive, FirstNumber(existing), s.number) + [] == Chain(s.archive, FirstNumber(existing), s.number);
    forall n | n in s.archive ensures FileName(n) !in existing {
      NameThenNumber(n);
      assert FileName(n) in existing ==> n in NumbersIn(existing.Keys);
    }
  }

  /** No file outgrows the limit by more than its last record, and none is closed before it is full. */
  lemma FilesAreBounded(o: Options, existing: Files, batches: seq<seq<Entry>>, n: nat)
    requires Run(o, existing, batches).number < NUMBER_LIMIT
    requires n in Run(o, existing, batches).archive
    ensures var s := Run(o, existing, batches); FullButLast(o, s.archive[n], n != s.number)
  {
    RunKeepsInv(o, existing, batches);
    var s := Run(o, existing, batches);
    assert s.archive[s.number] + [] == s.archive[s.number];
  }

  /** The number of listed files. */
  ghost function ListedCount(files: Files): (count: nat) {
    |Listed(files.Keys)|
  }

  /**
   Over a directory whose listed files have canonical names, at rest no more of
   them remain than the limit allows, or one; they are the newest by number; and
   the active file is among them.
   */
  lemma NewestFilesRemain(o: Options, existing: Files, batches: seq<seq<Entry>>)
    requires Run(o, existing, batches).number < NUMBER_LIMIT && AllCanonical(existing.Keys)
    ensures var s := Run(o, existing, batches);
      && Fits(o, ListedCount(s.files))
      && FileName(s.number) in s.files && IsHighest(NumbersIn(s.files.Keys), s.number)
      && DroppedOldest(NumbersIn(existing.Keys) + s.archive.Keys, NumbersIn(s.files.Keys))
  {
    RunKeepsInv(o, existing, batches);
    var s := Run(o, existing, batches);
    NumbersOfListed(s.files.Keys);
    NumbersCount(Listed(s.files.Keys));
  }

  /** A file under any other name is there after every run, as it was. */
  lemma OtherNamesSurvive(o: Options, existing: Files, batches: seq<seq<Entry>>, name: string)
    requires Run(o, existing, batches).number < NUMBER_LIMIT
    requires name in existing && IsOther(name)
    ensures var s := Run(o, existing, batches); name in s.files && s.files[name] == existing[name]
  {
    RunKeepsInv(o, existing, batches);
    var s := Run(o, existing, batches);
    assert HoldsAll(existing, s, name);
    ListedNumber(existing.Keys, name);
  }

  ghost predicate RetainedAfter(o: Options, existing: Files, batches: seq<seq<Entry>>) {
    Run(o, existing, batches).number < NUMBER_LIMIT ==> Fits(o, ListedCount(Run(o, existing, batches).files))
  }

  /** All files of the run are there, and on top. */
  ghost predicate AllThere(first: nat, s: Sink) {
    first <= s.number && OnTop(first, s.number - first + 1, s.files)
  }

  lemma SameKeysAllThere(first: nat, s: Sink, t: Sink)
    requires AllThere(first, s) && t.number == s.number && t.files.Keys == s.files.Keys
    ensures AllThere(first, t)
  {
  }

  /** While there is room for all files of the run, rotating keeps them. */
  lemma RotationKeepsTop(o: Options, first: nat, count: nat, files: Files)
    requires count >= 1 && OnTop(first, count, files)
    requires count + 1 <= o.maxFiles && first + count < NUMBER_LIMIT
    ensures OnTop(first, count + 1, RotatedFiles(o, files, first + count - 1))
  {
    var number := first + count - 1;
    PruneKeepsTop(first, count, files, Below(o.maxFiles), Some(number));
    CreateExtendsTop(first, count, Prune(files, Below(o.maxFiles), Some(number)));
    PruneKeepsTop(first, count + 1, OpenedNext(o, files, number), o.maxFiles, Some(number + 1));
  }

  lemma RotateKeepsAll(o: Options, first: nat, s: Sink, t: Sink)
    requires AllThere(first, s) && s.number + 1 < first + o.maxFiles && s.number + 1 < NUMBER_LIMIT
    requires t.number == s.number + 1 && t.files == RotatedFiles(o, s.files, s.number)
    ensures AllThere(first, t)
  {
    RotationKeepsTop(o, first, s.number - first + 1, s.files);
  }

  lemma RotatedSink(o: Options, s: Sink)
    ensures Rotate(o, s).number == s.number + 1 && Rotate(o, s).files == RotatedFiles(o, s.files, s.number)
  {
  }

  lemma FlushKeepsKeys(s: Sink)
    requires s.Open()
    ensures Flush(s).files.Keys == s.files.Keys && Flush(s).number == s.number
  {
  }

  lemma EntryKeepsAll(o: Options, first: nat, s: Sink, e: Entry)
    requires s.Open() && AllThere(first, s)
    requires WriteEntry(o, s, e).number <= first + Below(o.maxFiles) && WriteEntry(o, s, e).number < NUMBER_LIMIT
    ensures AllThere(first, WriteEntry(o, s, e))
  {
    if s.written + Size(s.buffer) >= o.maxBytes {
      FlushKeepsKeys(s);
      SameKeysAllThere(first, s, Flush(s));
      RotatedSink(o, Flush(s));
      RotateKeepsAll(o, first, Flush(s), Rotate(o, Flush(s)));
      SameKeysAllThere(first, Rotate(o, Flush(s)), WriteEntry(o, s, e));
    } else {
      SameKeysAllThere(first, s, WriteEntry(o, s, e));
    }
  }

  lemma {:induction false} EntriesKeepAll(o: Options, first: nat, s: Sink, batch: seq<Entry>)
    requires s.Open() && AllThere(first, s)
    requires WriteEntries(o, s, batch).number <= first + Below(o.maxFiles)
    requires WriteEntries(o, s, batch).number < NUMBER_LIMIT
    ensures AllThere(first, WriteEntries(o, s, batch))
    decreases |batch|
  {
    if batch != [] {
      var n := |batch| - 1;
      EntriesKeepAll(o, first, s, batch[..n]);
      EntryKeepsAll(o, first, WriteEntries(o, s, batch[..n]), batch[n]);
    }
  }

  lemma BatchKeepsAll(o: Options, first: nat, s: Sink, batch: seq<Entry>, t: Sink)
    requires s.Open() && AllThere(first, s) && t == WriteBatch(o, s, batch)
    requires t.number <= first + Below(o.maxFiles) && t.number < NUMBER_LIMIT
    ensures AllThere(first, t)
  {
    EntriesKeepAll(o, first, s, batch);
    FlushKeepsKeys(WriteEntries(o, s, batch));
    SameKeysAllThere(first, WriteEntries(o, s, batch), t);
  }

  lemma StartHasAll(o: Options, existing: Files)
    requires FirstNumber(existing) < NUMBER_LIMIT
    ensures AllThere(FirstNumber(existing), Start(o, existing))
  {
    var first := FirstNumber(existing);
    forall name | name in existing && FileNumber(name).Some? ensures NumberOf(name) < first {
      ListedNumber(existing.Keys, name);
    }
    assert OnTop(first, 0, existing);
    PruneKeepsTop(first, 0, existing, Below(o.maxFiles), None);
    CreateExtendsTop(first, 0, Prune(existing, Below(o.maxFiles), None));
  }

  /** No run loses a file of its own as long as it has no more of them than the limit allows. */
  lemma {:induction false} RunKeepsAll(o: Options, existing: Files, batches: seq<seq<Entry>>)
    requires Run(o, existing, batches).number <= FirstNumber(existing) + Below(o.maxFiles)
    requires Run(o, existing, batches).number < NUMBER_LIMIT
    ensures AllThere(FirstNumber(existing), Run(o, existing, batches))
    decreases |batches|
  {
    if batches == [] {
      StartHasAll(o, existing);
    } else {
      var n := |batches| - 1;
      RunKeepsAll(o, existing, batches[..n]);
      BatchKeepsAll(o, FirstNumber(existing), Run(o, existing, batches[..n]), batches[n], Run(o, existing, batches));
    }
  }

  /** A record that fills a file by itself. */
  function Filler(o: Options): (r: Bytes) {
    seq(o.maxBytes, _ => 0)
  }

  lemma FillerFills(o: Options)
    ensures Size([Filler(o)]) > o.maxBytes
  {
    FlatSnoc([], Filler(o));
    assert [] + [Filler(o)] == [Filler(o)];
  }

  /** Writing a filler leaves the file it ends up in full. */
  lemma FillerFlushed(o: Options, base: Sink, t: Sink)
    requires base.Open() && base.buffer == [] && t == Flush(Put(base, Some(Filler(o))))
    ensures t.written >= o.maxBytes && t.buffer == [] && t.number == base.number
  {
    FillerFills(o);
    assert [] + [Filler(o)] == [Filler(o)];
  }

  /** A batch of one filler goes to the active file, or if that is full to the next. */
  lemma FillMore(o: Options, existing: Files, before: seq<seq<Entry>>, s: Sink, t: Sink)
    requires s == Run(o, existing, before) && s.buffer == []
    requires t == Run(o, existing, before + [[Some(Filler(o))]])
    ensures t.number == (if s.written >= o.maxBytes then s.number + 1 else s.number)
    ensures t.written >= o.maxBytes && t.buffer == []
  {
    var e := Some(Filler(o));
    assert (before + [[e]])[..|before|] == before;
    assert [e][..0] == [];
    assert WriteEntries(o, s, []) == s;
    assert WriteEntries(o, s, [e]) == WriteEntry(o, s, e);
    FillerFlushed(o, if s.written >= o.maxBytes then Rotate(o, s) else s, t);
  }

  /** A run that fills file after file, and rests in a full one. */
  lemma {:induction false} FillingRun(o: Options, existing: Files, rotations: nat) returns (batches: seq<seq<Entry>>)
    ensures var s := Run(o, existing, batches);
      s.number == FirstNumber(existing) + rotations && s.written >= o.maxBytes && s.buffer == []
  {
    if rotations > 0 {
      var before := FillingRun(o, existing, rotations - 1);
      batches := before + [[Some(Filler(o))]];
      FillMore(o, existing, before, Run(o, existing, before), Run(o, existing, batches));
    } else if o.maxBytes == 0 {
      batches := [];
    } else {
      batches := [] + [[Some(Filler(o))]];
      FillMore(o, existing, [], Start(o, existing), Run(o, existing, batches));
    }
  }

  /** Files on top of another listed one are one more than their number. */
  lemma OneTooMany(first: nat, count: nat, files: Files, name: string)
    requires OnTop(first, count, files) && first + count <= NUMBER_LIMIT
    requires name in files && FileNumber(name).Some? && NumberOf(name) < first
    ensures ListedCount(files) > count
  {
    var top, listed := NamesFrom(first, count), Listed(files.Keys);
    NamesFromCount(first, count);
    assert top == ListedFrom(files.Keys, first) && name !in top;
    SubsetIsNoLarger(top + {name}, listed);
  }

  lemma SubsetIsNoLarger(small: set<string>, large: set<string>)
    requires small <= large
    ensures |small| <= |large|
  {
    assert |large - small| == |large| - |small|;
  }

  lemma FoundIsLower(existing: Files, name: string)
    requires name in existing && FileNumber(name).Some?
    ensures NumberOf(name) < FirstNumber(existing)
  {
    ListedNumber(existing.Keys, name);
  }

  lemma TooManyToFit(o: Options, first: nat, s: Sink, name: string)
    requires AllThere(first, s) && s.number == first + Below(o.maxFiles) < NUMBER_LIMIT
    requires name in s.files && FileNumber(name).Some? && NumberOf(name) < first
    ensures !Fits(o, ListedCount(s.files))
  {
    OneTooMany(first, Below(o.maxFiles) + 1, s.files, name);
  }

  /** A listed file under another name than its number is written as stays, next to as many files as allowed. */
  lemma OddNameStays(o: Options, existing: Files, name: string) returns (batches: seq<seq<Entry>>)
    requires FirstNumber(existing) + Below(o.maxFiles) < NUMBER_LIMIT
    requires name in existing && FileNumber(name).Some? && !Canonical(name)
    ensures !RetainedAfter(o, existing, batches)
  {
    batches := FillingRun(o, existing, Below(o.maxFiles));
    RunKeepsAll(o, existing, batches);
    OtherNamesSurvive(o, existing, batches, name);
    FoundIsLower(existing, name);
    TooManyToFit(o, FirstNumber(existing), Run(o, existing, batches), name);
  }

  /**
   When the retention limit holds. For any one limit, with numbers left for as
   many files: every run leaves no more listed files than allowed, or one, if and
   only if every listed file found at the start has the name its number is written
   as. A `core-7.jsonl` counts, and stays, so once the run itself has as many files
   as allowed there is one too many.
   */
  lemma RetentionIffCanonical(o: Options, existing: Files)
    requires FirstNumber(existing) + Below(o.maxFiles) < NUMBER_LIMIT
    ensures (forall batches :: RetainedAfter(o, existing, batches)) <==> AllCanonical(existing.Keys)
  {
    if AllCanonical(existing.Keys) {
      forall batches ensures RetainedAfter(o, existing, batches) {
        if Run(o, existing, batches).number < NUMBER_LIMIT {
          NewestFilesRemain(o, existing, batches);
        }
      }
    } else {
      var name :| name in existing.Keys && FileNumber(name).Some? && !Canonical(name);
      var batches := OddNameStays(o, existing, name);
    }
  }

  // ---------------------------------------------------------------------- objects

  /** The writer object over its directory; its ghost field is the state the lemmas are about. */
  class Writer {
    const options: Options
    const directory: Directory
    var written: nat
    var number: nat
    ghost var sink: Sink

    /** The fields, the directory and a batch's buffer are what the ghost state says. */
    ghost predicate Matches(buffer: Bytes)
      reads this, directory
    {
      && sink.Open()
      && directory.files == sink.files && written == sink.written && number == sink.number
      && buffer == Flat(sink.buffer)
    }

    ghost predicate Valid()
      reads this, directory
    {
      Matches([]) && sink.buffer == []
    }

    constructor (existing: Files, options: Options)
      ensures Valid() && fresh(directory) && this.options == options && sink == Start(options, existing)
    {
      var found := new Directory(existing);
      var numbers := ReadNumbers(existing);
      var next := NextAfter(numbers);
      found.PruneDir(Below(options.maxFiles), None);
      found.CreateFile(next);
      this.options, directory, written, number, sink := options, found, 0, next, Start(options, existing);
    }

    /** Appends whatever is buffered to the active file. */
    method FlushPending(buffer: Bytes)
      requires Matches(buffer)
      modifies this, directory
      ensures Matches([]) && sink == Flush(old(sink))
    {
      FlatIsEmpty(sink.buffer);
      if buffer != [] {
        directory.Append(number, buffer);
        written := written + |buffer|;
      }
      sink := Flush(sink);
    }

    /** Moves on to the next file; the ghost state follows separately. */
    method SwitchFile()
      modifies this`number, this`written, directory
      ensures directory.files
        == Prune(OpenedNext(options, old(directory.files), old(number)), options.maxFiles, Some(number))
      ensures number == old(number) + 1 && written == 0
    {
      OpenNext();
      directory.PruneDir(options.maxFiles, Some(number + 1));
      number := number + 1;
      written := 0;
    }

    /** Makes room for one file more, and opens it. */
    method OpenNext()
      modifies directory
      ensures directory.files == OpenedNext(options, old(directory.files), number)
    {
      directory.PruneDir(Below(options.maxFiles), Some(number));
      directory.CreateFile(number + 1);
    }

    method RotateFile()
      requires Matches([])
      modifies this, directory
      ensures Matches([]) && sink == Rotate(options, old(sink))
    {
      PrunedAfterOpening(options, directory.files, number, OpenedNext(options, directory.files, number));
      SwitchFile();
      sink := Rotate(options, sink);
    }

    method EnsureRoom(buffer: Bytes) returns (rest: Bytes)
      requires Matches(buffer)
      modifies this, directory
      ensures Matches(rest) && sink == MakeRoom(options, old(sink))
    {
      rest := buffer;
      if written + |buffer| >= options.maxBytes {
        FlushPending(buffer);
        rest := [];
        RotateFile();
      }
    }

    method WriteOne(entry: Entry, buffer: Bytes) returns (rest: Bytes)
      requires Matches(buffer)
      modifies this, directory
      ensures Matches(rest) && sink == WriteEntry(options, old(sink), entry)
    {
      rest := EnsureRoom(buffer);
      PutFlat(sink.buffer, entry);
      if entry.Some? {
        rest := rest + entry.value + [NEWLINE];
      }
      sink := Put(sink, entry);
    }

    method Write(batch: seq<Entry>)
      requires Valid()
      modifies this, directory
      ensures Valid() && sink == WriteBatch(options, old(sink), batch)
    {
      if batch == [] {
        EmptyBatchIsIgnored(options, sink);
        return;
      }
      var buffer: Bytes := [];
      var i := 0;
      while i < |batch|
        invariant i <= |batch| && Matches(buffer) && sink == WriteEntries(options, old(sink), batch[..i])
      {
        EntryAfterEntries(options, old(sink), batch, i);
        buffer := WriteOne(batch[i], buffer);
        i := i + 1;
      }
      assert batch[..i] == batch;
      FlushPending(buffer);
    }
  }

  lemma EntryAfterEntries(o: Options, s: Sink, batch: seq<Entry>, i: nat)
    requires s.Open() && i < |batch|
    ensures WriteEntries(o, s, batch[..i + 1]) == WriteEntry(o, WriteEntries(o, s, batch[..i]), batch[i])
  {
    assert batch[..i + 1][..i] == batch[..i];
  }

  lemma PutFlat(buffer: seq<Bytes>, e: Entry)
    ensures Flat(buffer + RecordOf(e)) == if e.None? then Flat(buffer) else Flat(buffer) + e.value + [NEWLINE]
  {
    if e.Some? {
      FlatSnoc(buffer, e.value);
    } else {
      assert buffer + [] == buffer;
    }
  }

  lemma FlatIsEmpty(records: seq<Bytes>)
    ensures Flat(records) == [] <==> records == []
  {
  }

  /** An empty batch, which the writer ignores, would not have changed anything. */
  lemma EmptyBatchIsIgnored(o: Options, s: Sink)
    requires s.Open() && s.buffer == []
    ensures WriteBatch(o, s, []) == s
  {
  }
}
