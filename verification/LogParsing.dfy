/**
 The log parser: console lines from two streams become bounded frames, and a
 severe record collects the header-less lines that follow it on its stream.
 Recognizing a header is a parameter of each push; the lines a record was made
 of are kept beside it, in specifications only.
 */
module LogParsing {
  import opened LogText
  import opened Logfmt
  import opened Sequences
  import opened Wrappers

  const MAX_CONTINUATION_LINES := 16
  const MAX_LOG_TEXT_BYTES := 16 * 1024
  const MAX_LOG_TARGET_BYTES := 2048
  const MAX_LOG_TIMESTAMP_RAW_BYTES := 256
  const MAX_LOG_FIELDS := 64
  const MAX_LOG_FIELD_TEXT_BYTES := 1024

  datatype CoreKind = Mihomo | Meow | ClashRust | ChimeraClient | ClashPremium

  datatype Stream = Stdout | Stderr

  datatype Level = Trace | Debug | Info | Warning | Error | Fatal

  datatype Timestamp = Timestamp(raw: Text, unixMs: Option<int>, inferred: bool)

  datatype ParsedLine = ParsedLine(
    timestamp: Option<Timestamp>, level: Level, target: Option<Text>, message: Text, fields: seq<Field>)

  datatype Frame = Frame(
    at: int, epoch: nat, kind: CoreKind, stream: Stream, level: Level, timestamp: Option<Timestamp>,
    target: Option<Text>, message: Text, fields: seq<Field>, raw: Text, truncated: bool)

  /** One pushed line, when it was observed, and what the kind's header parser made of it. */
  datatype Input = Input(stream: Stream, line: Text, at: int, header: Option<ParsedLine>)

  /** A call to the parser, which outlives the process: a line, or the release of what waits. */
  datatype Call = Line(input: Input) | Finish

  datatype Config = Config(kind: CoreKind, epoch: nat)

  /** `Error:` */
  const ERROR_ROOT: Text := [0x45, 0x72, 0x72, 0x6F, 0x72, 0x3A]

  /** `warning:` */
  const WARNING_ROOT: Text := [0x77, 0x61, 0x72, 0x6E, 0x69, 0x6E, 0x67, 0x3A]

  predicate IsSevere(level: Level) {
    level.Error? || level.Fatal?
  }

  // -------------------------------------------------------------------- bounding

  function Cut(text: Text, max: nat): (r: Text) {
    Truncated(text, max).text
  }

  function BoundedField(f: Field): (r: Field) {
    Field(Cut(f.key, MAX_LOG_FIELD_TEXT_BYTES), Cut(f.value, MAX_LOG_FIELD_TEXT_BYTES))
  }

  function BoundedFields(fields: seq<Field>): (r: seq<Field>)
    ensures |r| == |fields|
    ensures forall i :: 0 <= i < |r| ==> r[i] == BoundedField(fields[i])
  {
    if fields == [] then [] else [BoundedField(fields[0])] + BoundedFields(fields[1..])
  }

  function FirstFields(fields: seq<Field>): (r: seq<Field>) {
    if |fields| > MAX_LOG_FIELDS then fields[..MAX_LOG_FIELDS] else fields
  }

  function CutTarget(target: Option<Text>): (r: Option<Text>) {
    if target.None? then None else Some(Cut(target.value, MAX_LOG_TARGET_BYTES))
  }

  function CutTimestamp(t: Option<Timestamp>): (r: Option<Timestamp>) {
    if t.None? then None else Some(t.value.(raw := Cut(t.value.raw, MAX_LOG_TIMESTAMP_RAW_BYTES)))
  }

  /** The frame with each text and the field list within its cap. */
  function CutFrame(f: Frame): (r: Frame) {
    f.(message := Cut(f.message, MAX_LOG_TEXT_BYTES),
       raw := Cut(f.raw, MAX_LOG_TEXT_BYTES),
       target := CutTarget(f.target),
       timestamp := CutTimestamp(f.timestamp),
       fields := BoundedFields(FirstFields(f.fields)))
  }

  /** A frame is marked as soon as cutting changed it. */
  function BoundedFrame(f: Frame): (r: Frame) {
    CutFrame(f).(truncated := f.truncated || CutFrame(f) != f)
  }

  predicate Capped(f: Frame) {
    && |f.message| <= MAX_LOG_TEXT_BYTES
    && |f.raw| <= MAX_LOG_TEXT_BYTES
    && (f.target.Some? ==> |f.target.value| <= MAX_LOG_TARGET_BYTES)
    && (f.timestamp.Some? ==> |f.timestamp.value.raw| <= MAX_LOG_TIMESTAMP_RAW_BYTES)
    && |f.fields| <= MAX_LOG_FIELDS
    && (forall i :: 0 <= i < |f.fields| ==>
          |f.fields[i].key| <= MAX_LOG_FIELD_TEXT_BYTES && |f.fields[i].value| <= MAX_LOG_FIELD_TEXT_BYTES)
  }

  predicate IsText(f: Frame) {
    && WellFormed(f.message)
    && WellFormed(f.raw)
    && (f.target.Some? ==> WellFormed(f.target.value))
    && (f.timestamp.Some? ==> WellFormed(f.timestamp.value.raw))
    && AllText(f.fields)
  }

  lemma BoundedFrameIsText(f: Frame)
    requires IsText(f)
    ensures IsText(BoundedFrame(f))
  {
    TruncationIsTight(f.message, MAX_LOG_TEXT_BYTES);
    TruncationIsTight(f.raw, MAX_LOG_TEXT_BYTES);
    if f.target.Some? {
      TruncationIsTight(f.target.value, MAX_LOG_TARGET_BYTES);
    }
    if f.timestamp.Some? {
      TruncationIsTight(f.timestamp.value.raw, MAX_LOG_TIMESTAMP_RAW_BYTES);
    }
    var fields := FirstFields(f.fields);
    forall i | 0 <= i < |fields|
      ensures WellFormed(BoundedField(fields[i]).key) && WellFormed(BoundedField(fields[i]).value)
    {
      TruncationIsTight(fields[i].key, MAX_LOG_FIELD_TEXT_BYTES);
      TruncationIsTight(fields[i].value, MAX_LOG_FIELD_TEXT_BYTES);
    }
  }

  method BoundFields(fields: seq<Field>) returns (r: seq<Field>, cut: bool)
    ensures r == BoundedFields(fields) && (cut <==> r != fields)
  {
    r, cut := fields, false;
    var i := 0;
    while i < |fields|
      invariant i <= |fields| == |r|
      invariant forall k :: 0 <= k < i ==> r[k] == BoundedField(fields[k])
      invariant forall k :: i <= k < |r| ==> r[k] == fields[k]
      invariant cut <==> exists k :: 0 <= k < i && r[k] != fields[k]
    {
      var key := TruncateText(r[i].key, MAX_LOG_FIELD_TEXT_BYTES);
      var value := TruncateText(r[i].value, MAX_LOG_FIELD_TEXT_BYTES);
      var changed := key.cut || value.cut;
      ghost var before := r;
      r := r[i := Field(key.text, value.text)];
      assert changed <==> r[i] != fields[i];
      assert forall k :: 0 <= k < i ==> r[k] == before[k];
      cut := cut || changed;
      i := i + 1;
    }
  }

  method BoundTarget(target: Option<Text>) returns (r: Option<Text>, cut: bool)
    ensures r == CutTarget(target) && (cut <==> r != target)
  {
    if target.None? {
      return None, false;
    }
    var text := TruncateText(target.value, MAX_LOG_TARGET_BYTES);
    return Some(text.text), text.cut;
  }

  method BoundTimestamp(t: Option<Timestamp>) returns (r: Option<Timestamp>, cut: bool)
    ensures r == CutTimestamp(t) && (cut <==> r != t)
  {
    if t.None? {
      return None, false;
    }
    var raw := TruncateText(t.value.raw, MAX_LOG_TIMESTAMP_RAW_BYTES);
    return Some(t.value.(raw := raw.text)), raw.cut;
  }

  method BoundFieldList(fields: seq<Field>) returns (r: seq<Field>, cut: bool)
    ensures r == BoundedFields(FirstFields(fields)) && (cut <==> r != fields)
  {
    var kept := fields;
    if |fields| > MAX_LOG_FIELDS {
      kept := fields[..MAX_LOG_FIELDS];
    }
    r, cut := BoundFields(kept);
    cut := cut || |fields| > MAX_LOG_FIELDS;
  }

  method BoundFrame(f: Frame) returns (r: Frame)
    ensures r == BoundedFrame(f)
  {
    var message := TruncateText(f.message, MAX_LOG_TEXT_BYTES);
    var raw := TruncateText(f.raw, MAX_LOG_TEXT_BYTES);
    var target, targetCut := BoundTarget(f.target);
    var timestamp, timestampCut := BoundTimestamp(f.timestamp);
    var fields, fieldsCut := BoundFieldList(f.fields);
    var cut := message.cut || raw.cut || targetCut || timestampCut || fieldsCut;
    r := f.(message := message.text, raw := raw.text, target := target, timestamp := timestamp, fields := fields);
    assert r == CutFrame(f);
    assert cut <==> r != f;
    r := r.(truncated := f.truncated || cut);
  }

  // ---------------------------------------------------------------------- records

  /**
   A record: its frame and continuation count, and, to speak about what was
   kept, the lines it was made of, its root frame before bounding, and the number
   of the call that opened it.
   */
  datatype Record = Record(frame: Frame, continuations: nat, lines: seq<Text>, root: Frame, serial: nat)

  datatype Parser = Parser(out: Option<Record>, err: Option<Record>, newest: Option<Stream>) {
    function Pending(s: Stream): (r: Option<Record>) {
      if s.Stdout? then out else err
    }

    function With(s: Stream, r: Option<Record>): (result: Parser) {
      if s.Stdout? then this.(out := r) else this.(err := r)
    }
  }

  const EMPTY := Parser(None, None, None)

  /** What a call leaves in the parser and the records it releases, in order. */
  datatype Outcome = Outcome(parser: Parser, emitted: seq<Record>)

  function AsSeq<T>(o: Option<T>): (r: seq<T>) {
    if o.Some? then [o.value] else []
  }

  function AppendToFrame(f: Frame, continuations: nat, line: Text): (r: (Frame, nat)) {
    if continuations == MAX_CONTINUATION_LINES then (f.(truncated := true), continuations)
    else
      var raw := Appended(f.raw, line, MAX_LOG_TEXT_BYTES);
      var message := Appended(f.message, line, MAX_LOG_TEXT_BYTES);
      var g := f.(raw := raw.text, message := message.text);
      if raw.cut || message.cut then (g.(truncated := true), MAX_CONTINUATION_LINES) else (g, continuations + 1)
  }

  function AppendLine(r: Record, line: Text): (result: Record) {
    var (frame, continuations) := AppendToFrame(r.frame, r.continuations, line);
    r.(frame := frame, continuations := continuations, lines := r.lines + [line])
  }

  function Emit(p: Parser, stream: Stream, r: Record, hold: bool): (result: Outcome) {
    var flushed := AsSeq(p.Pending(stream));
    if hold then Outcome(p.With(stream, Some(r)).(newest := Some(stream)), flushed)
    else Outcome(p.With(stream, None), flushed + [r])
  }

  predicate IsErrorRoot(line: Text) {
    ERROR_ROOT <= line
  }

  predicate IsWarningRoot(line: Text) {
    WARNING_ROOT <= line
  }

  function PlainLevel(line: Text, stream: Stream): (r: Level) {
    if IsErrorRoot(line) then Error
    else if IsWarningRoot(line) then Warning
    else if stream.Stdout? then Info
    else Warning
  }

  /** The frame a stripped line opens, before bounding. */
  function RootFrame(c: Config, i: Input, line: Text): (r: Frame) {
    if i.header.Some? then
      var h := i.header.value;
      Frame(i.at, c.epoch, c.kind, i.stream, h.level, h.timestamp, h.target, h.message, h.fields, line, false)
    else
      Frame(i.at, c.epoch, c.kind, i.stream, PlainLevel(line, i.stream), None, None, line, [], line, false)
  }

  /** Whether a stripped line continues a record instead of opening one. */
  predicate Continues(p: Parser, i: Input, line: Text) {
    i.header.None? && !IsErrorRoot(line) && !IsWarningRoot(line) && p.Pending(i.stream).Some?
  }

  /** Whether the record a stripped line opens waits for continuations. */
  predicate Holds(i: Input, line: Text) {
    if i.header.Some? then IsSevere(i.header.value.level) else IsErrorRoot(line) && i.stream.Stderr?
  }

  function NewRecord(c: Config, i: Input, line: Text, serial: nat): (r: Record) {
    var root := RootFrame(c, i, line);
    Record(BoundedFrame(root), 0, [line], root, serial)
  }

  function Push(c: Config, p: Parser, i: Input, serial: nat): (r: Outcome) {
    var line := Stripped(i.line);
    if Continues(p, i, line) then
      Outcome(p.With(i.stream, Some(AppendLine(p.Pending(i.stream).value, line))), [])
    else
      Emit(p, i.stream, NewRecord(c, i, line, serial), Holds(i, line))
  }

  /** What `finish` releases, oldest first. */
  function Remaining(p: Parser): (r: seq<Record>) {
    if p.newest == Some(Stdout) then AsSeq(p.err) + AsSeq(p.out) else AsSeq(p.out) + AsSeq(p.err)
  }

  function Serve(c: Config, p: Parser, call: Call, serial: nat): (r: Outcome) {
    match call
    case Line(i) => Push(c, p, i, serial)
    case Finish => Outcome(EMPTY, Remaining(p))
  }

  /** The parser after any interleaving of pushes and finishes, and everything it released. */
  function Run(c: Config, calls: seq<Call>): (r: Outcome)
    decreases |calls|
  {
    if calls == [] then Outcome(EMPTY, [])
    else
      var before := Run(c, calls[..|calls| - 1]);
      var step := Serve(c, before.parser, calls[|calls| - 1], |calls| - 1);
      Outcome(step.parser, before.emitted + step.emitted)
  }

  // ------------------------------------------------------------ what a record keeps

  function Joined(lines: seq<Text>): (r: Text)
    decreases |lines|
  {
    if lines == [] then []
    else if |lines| == 1 then lines[0]
    else Joined(lines[..|lines| - 1]) + [NEWLINE] + lines[|lines| - 1]
  }

  lemma JoinedSnoc(lines: seq<Text>, line: Text)
    requires lines != []
    ensures Joined(lines + [line]) == Joined(lines) + [NEWLINE] + line
  {
    assert (lines + [line])[..|lines|] == lines;
  }

  /** The record's message, unbounded: the root's, then each continuation. */
  function MessageLines(r: Record): (result: seq<Text>)
    requires r.lines != []
  {
    [r.root.message] + r.lines[1..]
  }

  predicate SameDetails(r: Record) {
    r.frame.target == r.root.target && r.frame.timestamp == r.root.timestamp && r.frame.fields == r.root.fields
  }

  /** Nothing of the record is missing from its frame. */
  predicate Complete(r: Record)
    requires r.lines != []
  {
    r.frame.raw == Joined(r.lines) && r.frame.message == Joined(MessageLines(r)) && SameDetails(r)
  }

  /** Something of the record is missing, and no later line can make up for it. */
  predicate Lossy(r: Record)
    requires r.lines != []
  {
    || |r.frame.raw| < |Joined(r.lines)|
    || |r.frame.message| < |Joined(MessageLines(r))|
    || !SameDetails(r)
  }

  predicate Sound(r: Record) {
    && r.lines != []
    && Capped(r.frame)
    && r.continuations <= MAX_CONTINUATION_LINES
    && |r.frame.raw| <= |Joined(r.lines)|
    && |r.frame.message| <= |Joined(MessageLines(r))|
    && (if r.frame.truncated then Lossy(r) else Complete(r) && |r.lines| == r.continuations + 1)
  }

  lemma NewRecordIsSound(c: Config, i: Input, line: Text, serial: nat)
    ensures Sound(NewRecord(c, i, line, serial))
  {
    var r := NewRecord(c, i, line, serial);
    assert r.lines[1..] == [];
    assert MessageLines(r) == [r.root.message];
    if r.frame.truncated && SameDetails(r) {
      assert CutFrame(r.root) != r.root;
      assert Cut(r.root.raw, MAX_LOG_TEXT_BYTES) != r.root.raw
        || Cut(r.root.message, MAX_LOG_TEXT_BYTES) != r.root.message;
    }
  }

  lemma AppendTracks(text: Text, lines: seq<Text>, line: Text, max: nat)
    requires lines != [] && |text| <= |Joined(lines)| && |text| <= max
    ensures var r := Appended(text, line, max); var all := Joined(lines + [line]);
      && |r.text| <= |all| && |r.text| <= max
      && (r.cut || |text| < |Joined(lines)| ==> |r.text| < |all|)
      && (!r.cut && text == Joined(lines) ==> r.text == all)
  {
    JoinedSnoc(lines, line);
    if |text| < max && line != [] {
      var end := Taken(text, line, max);
      assert |text| + 1 + end <= max;
      if end == |line| {
        assert line[..end] == line;
      }
    } else if line == [] {
      assert Joined(lines) + [NEWLINE] + line == Joined(lines) + [NEWLINE];
    }
  }

  lemma AppendKeepsSound(r: Record, line: Text)
    requires Sound(r)
    ensures Sound(AppendLine(r, line))
  {
    var t := AppendLine(r, line);
    assert MessageLines(t) == MessageLines(r) + [line];
    JoinedSnoc(r.lines, line);
    JoinedSnoc(MessageLines(r), line);
    if r.continuations < MAX_CONTINUATION_LINES {
      AppendTracks(r.frame.raw, r.lines, line, MAX_LOG_TEXT_BYTES);
      AppendTracks(r.frame.message, MessageLines(r), line, MAX_LOG_TEXT_BYTES);
    }
  }

  // ------------------------------------------------------------------ over runs

  predicate PendingOk(s: Stream, r: Option<Record>, served: nat) {
    r.Some? ==>
      Sound(r.value) && r.value.frame.stream == s && IsSevere(r.value.frame.level) && r.value.serial < served
  }

  /** What holds between calls; the last clause is what `newest` is for. */
  predicate Inv(p: Parser, served: nat) {
    && PendingOk(Stdout, p.out, served)
    && PendingOk(Stderr, p.err, served)
    && (p.out.Some? && p.err.Some? ==>
          p.newest == Some(if p.out.value.serial < p.err.value.serial then Stderr else Stdout)
          && p.out.value.serial != p.err.value.serial)
  }

  lemma ContinuingKeepsInv(p: Parser, stream: Stream, r: Record, served: nat)
    requires Inv(p, served) && p.Pending(stream).Some?
    requires Sound(r) && r.frame.stream == stream && IsSevere(r.frame.level)
    requires r.serial == p.Pending(stream).value.serial
    ensures Inv(p.With(stream, Some(r)), served + 1)
  {
  }

  lemma OpeningKeepsInv(p: Parser, stream: Stream, r: Record, hold: bool, served: nat)
    requires Inv(p, served)
    requires Sound(r) && r.frame.stream == stream && r.serial == served && (hold ==> IsSevere(r.frame.level))
    ensures Inv(Emit(p, stream, r, hold).parser, served + 1)
    ensures AllSound(Emit(p, stream, r, hold).emitted)
  {
  }

  predicate AllSound(records: seq<Record>) {
    forall k :: 0 <= k < |records| ==> Sound(records[k])
  }

  lemma AppendFits(p: Parser, s: Stream, line: Text, served: nat)
    requires Inv(p, served) && p.Pending(s).Some?
    ensures var t := AppendLine(p.Pending(s).value, line);
      Sound(t) && t.frame.stream == s && IsSevere(t.frame.level) && t.serial == p.Pending(s).value.serial
  {
    var r := p.Pending(s).value;
    AppendKeepsSound(r, line);
    AppendKeepsHeader(r, line);
  }

  lemma AppendKeepsHeader(r: Record, line: Text)
    ensures var t := AppendLine(r, line);
      t.frame.stream == r.frame.stream && t.frame.level == r.frame.level && t.serial == r.serial
  {
  }

  lemma NewRecordFits(c: Config, i: Input, line: Text, serial: nat)
    ensures var r := NewRecord(c, i, line, serial);
      Sound(r) && r.frame.stream == i.stream && r.serial == serial && (Holds(i, line) ==> IsSevere(r.frame.level))
  {
    NewRecordIsSound(c, i, line, serial);
  }

  lemma PushKeepsInv(c: Config, p: Parser, i: Input, serial: nat)
    requires Inv(p, serial)
    ensures Inv(Push(c, p, i, serial).parser, serial + 1)
    ensures AllSound(Push(c, p, i, serial).emitted)
  {
    var line := Stripped(i.line);
    if Continues(p, i, line) {
      ContinuingStep(p, i.stream, line, serial);
    } else {
      NewRecordFits(c, i, line, serial);
      OpeningKeepsInv(p, i.stream, NewRecord(c, i, line, serial), Holds(i, line), serial);
    }
  }

  lemma ContinuingStep(p: Parser, s: Stream, line: Text, serial: nat)
    requires Inv(p, serial) && p.Pending(s).Some?
    ensures Inv(p.With(s, Some(AppendLine(p.Pending(s).value, line))), serial + 1)
  {
    AppendFits(p, s, line, serial);
    ContinuingKeepsInv(p, s, AppendLine(p.Pending(s).value, line), serial);
  }

  lemma RemainingSound(p: Parser, served: nat)
    requires Inv(p, served)
    ensures AllSound(Remaining(p))
  {
  }

  lemma ServingKeepsInv(c: Config, p: Parser, call: Call, serial: nat)
    requires Inv(p, serial)
    ensures Inv(Serve(c, p, call, serial).parser, serial + 1)
    ensures AllSound(Serve(c, p, call, serial).emitted)
  {
    match call
    case Line(i) => PushKeepsInv(c, p, i, serial);
    case Finish => RemainingSound(p, serial);
  }

  lemma {:induction false} RunKeepsInv(c: Config, calls: seq<Call>)
    ensures Inv(Run(c, calls).parser, |calls|)
    decreases |calls|
  {
    if calls != [] {
      var n := |calls| - 1;
      RunKeepsInv(c, calls[..n]);
      ServingKeepsInv(c, Run(c, calls[..n]).parser, calls[n], n);
    }
  }

  /** Every record ever released is sound, and so is every record still pending. */
  lemma {:induction false} ReleasedAreSound(c: Config, calls: seq<Call>)
    ensures AllSound(Run(c, calls).emitted)
    decreases |calls|
  {
    if calls != [] {
      var n := |calls| - 1;
      ReleasedAreSound(c, calls[..n]);
      RunKeepsInv(c, calls[..n]);
      ServingKeepsInv(c, Run(c, calls[..n]).parser, calls[n], n);
    }
  }

  /** Everything a run releases, with what a last `finish` releases after it. */
  function Released(c: Config, calls: seq<Call>): (r: seq<Record>) {
    Run(c, calls).emitted + Remaining(Run(c, calls).parser)
  }

  lemma SoundIsHonest(r: Record)
    requires Sound(r)
    ensures !r.frame.truncated <==> Complete(r)
    ensures !r.frame.truncated ==> |r.lines| <= MAX_CONTINUATION_LINES + 1
  {
  }

  /**
   Every frame of every run is within every cap, and its `truncated` mark is
   exact: an unmarked frame carries all of its lines, and its message all of its
   continuations; a marked one has lost something.
   */
  lemma FramesAreCappedAndHonest(c: Config, calls: seq<Call>, k: nat)
    requires k < |Released(c, calls)|
    ensures var r := Released(c, calls)[k];
      && r.lines != []
      && Capped(r.frame)
      && (!r.frame.truncated <==> Complete(r))
      && (!r.frame.truncated ==> |r.lines| <= MAX_CONTINUATION_LINES + 1)
  {
    ReleasedAreSound(c, calls);
    RunKeepsInv(c, calls);
    RemainingSound(Run(c, calls).parser, |calls|);
    var n := |Run(c, calls).emitted|;
    SoundIsHonest(if k < n then Run(c, calls).emitted[k] else Remaining(Run(c, calls).parser)[k - n]);
  }

  // ---------------------------------------------------------------- conservation

  function Own(r: Record, s: Stream): (result: seq<Text>) {
    if r.frame.stream == s then r.lines else []
  }

  /** The lines of the records of one stream, in order. */
  function LinesOf(records: seq<Record>, s: Stream): (r: seq<Text>)
    decreases |records|
  {
    if records == [] then []
    else LinesOf(records[..|records| - 1], s) + Own(records[|records| - 1], s)
  }

  /** The stripped lines pushed on one stream, in order. */
  function Pushed(calls: seq<Call>, s: Stream): (r: seq<Text>)
    decreases |calls|
  {
    if calls == [] then [] else Pushed(calls[..|calls| - 1], s) + Brings(calls[|calls| - 1], s)
  }

  function Brings(call: Call, s: Stream): (r: seq<Text>) {
    if call.Line? && call.input.stream == s then [Stripped(call.input.line)] else []
  }

  lemma LinesOfSnoc(a: seq<Record>, r: Record, s: Stream)
    ensures LinesOf(a + [r], s) == LinesOf(a, s) + Own(r, s)
  {
    assert (a + [r])[..|a|] == a;
  }

  lemma LinesOfJoinMore(a: seq<Record>, b: seq<Record>, r: Record, s: Stream)
    requires LinesOf(a + b, s) == LinesOf(a, s) + LinesOf(b, s)
    ensures LinesOf(a + (b + [r]), s) == LinesOf(a, s) + LinesOf(b + [r], s)
  {
    Associate(a, b, [r]);
    LinesOfSnoc(a + b, r, s);
    LinesOfSnoc(b, r, s);
    Associate(LinesOf(a, s), LinesOf(b, s), Own(r, s));
  }

  lemma {:induction false} LinesOfJoin(a: seq<Record>, b: seq<Record>, s: Stream)
    ensures LinesOf(a + b, s) == LinesOf(a, s) + LinesOf(b, s)
    decreases |b|
  {
    if b == [] {
      assert a + b == a;
    } else {
      var n := |b| - 1;
      LinesOfJoin(a, b[..n], s);
      assert b == b[..n] + [b[n]];
      LinesOfJoinMore(a, b[..n], b[n], s);
    }
  }

  lemma LinesOfOne(r: Record, s: Stream)
    ensures LinesOf([r], s) == Own(r, s)
  {
    assert [r][..0] == [];
  }

  predicate OnOwnStreams(p: Parser) {
    && (p.out.Some? ==> p.out.value.frame.stream == Stdout)
    && (p.err.Some? ==> p.err.value.frame.stream == Stderr)
  }

  lemma LinesOfPending(p: Parser, s: Stream, of: Stream)
    requires OnOwnStreams(p)
    ensures LinesOf(AsSeq(p.Pending(of)), s) == if of == s && p.Pending(s).Some? then p.Pending(s).value.lines else []
  {
    if p.Pending(of).Some? {
      LinesOfOne(p.Pending(of).value, s);
    }
  }

  function Waiting(p: Parser, s: Stream): (r: seq<Text>) {
    if p.Pending(s).Some? then p.Pending(s).value.lines else []
  }

  lemma OpeningMovesLines(p: Parser, stream: Stream, r: Record, hold: bool, s: Stream)
    requires OnOwnStreams(p) && r.frame.stream == stream
    ensures var o := Emit(p, stream, r, hold);
      LinesOf(o.emitted, s) + Waiting(o.parser, s) == Waiting(p, s) + Own(r, s)
  {
    LinesOfPending(p, s, stream);
    LinesOfOne(r, s);
    LinesOfJoin(AsSeq(p.Pending(stream)), [r], s);
    NothingAround(Waiting(p, s));
    NothingAround(Waiting(p, s) + Own(r, s));
  }

  lemma PushMovesLines(c: Config, p: Parser, i: Input, serial: nat, s: Stream)
    requires OnOwnStreams(p)
    ensures var o := Push(c, p, i, serial);
      LinesOf(o.emitted, s) + Waiting(o.parser, s) == Waiting(p, s) + Brings(Line(i), s)
  {
    var line := Stripped(i.line);
    if !Continues(p, i, line) {
      OpeningMovesLines(p, i.stream, NewRecord(c, i, line, serial), Holds(i, line), s);
    }
  }

  lemma PairLines(p: Parser, s: Stream, first: Stream, second: Stream)
    requires OnOwnStreams(p) && first != second
    ensures LinesOf(AsSeq(p.Pending(first)) + AsSeq(p.Pending(second)), s) == Waiting(p, s)
  {
    LinesOfPending(p, s, first);
    LinesOfPending(p, s, second);
    LinesOfJoin(AsSeq(p.Pending(first)), AsSeq(p.Pending(second)), s);
  }

  lemma RemainingLines(p: Parser, s: Stream)
    requires OnOwnStreams(p)
    ensures LinesOf(Remaining(p), s) == Waiting(p, s)
  {
    PairLines(p, s, Stdout, Stderr);
    PairLines(p, s, Stderr, Stdout);
  }

  lemma ServingMovesLines(c: Config, p: Parser, call: Call, serial: nat, s: Stream)
    requires OnOwnStreams(p)
    ensures var o := Serve(c, p, call, serial);
      LinesOf(o.emitted, s) + Waiting(o.parser, s) == Waiting(p, s) + Brings(call, s)
  {
    match call
    case Line(i) => PushMovesLines(c, p, i, serial, s);
    case Finish => RemainingLines(p, s);
  }

  /**
   Lines are conserved: however pushes and finishes are interleaved, on each stream
   the lines of the released records followed by those of the pending one are
   exactly the stripped lines pushed, in order.
   */
  lemma {:induction false} LinesAreConserved(c: Config, calls: seq<Call>, s: Stream)
    ensures LinesOf(Run(c, calls).emitted, s) + Waiting(Run(c, calls).parser, s) == Pushed(calls, s)
    decreases |calls|
  {
    if calls != [] {
      var n := |calls| - 1;
      var before := Run(c, calls[..n]);
      var step := Serve(c, before.parser, calls[n], n);
      LinesAreConserved(c, calls[..n], s);
      RunKeepsInv(c, calls[..n]);
      ServingMovesLines(c, before.parser, calls[n], n, s);
      LinesOfJoin(before.emitted, step.emitted, s);
      Regrouped(LinesOf(before.emitted, s), LinesOf(step.emitted, s), Waiting(step.parser, s),
        Waiting(before.parser, s), Brings(calls[n], s));
    }
  }

  lemma Regrouped<T>(a: seq<T>, b: seq<T>, w: seq<T>, x: seq<T>, y: seq<T>)
    requires b + w == x + y
    ensures a + b + w == a + x + y
  {
    assert a + b + w == a + (b + w);
    assert a + x + y == a + (x + y);
  }

  /** After `finish`, the records of a stream carry all of its lines and no other stream's. */
  lemma FinishReleasesTheRest(c: Config, calls: seq<Call>, s: Stream)
    ensures LinesOf(Released(c, calls), s) == Pushed(calls, s)
  {
    var run := Run(c, calls);
    RunKeepsInv(c, calls);
    LinesAreConserved(c, calls, s);
    RemainingLines(run.parser, s);
    LinesOfJoin(run.emitted, Remaining(run.parser), s);
  }

  // -------------------------------------------------------------------- grouping

  /** The lines of one stream divided into records, and whether the last record still takes lines. */
  datatype Grouping = Grouping(groups: seq<seq<Text>>, open: bool)

  /** Whether a stripped line always opens a record. */
  predicate IsRoot(i: Input, line: Text) {
    i.header.Some? || IsErrorRoot(line) || IsWarningRoot(line)
  }

  function AddToLast(groups: seq<seq<Text>>, line: Text): (r: seq<seq<Text>>) {
    if groups == [] then [[line]] else groups[..|groups| - 1] + [groups[|groups| - 1] + [line]]
  }

  function GroupNext(g: Grouping, i: Input): (r: Grouping) {
    var line := Stripped(i.line);
    if IsRoot(i, line) || !g.open then Grouping(g.groups + [[line]], Holds(i, line))
    else Grouping(AddToLast(g.groups, line), true)
  }

  /** What a call means to a stream divided by itself: a finish ends the record that takes lines. */
  function GroupStep(g: Grouping, call: Call, s: Stream): (r: Grouping) {
    match call
    case Line(i) => if i.stream == s then GroupNext(g, i) else g
    case Finish => g.(open := false)
  }

  /** Stream `s` divided by itself: a root opens a record, and what follows a severe one joins it until a finish. */
  function GroupingOf(calls: seq<Call>, s: Stream): (r: Grouping)
    decreases |calls|
  {
    if calls == [] then Grouping([], false)
    else GroupStep(GroupingOf(calls[..|calls| - 1], s), calls[|calls| - 1], s)
  }

  function OwnGroup(r: Record, s: Stream): (result: seq<seq<Text>>) {
    if r.frame.stream == s then [r.lines] else []
  }

  /** The records of one stream, each as its lines. */
  function GroupsOf(records: seq<Record>, s: Stream): (r: seq<seq<Text>>)
    decreases |records|
  {
    if records == [] then []
    else GroupsOf(records[..|records| - 1], s) + OwnGroup(records[|records| - 1], s)
  }

  lemma GroupsOfSnoc(a: seq<Record>, r: Record, s: Stream)
    ensures GroupsOf(a + [r], s) == GroupsOf(a, s) + OwnGroup(r, s)
  {
    assert (a + [r])[..|a|] == a;
  }

  lemma GroupsOfJoinMore(a: seq<Record>, b: seq<Record>, r: Record, s: Stream)
    requires GroupsOf(a + b, s) == GroupsOf(a, s) + GroupsOf(b, s)
    ensures GroupsOf(a + (b + [r]), s) == GroupsOf(a, s) + GroupsOf(b + [r], s)
  {
    Associate(a, b, [r]);
    GroupsOfSnoc(a + b, r, s);
    GroupsOfSnoc(b, r, s);
    Associate(GroupsOf(a, s), GroupsOf(b, s), OwnGroup(r, s));
  }

  lemma {:induction false} GroupsOfJoin(a: seq<Record>, b: seq<Record>, s: Stream)
    ensures GroupsOf(a + b, s) == GroupsOf(a, s) + GroupsOf(b, s)
    decreases |b|
  {
    if b == [] {
      assert a + b == a;
    } else {
      var n := |b| - 1;
      GroupsOfJoin(a, b[..n], s);
      assert b == b[..n] + [b[n]];
      GroupsOfJoinMore(a, b[..n], b[n], s);
    }
  }

  lemma GroupsOfSlot(o: Option<Record>, s: Stream)
    ensures GroupsOf(AsSeq(o), s) == if o.Some? then OwnGroup(o.value, s) else []
  {
    if o.Some? {
      assert [o.value][..0] == [];
    }
  }

  function PendingGroup(p: Parser, s: Stream): (r: seq<seq<Text>>) {
    if p.Pending(s).Some? then [p.Pending(s).value.lines] else []
  }

  lemma SlotGroups(p: Parser, s: Stream, of: Stream)
    requires OnOwnStreams(p)
    ensures GroupsOf(AsSeq(p.Pending(of)), s) == if of == s then PendingGroup(p, s) else []
  {
    GroupsOfSlot(p.Pending(of), s);
  }

  lemma OpeningGroups(p: Parser, stream: Stream, r: Record, hold: bool, s: Stream)
    requires OnOwnStreams(p) && r.frame.stream == stream
    ensures var o := Emit(p, stream, r, hold);
      && GroupsOf(o.emitted, s) + PendingGroup(o.parser, s) == PendingGroup(p, s) + OwnGroup(r, s)
      && (stream == s ==> (o.parser.Pending(s).Some? <==> hold))
      && (stream != s ==> o.parser.Pending(s) == p.Pending(s))
  {
    SlotGroups(p, s, stream);
    GroupsOfSlot(Some(r), s);
    GroupsOfJoin(AsSeq(p.Pending(stream)), [r], s);
    NothingAround(PendingGroup(p, s));
    NothingAround(PendingGroup(p, s) + OwnGroup(r, s));
  }

  /** Seen from stream `s`, `done` groups are released and the pending record is the open one. */
  predicate Follows(done: seq<seq<Text>>, p: Parser, s: Stream, g: Grouping) {
    g == Grouping(done + PendingGroup(p, s), p.Pending(s).Some?)
  }

  lemma ContinuingFollows(p: Parser, i: Input, s: Stream, done: seq<seq<Text>>, g: Grouping)
    requires Continues(p, i, Stripped(i.line)) && Follows(done, p, s, g)
    ensures var t := AppendLine(p.Pending(i.stream).value, Stripped(i.line));
      Follows(done, p.With(i.stream, Some(t)), s, GroupStep(g, Line(i), s))
  {
    if i.stream == s {
      var lines := p.Pending(s).value.lines;
      assert (done + [lines])[..|done|] == done;
      assert AddToLast(done + [lines], Stripped(i.line)) == done + [lines + [Stripped(i.line)]];
    }
  }

  lemma OpeningFollows(c: Config, p: Parser, i: Input, serial: nat, s: Stream, done: seq<seq<Text>>, g: Grouping)
    requires OnOwnStreams(p) && !Continues(p, i, Stripped(i.line)) && Follows(done, p, s, g)
    ensures var o := Push(c, p, i, serial);
      Follows(done + GroupsOf(o.emitted, s), o.parser, s, GroupStep(g, Line(i), s))
  {
    var line := Stripped(i.line);
    var r := NewRecord(c, i, line, serial);
    var o := Emit(p, i.stream, r, Holds(i, line));
    OpeningGroups(p, i.stream, r, Holds(i, line), s);
    Regrouped(done, GroupsOf(o.emitted, s), PendingGroup(o.parser, s), PendingGroup(p, s), OwnGroup(r, s));
    if i.stream != s {
      assert g.groups + [] == g.groups;
    }
  }

  lemma PushFollows(c: Config, p: Parser, i: Input, serial: nat, s: Stream, done: seq<seq<Text>>, g: Grouping)
    requires OnOwnStreams(p) && Follows(done, p, s, g)
    ensures var o := Push(c, p, i, serial);
      Follows(done + GroupsOf(o.emitted, s), o.parser, s, GroupStep(g, Line(i), s))
  {
    if Continues(p, i, Stripped(i.line)) {
      ContinuingFollows(p, i, s, done, g);
      assert done + [] == done;
    } else {
      OpeningFollows(c, p, i, serial, s, done, g);
    }
  }

  lemma PairGroups(p: Parser, s: Stream, first: Stream, second: Stream)
    requires OnOwnStreams(p) && first != second
    ensures GroupsOf(AsSeq(p.Pending(first)) + AsSeq(p.Pending(second)), s) == PendingGroup(p, s)
  {
    GroupsOfJoin(AsSeq(p.Pending(first)), AsSeq(p.Pending(second)), s);
    SlotGroups(p, s, first);
    SlotGroups(p, s, second);
  }

  lemma RemainingGroups(p: Parser, s: Stream)
    requires OnOwnStreams(p)
    ensures GroupsOf(Remaining(p), s) == PendingGroup(p, s)
  {
    PairGroups(p, s, Stdout, Stderr);
    PairGroups(p, s, Stderr, Stdout);
  }

  lemma ServingFollows(c: Config, p: Parser, call: Call, serial: nat, s: Stream, done: seq<seq<Text>>, g: Grouping)
    requires OnOwnStreams(p) && Follows(done, p, s, g)
    ensures var o := Serve(c, p, call, serial);
      Follows(done + GroupsOf(o.emitted, s), o.parser, s, GroupStep(g, call, s))
  {
    match call
    case Line(i) => PushFollows(c, p, i, serial, s, done, g);
    case Finish =>
      RemainingGroups(p, s);
      assert done + PendingGroup(p, s) + [] == done + PendingGroup(p, s);
  }

  lemma {:induction false} RunFollows(c: Config, calls: seq<Call>, s: Stream)
    ensures Follows(GroupsOf(Run(c, calls).emitted, s), Run(c, calls).parser, s, GroupingOf(calls, s))
    decreases |calls|
  {
    if calls != [] {
      var n := |calls| - 1;
      var before := Run(c, calls[..n]);
      var step := Serve(c, before.parser, calls[n], n);
      RunFollows(c, calls[..n], s);
      RunKeepsInv(c, calls[..n]);
      GroupsOfJoin(before.emitted, step.emitted, s);
      ServingFollows(c, before.parser, calls[n], n, s, GroupsOf(before.emitted, s), GroupingOf(calls[..n], s));
    }
  }

  /**
   The records of a stream are those the stream divides into on its own, whatever
   is interleaved on the other one: a header, an `Error:` or a `warning:` opens a
   record, a record that is held takes every line up to the next of those or the
   next finish, and any other line is a record by itself.
   */
  lemma RecordsAreGrouped(c: Config, calls: seq<Call>, s: Stream)
    ensures GroupsOf(Released(c, calls), s) == GroupingOf(calls, s).groups
  {
    var run := Run(c, calls);
    RunFollows(c, calls, s);
    RunKeepsInv(c, calls);
    RemainingGroups(run.parser, s);
    GroupsOfJoin(run.emitted, Remaining(run.parser), s);
  }

  /** `finish` releases what waits oldest first, and nothing below an error waits. */
  lemma FinishIsOldestFirst(c: Config, calls: seq<Call>)
    ensures var rest := Remaining(Run(c, calls).parser);
      && (forall i, j :: 0 <= i < j < |rest| ==> rest[i].serial < rest[j].serial)
      && (forall i :: 0 <= i < |rest| ==> IsSevere(rest[i].frame.level))
  {
    RunKeepsInv(c, calls);
    RemainingInOrder(Run(c, calls).parser, |calls|);
  }

  lemma RemainingInOrder(p: Parser, served: nat)
    requires Inv(p, served)
    ensures var rest := Remaining(p);
      && (forall i, j :: 0 <= i < j < |rest| ==> rest[i].serial < rest[j].serial)
      && (forall i :: 0 <= i < |rest| ==> IsSevere(rest[i].frame.level))
  {
    if p.out.Some? && p.err.Some? {
      var first, second := p.out.value, p.err.value;
      assert Remaining(p) == if first.serial < second.serial then [first, second] else [second, first];
    }
  }

  // ---------------------------------------------------------------- well-formedness

  predicate InputIsText(i: Input) {
    && WellFormed(i.line)
    && (i.header.Some? ==>
          && WellFormed(i.header.value.message)
          && (i.header.value.target.Some? ==> WellFormed(i.header.value.target.value))
          && (i.header.value.timestamp.Some? ==> WellFormed(i.header.value.timestamp.value.raw))
          && AllText(i.header.value.fields))
  }

  predicate CallIsText(call: Call) {
    call.Line? ==> InputIsText(call.input)
  }

  predicate AllFramesText(records: seq<Record>) {
    forall k :: 0 <= k < |records| ==> IsText(records[k].frame)
  }

  lemma AppendIsText(r: Record, line: Text)
    requires Sound(r) && IsText(r.frame) && WellFormed(line)
    ensures IsText(AppendLine(r, line).frame)
  {
    AppendStaysBounded(r.frame.raw, line, MAX_LOG_TEXT_BYTES);
    AppendStaysBounded(r.frame.message, line, MAX_LOG_TEXT_BYTES);
  }

  lemma OneFrameText(r: Record)
    requires IsText(r.frame)
    ensures AllFramesText(AsSeq(Some(r)))
  {
  }

  lemma OpeningIsText(p: Parser, stream: Stream, r: Record, hold: bool)
    requires IsText(r.frame)
    requires AllFramesText(AsSeq(p.out)) && AllFramesText(AsSeq(p.err))
    ensures var o := Emit(p, stream, r, hold);
      AllFramesText(AsSeq(o.parser.out)) && AllFramesText(AsSeq(o.parser.err)) && AllFramesText(o.emitted)
  {
    OneFrameText(r);
  }

  lemma PushIsText(c: Config, p: Parser, i: Input, serial: nat)
    requires Inv(p, serial) && InputIsText(i)
    requires AllFramesText(AsSeq(p.out)) && AllFramesText(AsSeq(p.err))
    ensures var o := Push(c, p, i, serial);
      AllFramesText(AsSeq(o.parser.out)) && AllFramesText(AsSeq(o.parser.err)) && AllFramesText(o.emitted)
  {
    var line := Stripped(i.line);
    StrippedIsWellFormed(i.line);
    if Continues(p, i, line) {
      var r := p.Pending(i.stream).value;
      assert AsSeq(p.Pending(i.stream))[0] == r;
      AppendIsText(r, line);
      OneFrameText(AppendLine(r, line));
    } else {
      BoundedFrameIsText(RootFrame(c, i, line));
      OpeningIsText(p, i.stream, NewRecord(c, i, line, serial), Holds(i, line));
    }
  }

  lemma ServingIsText(c: Config, p: Parser, call: Call, serial: nat)
    requires Inv(p, serial) && CallIsText(call)
    requires AllFramesText(AsSeq(p.out)) && AllFramesText(AsSeq(p.err))
    ensures var o := Serve(c, p, call, serial);
      AllFramesText(AsSeq(o.parser.out)) && AllFramesText(AsSeq(o.parser.err)) && AllFramesText(o.emitted)
  {
    if call.Line? {
      PushIsText(c, p, call.input, serial);
    }
  }

  lemma {:induction false} RunIsText(c: Config, calls: seq<Call>)
    requires forall k :: 0 <= k < |calls| ==> CallIsText(calls[k])
    ensures var o := Run(c, calls);
      AllFramesText(AsSeq(o.parser.out)) && AllFramesText(AsSeq(o.parser.err)) && AllFramesText(o.emitted)
    decreases |calls|
  {
    if calls != [] {
      var n := |calls| - 1;
      RunIsText(c, calls[..n]);
      RunKeepsInv(c, calls[..n]);
      ServingIsText(c, Run(c, calls[..n]).parser, calls[n], n);
    }
  }

  /** However records are cut and extended, every frame released is still text. */
  lemma FramesAreText(c: Config, calls: seq<Call>)
    requires forall k :: 0 <= k < |calls| ==> CallIsText(calls[k])
    ensures AllFramesText(Released(c, calls))
  {
    RunIsText(c, calls);
  }

  // --------------------------------------------------------------- raw as a prefix

  /** What bounding keeps of the record's first line. */
  function KeptRoot(r: Record): (t: Text)
    requires r.lines != []
  {
    Cut(r.lines[0], MAX_LOG_TEXT_BYTES)
  }

  /** The first line was cut short of the cap, before a character that did not fit, and a continuation still fits. */
  predicate ContinuesCutRoot(r: Record)
    requires r.lines != []
  {
    && |KeptRoot(r)| < |r.lines[0]|
    && |KeptRoot(r)| < MAX_LOG_TEXT_BYTES
    && |r.lines| > 1
    && Appended(KeptRoot(r), r.lines[1], MAX_LOG_TEXT_BYTES).text != KeptRoot(r)
  }

  /** No later line reaches the raw text. */
  predicate Closed(r: Record) {
    r.continuations == MAX_CONTINUATION_LINES || |r.frame.raw| == MAX_LOG_TEXT_BYTES
  }

  /** What the raw text of a record looks like, line after line. */
  predicate RawShape(r: Record) {
    && r.lines != []
    && |r.frame.raw| <= MAX_LOG_TEXT_BYTES
    && (|r.lines| == 1 ==> r.frame.raw == KeptRoot(r) && r.continuations == 0)
    && if ContinuesCutRoot(r) then KeptRoot(r) + [NEWLINE] <= r.frame.raw
       else
         && r.frame.raw <= Joined(r.lines)
         && (|r.lines| > 1 ==> r.frame.raw == Joined(r.lines) || Closed(r))
  }

  lemma NewRecordShape(c: Config, i: Input, line: Text, serial: nat)
    ensures RawShape(NewRecord(c, i, line, serial))
  {
    assert Joined([line]) == line;
  }

  lemma AppendGrows(text: Text, line: Text, max: nat)
    requires |text| <= max
    ensures var r := Appended(text, line, max);
      && text <= r.text && |r.text| <= max
      && (r.text != text ==> text + [NEWLINE] <= r.text)
      && (|text| == max ==> r.text == text)
      && (!r.cut ==> r.text == text + [NEWLINE] + line)
      && r.text <= text + [NEWLINE] + line
  {
    if |text| < max && line != [] {
      var end := Taken(text, line, max);
      assert line == line[..end] + line[end..];
      Associate(text + [NEWLINE], line[..end], line[end..]);
      if end == |line| {
        assert line[..end] == line;
      }
    }
  }

  lemma PrefixStays(a: Text, b: Text, tail: Text)
    requires a <= b
    ensures a <= b + tail
  {
  }

  lemma PrefixThrough(a: Text, b: Text, d: Text)
    requires a <= b <= d
    ensures a <= d
  {
  }

  /** The second line decides: after a cut root it either fits somewhere or closes the record. */
  lemma SecondLineShape(r: Record, line: Text)
    requires RawShape(r) && |r.lines| == 1
    ensures RawShape(AppendLine(r, line))
  {
    var t := AppendLine(r, line);
    var kept := KeptRoot(r);
    var next := Appended(kept, line, MAX_LOG_TEXT_BYTES);
    AppendGrows(kept, line, MAX_LOG_TEXT_BYTES);
    assert t.lines[0] == r.lines[0] && t.lines[1] == line;
    assert t.frame.raw == next.text;
    JoinedSnoc(r.lines, line);
    assert Joined(r.lines) == r.lines[0];
    if !ContinuesCutRoot(t) {
      if kept == r.lines[0] {
        assert next.cut ==> t.continuations == MAX_CONTINUATION_LINES;
      } else {
        assert next.text == kept && next.cut;
        PrefixStays(kept, r.lines[0], [NEWLINE] + line);
        assert r.lines[0] + ([NEWLINE] + line) == r.lines[0] + [NEWLINE] + line;
      }
    }
  }

  lemma LaterLineShape(r: Record, line: Text)
    requires RawShape(r) && |r.lines| > 1
    ensures RawShape(AppendLine(r, line))
  {
    var t := AppendLine(r, line);
    AppendGrows(r.frame.raw, line, MAX_LOG_TEXT_BYTES);
    assert t.lines[0] == r.lines[0] && t.lines[1] == r.lines[1];
    assert ContinuesCutRoot(t) == ContinuesCutRoot(r);
    if ContinuesCutRoot(r) {
      PrefixThrough(KeptRoot(r) + [NEWLINE], r.frame.raw, t.frame.raw);
    } else {
      LaterPrefix(r, line);
    }
  }

  lemma LaterPrefix(r: Record, line: Text)
    requires RawShape(r) && |r.lines| > 1 && !ContinuesCutRoot(r)
    ensures var t := AppendLine(r, line);
      t.frame.raw <= Joined(t.lines) && (t.frame.raw == Joined(t.lines) || Closed(t))
  {
    var t := AppendLine(r, line);
    AppendGrows(r.frame.raw, line, MAX_LOG_TEXT_BYTES);
    JoinedSnoc(r.lines, line);
    if t.frame.raw == r.frame.raw {
      PrefixStays(r.frame.raw, Joined(r.lines), [NEWLINE] + line);
      assert Joined(r.lines) + ([NEWLINE] + line) == Joined(r.lines) + [NEWLINE] + line;
      UnchangedIsClosed(r, line);
    }
  }

  lemma UnchangedIsClosed(r: Record, line: Text)
    requires |r.frame.raw| <= MAX_LOG_TEXT_BYTES && AppendLine(r, line).frame.raw == r.frame.raw
    ensures Closed(AppendLine(r, line))
  {
    AppendGrows(r.frame.raw, line, MAX_LOG_TEXT_BYTES);
  }

  /** A character cut off does not begin with a newline. */
  lemma CutCharacter(root: Text)
    requires WellFormed(root)
    ensures var kept := Cut(root, MAX_LOG_TEXT_BYTES);
      |kept| < |root| && |kept| < MAX_LOG_TEXT_BYTES ==> kept <= root && root[|kept|] != NEWLINE
  {
    var end := Floor(root, MAX_LOG_TEXT_BYTES);
    if |root| > MAX_LOG_TEXT_BYTES && end < MAX_LOG_TEXT_BYTES {
      CutIsWellFormed(root, end);
      var rest := root[end..];
      assert !IsBoundary(root, end + 1);
      assert rest[0] == root[end] && rest[1] == root[end + 1];
      assert CharLength(rest) > 0;
    }
  }

  lemma ShapeDecidesPrefix(r: Record)
    requires RawShape(r) && WellFormed(r.lines[0])
    ensures r.frame.raw <= Joined(r.lines) <==> !ContinuesCutRoot(r)
  {
    if ContinuesCutRoot(r) {
      CutCharacter(r.lines[0]);
      RootLeads(r.lines);
      assert (KeptRoot(r) + [NEWLINE])[|KeptRoot(r)|] == NEWLINE;
    }
  }

  lemma {:induction false} RootLeads(lines: seq<Text>)
    requires lines != []
    ensures lines[0] <= Joined(lines)
    decreases |lines|
  {
    if |lines| > 1 {
      RootLeads(lines[..|lines| - 1]);
    }
  }

  predicate Shaped(r: Record) {
    RawShape(r) && WellFormed(r.lines[0])
  }

  predicate AllShaped(records: seq<Record>) {
    forall k :: 0 <= k < |records| ==> Shaped(records[k])
  }

  predicate PendingShaped(p: Parser) {
    (p.out.Some? ==> Shaped(p.out.value)) && (p.err.Some? ==> Shaped(p.err.value))
  }

  lemma AppendKeepsShaped(r: Record, line: Text)
    requires Shaped(r)
    ensures Shaped(AppendLine(r, line))
  {
    if |r.lines| == 1 {
      SecondLineShape(r, line);
    } else {
      LaterLineShape(r, line);
    }
    assert AppendLine(r, line).lines[0] == r.lines[0];
  }

  lemma OpeningKeepsShaped(p: Parser, stream: Stream, r: Record, hold: bool)
    requires PendingShaped(p) && Shaped(r)
    ensures PendingShaped(Emit(p, stream, r, hold).parser) && AllShaped(Emit(p, stream, r, hold).emitted)
  {
  }

  lemma ContinuingKeepsShaped(p: Parser, stream: Stream, r: Record)
    requires PendingShaped(p) && Shaped(r)
    ensures PendingShaped(p.With(stream, Some(r)))
  {
  }

  lemma PushKeepsShaped(c: Config, p: Parser, i: Input, serial: nat)
    requires PendingShaped(p) && WellFormed(i.line)
    ensures PendingShaped(Push(c, p, i, serial).parser) && AllShaped(Push(c, p, i, serial).emitted)
  {
    var line := Stripped(i.line);
    StrippedIsWellFormed(i.line);
    if Continues(p, i, line) {
      var r := p.Pending(i.stream).value;
      AppendKeepsShaped(r, line);
      ContinuingKeepsShaped(p, i.stream, AppendLine(r, line));
    } else {
      NewRecordShape(c, i, line, serial);
      OpeningKeepsShaped(p, i.stream, NewRecord(c, i, line, serial), Holds(i, line));
    }
  }

  lemma RemainingShaped(p: Parser)
    requires PendingShaped(p)
    ensures AllShaped(Remaining(p))
  {
  }

  predicate LineIsText(call: Call) {
    call.Line? ==> WellFormed(call.input.line)
  }

  lemma ServingKeepsShaped(c: Config, p: Parser, call: Call, serial: nat)
    requires PendingShaped(p) && LineIsText(call)
    ensures PendingShaped(Serve(c, p, call, serial).parser) && AllShaped(Serve(c, p, call, serial).emitted)
  {
    match call
    case Line(i) => PushKeepsShaped(c, p, i, serial);
    case Finish => RemainingShaped(p);
  }

  lemma {:induction false} RunKeepsShaped(c: Config, calls: seq<Call>)
    requires forall k :: 0 <= k < |calls| ==> LineIsText(calls[k])
    ensures PendingShaped(Run(c, calls).parser) && AllShaped(Run(c, calls).emitted)
    decreases |calls|
  {
    if calls != [] {
      var n := |calls| - 1;
      RunKeepsShaped(c, calls[..n]);
      ServingKeepsShaped(c, Run(c, calls[..n]).parser, calls[n], n);
    }
  }

  /**
   When a frame's raw text is a prefix of its record. Over every run on text that
   holds for each released record if and only if its first line was not cut short
   of the cap, in front of a character that did not fit, and then continued.
   */
  lemma RawIsPrefixIff(c: Config, calls: seq<Call>, k: nat)
    requires forall j :: 0 <= j < |calls| ==> LineIsText(calls[j])
    requires k < |Released(c, calls)|
    ensures var r := Released(c, calls)[k];
      && r.lines != []
      && (r.frame.raw <= Joined(r.lines) <==> !ContinuesCutRoot(r))
  {
    RunKeepsShaped(c, calls);
    RemainingShaped(Run(c, calls).parser);
    AllStayShaped(Run(c, calls).emitted, Remaining(Run(c, calls).parser));
    ShapeDecidesPrefix(Released(c, calls)[k]);
  }

  lemma AllStayShaped(a: seq<Record>, b: seq<Record>)
    requires AllShaped(a) && AllShaped(b)
    ensures AllShaped(a + b)
  {
  }

  /** Plain text of `n` bytes. */
  function Filler(n: nat): (t: Text)
    ensures |t| == n && ESCAPE !in t && WellFormed(t)
  {
    if n == 0 then []
    else
      AsciiIsWellFormed(0x61);
      JoinIsWellFormed(Filler(n - 1), [0x61]);
      Filler(n - 1) + [0x61]
  }

  /** An error root whose last character straddles the cap. */
  function Straddling(filler: Text): (root: Text) {
    ERROR_ROOT + filler + [0xC3, 0xA9]
  }

  function StraddlingRoot(): (root: Text)
    ensures |root| == MAX_LOG_TEXT_BYTES + 1
  {
    Straddling(Filler(MAX_LOG_TEXT_BYTES - 1 - |ERROR_ROOT|))
  }

  lemma StraddlingRootIsText()
    ensures var root := StraddlingRoot();
      && WellFormed(root) && ESCAPE !in root && ERROR_ROOT <= root
      && Cut(root, MAX_LOG_TEXT_BYTES) == root[..MAX_LOG_TEXT_BYTES - 1]
  {
    StraddlingIsText(Filler(MAX_LOG_TEXT_BYTES - 1 - |ERROR_ROOT|));
  }

  lemma {:induction false} PlainIsText(s: Text)
    requires forall i :: 0 <= i < |s| ==> ESCAPE < s[i] < 0x80
    ensures WellFormed(s) && ESCAPE !in s
  {
    if s != [] {
      PlainIsText(s[1..]);
    }
  }

  lemma StraddlingIsText(filler: Text)
    requires WellFormed(filler) && ESCAPE !in filler && |filler| == MAX_LOG_TEXT_BYTES - 1 - |ERROR_ROOT|
    ensures var root := Straddling(filler);
      && WellFormed(root) && ESCAPE !in root && ERROR_ROOT <= root
      && Cut(root, MAX_LOG_TEXT_BYTES) == root[..MAX_LOG_TEXT_BYTES - 1]
  {
    HeadIsText(ERROR_ROOT, filler);
    LastStraddles(ERROR_ROOT + filler);
    PlainAndLast(ERROR_ROOT, filler, [0xC3, 0xA9]);
  }

  lemma HeadIsText(head: Text, filler: Text)
    requires WellFormed(filler) && forall i :: 0 <= i < |head| ==> ESCAPE < head[i] < 0x80
    ensures WellFormed(head + filler) && ESCAPE !in head
  {
    PlainIsText(head);
    JoinIsWellFormed(head, filler);
  }

  lemma PlainAndLast(a: Text, b: Text, last: Text)
    requires ESCAPE !in a && ESCAPE !in b && ESCAPE !in last
    ensures ESCAPE !in a + b + last && a <= a + b + last && (a + b + last)[..|a| + |b|] == a + b
  {
  }

  lemma LastStraddles(plain: Text)
    requires WellFormed(plain) && |plain| == MAX_LOG_TEXT_BYTES - 1
    ensures var root := plain + [0xC3, 0xA9]; WellFormed(root) && Cut(root, MAX_LOG_TEXT_BYTES) == plain
  {
    var root := plain + [0xC3, 0xA9];
    assert [0xC3, 0xA9 as Byte][2..] == [];
    JoinIsWellFormed(plain, [0xC3, 0xA9]);
    assert root[MAX_LOG_TEXT_BYTES] == 0xA9 && root[MAX_LOG_TEXT_BYTES - 1] == 0xC3;
    assert !IsBoundary(root, MAX_LOG_TEXT_BYTES) && IsBoundary(root, MAX_LOG_TEXT_BYTES - 1);
    assert Floor(root, MAX_LOG_TEXT_BYTES) == MAX_LOG_TEXT_BYTES - 1;
  }

  /** A straddling error root on stderr and then an empty line: the raw text of the record is no prefix of it. */
  lemma CutRootTakesAContinuation(c: Config, at: int)
    ensures var root := StraddlingRoot();
      var calls := [Line(Input(Stderr, root, at, None))] + [Line(Input(Stderr, [], at, None))];
      && |Released(c, calls)| == 1
      && Released(c, calls)[0].lines == [root] + [[]]
      && Released(c, calls)[0].frame.raw == root[..MAX_LOG_TEXT_BYTES - 1] + [NEWLINE]
      && !(Released(c, calls)[0].frame.raw <= Joined([root] + [[]]))
  {
    var root := StraddlingRoot();
    var first, second := Input(Stderr, root, at, None), Input(Stderr, [], at, None);
    StraddlingRootIsText();
    RootAndEmpty(c, first, second, root);
    StraddlingRecord(c, first, root);
  }

  /** The record made of a straddling root and an empty line. */
  lemma StraddlingRecord(c: Config, first: Input, root: Text)
    requires WellFormed(root) && |root| == MAX_LOG_TEXT_BYTES + 1
    requires Cut(root, MAX_LOG_TEXT_BYTES) == root[..MAX_LOG_TEXT_BYTES - 1]
    ensures var t := AppendLine(NewRecord(c, first, root, 0), []);
      && t.lines == [root] + [[]]
      && t.frame.raw == root[..MAX_LOG_TEXT_BYTES - 1] + [NEWLINE]
      && !(t.frame.raw <= Joined(t.lines))
  {
    var r := NewRecord(c, first, root, 0);
    NewRecordShape(c, first, root, 0);
    EmptyIsAppended(r);
    AppendKeepsShaped(r, []);
    ShapeDecidesPrefix(AppendLine(r, []));
  }

  lemma EmptyIsAppended(r: Record)
    requires r.continuations == 0 && |r.frame.raw| < MAX_LOG_TEXT_BYTES
    ensures AppendLine(r, []).frame.raw == r.frame.raw + [NEWLINE] && AppendLine(r, []).lines == r.lines + [[]]
  {
  }

  lemma RootAndEmpty(c: Config, first: Input, second: Input, root: Text)
    requires first.stream.Stderr? && first.header.None? && first.line == root && ESCAPE !in root && ERROR_ROOT <= root
    requires second.stream.Stderr? && second.header.None? && second.line == []
    ensures Released(c, [Line(first)] + [Line(second)]) == [AppendLine(NewRecord(c, first, root, 0), [])]
  {
    HeldRoot(c, first, root);
    var p := Run(c, [Line(first)]).parser;
    EmptyContinues(c, p, second);
    RunOneMore(c, [Line(first)], Line(second));
    NothingReleased(c, Line(first), Line(second));
  }

  lemma EmptyContinues(c: Config, p: Parser, i: Input)
    requires i.stream.Stderr? && i.header.None? && i.line == [] && p.err.Some?
    ensures Push(c, p, i, 1) == Outcome(p.(err := Some(AppendLine(p.err.value, []))), [])
  {
    assert !(ERROR_ROOT <= []) && !(WARNING_ROOT <= []);
  }

  lemma HeldRoot(c: Config, i: Input, root: Text)
    requires i.stream.Stderr? && i.header.None? && i.line == root && ESCAPE !in root && ERROR_ROOT <= root
    ensures Run(c, [Line(i)]) == Outcome(Parser(None, Some(NewRecord(c, i, root, 0)), Some(Stderr)), [])
  {
    assert [Line(i)][..0] == [];
    assert Run(c, [Line(i)][..0]) == Outcome(EMPTY, []);
  }

  lemma NothingReleased(c: Config, first: Call, second: Call)
    requires Run(c, [first]).emitted == [] && Serve(c, Run(c, [first]).parser, second, 1).emitted == []
    ensures Run(c, [first] + [second]).emitted == []
  {
    assert ([first] + [second])[..1] == [first];
  }

  // ---------------------------------------------------------------------- objects

  /** A record still waiting for continuations. */
  class Pending {
    var frame: Frame
    var continuations: nat

    constructor (frame: Frame)
      ensures this.frame == frame && continuations == 0
    {
      this.frame, continuations := frame, 0;
    }

    method Append(line: Text)
      modifies this
      ensures (frame, continuations) == AppendToFrame(old(frame), old(continuations), line)
    {
      if continuations == MAX_CONTINUATION_LINES {
        frame := frame.(truncated := true);
        return;
      }
      var raw := AppendBounded(frame.raw, line, MAX_LOG_TEXT_BYTES);
      var message := AppendBounded(frame.message, line, MAX_LOG_TEXT_BYTES);
      frame := frame.(raw := raw.text, message := message.text);
      if raw.cut || message.cut {
        frame := frame.(truncated := true);
        continuations := MAX_CONTINUATION_LINES;
      } else {
        continuations := continuations + 1;
      }
    }
  }

  function Frames(records: seq<Record>): (r: seq<Frame>)
    decreases |records|
  {
    if records == [] then [] else [records[0].frame] + Frames(records[1..])
  }

  /** The parser object; its ghost fields are the calls it has served and their run. */
  class LogParser {
    const config: Config
    var stdout: Pending?
    var stderr: Pending?
    var newestPending: Option<Stream>
    ghost var calls: seq<Call>
    ghost var outcome: Outcome

    ghost predicate Holding(held: Pending?, r: Option<Record>)
      reads held
    {
      if held == null then r.None?
      else r.Some? && held.frame == r.value.frame && held.continuations == r.value.continuations
    }

    ghost predicate Matches(p: Parser)
      reads this`stdout, this`stderr, this`newestPending, stdout, stderr
    {
      && (stdout != null ==> stdout != stderr)
      && Holding(stdout, p.out) && Holding(stderr, p.err) && newestPending == p.newest
    }

    /** The fields are what the run of all calls leaves. */
    ghost predicate Valid()
      reads this, stdout, stderr
    {
      Matches(outcome.parser) && outcome == Run(config, calls)
    }

    constructor (config: Config)
      ensures Valid() && this.config == config && calls == []
      ensures stdout == null && stderr == null
    {
      this.config, stdout, stderr, newestPending, calls, outcome := config, null, null, None, [], Outcome(EMPTY, []);
    }

    /** Files a frame that opens record `r`, and releases what it displaces. */
    method EmitFrame(stream: Stream, frame: Frame, hold: bool, ghost r: Record, ghost p: Parser)
      returns (emitted: seq<Frame>)
      requires Matches(p) && r.frame == frame && r.continuations == 0
      modifies this`stdout, this`stderr, this`newestPending
      ensures Matches(Emit(p, stream, r, hold).parser)
      ensures emitted == Frames(Emit(p, stream, r, hold).emitted)
      ensures fresh({stdout, stderr} - {null} - old({stdout, stderr}))
    {
      var before := if stream.Stdout? then stdout else stderr;
      FramesJoin(AsSeq(p.Pending(stream)), [r]);
      emitted := if before == null then [] else [before.frame];
      var held: Pending? := null;
      if hold {
        newestPending := Some(stream);
        held := new Pending(frame);
      } else {
        emitted := emitted + [frame];
      }
      if stream.Stdout? {
        stdout := held;
      } else {
        stderr := held;
      }
    }

    /** One push onto fields that match `p`. */
    method Accept(i: Input, ghost p: Parser, ghost serial: nat) returns (emitted: seq<Frame>)
      requires Matches(p)
      modifies this`stdout, this`stderr, this`newestPending, stdout, stderr
      ensures Matches(Push(config, p, i, serial).parser)
      ensures emitted == Frames(Push(config, p, i, serial).emitted)
      ensures fresh({stdout, stderr} - {null} - old({stdout, stderr}))
    {
      var line := StripAnsi(i.line);
      ghost var r := NewRecord(config, i, line, serial);
      if i.header.Some? {
        var h := i.header.value;
        var frame := BoundFrame(Frame(i.at, config.epoch, config.kind, i.stream, h.level, h.timestamp, h.target,
          h.message, h.fields, line, false));
        emitted := EmitFrame(i.stream, frame, IsSevere(h.level), r, p);
        return;
      }
      var errorRoot := IsErrorRoot(line);
      var warningRoot := IsWarningRoot(line);
      var pending := if i.stream.Stdout? then stdout else stderr;
      if !errorRoot && !warningRoot && pending != null {
        pending.Append(line);
        return [];
      }
      var level :=
        if errorRoot then Error else if warningRoot then Warning else if i.stream.Stdout? then Info else Warning;
      var frame := BoundFrame(Frame(i.at, config.epoch, config.kind, i.stream, level, None, None,
        line, [], line, false));
      emitted := EmitFrame(i.stream, frame, errorRoot && i.stream.Stderr?, r, p);
    }

    method PushAt(stream: Stream, line: Text, at: int, header: Option<ParsedLine>) returns (emitted: seq<Frame>)
      requires Valid()
      modifies this, stdout, stderr
      ensures Valid()
      ensures fresh({stdout, stderr} - {null} - old({stdout, stderr}))
      ensures calls == old(calls) + [Line(Input(stream, line, at, header))]
      ensures Frames(outcome.emitted) == Frames(old(outcome.emitted)) + emitted
    {
      var i := Input(stream, line, at, header);
      emitted := Accept(i, outcome.parser, |calls|);
      Follow(Line(i));
    }

    /** The ghost history catches up with the fields. */
    ghost method Follow(call: Call)
      requires outcome == Run(config, calls)
      modifies this`calls, this`outcome
      ensures calls == old(calls) + [call] && outcome == Run(config, calls)
      ensures outcome.parser == Serve(config, old(outcome.parser), call, |old(calls)|).parser
      ensures Frames(outcome.emitted)
        == Frames(old(outcome.emitted)) + Frames(Serve(config, old(outcome.parser), call, |old(calls)|).emitted)
    {
      RunOneMore(config, calls, call);
      calls := calls + [call];
      outcome := Run(config, calls);
    }

    /** Releases whatever still waits, and leaves nothing waiting; lines may follow. */
    method Finish() returns (emitted: seq<Frame>)
      requires Valid()
      modifies this
      ensures Valid() && stdout == null && stderr == null
      ensures calls == old(calls) + [Call.Finish]
      ensures Frames(outcome.emitted) == Frames(old(outcome.emitted)) + emitted
    {
      var out := if stdout == null then [] else [stdout.frame];
      var err := if stderr == null then [] else [stderr.frame];
      emitted := if newestPending == Some(Stdout) then err + out else out + err;
      RemainingFrames(outcome.parser);
      stdout, stderr, newestPending := null, null, None;
      Follow(Call.Finish);
    }
  }

  lemma RemainingFrames(p: Parser)
    ensures var out, err := FramesOf(p.out), FramesOf(p.err);
      Frames(Remaining(p)) == if p.newest == Some(Stdout) then err + out else out + err
  {
    FramesJoin(AsSeq(p.out), AsSeq(p.err));
    FramesJoin(AsSeq(p.err), AsSeq(p.out));
  }

  function FramesOf(o: Option<Record>): (r: seq<Frame>) {
    if o.Some? then [o.value.frame] else []
  }

  lemma RunOneMore(c: Config, calls: seq<Call>, call: Call)
    ensures var step := Serve(c, Run(c, calls).parser, call, |calls|);
      && Run(c, calls + [call]).parser == step.parser
      && Frames(Run(c, calls + [call]).emitted) == Frames(Run(c, calls).emitted) + Frames(step.emitted)
  {
    assert (calls + [call])[..|calls|] == calls;
    FramesJoin(Run(c, calls).emitted, Serve(c, Run(c, calls).parser, call, |calls|).emitted);
  }

  lemma {:induction false} FramesJoin(a: seq<Record>, b: seq<Record>)
    ensures Frames(a + b) == Frames(a) + Frames(b)
    decreases |a|
  {
    if a == [] {
      assert a + b == b;
    } else {
      FramesJoin(a[1..], b);
      assert (a + b)[1..] == a[1..] + b;
    }
  }
}
