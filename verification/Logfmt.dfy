/** The scanner of quoted `key=value` log lines. */
module Logfmt {
  import opened LogText
  import opened Sequences
  import opened Wrappers

  const SPACE: Byte := 0x20
  const TAB: Byte := 0x09
  const FORM_FEED: Byte := 0x0C
  const RETURN: Byte := 0x0D
  const EQUALS: Byte := 0x3D
  const QUOTE: Byte := 0x22
  const BACKSLASH: Byte := 0x5C

  datatype Field = Field(key: Text, value: Text)

  /** A value read off the head of a text, and what follows it. */
  datatype Read<T> = Read(value: T, rest: Text)

  predicate IsSpace(b: Byte) {
    b == SPACE || b == TAB || b == NEWLINE || b == FORM_FEED || b == RETURN
  }

  // ----------------------------------------------------------------- the scanner

  function SkipSpace(s: Text): (rest: Text)
    ensures |rest| <= |s|
    ensures rest != [] ==> !IsSpace(rest[0])
  {
    if s != [] && IsSpace(s[0]) then SkipSpace(s[1..]) else s
  }

  /** How many bytes precede the first space of `s`, or the first `=` when `key` is set. */
  function WordLength(s: Text, key: bool): (n: nat)
    ensures n <= |s|
    ensures n < |s| ==> IsSpace(s[n]) || (key && s[n] == EQUALS)
  {
    if s == [] || IsSpace(s[0]) || (key && s[0] == EQUALS) then 0 else 1 + WordLength(s[1..], key)
  }

  /** What a backslash followed by `b` stands for. */
  function Unescape(b: Byte): (r: Text) {
    if b == QUOTE || b == BACKSLASH then [b]
    else if b == 0x6E then [NEWLINE]
    else if b == 0x72 then [RETURN]
    else if b == 0x74 then [TAB]
    else [BACKSLASH, b]
  }

  function Prepend(head: Text, tail: Option<Read<Text>>): (r: Option<Read<Text>>) {
    if tail.None? then None else Some(Read(head + tail.value.value, tail.value.rest))
  }

  /** The value of a quoted string whose opening quote has been read. */
  function Quoted(s: Text): (r: Option<Read<Text>>)
    ensures r.Some? ==> |r.value.rest| < |s|
    decreases |s|
  {
    if s == [] then None
    else if s[0] == QUOTE then Some(Read([], s[1..]))
    else if s[0] == BACKSLASH then
      if |s| < 2 then None else Prepend(Unescape(s[1]), Quoted(s[2..]))
    else Prepend([s[0]], Quoted(s[1..]))
  }

  /** The value after a `=`: a quoted string up to its end, or everything up to the next space. */
  function ScanValue(s: Text): (r: Option<Read<Text>>)
    ensures r.Some? ==> |r.value.rest| <= |s|
  {
    if s != [] && s[0] == QUOTE then
      var quoted := Quoted(s[1..]);
      if quoted.Some? && (quoted.value.rest == [] || IsSpace(quoted.value.rest[0])) then quoted else None
    else
      var n := WordLength(s, false);
      Some(Read(s[..n], s[n..]))
  }

  function WithKey(key: Text, value: Option<Read<Text>>): (r: Option<Read<Field>>) {
    if value.None? then None else Some(Read(Field(key, value.value.value), value.value.rest))
  }

  function ScanField(s: Text): (r: Option<Read<Field>>)
    ensures r.Some? ==> |r.value.rest| < |s|
  {
    var n := WordLength(s, true);
    if n == 0 || n == |s| || s[n] != EQUALS then None
    else
      WithKey(s[..n], ScanValue(s[n + 1..]))
  }

  /** Every field of a line, or nothing when any part of it has another shape. */
  function ScanFields(s: Text): (r: Option<seq<Field>>)
    decreases |s|
  {
    var t := SkipSpace(s);
    if t == [] then Some([])
    else
      var field := ScanField(t);
      if field.None? then None
      else
        var fields := ScanFields(field.value.rest);
        if fields.None? then None else Some([field.value.value] + fields.value)
  }

  // ------------------------------------------------------------------ round trip

  function Escape(b: Byte): (r: Text) {
    if b == QUOTE || b == BACKSLASH then [BACKSLASH, b]
    else if b == NEWLINE then [BACKSLASH, 0x6E]
    else if b == RETURN then [BACKSLASH, 0x72]
    else if b == TAB then [BACKSLASH, 0x74]
    else [b]
  }

  function Escaped(value: Text): (r: Text) {
    if value == [] then [] else Escape(value[0]) + Escaped(value[1..])
  }

  function PrintField(f: Field): (r: Text) {
    f.key + ([EQUALS, QUOTE] + (Escaped(f.value) + [QUOTE]))
  }

  function Print(fields: seq<Field>): (r: Text) {
    if fields == [] then []
    else if |fields| == 1 then PrintField(fields[0])
    else PrintField(fields[0]) + ([SPACE] + Print(fields[1..]))
  }

  predicate PrintableKey(key: Text) {
    key != [] && forall i :: 0 <= i < |key| ==> key[i] != EQUALS && !IsSpace(key[i])
  }

  predicate Printable(fields: seq<Field>) {
    forall i :: 0 <= i < |fields| ==> PrintableKey(fields[i].key)
  }

  lemma EscapeIsRead(b: Byte, s: Text)
    ensures Quoted(Escape(b) + s) == Prepend([b], Quoted(s))
  {
    if |Escape(b)| == 1 {
      assert (Escape(b) + s)[1..] == s;
    } else {
      assert (Escape(b) + s)[2..] == s;
    }
  }

  lemma PrependHead(value: Text, rest: Text)
    requires value != []
    ensures Prepend([value[0]], Some(Read(value[1..], rest))) == Some(Read(value, rest))
  {
    assert [value[0]] + value[1..] == value;
  }

  lemma {:induction false} EscapedIsRead(value: Text, rest: Text)
    ensures Quoted(Escaped(value) + ([QUOTE] + rest)) == Some(Read(value, rest))
  {
    var s := [QUOTE] + rest;
    if value == [] {
      assert Escaped(value) + s == s;
      assert s[1..] == rest;
    } else {
      EscapedIsRead(value[1..], rest);
      EscapeIsRead(value[0], Escaped(value[1..]) + s);
      Associate(Escape(value[0]), Escaped(value[1..]), s);
      PrependHead(value, rest);
    }
  }

  lemma {:induction false} KeyIsRead(key: Text, s: Text)
    requires forall i :: 0 <= i < |key| ==> key[i] != EQUALS && !IsSpace(key[i])
    ensures WordLength(key + ([EQUALS] + s), true) == |key|
  {
    if key != [] {
      KeyIsRead(key[1..], s);
      assert (key + ([EQUALS] + s))[1..] == key[1..] + ([EQUALS] + s);
    }
  }

  lemma QuotedValueIsRead(value: Text, rest: Text)
    requires rest == [] || IsSpace(rest[0])
    ensures ScanValue([QUOTE] + (Escaped(value) + ([QUOTE] + rest))) == Some(Read(value, rest))
  {
    var s := Escaped(value) + ([QUOTE] + rest);
    assert ([QUOTE] + s)[1..] == s;
    EscapedIsRead(value, rest);
  }

  lemma PrintedFieldIsRead(f: Field, rest: Text)
    requires PrintableKey(f.key) && (rest == [] || IsSpace(rest[0]))
    ensures ScanField(PrintField(f) + rest) == Some(Read(f, rest))
    ensures SkipSpace(PrintField(f) + rest) == PrintField(f) + rest
  {
    var value := [QUOTE] + (Escaped(f.value) + ([QUOTE] + rest));
    PrintedLayout(f, rest);
    KeyIsRead(f.key, value);
    QuotedValueIsRead(f.value, rest);
    KeyAndValue(f.key, value);
  }

  lemma PrintedLayout(f: Field, rest: Text)
    ensures PrintField(f) + rest == f.key + ([EQUALS] + ([QUOTE] + (Escaped(f.value) + ([QUOTE] + rest))))
  {
    Associate(f.key, [EQUALS, QUOTE] + (Escaped(f.value) + [QUOTE]), rest);
    Associate([EQUALS, QUOTE], Escaped(f.value) + [QUOTE], rest);
    Associate(Escaped(f.value), [QUOTE], rest);
    Associate([EQUALS], [QUOTE], Escaped(f.value) + ([QUOTE] + rest));
    assert [EQUALS] + [QUOTE] == [EQUALS, QUOTE];
  }

  lemma KeyAndValue(key: Text, value: Text)
    ensures var s := key + ([EQUALS] + value);
      s[..|key|] == key && s[|key|] == EQUALS && s[|key| + 1..] == value
  {
  }

  /** Scanning what was printed gives back exactly the fields, whatever their values are. */
  lemma {:induction false} PrintThenScan(fields: seq<Field>)
    requires Printable(fields)
    ensures ScanFields(Print(fields)) == Some(fields)
  {
    if |fields| == 1 {
      PrintedFieldIsRead(fields[0], []);
      assert PrintField(fields[0]) + [] == PrintField(fields[0]);
      assert [fields[0]] + [] == fields;
    } else if |fields| > 1 {
      var rest := [SPACE] + Print(fields[1..]);
      PrintedFieldIsRead(fields[0], rest);
      PrintThenScan(fields[1..]);
      assert rest[1..] == Print(fields[1..]);
      assert ScanFields(rest) == ScanFields(Print(fields[1..]));
      assert [fields[0]] + fields[1..] == fields;
    }
  }

  // ------------------------------------------------------- scanned text is text

  predicate Ordinary(b: Byte) {
    b != QUOTE && b != BACKSLASH
  }

  lemma {:induction false} OrdinaryIsRead(plain: Text, s: Text)
    requires forall i :: 0 <= i < |plain| ==> Ordinary(plain[i])
    ensures Quoted(plain + s) == Prepend(plain, Quoted(s))
  {
    if plain == [] {
      assert plain + s == s;
      assert Quoted(s).Some? ==> [] + Quoted(s).value.value == Quoted(s).value.value;
    } else {
      OrdinaryIsRead(plain[1..], s);
      assert (plain + s)[1..] == plain[1..] + s;
      assert Quoted(s).Some? ==> [plain[0]] + (plain[1..] + Quoted(s).value.value) == plain + Quoted(s).value.value;
    }
  }

  /** An unknown escape reads like two ordinary bytes. */
  lemma UnknownEscapeIsKept(s: Text)
    requires |s| >= 2 && s[0] == BACKSLASH && |Unescape(s[1])| == 2
    ensures Quoted(s) == Prepend([BACKSLASH], Quoted(s[1..]))
  {
    assert s[1..][1..] == s[2..];
    var tail := Quoted(s[2..]);
    assert tail.Some? ==> [BACKSLASH] + ([s[1]] + tail.value.value) == [BACKSLASH, s[1]] + tail.value.value;
  }

  lemma PrependKeepsWellFormed(head: Text, tail: Option<Read<Text>>)
    requires WellFormed(head)
    requires tail.Some? ==> WellFormed(tail.value.value) && WellFormed(tail.value.rest)
    ensures var r := Prepend(head, tail); r.Some? ==> WellFormed(r.value.value) && WellFormed(r.value.rest)
  {
    if tail.Some? {
      JoinIsWellFormed(head, tail.value.value);
    }
  }

  lemma AsciiHead(s: Text)
    requires s != [] && WellFormed(s) && s[0] < 0x80
    ensures WellFormed(s[1..]) && WellFormed([s[0]])
  {
    AsciiIsWellFormed(s[0]);
  }

  /** Unescaping never splits a character, so the collected bytes are always text. */
  lemma {:induction false} QuotedIsWellFormed(s: Text)
    requires WellFormed(s)
    ensures var r := Quoted(s); r.Some? ==> WellFormed(r.value.value) && WellFormed(r.value.rest)
    decreases |s|
  {
    if s == [] {
    } else if s[0] == QUOTE {
      AsciiHead(s);
    } else if s[0] == BACKSLASH {
      AsciiHead(s);
      if |s| >= 2 {
        if |Unescape(s[1])| == 2 {
          UnknownEscapeIsKept(s);
          QuotedIsWellFormed(s[1..]);
          PrependKeepsWellFormed([BACKSLASH], Quoted(s[1..]));
        } else {
          AsciiHead(s[1..]);
          assert s[1..][1..] == s[2..];
          QuotedIsWellFormed(s[2..]);
          AsciiIsWellFormed(Unescape(s[1])[0]);
          PrependKeepsWellFormed(Unescape(s[1]), Quoted(s[2..]));
        }
      }
    } else {
      var n := CharLength(s);
      HeadIsCharacter(s);
      OrdinaryIsRead(s[..n], s[n..]);
      QuotedIsWellFormed(s[n..]);
      HeadIsWellFormed(s);
      PrependKeepsWellFormed(s[..n], Quoted(s[n..]));
    }
  }

  lemma HeadIsWellFormed(s: Text)
    requires s != [] && WellFormed(s)
    ensures WellFormed(s[..CharLength(s)])
  {
    HeadIsCharacter(s);
    PrependCharacter(s[..CharLength(s)], []);
    assert s[..CharLength(s)] + [] == s[..CharLength(s)];
  }

  lemma {:induction false} SkipSpaceIsWellFormed(s: Text)
    requires WellFormed(s)
    ensures WellFormed(SkipSpace(s))
  {
    if s != [] && IsSpace(s[0]) {
      AsciiHead(s);
      SkipSpaceIsWellFormed(s[1..]);
    }
  }

  lemma WordIsWellFormed(s: Text, key: bool)
    requires WellFormed(s)
    ensures var n := WordLength(s, key); IsBoundary(s, n) && WellFormed(s[..n]) && WellFormed(s[n..])
  {
    CutIsWellFormed(s, WordLength(s, key));
  }

  lemma ValueIsWellFormed(s: Text)
    requires WellFormed(s)
    ensures var r := ScanValue(s); r.Some? ==> WellFormed(r.value.value) && WellFormed(r.value.rest)
  {
    if s != [] && s[0] == QUOTE {
      AsciiHead(s);
      QuotedIsWellFormed(s[1..]);
    } else {
      WordIsWellFormed(s, false);
    }
  }

  lemma FieldIsWellFormed(s: Text)
    requires WellFormed(s)
    ensures var r := ScanField(s);
      r.Some? ==> WellFormed(r.value.value.key) && WellFormed(r.value.value.value) && WellFormed(r.value.rest)
  {
    var n := WordLength(s, true);
    WordIsWellFormed(s, true);
    if n < |s| && s[n] == EQUALS {
      AsciiHead(s[n..]);
      assert s[n..][1..] == s[n + 1..];
      ValueIsWellFormed(s[n + 1..]);
    }
  }

  /**
   On text, every key and value is text. So the scanner's slices never miss a
   character boundary and its UTF-8 check of an unescaped value never fails: a
   line is refused for its shape alone.
   */
  lemma {:induction false} FieldsAreWellFormed(s: Text)
    requires WellFormed(s)
    ensures var r := ScanFields(s); r.Some? ==> AllText(r.value)
    decreases |s|
  {
    SkipSpaceIsWellFormed(s);
    var t := SkipSpace(s);
    if t != [] {
      FieldIsWellFormed(t);
      var field := ScanField(t);
      if field.Some? {
        FieldsAreWellFormed(field.value.rest);
        var fields := ScanFields(field.value.rest);
        if fields.Some? {
          MoreText(field.value.value, fields.value);
        }
      }
    }
  }

  predicate AllText(fields: seq<Field>) {
    forall i :: 0 <= i < |fields| ==> WellFormed(fields[i].key) && WellFormed(fields[i].value)
  }

  lemma MoreText(field: Field, fields: seq<Field>)
    requires WellFormed(field.key) && WellFormed(field.value) && AllText(fields)
    ensures AllText([field] + fields)
  {
  }

  // ------------------------------------------------------------------- in bytes

  method SkipSpaceFrom(line: Text, start: nat) returns (index: nat)
    requires start <= |line|
    ensures start <= index <= |line| && line[index..] == SkipSpace(line[start..])
  {
    index := start;
    while index < |line| && IsSpace(line[index])
      invariant start <= index <= |line| && SkipSpace(line[index..]) == SkipSpace(line[start..])
    {
      assert line[index..][1..] == line[index + 1..];
      index := index + 1;
    }
  }

  method WordEnd(line: Text, start: nat, key: bool) returns (index: nat)
    requires start <= |line|
    ensures index == start + WordLength(line[start..], key) <= |line|
  {
    index := start;
    while index < |line| && !IsSpace(line[index]) && !(key && line[index] == EQUALS)
      invariant start <= index <= |line|
      invariant index + WordLength(line[index..], key) == start + WordLength(line[start..], key)
    {
      assert line[index..][1..] == line[index + 1..];
      index := index + 1;
    }
  }

  lemma PrependInTurn(value: Text, head: Text, tail: Option<Read<Text>>)
    ensures Prepend(value, Prepend(head, tail)) == Prepend(value + head, tail)
  {
    assert tail.Some? ==> value + (head + tail.value.value) == value + head + tail.value.value;
  }

  lemma OrdinaryByteStep(value: Text, line: Text, index: nat)
    requires index < |line| && Ordinary(line[index])
    ensures Prepend(value + [line[index]], Quoted(line[index + 1..])) == Prepend(value, Quoted(line[index..]))
  {
    assert line[index..][1..] == line[index + 1..];
    PrependInTurn(value, [line[index]], Quoted(line[index + 1..]));
  }

  lemma EscapeStep(value: Text, line: Text, index: nat)
    requires index + 1 < |line| && line[index] == BACKSLASH
    ensures Prepend(value + Unescape(line[index + 1]), Quoted(line[index + 2..]))
      == Prepend(value, Quoted(line[index..]))
  {
    assert line[index..][2..] == line[index + 2..] && line[index..][1] == line[index + 1];
    PrependInTurn(value, Unescape(line[index + 1]), Quoted(line[index + 2..]));
  }

  lemma CloseStep(value: Text, line: Text, index: nat)
    requires index < |line| && line[index] == QUOTE
    ensures Prepend(value, Quoted(line[index..])) == Some(Read(value, line[index + 1..]))
  {
    assert line[index..][1..] == line[index + 1..];
    assert value + [] == value;
  }

  lemma OpenEnd(value: Text, line: Text, index: nat)
    requires index == |line| || (index + 1 == |line| && line[index] == BACKSLASH)
    ensures Prepend(value, Quoted(line[index..])) == None
  {
  }

  /** The quoted string whose opening quote is before `start`: its bytes and the index after its closing quote. */
  method ReadQuoted(line: Text, start: nat) returns (value: Text, index: nat, closed: bool)
    requires start <= |line|
    ensures index <= |line|
    ensures Quoted(line[start..]) == if closed then Some(Read(value, line[index..])) else None
  {
    value, index, closed := [], start, false;
    PrependNothing(Quoted(line[start..]));
    while index < |line|
      invariant start <= index <= |line|
      invariant Prepend(value, Quoted(line[index..])) == Quoted(line[start..])
    {
      if line[index] == QUOTE {
        CloseStep(value, line, index);
        return value, index + 1, true;
      } else if line[index] == BACKSLASH {
        if index + 1 >= |line| {
          OpenEnd(value, line, index);
          return;
        }
        EscapeStep(value, line, index);
        value := value + Unescape(line[index + 1]);
        index := index + 2;
      } else {
        OrdinaryByteStep(value, line, index);
        value := value + [line[index]];
        index := index + 1;
      }
    }
    OpenEnd(value, line, index);
  }

  lemma PrependNothing(tail: Option<Read<Text>>)
    ensures Prepend([], tail) == tail
  {
    assert tail.Some? ==> [] + tail.value.value == tail.value.value;
  }

  /** A slice of text that is text: the service yields nothing where a bound splits a character. */
  method Slice(line: Text, start: nat, end: nat) returns (r: Text)
    requires start <= end <= |line| && IsBoundary(line, start) && IsBoundary(line, end)
    ensures r == line[start..end]
  {
    r := line[start..end];
  }

  lemma HeadIsBoundary(line: Text, index: nat)
    requires index <= |line| && WellFormed(line[index..])
    ensures IsBoundary(line, index)
  {
    if index < |line| {
      assert line[index..][0] == line[index];
    }
  }

  /** What a read that ended at `index` of `line` has read. */
  function Located<T>(line: Text, value: Option<T>, index: nat): (r: Option<Read<T>>)
    requires index <= |line|
  {
    if value.None? then None else Some(Read(value.value, line[index..]))
  }

  method ReadQuotedValue(line: Text, start: nat) returns (value: Option<Text>, index: nat)
    requires start < |line| && WellFormed(line[start..]) && line[start] == QUOTE
    ensures index <= |line| && ScanValue(line[start..]) == Located(line, value, index)
  {
    assert line[start..][1..] == line[start + 1..];
    AsciiHead(line[start..]);
    QuotedIsWellFormed(line[start + 1..]);
    var bytes, end, closed := ReadQuoted(line, start + 1);
    if !closed || (end < |line| && !IsSpace(line[end])) {
      return None, end;
    }
    assert WellFormed(bytes);
    return Some(bytes), end;
  }

  method ReadWord(line: Text, start: nat) returns (value: Option<Text>, index: nat)
    requires start <= |line| && WellFormed(line[start..]) && (start < |line| ==> line[start] != QUOTE)
    ensures index <= |line| && ScanValue(line[start..]) == Located(line, value, index)
  {
    index := WordEnd(line, start, false);
    WordEnds(line, start, index);
    SliceOfSuffix(line, start, index);
    var word := Slice(line, start, index);
    value := Some(word);
  }

  lemma WordEnds(line: Text, start: nat, end: nat)
    requires start <= |line| && WellFormed(line[start..])
    requires end == start + WordLength(line[start..], false) <= |line|
    ensures IsBoundary(line, start) && IsBoundary(line, end)
  {
    WordIsWellFormed(line[start..], false);
    SliceOfSuffix(line, start, end);
    HeadIsBoundary(line, start);
    HeadIsBoundary(line, end);
  }

  method ReadValue(line: Text, start: nat) returns (value: Option<Text>, index: nat)
    requires start <= |line| && WellFormed(line[start..])
    ensures index <= |line| && ScanValue(line[start..]) == Located(line, value, index)
  {
    if start < |line| && line[start] == QUOTE {
      value, index := ReadQuotedValue(line, start);
    } else {
      value, index := ReadWord(line, start);
    }
  }

  lemma SliceOfSuffix(line: Text, start: nat, end: nat)
    requires start <= end <= |line|
    ensures line[start..][..end - start] == line[start..end]
    ensures line[start..][end - start..] == line[end..]
    ensures end < |line| ==> line[end..][1..] == line[end + 1..] && line[start..][end - start + 1..] == line[end + 1..]
  {
  }

  lemma FieldAt(line: Text, start: nat, end: nat)
    requires start <= |line| && end == start + WordLength(line[start..], true)
    ensures (end == start || end == |line| || line[end] != EQUALS) ==> ScanField(line[start..]) == None
    ensures start < end < |line| && line[end] == EQUALS ==>
      ScanField(line[start..]) == WithKey(line[start..end], ScanValue(line[end + 1..]))
  {
    var s, n := line[start..], end - start;
    if n == 0 || end == |line| || line[end] != EQUALS {
      assert n < |s| ==> s[n] == line[end];
    } else {
      SliceOfSuffix(line, start, end);
      assert s[n] == line[end] && s[..n] == line[start..end] && s[n + 1..] == line[end + 1..];
    }
  }

  /** Between a key and its value. */
  lemma KeyEnds(line: Text, start: nat, end: nat)
    requires start <= |line| && WellFormed(line[start..])
    requires end == start + WordLength(line[start..], true) < |line| && line[end] == EQUALS
    ensures IsBoundary(line, start) && IsBoundary(line, end) && WellFormed(line[end + 1..])
  {
    WordIsWellFormed(line[start..], true);
    SliceOfSuffix(line, start, end);
    HeadIsBoundary(line, start);
    AsciiHead(line[end..]);
  }

  method ReadField(line: Text, start: nat) returns (field: Option<Field>, index: nat)
    requires start <= |line| && WellFormed(line[start..])
    ensures index <= |line| && ScanField(line[start..]) == Located(line, field, index)
  {
    index := WordEnd(line, start, true);
    FieldAt(line, start, index);
    if index == start || index == |line| || line[index] != EQUALS {
      return None, index;
    }
    KeyEnds(line, start, index);
    field, index := ReadRest(line, start, index);
  }

  /** The rest of a field whose key ends at the `=` at `end`. */
  method ReadRest(line: Text, start: nat, end: nat) returns (field: Option<Field>, index: nat)
    requires start <= end < |line| && IsBoundary(line, start) && IsBoundary(line, end) && WellFormed(line[end + 1..])
    ensures index <= |line|
    ensures WithKey(line[start..end], ScanValue(line[end + 1..])) == Located(line, field, index)
  {
    var key := Slice(line, start, end);
    var value, next := ReadValue(line, end + 1);
    index := next;
    field := if value.None? then None else Some(Field(key, value.value));
  }

  method ScanLogfmt(line: Text) returns (r: Option<seq<Field>>)
    requires WellFormed(line)
    ensures r == ScanFields(line)
  {
    var fields: seq<Field> := [];
    var index := 0;
    assert line[0..] == line;
    ContinueNothing(ScanFields(line));
    while index < |line|
      invariant index <= |line| && WellFormed(line[index..])
      invariant Continued(fields, ScanFields(line[index..])) == ScanFields(line)
      decreases |line| - index
    {
      SkipSpaceIsWellFormed(line[index..]);
      var start := SkipSpaceFrom(line, index);
      if start == |line| {
        assert ScanFields(line[index..]) == Some([]);
        assert fields + [] == fields;
        return Some(fields);
      }
      var field, next := ReadField(line, start);
      if field.None? {
        return None;
      }
      FieldIsWellFormed(line[start..]);
      AppendField(fields, field.value, ScanFields(line[next..]));
      fields := fields + [field.value];
      index := next;
    }
    assert fields + [] == fields;
    return Some(fields);
  }

  lemma ContinueNothing(more: Option<seq<Field>>)
    ensures Continued([], more) == more
  {
    assert more.Some? ==> [] + more.value == more.value;
  }

  function Continued(fields: seq<Field>, more: Option<seq<Field>>): (r: Option<seq<Field>>) {
    if more.None? then None else Some(fields + more.value)
  }

  lemma AppendField(fields: seq<Field>, field: Field, more: Option<seq<Field>>)
    ensures Continued(fields, Continued([field], more)) == Continued(fields + [field], more)
  {
    assert more.Some? ==> fields + ([field] + more.value) == fields + [field] + more.value;
  }
}
