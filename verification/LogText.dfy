/**
 The text helpers of the log parser: cutting UTF-8 text to a byte budget,
 appending a line within a budget, and dropping ANSI control sequences. Text is
 its bytes; a text is well formed as section 4 of RFC 3629 defines it.
 */
module LogText {
  newtype Byte = x: int | 0 <= x < 256

  type Text = seq<Byte>

  const NEWLINE: Byte := 0x0A
  const ESCAPE: Byte := 0x1B
  const BRACKET: Byte := 0x5B

  // ------------------------------------------------------------- well-formedness

  predicate IsTail(b: Byte) {
    0x80 <= b <= 0xBF
  }

  predicate OpensThree(lead: Byte, second: Byte) {
    || (lead == 0xE0 && 0xA0 <= second <= 0xBF)
    || (0xE1 <= lead <= 0xEC && IsTail(second))
    || (lead == 0xED && 0x80 <= second <= 0x9F)
    || (0xEE <= lead <= 0xEF && IsTail(second))
  }

  predicate OpensFour(lead: Byte, second: Byte) {
    || (lead == 0xF0 && 0x90 <= second <= 0xBF)
    || (0xF1 <= lead <= 0xF3 && IsTail(second))
    || (lead == 0xF4 && 0x80 <= second <= 0x8F)
  }

  /** How many bytes the character at the head of `s` takes; 0 when there is none. */
  function CharLength(s: Text): (n: nat)
    ensures n <= |s| && n <= 4
    ensures n > 0 ==> !IsTail(s[0]) && (forall i :: 0 < i < n ==> IsTail(s[i])) && (n > 1 ==> s[0] >= 0xC2)
  {
    if s == [] then 0
    else if s[0] <= 0x7F then 1
    else if |s| >= 2 && 0xC2 <= s[0] <= 0xDF && IsTail(s[1]) then 2
    else if |s| >= 3 && OpensThree(s[0], s[1]) && IsTail(s[2]) then 3
    else if |s| >= 4 && OpensFour(s[0], s[1]) && IsTail(s[2]) && IsTail(s[3]) then 4
    else 0
  }

  predicate WellFormed(s: Text) {
    s == [] || (CharLength(s) > 0 && WellFormed(s[CharLength(s)..]))
  }

  predicate IsCharacter(c: Text) {
    c != [] && CharLength(c) == |c|
  }

  lemma HeadIsCharacter(s: Text)
    requires s != [] && WellFormed(s)
    ensures IsCharacter(s[..CharLength(s)]) && s == s[..CharLength(s)] + s[CharLength(s)..]
  {
    HeadLength(s, CharLength(s));
    SplitAt(s, CharLength(s));
  }

  lemma SplitAt(s: Text, n: nat)
    requires n <= |s|
    ensures s == s[..n] + s[n..]
  {
  }

  lemma HeadLength(s: Text, n: nat)
    requires n == CharLength(s) > 0
    ensures CharLength(s[..n]) == n
  {
    var head := s[..n];
    assert head[0] == s[0];
    assert n > 1 ==> head[1] == s[1];
    assert n > 2 ==> head[2] == s[2];
    assert n > 3 ==> head[3] == s[3];
  }

  lemma CharacterFirst(c: Text, s: Text)
    requires IsCharacter(c)
    ensures CharLength(c + s) == |c|
  {
  }

  lemma PrependCharacter(c: Text, s: Text)
    requires IsCharacter(c) && WellFormed(s)
    ensures WellFormed(c + s)
  {
    CharacterFirst(c, s);
    assert (c + s)[|c|..] == s;
  }

  lemma Regroup(a: Text, n: nat, b: Text)
    requires n <= |a|
    ensures a[..n] + (a[n..] + b) == a + b
  {
  }

  lemma {:induction false} JoinIsWellFormed(a: Text, b: Text)
    requires WellFormed(a) && WellFormed(b)
    ensures WellFormed(a + b)
  {
    if a == [] {
      assert a + b == b;
    } else {
      var n := CharLength(a);
      HeadIsCharacter(a);
      JoinIsWellFormed(a[n..], b);
      PrependCharacter(a[..n], a[n..] + b);
      Regroup(a, n, b);
    }
  }

  lemma AsciiIsWellFormed(b: Byte)
    requires b < 0x80
    ensures WellFormed([b])
  {
    assert [b][1..] == [];
  }

  // ------------------------------------------------------- character boundaries

  /** Whether cutting before index `i` cuts between characters. */
  predicate IsBoundary(s: Text, i: nat) {
    i == 0 || i == |s| || (i < |s| && !IsTail(s[i]))
  }

  /** A boundary past the first character is one of the rest. */
  lemma BoundaryOfRest(s: Text, i: nat)
    requires s != [] && WellFormed(s) && 0 < i <= |s| && IsBoundary(s, i)
    ensures var n := CharLength(s); n <= i && IsBoundary(s[n..], i - n)
  {
    var n := CharLength(s);
    assert i < |s| ==> !IsTail(s[i]);
    assert n <= i < |s| ==> s[n..][i - n] == s[i];
  }

  lemma SplitInRest(s: Text, n: nat, i: nat)
    requires n <= i <= |s|
    ensures s[..i] == s[..n] + s[n..][..i - n] && s[i..] == s[n..][i - n..]
  {
  }

  lemma CutBehindHead(s: Text, n: nat, i: nat)
    requires s != [] && WellFormed(s) && n == CharLength(s) && n <= i <= |s|
    requires WellFormed(s[n..][..i - n]) && WellFormed(s[n..][i - n..])
    ensures WellFormed(s[..i]) && WellFormed(s[i..])
  {
    SplitInRest(s, n, i);
    HeadIsCharacter(s);
    PrependCharacter(s[..n], s[n..][..i - n]);
  }

  /** Cutting well-formed text at a boundary leaves two well-formed texts. */
  lemma {:induction false} CutIsWellFormed(s: Text, i: nat)
    requires WellFormed(s) && i <= |s| && IsBoundary(s, i)
    ensures WellFormed(s[..i]) && WellFormed(s[i..])
    decreases |s|
  {
    if i == 0 {
      assert s[..i] == [] && s[i..] == s;
    } else {
      var n := CharLength(s);
      BoundaryOfRest(s, i);
      CutIsWellFormed(s[n..], i - n);
      CutBehindHead(s, n, i);
    }
  }

  /** A character has at most three bytes after its first. */
  lemma {:induction false} BoundaryIsNear(s: Text, i: nat)
    requires WellFormed(s) && i <= |s|
    ensures exists j: nat :: j <= i <= j + 3 && IsBoundary(s, j)
    decreases |s|
  {
    if s == [] || i < CharLength(s) {
      assert IsBoundary(s, 0);
    } else {
      var n := CharLength(s);
      BoundaryIsNear(s[n..], i - n);
      var j: nat :| j <= i - n <= j + 3 && IsBoundary(s[n..], j);
      if n < |s| {
        assert CharLength(s[n..]) > 0 && s[n..][0] == s[n];
      }
      assert IsBoundary(s, n + j);
    }
  }

  /** The last boundary at or below `max`. */
  function Floor(s: Text, max: nat): (end: nat)
    ensures end <= max && IsBoundary(s, end)
    ensures forall j :: end < j <= max ==> !IsBoundary(s, j)
    ensures end <= |s|
  {
    if IsBoundary(s, max) then max else Floor(s, max - 1)
  }

  lemma FloorIsNear(s: Text, max: nat)
    requires WellFormed(s) && max <= |s|
    ensures max <= Floor(s, max) + 3
    ensures WellFormed(s[..Floor(s, max)])
  {
    BoundaryIsNear(s, max);
    CutIsWellFormed(s, Floor(s, max));
  }

  method CharBoundaryAtOrBelow(text: Text, max: nat) returns (end: nat)
    ensures end == Floor(text, max)
    ensures WellFormed(text) && max <= |text| ==> max <= end + 3 && WellFormed(text[..end])
  {
    end := max;
    while !IsBoundary(text, end)
      decreases end
      invariant end <= max && Floor(text, end) == Floor(text, max)
    {
      end := end - 1;
    }
    if WellFormed(text) && max <= |text| {
      FloorIsNear(text, max);
    }
  }

  // ------------------------------------------------------------------ budgets

  /** A text after a bounding step, and whether anything was left behind. */
  datatype Bounded = Bounded(text: Text, cut: bool)

  function Truncated(text: Text, max: nat): (r: Bounded) {
    if |text| <= max then Bounded(text, false) else Bounded(text[..Floor(text, max)], true)
  }

  /**
   Truncation keeps whole characters, loses nothing below the cap, and wastes at
   most three bytes of it.
   */
  lemma TruncationIsTight(text: Text, max: nat)
    requires WellFormed(text)
    ensures var r := Truncated(text, max);
      && WellFormed(r.text) && |r.text| <= max && r.text <= text
      && (r.cut <==> r.text != text)
      && (r.cut ==> max <= |r.text| + 3)
  {
    if |text| > max {
      FloorIsNear(text, max);
    }
  }

  method TruncateText(text: Text, max: nat) returns (r: Bounded)
    ensures r == Truncated(text, max)
    ensures WellFormed(text) ==> WellFormed(r.text) && (r.cut ==> max <= |r.text| + 3)
    ensures |r.text| <= max && r.text <= text
  {
    if |text| <= max {
      return Bounded(text, false);
    }
    var end := CharBoundaryAtOrBelow(text, max);
    r := Bounded(text[..end], true);
  }

  /** How much of `line` a budget of `max` bytes takes after `text` and a separator. */
  function Taken(text: Text, line: Text, max: nat): (end: nat)
    requires |text| < max
    ensures end <= |line|
  {
    var budget := max - |text| - 1;
    Floor(line, if budget <= |line| then budget else |line|)
  }

  function Appended(text: Text, line: Text, max: nat): (r: Bounded) {
    if |text| >= max then Bounded(text, true)
    else if line == [] then Bounded(text + [NEWLINE], false)
    else
      var end := Taken(text, line, max);
      if end == 0 then Bounded(text, true) else Bounded(text + [NEWLINE] + line[..end], end < |line|)
  }

  lemma TakenIsTight(text: Text, line: Text, max: nat)
    requires |text| < max && WellFormed(line)
    ensures var end := Taken(text, line, max);
      && WellFormed(line[..end])
      && |text| + 1 + end <= max
      && (end < |line| ==> max <= |text| + 1 + end + 3)
  {
    var budget := max - |text| - 1;
    FloorIsNear(line, if budget <= |line| then budget else |line|);
  }

  /**
   A bounded append never exceeds the budget and never splits a character. If
   nothing was left behind the whole line follows a separator; otherwise the text
   gained nothing or a separator and some of the line, and fewer than five bytes
   of the budget are left.
   */
  lemma AppendStaysBounded(text: Text, line: Text, max: nat)
    requires WellFormed(text) && WellFormed(line) && |text| <= max
    ensures WellFormed(Appended(text, line, max).text)
    ensures |Appended(text, line, max).text| <= max
    ensures !Appended(text, line, max).cut ==> Appended(text, line, max).text == text + [NEWLINE] + line
    ensures Appended(text, line, max).cut ==> LostSome(text, line, max, Appended(text, line, max).text)
  {
    if |text| < max && line != [] {
      var end := Taken(text, line, max);
      TakenIsTight(text, line, max);
      if end == |line| {
        assert line[..end] == line;
      }
      JoinLine(text, line[..end]);
    } else if |text| < max {
      JoinLine(text, []);
      assert text + [NEWLINE] + [] == text + [NEWLINE];
    }
  }

  predicate LostSome(text: Text, line: Text, max: nat, r: Text) {
    && max <= |r| + 4
    && (r == text || exists end :: 0 < end < |line| && r == text + [NEWLINE] + line[..end])
  }

  lemma JoinLine(text: Text, line: Text)
    requires WellFormed(text) && WellFormed(line)
    ensures WellFormed(text + [NEWLINE] + line)
  {
    AsciiIsWellFormed(NEWLINE);
    JoinIsWellFormed(text, [NEWLINE]);
    JoinIsWellFormed(text + [NEWLINE], line);
  }

  method AppendBounded(text: Text, line: Text, max: nat) returns (r: Bounded)
    ensures r == Appended(text, line, max)
  {
    if |text| >= max {
      return Bounded(text, true);
    }
    if line == [] {
      return Bounded(text + [NEWLINE], false);
    }
    var budget := max - |text| - 1;
    var end := CharBoundaryAtOrBelow(line, if budget <= |line| then budget else |line|);
    if end == 0 {
      return Bounded(text, true);
    }
    r := Bounded(text + [NEWLINE] + line[..end], end < |line|);
  }

  // ------------------------------------------------------------ control sequences

  predicate IsFinal(b: Byte) {
    0x40 <= b <= 0x7E
  }

  /** What follows a control sequence whose introducer has been read (section 5.4 of ECMA-48). */
  function AfterFinal(s: Text): (rest: Text)
    ensures |rest| <= |s|
  {
    if s == [] then []
    else if IsFinal(s[0]) then s[1..]
    else AfterFinal(s[1..])
  }

  /** `s` without its control sequences and without lone escapes. */
  function Stripped(s: Text): (r: Text)
    ensures ESCAPE !in r
    ensures ESCAPE !in s ==> r == s
    ensures |r| <= |s|
    decreases |s|
  {
    if s == [] then []
    else if s[0] != ESCAPE then
      assert s == [s[0]] + s[1..];
      [s[0]] + Stripped(s[1..])
    else if |s| < 2 || s[1] != BRACKET then Stripped(s[1..])
    else Stripped(AfterFinal(s[2..]))
  }

  lemma HeadFirst(a: Text, b: Text)
    requires a != []
    ensures [a[0]] + (a[1..] + b) == a + b
  {
  }

  lemma PlainBytePasses(b: Byte, s: Text)
    requires b != ESCAPE
    ensures Stripped([b] + s) == [b] + Stripped(s)
  {
    assert ([b] + s)[1..] == s;
  }

  /** Escape-free text at the head passes through. */
  lemma {:induction false} PlainPassesThrough(plain: Text, s: Text)
    requires ESCAPE !in plain
    ensures Stripped(plain + s) == plain + Stripped(s)
  {
    if plain == [] {
      assert plain + s == s;
    } else {
      PlainPassesThrough(plain[1..], s);
      PlainBytePasses(plain[0], plain[1..] + s);
      HeadFirst(plain, s);
      HeadFirst(plain, Stripped(s));
    }
  }

  lemma {:induction false} SkipsToFinal(parameters: Text, s: Text)
    requires forall i :: 0 <= i < |parameters| ==> !IsFinal(parameters[i])
    ensures AfterFinal(parameters + s) == AfterFinal(s)
  {
    if parameters == [] {
      assert parameters + s == s;
    } else {
      SkipsToFinal(parameters[1..], s);
      assert (parameters + s)[1..] == parameters[1..] + s;
    }
  }

  lemma IntroducerOpens(after: Text)
    ensures Stripped([ESCAPE, BRACKET] + after) == Stripped(AfterFinal(after))
  {
    assert ([ESCAPE, BRACKET] + after)[2..] == after;
  }

  function ControlSequence(parameters: Text, final: Byte): (r: Text) {
    [ESCAPE, BRACKET] + (parameters + [final])
  }

  lemma SequenceIsSkipped(parameters: Text, final: Byte, s: Text)
    requires IsFinal(final)
    requires forall i :: 0 <= i < |parameters| ==> !IsFinal(parameters[i])
    ensures AfterFinal(parameters + [final] + s) == s
  {
    SkipsToFinal(parameters, [final] + s);
    assert parameters + [final] + s == parameters + ([final] + s);
    assert ([final] + s)[1..] == s;
  }

  /** A complete control sequence after plain text goes, and nothing around it does. */
  lemma SequenceIsDropped(plain: Text, parameters: Text, final: Byte, s: Text)
    requires ESCAPE !in plain && IsFinal(final)
    requires forall i :: 0 <= i < |parameters| ==> !IsFinal(parameters[i])
    ensures Stripped(plain + (ControlSequence(parameters, final) + s)) == plain + Stripped(s)
  {
    var after := parameters + [final] + s;
    SequenceIsSkipped(parameters, final, s);
    IntroducerOpens(after);
    assert ControlSequence(parameters, final) + s == [ESCAPE, BRACKET] + after;
    PlainPassesThrough(plain, [ESCAPE, BRACKET] + after);
  }

  lemma {:induction false} AfterFinalIsWellFormed(s: Text)
    requires WellFormed(s)
    ensures WellFormed(AfterFinal(s))
    decreases |s|
  {
    if s != [] && !IsFinal(s[0]) {
      var n := CharLength(s);
      SkipsToFinal(s[..n], s[n..]);
      assert s == s[..n] + s[n..];
      AfterFinalIsWellFormed(s[n..]);
    }
  }

  /** Stripping whole sequences never splits a character, so the bytes left are text again. */
  lemma {:induction false} StrippedIsWellFormed(s: Text)
    requires WellFormed(s)
    ensures WellFormed(Stripped(s))
    decreases |s|
  {
    if s != [] {
      var n := CharLength(s);
      if s[0] != ESCAPE {
        assert s == s[..n] + s[n..];
        PlainPassesThrough(s[..n], s[n..]);
        StrippedIsWellFormed(s[n..]);
        CutIsWellFormed(s, n) by {
          assert n < |s| ==> CharLength(s[n..]) > 0 && s[n..][0] == s[n];
        }
        JoinIsWellFormed(s[..n], Stripped(s[n..]));
      } else if |s| < 2 || s[1] != BRACKET {
        StrippedIsWellFormed(s[1..]);
      } else {
        assert s[1..][1..] == s[2..] && s[1..][0] == BRACKET;
        AfterFinalIsWellFormed(s[2..]);
        StrippedIsWellFormed(AfterFinal(s[2..]));
      }
    }
  }

  lemma StrippingIsIdempotent(s: Text)
    ensures Stripped(Stripped(s)) == Stripped(s)
    ensures ESCAPE !in Stripped(s)
  {
  }

  lemma StrippedIsText(line: Text)
    ensures ESCAPE !in Stripped(line) && (WellFormed(line) ==> WellFormed(Stripped(line)))
  {
    if WellFormed(line) {
      StrippedIsWellFormed(line);
    }
  }

  method StripAnsi(line: Text) returns (output: Text)
    ensures output == Stripped(line)
    ensures ESCAPE !in output && (WellFormed(line) ==> WellFormed(output))
  {
    StrippedIsText(line);
    if ESCAPE !in line {
      return line;
    }
    output := [];
    var index := 0;
    while index < |line|
      invariant index <= |line|
      invariant output + Stripped(line[index..]) == Stripped(line)
    {
      if line[index] != ESCAPE {
        PlainStep(output, line, index);
        output := output + [line[index]];
        index := index + 1;
      } else if index + 1 >= |line| || line[index + 1] != BRACKET {
        LoneEscapeStep(line, index);
        index := index + 1;
      } else {
        IntroducerStep(line, index);
        index := SkipSequence(line, index + 2);
      }
    }
  }

  lemma LoneEscapeStep(line: Text, index: nat)
    requires index < |line| && line[index] == ESCAPE && (index + 1 >= |line| || line[index + 1] != BRACKET)
    ensures Stripped(line[index..]) == Stripped(line[index + 1..])
  {
    assert line[index..][1..] == line[index + 1..];
  }

  lemma IntroducerStep(line: Text, index: nat)
    requires index + 1 < |line| && line[index] == ESCAPE && line[index + 1] == BRACKET
    ensures Stripped(line[index..]) == Stripped(AfterFinal(line[index + 2..]))
  {
    assert line[index..][2..] == line[index + 2..];
  }

  lemma PlainStep(output: Text, line: Text, index: nat)
    requires index < |line| && line[index] != ESCAPE
    ensures output + Stripped(line[index..]) == output + [line[index]] + Stripped(line[index + 1..])
  {
    assert line[index..][1..] == line[index + 1..];
  }

  /** The index after the sequence whose parameters start at `start`. */
  method SkipSequence(line: Text, start: nat) returns (index: nat)
    requires start <= |line|
    ensures start <= index <= |line| && line[index..] == AfterFinal(line[start..])
  {
    index := start;
    while index < |line| && !IsFinal(line[index])
      invariant start <= index <= |line|
      invariant AfterFinal(line[index..]) == AfterFinal(line[start..])
    {
      assert line[index..][1..] == line[index + 1..];
      index := index + 1;
    }
    if index < |line| {
      assert line[index..][1..] == line[index + 1..];
    }
    index := if index + 1 <= |line| then index + 1 else |line|;
  }
}
