/** The names of the rolling log files. */
module LogFileNames {
  import opened Wrappers

  const PREFIX := "core-"
  const SUFFIX := ".jsonl"
  const WIDTH := 6
  const NUMBER_LIMIT := 0x1_0000_0000_0000_0000

  function Digit(d: nat): (r: char)
    requires d < 10
  {
    '0' + d as char
  }

  predicate IsDigit(c: char) {
    '0' <= c <= '9'
  }

  predicate AllDigits(s: string) {
    forall i :: 0 <= i < |s| ==> IsDigit(s[i])
  }

  function Decimal(n: nat): (s: string)
    ensures s != [] && AllDigits(s)
  {
    if n < 10 then [Digit(n)] else Decimal(n / 10) + [Digit(n % 10)]
  }

  function Padded(s: string): (r: string)
    decreases WIDTH - |s|
  {
    if |s| >= WIDTH then s else Padded("0" + s)
  }

  function FileName(n: nat): (r: string) {
    PREFIX + Padded(Decimal(n)) + SUFFIX
  }

  function Value(s: string): (r: nat)
    requires AllDigits(s)
  {
    if s == [] then 0 else 10 * Value(s[..|s| - 1]) + (s[|s| - 1] - '0') as nat
  }

  predicate HasAffixes(name: string) {
    && PREFIX <= name
    && |name| >= |PREFIX| + |SUFFIX|
    && name[|name| - |SUFFIX|..] == SUFFIX
  }

  function DigitsOf(name: string): (digits: string)
    requires HasAffixes(name)
  {
    name[|PREFIX|..|name| - |SUFFIX|]
  }

  function FileNumber(name: string): (number: Option<nat>) {
    if !HasAffixes(name) || DigitsOf(name) == [] || !AllDigits(DigitsOf(name)) then None
    else if Value(DigitsOf(name)) >= NUMBER_LIMIT then None
    else Some(Value(DigitsOf(name)))
  }

  /** A number written in six digits, or in more without a leading zero. */
  predicate Canonical(name: string) {
    && HasAffixes(name)
    && |DigitsOf(name)| >= WIDTH
    && (|DigitsOf(name)| > WIDTH ==> DigitsOf(name)[0] != '0')
  }

  lemma {:induction false} DecimalValue(n: nat)
    ensures Value(Decimal(n)) == n
  {
    if n >= 10 {
      DecimalValue(n / 10);
      assert (Decimal(n / 10) + [Digit(n % 10)])[..|Decimal(n / 10)|] == Decimal(n / 10);
    }
  }

  lemma {:induction false} LeadingZero(s: string)
    requires AllDigits(s)
    ensures AllDigits("0" + s) && Value("0" + s) == Value(s)
    decreases |s|
  {
    var t := "0" + s;
    if s == [] {
      assert t[..0] == [];
    } else {
      LeadingZero(s[..|s| - 1]);
      assert t[..|t| - 1] == "0" + s[..|s| - 1];
    }
  }

  lemma {:induction false} PaddingKeepsValue(s: string)
    requires AllDigits(s)
    ensures AllDigits(Padded(s)) && Value(Padded(s)) == Value(s) && |Padded(s)| >= |s|
    decreases WIDTH - |s|
  {
    if |s| < WIDTH {
      LeadingZero(s);
      PaddingKeepsValue("0" + s);
    }
  }

  lemma NameHasDigits(n: nat)
    ensures HasAffixes(FileName(n)) && DigitsOf(FileName(n)) == Padded(Decimal(n))
    ensures AllDigits(Padded(Decimal(n))) && Value(Padded(Decimal(n))) == n
  {
    var digits := Padded(Decimal(n));
    DecimalValue(n);
    PaddingKeepsValue(Decimal(n));
    Affixed(FileName(n), digits);
  }

  lemma Affixed(name: string, digits: string)
    requires name == PREFIX + digits + SUFFIX
    ensures HasAffixes(name) && DigitsOf(name) == digits
  {
    Surrounded(PREFIX, digits, SUFFIX);
    assert PREFIX <= name;
    assert name[|name| - |SUFFIX|..] == SUFFIX;
  }

  lemma Surrounded(a: string, b: string, c: string)
    ensures var s := a + b + c; a <= s && s[|s| - |c|..] == c && s[|a|..|s| - |c|] == b
  {
  }

  /** A number is read back from its file's name, however many digits it takes. */
  lemma NameThenNumber(n: nat)
    requires n < NUMBER_LIMIT
    ensures FileNumber(FileName(n)) == Some(n)
  {
    NameHasDigits(n);
    PaddedHead(Decimal(n));
  }

  lemma NamesDiffer(a: nat, b: nat)
    requires FileName(a) == FileName(b)
    ensures a == b
  {
    NameHasDigits(a);
    NameHasDigits(b);
  }

  lemma {:induction false} DecimalHead(n: nat)
    ensures |Decimal(n)| > 1 ==> Decimal(n)[0] != '0'
    ensures n >= 10 <==> |Decimal(n)| > 1
    ensures n > 0 ==> Decimal(n)[0] != '0'
  {
    if n >= 10 {
      DecimalHead(n / 10);
    }
  }

  lemma {:induction false} ValueIsPositive(s: string)
    requires AllDigits(s) && s != [] && s[0] != '0'
    ensures Value(s) > 0
    decreases |s|
  {
    if |s| > 1 {
      ValueIsPositive(s[..|s| - 1]);
    }
  }

  lemma AppendDigit(n: nat, c: char)
    requires n > 0 && IsDigit(c)
    ensures Decimal(10 * n + (c - '0') as nat) == Decimal(n) + [c]
  {
    var m := 10 * n + (c - '0') as nat;
    assert m / 10 == n && m % 10 == (c - '0') as nat;
  }

  /** Digits without a leading zero are the decimal of their value. */
  lemma {:induction false} ValueDecimal(s: string)
    requires AllDigits(s) && s != [] && (|s| == 1 || s[0] != '0')
    ensures Decimal(Value(s)) == s
    decreases |s|
  {
    var front, last := s[..|s| - 1], s[|s| - 1];
    assert s == front + [last];
    if |s| == 1 {
      assert Value(front) == 0;
    } else {
      ValueIsPositive(front);
      ValueDecimal(front);
      AppendDigit(Value(front), last);
    }
  }

  /** Up to the padded width leading zeros do not matter. */
  lemma {:induction false} PaddedValue(s: string)
    requires AllDigits(s) && 0 < |s| <= WIDTH
    ensures Padded(Decimal(Value(s))) == Padded(s)
    decreases |s|
  {
    if |s| > 1 && s[0] == '0' {
      assert s == "0" + s[1..];
      LeadingZero(s[1..]);
      PaddedValue(s[1..]);
    } else {
      ValueDecimal(s);
    }
  }

  lemma {:induction false} PaddedHead(s: string)
    ensures |Padded(s)| >= WIDTH && (|Padded(s)| > WIDTH ==> Padded(s) == s)
    decreases WIDTH - |s|
  {
    if |s| < WIDTH {
      PaddedHead("0" + s);
    }
  }

  /** A listed file's own name is the one made from its number exactly when it is canonical. */
  lemma CanonicalIff(name: string)
    requires FileNumber(name).Some?
    ensures FileName(FileNumber(name).value) == name <==> Canonical(name)
  {
    var digits, n := DigitsOf(name), FileNumber(name).value;
    assert name == PREFIX + digits + SUFFIX;
    NameHasDigits(n);
    PaddedHead(Decimal(n));
    DecimalHead(n);
    if Canonical(name) {
      if |digits| == WIDTH {
        PaddedValue(digits);
      } else {
        ValueDecimal(digits);
      }
    }
  }

  /** A name in another width is listed by its number, and is not the name that number has. */
  lemma ShortNameIsListed()
    ensures FileNumber("core-7.jsonl") == Some(7) && !Canonical("core-7.jsonl")
    ensures FileName(7) != "core-7.jsonl"
  {
    var name := "core-7.jsonl";
    assert name[6..] == SUFFIX && DigitsOf(name) == "7";
    assert "7"[..0] == [];
    CanonicalIff(name);
  }
}
