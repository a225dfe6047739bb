/**
 The log directory: which of its files are listed, under which number, and what
 pruning deletes. A file is listed by the number in its name and deleted under
 the name its number is written as, and the two need not be the same.
 */
module LogDirectory {
  import opened LogFileNames
  import opened LogText
  import opened Wrappers

  type Bytes = seq<Byte>

  type Files = map<string, Bytes>

  // -------------------------------------------------------------------- retention

  ghost function Lowest(numbers: set<nat>): (n: nat)
    requires numbers != {}
    ensures n in numbers && forall m :: m in numbers ==> n <= m
  {
    var x :| x in numbers;
    if numbers == {x} then x
    else
      assert numbers == (numbers - {x}) + {x};
      var rest := Lowest(numbers - {x});
      if x < rest then x else rest
  }

  /** What is left when the lowest numbers go one by one until `keep` are left. */
  ghost function Latest(numbers: set<nat>, keep: nat): (r: set<nat>)
    ensures r <= numbers && |r| <= keep
    decreases |numbers|
  {
    if |numbers| <= keep then numbers else Latest(numbers - {Lowest(numbers)}, keep)
  }

  /** The numbers that pruning to `keep` files leaves. */
  ghost function Kept(numbers: set<nat>, keep: nat, protect: Option<nat>): (r: set<nat>)
    ensures r <= numbers
  {
    Latest(numbers, keep) + if protect.Some? && protect.value in numbers then {protect.value} else {}
  }

  predicate IsHighest(numbers: set<nat>, h: nat) {
    h in numbers && forall n :: n in numbers ==> n <= h
  }

  /** Whatever goes is older than whatever stays. */
  lemma {:induction false} LatestIsNewest(numbers: set<nat>, keep: nat, n: nat, m: nat)
    requires n in Latest(numbers, keep) && m in numbers && m !in Latest(numbers, keep)
    ensures m < n
    decreases |numbers|
  {
    if |numbers| > keep {
      var low := Lowest(numbers);
      if m != low {
        LatestIsNewest(numbers - {low}, keep, n, m);
      }
    }
  }

  lemma KeptIsNewest(numbers: set<nat>, keep: nat, protect: Option<nat>, n: nat, m: nat)
    requires protect.Some? ==> IsHighest(numbers, protect.value)
    requires n in Kept(numbers, keep, protect) && m in numbers && m !in Kept(numbers, keep, protect)
    ensures m < n
  {
    if n in Latest(numbers, keep) {
      LatestIsNewest(numbers, keep, n, m);
    }
  }

  lemma {:induction false} HighestIsLatest(numbers: set<nat>, keep: nat, h: nat)
    requires IsHighest(numbers, h) && keep > 0
    ensures h in Latest(numbers, keep)
    decreases |numbers|
  {
    if |numbers| > keep {
      var low := Lowest(numbers);
      assert |numbers - {low}| > 0;
      var other :| other in numbers - {low};
      assert other <= h;
      HighestIsLatest(numbers - {low}, keep, h);
    }
  }

  /** Pruning leaves no more than it was asked to, except that the protected newest file always stays. */
  lemma KeptFits(numbers: set<nat>, keep: nat, protect: Option<nat>)
    requires protect.Some? ==> IsHighest(numbers, protect.value)
    ensures |Kept(numbers, keep, protect)| <= if protect.Some? && keep == 0 then 1 else keep
  {
    if protect.Some? {
      if keep == 0 {
        assert Kept(numbers, keep, protect) == {protect.value};
      } else {
        HighestIsLatest(numbers, keep, protect.value);
        assert Kept(numbers, keep, protect) == Latest(numbers, keep);
      }
    } else {
      assert Kept(numbers, keep, protect) == Latest(numbers, keep);
    }
  }

  // -------------------------------------------------------------- listed by number

  /** The files with a number in their names; no other file is ever looked at. */
  ghost function Listed(names: set<string>): (r: set<string>)
    ensures r <= names && AllListed(r)
  {
    set name | name in names && FileNumber(name).Some?
  }

  predicate AllListed(names: set<string>) {
    forall name :: name in names ==> FileNumber(name).Some?
  }

  function NumberOf(name: string): (n: nat)
    requires FileNumber(name).Some?
  {
    FileNumber(name).value
  }

  function NumbersIn(names: set<string>): (r: set<nat>) {
    set name | name in names && FileNumber(name).Some? :: FileNumber(name).value
  }

  lemma ListedNumber(names: set<string>, name: string)
    ensures name in names && FileNumber(name).Some? ==> FileNumber(name).value in NumbersIn(names)
  {
  }

  /** Every listed file has the name its number is written as. */
  predicate AllCanonical(names: set<string>) {
    forall name :: name in names && FileNumber(name).Some? ==> Canonical(name)
  }

  ghost function LowestName(names: set<string>): (name: string)
    requires names != {} && AllListed(names)
    ensures name in names && forall other :: other in names ==> NumberOf(name) <= NumberOf(other)
  {
    var x :| x in names;
    if names == {x} then x
    else
      assert names == (names - {x}) + {x};
      var rest := LowestName(names - {x});
      if NumberOf(x) < NumberOf(rest) then x else rest
  }

  /** The numbers pruning to `keep` files aims at: those of the lowest-numbered names, one by one. */
  ghost function Targets(names: set<string>, keep: nat): (r: set<nat>)
    requires AllListed(names)
    decreases |names|
  {
    if |names| <= keep then {}
    else
      var low := LowestName(names);
      {NumberOf(low)} + Targets(names - {low}, keep)
  }

  /** The names deleted for these targets. */
  ghost function Deleted(targets: set<nat>, protect: Option<nat>): (r: set<string>) {
    set n | n in targets && protect != Some(n) :: FileName(n)
  }

  ghost function Prune(files: Files, keep: nat, protect: Option<nat>): (r: Files) {
    files - Deleted(Targets(Listed(files.Keys), keep), protect)
  }

  /** The active file after opening `number`, which appends to a file of that name if there is one. */
  function Create(files: Files, number: nat): (r: Files) {
    files[FileName(number) := if FileName(number) in files then files[FileName(number)] else []]
  }

  // --------------------------------------------------------------- canonical names

  lemma CanonicalName(name: string)
    requires FileNumber(name).Some? && Canonical(name)
    ensures FileName(NumberOf(name)) == name
  {
    CanonicalIff(name);
  }

  lemma {:induction false} TargetsAreListed(names: set<string>, keep: nat, n: nat)
    requires AllListed(names) && n in Targets(names, keep)
    ensures n in NumbersIn(names)
    decreases |names|
  {
    var low := LowestName(names);
    if n != NumberOf(low) {
      TargetsAreListed(names - {low}, keep, n);
    }
  }

  /** A file under any other name survives every pruning. */
  lemma OtherNamesSurvivePruning(files: Files, keep: nat, protect: Option<nat>, name: string)
    requires name in files && (FileNumber(name).None? || !Canonical(name))
    ensures name in Prune(files, keep, protect)
  {
    forall n | n in Targets(Listed(files.Keys), keep) ensures FileName(n) != name {
      TargetsAreListed(Listed(files.Keys), keep, n);
      NameThenNumber(n);
      if FileName(n) == name {
        CanonicalIff(name);
      }
    }
  }

  lemma ProtectedSurvives(files: Files, keep: nat, number: nat)
    requires FileName(number) in files
    ensures FileName(number) in Prune(files, keep, Some(number))
  {
    forall n | n != number ensures FileName(n) != FileName(number) {
      if FileName(n) == FileName(number) {
        NamesDiffer(n, number);
      }
    }
  }

  /** Without one canonical name the numbers are without its number. */
  lemma NumbersWithout(names: set<string>, name: string)
    requires AllListed(names) && AllCanonical(names) && name in names
    ensures NumbersIn(names - {name}) == NumbersIn(names) - {NumberOf(name)}
  {
    forall other | other in names && NumberOf(other) == NumberOf(name) ensures other == name {
      CanonicalName(other);
      CanonicalName(name);
    }
  }

  lemma {:induction false} NumbersCount(names: set<string>)
    requires AllListed(names) && AllCanonical(names)
    ensures |NumbersIn(names)| == |names|
    decreases |names|
  {
    if names != {} {
      var name :| name in names;
      NumbersWithout(names, name);
      NumbersCount(names - {name});
      assert NumberOf(name) in NumbersIn(names);
    }
  }

  lemma LowestNumber(names: set<string>)
    requires AllListed(names) && names != {}
    ensures NumbersIn(names) != {} && NumberOf(LowestName(names)) == Lowest(NumbersIn(names))
  {
    assert NumberOf(LowestName(names)) in NumbersIn(names);
  }

  /** Over canonical names the targets are the numbers that are not among the latest. */
  lemma {:induction false} CanonicalTargets(names: set<string>, keep: nat)
    requires AllListed(names) && AllCanonical(names)
    ensures Targets(names, keep) == NumbersIn(names) - Latest(NumbersIn(names), keep)
    decreases |names|
  {
    NumbersCount(names);
    if |names| > keep {
      var low := LowestName(names);
      LowestNumber(names);
      NumbersWithout(names, low);
      CanonicalTargets(names - {low}, keep);
      assert NumberOf(low) in NumbersIn(names);
    }
  }

  lemma NumbersOfListed(names: set<string>)
    ensures NumbersIn(Listed(names)) == NumbersIn(names)
    ensures AllCanonical(names) ==> AllCanonical(Listed(names))
  {
  }

  /** So over canonical names pruning by name is pruning by number. */
  lemma CanonicalPrune(files: Files, keep: nat, protect: Option<nat>)
    requires AllCanonical(files.Keys)
    ensures NumbersIn(Prune(files, keep, protect).Keys) == Kept(NumbersIn(files.Keys), keep, protect)
    ensures AllCanonical(Prune(files, keep, protect).Keys)
  {
    NumbersOfListed(files.Keys);
    CanonicalTargets(Listed(files.Keys), keep);
    forall name | name in files && FileNumber(name).Some?
      ensures name in Prune(files, keep, protect) <==> NumberOf(name) in Kept(NumbersIn(files.Keys), keep, protect)
    {
      DeletedIff(files, keep, protect, name);
    }
  }

  lemma DeletedIff(files: Files, keep: nat, protect: Option<nat>, name: string)
    requires AllCanonical(files.Keys) && name in files && FileNumber(name).Some?
    requires Targets(Listed(files.Keys), keep) == NumbersIn(files.Keys) - Latest(NumbersIn(files.Keys), keep)
    ensures name in Prune(files, keep, protect) <==> NumberOf(name) in Kept(NumbersIn(files.Keys), keep, protect)
  {
    CanonicalName(name);
    ListedNumber(files.Keys, name);
    DeletedByNumber(Targets(Listed(files.Keys), keep), protect, name);
  }

  /** A file under its written name goes exactly when its number is aimed at and not protected. */
  lemma DeletedByNumber(targets: set<nat>, protect: Option<nat>, name: string)
    requires FileNumber(name).Some? && FileName(NumberOf(name)) == name
    ensures name in Deleted(targets, protect) <==> NumberOf(name) in targets && protect != Some(NumberOf(name))
  {
    forall n | FileName(n) == name ensures n == NumberOf(name) {
      NamesDiffer(n, NumberOf(name));
    }
  }

  lemma CreatedNumbers(files: Files, number: nat)
    requires number < NUMBER_LIMIT
    ensures NumbersIn(Create(files, number).Keys) == NumbersIn(files.Keys) + {number}
    ensures AllCanonical(files.Keys) ==> AllCanonical(Create(files, number).Keys)
  {
    NameThenNumber(number);
    CanonicalIff(FileName(number));
    assert FileName(number) in Create(files, number).Keys;
  }

  // ------------------------------------------------------------- the newest names

  /** The names of `count` files numbered from `first` on. */
  ghost function NamesFrom(first: nat, count: nat): (r: set<string>) {
    if count == 0 then {} else NamesFrom(first, count - 1) + {FileName(first + count - 1)}
  }

  lemma {:induction false} NamedFrom(first: nat, count: nat, name: string)
    requires first + count <= NUMBER_LIMIT && name in NamesFrom(first, count)
    ensures FileNumber(name).Some? && FileName(NumberOf(name)) == name && first <= NumberOf(name) < first + count
    decreases count
  {
    if name == FileName(first + count - 1) {
      NameThenNumber(first + count - 1);
    } else {
      NamedFrom(first, count - 1, name);
    }
  }

  lemma {:induction false} NamesFromCount(first: nat, count: nat)
    requires first + count <= NUMBER_LIMIT
    ensures |NamesFrom(first, count)| == count
    decreases count
  {
    if count > 0 {
      NamesFromCount(first, count - 1);
      if FileName(first + count - 1) in NamesFrom(first, count - 1) {
        NamedFrom(first, count - 1, FileName(first + count - 1));
        NamesDiffer(first + count - 1, NumberOf(FileName(first + count - 1)));
      }
    }
  }

  /** The listed names numbered from `first` on. */
  ghost function ListedFrom(names: set<string>, first: nat): (r: set<string>) {
    set name | name in names && FileNumber(name).Some? && NumberOf(name) >= first
  }

  /** Of the listed files those from `first` on are these many, under the names their numbers are written as. */
  ghost predicate OnTop(first: nat, count: nat, files: Files) {
    ListedFrom(files.Keys, first) == NamesFrom(first, count)
  }

  lemma LowestIsBelow(names: set<string>, top: set<string>)
    requires AllListed(names) && top <= names && |top| < |names|
    requires forall a, b :: a in top && b in names && b !in top ==> NumberOf(b) < NumberOf(a)
    ensures LowestName(names) !in top
  {
    assert |names - top| == |names| - |top|;
    var other :| other in names - top;
  }

  /** The highest-numbered names are not aimed at while there is room for all of them. */
  lemma {:induction false} TopIsNoTarget(names: set<string>, keep: nat, top: set<string>, name: string)
    requires AllListed(names) && top <= names && |top| <= keep && name in top
    requires forall a, b :: a in top && b in names && b !in top ==> NumberOf(b) < NumberOf(a)
    ensures NumberOf(name) !in Targets(names, keep)
    decreases |names|
  {
    if |names| > keep {
      var low := LowestName(names);
      LowestIsBelow(names, top);
      TopIsNoTarget(names - {low}, keep, top, name);
    }
  }

  lemma TopSurvives(first: nat, files: Files, keep: nat, protect: Option<nat>, name: string)
    requires |ListedFrom(files.Keys, first)| <= keep && name in ListedFrom(files.Keys, first)
    requires FileName(NumberOf(name)) == name
    ensures name in Prune(files, keep, protect)
  {
    TopIsNoTarget(Listed(files.Keys), keep, ListedFrom(files.Keys, first), name);
    DeletedByNumber(Targets(Listed(files.Keys), keep), protect, name);
  }

  lemma PruneKeepsTop(first: nat, count: nat, files: Files, keep: nat, protect: Option<nat>)
    requires first + count <= NUMBER_LIMIT && OnTop(first, count, files) && count <= keep
    ensures OnTop(first, count, Prune(files, keep, protect))
  {
    var left := Prune(files, keep, protect);
    NamesFromCount(first, count);
    forall name | name in ListedFrom(files.Keys, first) ensures name in left {
      NamedFrom(first, count, name);
      TopSurvives(first, files, keep, protect, name);
    }
    assert ListedFrom(left.Keys, first) == ListedFrom(files.Keys, first);
  }

  lemma CreateExtendsTop(first: nat, count: nat, files: Files)
    requires OnTop(first, count, files) && first + count < NUMBER_LIMIT
    ensures OnTop(first, count + 1, Create(files, first + count))
  {
    NameThenNumber(first + count);
    var created := Create(files, first + count);
    assert created.Keys == files.Keys + {FileName(first + count)};
    assert ListedFrom(created.Keys, first) == ListedFrom(files.Keys, first) + {FileName(first + count)};
  }

  // ----------------------------------------------------------------- prune targets

  function Insert(n: nat, sorted: seq<nat>): (r: seq<nat>)
    ensures |r| == |sorted| + 1
  {
    if sorted == [] || n > sorted[0] then [n] + sorted else [sorted[0]] + Insert(n, sorted[1..])
  }

  /** The numbers from the highest down; stands for the library sort. */
  function Sorted(numbers: seq<nat>): (r: seq<nat>)
    ensures |r| == |numbers|
  {
    if numbers == [] then [] else Insert(numbers[0], Sorted(numbers[1..]))
  }

  predicate Falling(s: seq<nat>) {
    forall i, j :: 0 <= i < j < |s| ==> s[i] >= s[j]
  }

  function Elements(s: seq<nat>): (r: set<nat>)
    ensures forall n :: n in s <==> n in r
  {
    set n | n in s
  }

  function PruneTargets(numbers: seq<nat>, keep: nat): (r: seq<nat>) {
    if |numbers| <= keep then [] else Sorted(numbers)[keep..]
  }

  lemma FallingFrom(n: nat, rest: seq<nat>)
    requires Falling(rest) && forall m :: m in multiset(rest) ==> m <= n
    ensures Falling([n] + rest) && multiset([n] + rest) == multiset{n} + multiset(rest)
  {
    assert forall i :: 0 <= i < |rest| ==> rest[i] in multiset(rest);
  }

  lemma {:induction false} InsertSorts(n: nat, sorted: seq<nat>)
    requires Falling(sorted)
    ensures Falling(Insert(n, sorted)) && multiset(Insert(n, sorted)) == multiset(sorted) + multiset{n}
  {
    if sorted == [] || n > sorted[0] {
      FallingFrom(n, sorted);
    } else {
      var rest := sorted[1..];
      HeadIsHighest(sorted);
      InsertSorts(n, rest);
      FallingFrom(sorted[0], Insert(n, rest));
    }
  }

  lemma HeadIsHighest(sorted: seq<nat>)
    requires Falling(sorted) && sorted != []
    ensures multiset(sorted) == multiset{sorted[0]} + multiset(sorted[1..])
    ensures Falling(sorted[1..]) && forall m :: m in multiset(sorted[1..]) ==> m <= sorted[0]
  {
    assert sorted == [sorted[0]] + sorted[1..];
    forall m | m in multiset(sorted[1..]) ensures m <= sorted[0] {
      var i :| 0 <= i < |sorted[1..]| && sorted[1..][i] == m;
    }
  }

  lemma {:induction false} SortedSorts(numbers: seq<nat>)
    ensures Falling(Sorted(numbers)) && multiset(Sorted(numbers)) == multiset(numbers)
  {
    if numbers != [] {
      SortedSorts(numbers[1..]);
      InsertSorts(numbers[0], Sorted(numbers[1..]));
      assert numbers == [numbers[0]] + numbers[1..];
    }
  }

  /** The numbers of the names, as often as they occur. */
  ghost function NumbersOf(names: set<string>): (r: multiset<nat>)
    requires AllListed(names)
    decreases |names|
  {
    if names == {} then multiset{}
    else
      var low := LowestName(names);
      NumbersOf(names - {low}) + multiset{NumberOf(low)}
  }

  lemma {:induction false} NumbersOfSize(names: set<string>)
    requires AllListed(names)
    ensures |NumbersOf(names)| == |names|
    decreases |names|
  {
    if names != {} {
      NumbersOfSize(names - {LowestName(names)});
    }
  }

  lemma Recombined(whole: multiset<nat>, one: multiset<nat>, other: multiset<nat>, both: multiset<nat>, x: nat, y: nat)
    requires whole == one + multiset{y} && one == both + multiset{x} && other == both + multiset{y}
    ensures whole == other + multiset{x}
  {
  }

  lemma TwoTaken(names: set<string>, x: string, y: string)
    requires x in names && y in names && x != y
    ensures names - {x} - {y} == names - {y} - {x} && x in names - {y} && y in names - {x}
    ensures |names - {x}| < |names| && |names - {y}| < |names|
  {
  }

  lemma LowestTaken(names: set<string>)
    requires AllListed(names) && names != {}
    ensures NumbersOf(names) == NumbersOf(names - {LowestName(names)}) + multiset{NumberOf(LowestName(names))}
  {
  }

  /** Any name can be taken off first. */
  lemma {:induction false} NumbersOfAny(names: set<string>, name: string)
    requires AllListed(names) && name in names
    ensures NumbersOf(names) == NumbersOf(names - {name}) + multiset{NumberOf(name)}
    decreases |names|
  {
    var low := LowestName(names);
    LowestTaken(names);
    if name != low {
      TwoTaken(names, low, name);
      NumbersOfAny(names - {low}, name);
      NumbersOfAny(names - {name}, low);
      Recombined(NumbersOf(names), NumbersOf(names - {low}), NumbersOf(names - {name}),
        NumbersOf(names - {low} - {name}), NumberOf(name), NumberOf(low));
    }
  }

  lemma {:induction false} NumbersOfMembers(names: set<string>, n: nat)
    requires AllListed(names)
    ensures n in NumbersOf(names) <==> n in NumbersIn(names)
    decreases |names|
  {
    if names != {} {
      var low := LowestName(names);
      NumbersOfMembers(names - {low}, n);
      assert names == (names - {low}) + {low};
    }
  }

  lemma LastIsLowest(s: seq<nat>, names: set<string>)
    requires AllListed(names) && names != {} && Falling(s) && multiset(s) == NumbersOf(names) && s != []
    ensures s[|s| - 1] == NumberOf(LowestName(names))
  {
    var low, last := NumberOf(LowestName(names)), s[|s| - 1];
    assert low in NumbersIn(names);
    NumbersOfMembers(names, low);
    LastIsLeast(s, low);
    assert last in multiset(s);
    NumbersOfMembers(names, last);
  }

  lemma LastIsLeast(s: seq<nat>, n: nat)
    requires Falling(s) && n in multiset(s)
    ensures s != [] && s[|s| - 1] <= n
  {
    var i :| 0 <= i < |s| && s[i] == n;
  }

  lemma FrontAndLast(s: seq<nat>)
    requires s != []
    ensures multiset(s) == multiset(s[..|s| - 1]) + multiset{s[|s| - 1]}
  {
    assert s == s[..|s| - 1] + [s[|s| - 1]];
  }

  lemma Cancelled(a: multiset<nat>, b: multiset<nat>, x: nat)
    requires a + multiset{x} == b + multiset{x}
    ensures a == b
  {
    forall n ensures a[n] == b[n] {
      assert (a + multiset{x})[n] == (b + multiset{x})[n];
    }
  }

  lemma FrontIsRest(s: seq<nat>, names: set<string>)
    requires AllListed(names) && names != {} && Falling(s) && multiset(s) == NumbersOf(names) && s != []
    ensures multiset(s[..|s| - 1]) == NumbersOf(names - {LowestName(names)})
  {
    var n := |s| - 1;
    LastIsLowest(s, names);
    FrontAndLast(s);
    Cancelled(multiset(s[..n]), NumbersOf(names - {LowestName(names)}), s[n]);
  }

  lemma SuffixGrows(s: seq<nat>, keep: nat)
    requires keep < |s|
    ensures var n := |s| - 1;
      Elements(s[keep..]) == {s[n]} + Elements(if n <= keep then [] else s[..n][keep..])
  {
    var n := |s| - 1;
    assert s[keep..] == (if n <= keep then [] else s[..n][keep..]) + [s[n]];
  }

  lemma {:induction false} SuffixIsTargets(s: seq<nat>, names: set<string>, keep: nat)
    requires AllListed(names) && Falling(s) && multiset(s) == NumbersOf(names)
    ensures Elements(if |s| <= keep then [] else s[keep..]) == Targets(names, keep)
    decreases |names|
  {
    NumbersOfSize(names);
    assert |s| == |multiset(s)|;
    if |s| > keep {
      LastIsLowest(s, names);
      FrontIsRest(s, names);
      SuffixGrows(s, keep);
      SuffixIsTargets(s[..|s| - 1], names - {LowestName(names)}, keep);
    }
  }

  /** Sorting and skipping finds exactly the targets, in whatever order the directory was listed. */
  lemma TargetsFound(numbers: seq<nat>, names: set<string>, keep: nat)
    requires AllListed(names) && multiset(numbers) == NumbersOf(names)
    ensures Elements(PruneTargets(numbers, keep)) == Targets(names, keep)
  {
    SortedSorts(numbers);
    SuffixIsTargets(Sorted(numbers), names, keep);
  }

  /** One past the highest number in use. */
  ghost function NextNumber(numbers: set<nat>): (next: nat)
    ensures next >= 1 && (forall n :: n in numbers ==> n < next)
    ensures if numbers == {} then next == 1 else next - 1 in numbers
  {
    if numbers == {} then 1
    else
      var n :| n in numbers;
      var rest := NextNumber(numbers - {n});
      assert numbers == (numbers - {n}) + {n};
      if n < rest && numbers != {n} then rest else n + 1
  }

  // --------------------------------------------------------------------- as it runs

  /** The numbers of the listed files, in no particular order. */
  method ReadNumbers(files: Files) returns (numbers: seq<nat>)
    ensures multiset(numbers) == NumbersOf(Listed(files.Keys))
    ensures Elements(numbers) == NumbersIn(files.Keys)
  {
    numbers := [];
    var rest := files.Keys;
    assert Listed({}) == {} && files.Keys - rest == {};
    while rest != {}
      invariant rest <= files.Keys && multiset(numbers) == NumbersOf(Listed(files.Keys - rest))
    {
      var name :| name in rest;
      ReadOneMore(files.Keys - rest, name);
      assert files.Keys - (rest - {name}) == files.Keys - rest + {name};
      if FileNumber(name).Some? {
        numbers := numbers + [FileNumber(name).value];
      }
      rest := rest - {name};
    }
    assert files.Keys - rest == files.Keys;
    ReadIsListed(numbers, files.Keys);
  }

  lemma ReadOneMore(names: set<string>, name: string)
    requires name !in names
    ensures if FileNumber(name).None? then Listed(names + {name}) == Listed(names)
            else NumbersOf(Listed(names + {name})) == NumbersOf(Listed(names)) + multiset{NumberOf(name)}
  {
    if FileNumber(name).Some? {
      NumbersOfAny(Listed(names + {name}), name);
      assert Listed(names + {name}) - {name} == Listed(names);
    } else {
      assert Listed(names + {name}) == Listed(names);
    }
  }

  lemma ReadIsListed(numbers: seq<nat>, names: set<string>)
    requires multiset(numbers) == NumbersOf(Listed(names))
    ensures Elements(numbers) == NumbersIn(names)
  {
    NumbersOfListed(names);
    forall n ensures n in numbers <==> n in NumbersIn(names) {
      NumbersOfMembers(Listed(names), n);
      assert n in numbers <==> n in multiset(numbers);
    }
  }

  method NextAfter(numbers: seq<nat>) returns (next: nat)
    ensures next == NextNumber(Elements(numbers))
  {
    var highest := 0;
    var i := 0;
    while i < |numbers|
      invariant i <= |numbers|
      invariant forall k :: 0 <= k < i ==> numbers[k] <= highest
      invariant if i == 0 then highest == 0 else highest in numbers[..i]
    {
      if numbers[i] > highest {
        highest := numbers[i];
      }
      i := i + 1;
      assert numbers[..i] == numbers[..i - 1] + [numbers[i - 1]];
    }
    next := highest + 1;
    assert numbers[..i] == numbers;
    if numbers == [] {
      assert Elements(numbers) == {};
    } else {
      assert highest in Elements(numbers) && numbers[0] in Elements(numbers);
    }
  }

  /** The directory object. */
  class Directory {
    var files: Files

    constructor (files: Files)
      ensures this.files == files
    {
      this.files := files;
    }

    method RemoveFiles(targets: seq<nat>, protect: Option<nat>)
      modifies this
      ensures files.Keys == old(files).Keys - Deleted(Elements(targets), protect)
      ensures forall name :: name in files ==> files[name] == old(files)[name]
    {
      var i := 0;
      assert Elements(targets[..0]) == {};
      while i < |targets|
        invariant i <= |targets|
        invariant files.Keys == old(files).Keys - Deleted(Elements(targets[..i]), protect)
        invariant forall name :: name in files ==> files[name] == old(files)[name]
      {
        DeleteNext(targets, i, protect);
        if protect != Some(targets[i]) {
          files := files - {FileName(targets[i])};
        }
        i := i + 1;
      }
      assert targets[..i] == targets;
    }

    /** Deletes everything listed past the newest `keep` files except `protect`. */
    method PruneDir(keep: nat, protect: Option<nat>)
      modifies this
      ensures files == Prune(old(files), keep, protect)
    {
      var numbers := ReadNumbers(files);
      var targets := PruneTargets(numbers, keep);
      TargetsFound(numbers, Listed(files.Keys), keep);
      RemoveFiles(targets, protect);
      SameFiles(old(files), files, Prune(old(files), keep, protect));
    }

    method CreateFile(n: nat)
      modifies this
      ensures files == Create(old(files), n)
    {
      var name := FileName(n);
      files := files[name := if name in files then files[name] else []];
    }

    method Append(n: nat, bytes: Bytes)
      requires FileName(n) in files
      modifies this
      ensures files == old(files)[FileName(n) := old(files)[FileName(n)] + bytes]
    {
      files := files[FileName(n) := files[FileName(n)] + bytes];
    }
  }

  lemma DeleteNext(targets: seq<nat>, i: nat, protect: Option<nat>)
    requires i < |targets|
    ensures Deleted(Elements(targets[..i + 1]), protect)
      == Deleted(Elements(targets[..i]), protect) + if protect == Some(targets[i]) then {} else {FileName(targets[i])}
  {
    assert targets[..i + 1] == targets[..i] + [targets[i]];
    assert Elements(targets[..i + 1]) == Elements(targets[..i]) + {targets[i]};
  }

  lemma SameFiles(base: Files, a: Files, b: Files)
    requires a.Keys == b.Keys
    requires forall name :: name in a ==> name in base && a[name] == base[name]
    requires forall name :: name in b ==> name in base && b[name] == base[name]
    ensures a == b
  {
  }
}
