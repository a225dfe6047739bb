/**
 Canonical configuration documents and the core-agnostic diff over them.

 A canonical document has string keys only, no tagged values, and no meaning in
 the order of its keys, so a mapping is a `map` from strings. Iteration goes
 through the keys in sorted order.
 */
module Document {
  import opened Sequences
  import opened Wrappers

  datatype Float = NaN | Infinite(negative: bool) | Finite(value: real)

  datatype Value =
    | Null
    | Bool(flag: bool)
    | Int(number: int)
    | Float(float: Float)
    | String(text: string)
    | Sequence(items: seq<Value>)
    | Map(entries: Mapping)

  type Mapping = map<string, Value>

  type Path = seq<string>

  datatype DiffEntry = DiffEntry(path: Path, target: Option<Value>)

  datatype Leaf = Leaf(path: Path, value: Value)

  // ------------------------------------------------------------------ key order

  predicate Before(a: string, b: string) {
    b != [] && (a == [] || a[0] < b[0] || (a[0] == b[0] && Before(a[1..], b[1..])))
  }

  lemma {:induction false} BeforeIsTotal(a: string, b: string)
    ensures Before(a, b) || Before(b, a) || a == b
    ensures !(Before(a, b) && Before(b, a)) && !Before(a, a)
  {
    if a != [] {
      BeforeIsTotal(a[1..], a[1..]);
      if b != [] && a[0] == b[0] {
        BeforeIsTotal(a[1..], b[1..]);
        assert a == [a[0]] + a[1..] && b == [b[0]] + b[1..];
      }
    }
  }

  lemma {:induction false} BeforeIsTransitive(a: string, b: string, c: string)
    requires Before(a, b) && Before(b, c)
    ensures Before(a, c)
  {
    if a != [] && a[0] == b[0] == c[0] {
      BeforeIsTransitive(a[1..], b[1..], c[1..]);
    }
  }

  predicate IsLeast(keys: set<string>, least: string) {
    least in keys && forall k | k in keys :: k == least || Before(least, k)
  }

  lemma {:induction false} LeastExists(keys: set<string>)
    requires keys != {}
    ensures exists least :: IsLeast(keys, least)
    ensures forall a, b :: IsLeast(keys, a) && IsLeast(keys, b) ==> a == b
  {
    forall a, b | IsLeast(keys, a) && IsLeast(keys, b) ensures a == b {
      BeforeIsTotal(a, b);
    }
    var some :| some in keys;
    var rest := keys - {some};
    if rest == {} {
      assert keys == {some};
      assert IsLeast(keys, some);
    } else {
      LeastExists(rest);
      var least :| IsLeast(rest, least);
      BeforeIsTotal(some, least);
      if Before(some, least) {
        forall k | k in rest && k != least ensures Before(some, k) {
          BeforeIsTransitive(some, least, k);
        }
        assert IsLeast(keys, some);
      } else {
        assert IsLeast(keys, least);
      }
    }
  }

  /** `order` lists exactly `keys`, each once, in order. */
  ghost predicate Lists(order: seq<string>, keys: set<string>) {
    && (forall k :: k in order <==> k in keys)
    && |order| == |keys|
    && (forall i, j :: 0 <= i < j < |order| ==> Before(order[i], order[j]))
    && (forall i, j :: 0 <= i < j < |order| ==> order[i] != order[j])
  }

  lemma LeastFirst(keys: set<string>, least: string, rest: seq<string>)
    requires IsLeast(keys, least) && Lists(rest, keys - {least})
    ensures Lists([least] + rest, keys)
  {
    assert forall i :: 0 <= i < |rest| ==> rest[i] in rest;
  }

  function Sorted(keys: set<string>): (order: seq<string>)
    ensures Lists(order, keys)
  {
    if keys == {} then []
    else
      LeastExists(keys);
      var least :| IsLeast(keys, least);
      LeastFirst(keys, least, Sorted(keys - {least}));
      [least] + Sorted(keys - {least})
  }

  // ---------------------------------------------------------------------- paths

  predicate IsMap(v: Option<Value>) {
    v.Some? && v.value.Map?
  }

  function EntriesOf(v: Option<Value>): (r: Mapping) {
    if IsMap(v) then v.value.entries else map[]
  }

  function Child(v: Option<Value>, key: string): (r: Option<Value>) {
    if key in EntriesOf(v) then Some(EntriesOf(v)[key]) else None
  }

  function ValueAt(v: Option<Value>, path: Path): (r: Option<Value>)
    decreases |path|
  {
    if path == [] then v else ValueAt(Child(v, path[0]), path[1..])
  }

  function Under(prefix: Path, entries: seq<DiffEntry>): (under: seq<DiffEntry>)
    ensures |under| == |entries|
    ensures forall i :: 0 <= i < |entries| ==> under[i] == DiffEntry(prefix + entries[i].path, entries[i].target)
  {
    seq(|entries|, i requires 0 <= i < |entries| => DiffEntry(prefix + entries[i].path, entries[i].target))
  }

  // ----------------------------------------------------------------------- diff

  /** Both sides are walked key by key unless a non-mapping meets a mapping. */
  predicate Descends(current: Option<Value>, desired: Option<Value>) {
    && (IsMap(current) || IsMap(desired))
    && (current.None? || (IsMap(current) && (desired.None? || IsMap(desired))))
  }

  function KeysOf(current: Option<Value>, desired: Option<Value>): (r: set<string>) {
    EntriesOf(current).Keys + EntriesOf(desired).Keys
  }

  predicate Walkable(current: Option<Value>, desired: Option<Value>, keys: seq<string>) {
    Descends(current, desired) && forall k :: k in keys ==> k in KeysOf(current, desired)
  }

  /** What a descent consumes: the current side while there is one. */
  function Subject(current: Option<Value>, desired: Option<Value>): (r: Value) {
    if current.Some? then current.value else if desired.Some? then desired.value else Null
  }

  function Diff(current: Option<Value>, desired: Option<Value>): (r: seq<DiffEntry>)
    decreases current.Some? && desired.Some?, Subject(current, desired), 1, 0
  {
    if current == desired then []
    else if Descends(current, desired) && KeysOf(current, desired) != {} then
      DiffKeys(current, desired, Sorted(KeysOf(current, desired)))
    else [DiffEntry([], desired)]
  }

  function DiffKeys(current: Option<Value>, desired: Option<Value>, keys: seq<string>): (r: seq<DiffEntry>)
    requires Walkable(current, desired, keys)
    decreases current.Some? && desired.Some?, Subject(current, desired), 0, |keys|
  {
    if keys == [] then []
    else
      assert keys[0] in KeysOf(current, desired);
      assert IsMap(current) && Child(current, keys[0]).Some? ==> Child(current, keys[0]).value < current.value;
      assert IsMap(desired) && Child(desired, keys[0]).Some? ==> Child(desired, keys[0]).value < desired.value;
      Under([keys[0]], Diff(Child(current, keys[0]), Child(desired, keys[0]))) + DiffKeys(current, desired, keys[1..])
  }

  /** The change list of two whole documents. */
  function Changes(current: Mapping, desired: Mapping): (r: seq<DiffEntry>) {
    Diff(Some(Map(current)), Some(Map(desired)))
  }

  // --------------------------------------------------------------------- leaves

  function Leaves(value: Value): (r: seq<Leaf>)
    decreases value, 1, 0
  {
    if value.Map? && value.entries != map[] then LeavesOf(value, Sorted(value.entries.Keys)) else [Leaf([], value)]
  }

  function LeavesOf(value: Value, keys: seq<string>): (r: seq<Leaf>)
    requires value.Map? && forall k :: k in keys ==> k in value.entries
    decreases value, 0, |keys|
  {
    if keys == [] then []
    else LeavesUnder([keys[0]], Leaves(value.entries[keys[0]])) + LeavesOf(value, keys[1..])
  }

  function LeavesUnder(prefix: Path, leaves: seq<Leaf>): (under: seq<Leaf>)
    ensures |under| == |leaves|
    ensures forall i :: 0 <= i < |leaves| ==> under[i] == Leaf(prefix + leaves[i].path, leaves[i].value)
  {
    seq(|leaves|, i requires 0 <= i < |leaves| => Leaf(prefix + leaves[i].path, leaves[i].value))
  }

  // ------------------------------------------------------------- entry location

  predicate HasEntry(entries: seq<DiffEntry>, path: Path, target: Option<Value>) {
    DiffEntry(path, target) in entries
  }

  lemma EntryUnderKey(key: string, below: seq<DiffEntry>, e: DiffEntry)
    ensures e in Under([key], below) <==>
      e.path != [] && e.path[0] == key && HasEntry(below, e.path[1..], e.target)
  {
    var here := Under([key], below);
    if e in here {
      var i :| 0 <= i < |here| && here[i] == e;
      assert e.path == [key] + below[i].path && e.path[1..] == below[i].path;
      assert below[i] in below;
    }
    if e.path != [] && e.path[0] == key && HasEntry(below, e.path[1..], e.target) {
      var i :| 0 <= i < |below| && below[i] == DiffEntry(e.path[1..], e.target);
      assert e.path == [key] + e.path[1..];
      assert here[i] == e;
    }
  }

  /** An entry of a key-wise diff is an entry of the diff below its first key. */
  lemma {:induction false} EntryBelowKey(current: Option<Value>, desired: Option<Value>, keys: seq<string>,
      e: DiffEntry)
    requires Walkable(current, desired, keys)
    ensures e in DiffKeys(current, desired, keys) <==>
      && e.path != [] && e.path[0] in keys
      && HasEntry(Diff(Child(current, e.path[0]), Child(desired, e.path[0])), e.path[1..], e.target)
    decreases |keys|
  {
    if keys != [] {
      EntryUnderKey(keys[0], Diff(Child(current, keys[0]), Child(desired, keys[0])), e);
      EntryBelowKey(current, desired, keys[1..], e);
    }
  }

  /** The same for a whole diff: below the root, every entry sits under a key. */
  lemma EntryBelow(current: Option<Value>, desired: Option<Value>, e: DiffEntry)
    requires Descends(current, desired) && KeysOf(current, desired) != {}
    ensures e in Diff(current, desired) <==>
      && e.path != []
      && HasEntry(Diff(Child(current, e.path[0]), Child(desired, e.path[0])), e.path[1..], e.target)
  {
    if current != desired {
      EntryBelowKey(current, desired, Sorted(KeysOf(current, desired)), e);
    }
  }

  // ------------------------------------------------- soundness and completeness

  /** Every entry states the desired value at its path, and the current value there is another. */
  lemma {:induction false} EntryIsTrue(current: Option<Value>, desired: Option<Value>, e: DiffEntry)
    requires e in Diff(current, desired)
    ensures e.target == ValueAt(desired, e.path) && ValueAt(current, e.path) != e.target
    decreases |e.path|
  {
    if Descends(current, desired) && KeysOf(current, desired) != {} {
      EntryBelow(current, desired, e);
      EntryIsTrue(Child(current, e.path[0]), Child(desired, e.path[0]), DiffEntry(e.path[1..], e.target));
    }
  }

  lemma DifferentMapsDifferSomewhere(current: Option<Value>, desired: Option<Value>) returns (k: string)
    requires current != desired && Descends(current, desired) && KeysOf(current, desired) != {}
    ensures k in KeysOf(current, desired) && Child(current, k) != Child(desired, k)
  {
    if current.Some? && desired.Some? && forall key :: Child(current, key) == Child(desired, key) {
      SameChildrenSameMap(current, desired);
    }
    if current.Some? && desired.Some? {
      k :| Child(current, k) != Child(desired, k);
    } else {
      k :| k in KeysOf(current, desired);
    }
  }

  /** A difference is always reported. */
  lemma {:induction false} DifferenceHasEntry(current: Option<Value>, desired: Option<Value>) returns (e: DiffEntry)
    requires current != desired
    ensures e in Diff(current, desired)
    decreases current.Some? && desired.Some?, Subject(current, desired)
  {
    if Descends(current, desired) && KeysOf(current, desired) != {} {
      var k := DifferentMapsDifferSomewhere(current, desired);
      ChildrenAreSmaller(current, desired, k);
      var below := DifferenceHasEntry(Child(current, k), Child(desired, k));
      e := DiffEntry([k] + below.path, below.target);
      assert e.path[1..] == below.path;
      EntryBelow(current, desired, e);
    } else {
      e := DiffEntry([], desired);
    }
  }

  lemma EmptyMeansEqual(current: Option<Value>, desired: Option<Value>)
    ensures Diff(current, desired) == [] <==> current == desired
  {
    if current != desired {
      var e := DifferenceHasEntry(current, desired);
    }
  }

  predicate PrefixOf(a: Path, b: Path) {
    a <= b
  }

  ghost predicate PrefixFree(entries: seq<DiffEntry>) {
    forall i, j :: 0 <= i < |entries| && 0 <= j < |entries| && i != j ==> !PrefixOf(entries[i].path, entries[j].path)
  }

  lemma UnderKeepsPrefixFree(key: string, entries: seq<DiffEntry>)
    requires PrefixFree(entries)
    ensures PrefixFree(Under([key], entries))
  {
    var under := Under([key], entries);
    forall i, j | 0 <= i < |entries| && 0 <= j < |entries| && i != j ensures !PrefixOf(under[i].path, under[j].path) {
      PrefixUnder(key, entries[i].path, entries[j].path);
    }
  }

  lemma PrefixUnder(key: string, a: Path, b: Path)
    ensures PrefixOf([key] + a, [key] + b) ==> PrefixOf(a, b)
  {
    assert ([key] + a)[1..] == a && ([key] + b)[1..] == b;
  }

  /** One key at a time, either side of a descent gets strictly smaller. */
  lemma ChildrenAreSmaller(current: Option<Value>, desired: Option<Value>, k: string)
    requires Descends(current, desired) && k in KeysOf(current, desired)
    ensures var c, d := Child(current, k), Child(desired, k);
      && (current.Some? && desired.Some? && c.Some? && d.Some? ==> Subject(c, d) < Subject(current, desired))
      && (!(current.Some? && desired.Some?) ==> !(c.Some? && d.Some?) && Subject(c, d) < Subject(current, desired))
  {
    assert IsMap(current) && Child(current, k).Some? ==> Child(current, k).value < current.value;
    assert IsMap(desired) && Child(desired, k).Some? ==> Child(desired, k).value < desired.value;
  }

  ghost predicate PrefixFreeBelow(current: Option<Value>, desired: Option<Value>, key: string) {
    PrefixFree(Diff(Child(current, key), Child(desired, key)))
  }

  lemma {:induction false} KeysArePrefixFree(current: Option<Value>, desired: Option<Value>, keys: seq<string>)
    requires Walkable(current, desired, keys)
    requires forall i, j :: 0 <= i < j < |keys| ==> keys[i] != keys[j]
    requires forall k :: k in keys ==> PrefixFreeBelow(current, desired, k)
    ensures PrefixFree(DiffKeys(current, desired, keys))
    decreases |keys|
  {
    if keys != [] {
      var k, others := keys[0], keys[1..];
      var below := Diff(Child(current, k), Child(desired, k));
      var here, rest := Under([k], below), DiffKeys(current, desired, others);
      assert PrefixFree(rest) by { KeysArePrefixFree(current, desired, others); }
      assert PrefixFree(here) by {
        assert PrefixFreeBelow(current, desired, k);
        UnderKeepsPrefixFree(k, below);
      }
      EntriesOfOtherKeys(current, desired, others, k, rest);
      JoinIsPrefixFree(k, here, rest);
      assert DiffKeys(current, desired, keys) == here + rest;
    }
  }

  lemma EntriesOfOtherKeys(current: Option<Value>, desired: Option<Value>, keys: seq<string>, key: string,
      entries: seq<DiffEntry>)
    requires Walkable(current, desired, keys)
    requires key !in keys && entries == DiffKeys(current, desired, keys)
    ensures forall i :: 0 <= i < |entries| ==> entries[i].path != [] && entries[i].path[0] != key
  {
    forall i | 0 <= i < |entries| ensures entries[i].path != [] && entries[i].path[0] != key {
      EntryBelowKey(current, desired, keys, entries[i]);
    }
  }

  lemma JoinIsPrefixFree(key: string, here: seq<DiffEntry>, rest: seq<DiffEntry>)
    requires PrefixFree(here) && PrefixFree(rest)
    requires forall i :: 0 <= i < |here| ==> here[i].path != [] && here[i].path[0] == key
    requires forall i :: 0 <= i < |rest| ==> rest[i].path != [] && rest[i].path[0] != key
    ensures PrefixFree(here + rest)
  {
  }

  /** No entry's path is a prefix of another's. */
  lemma {:induction false} EntriesArePrefixFree(current: Option<Value>, desired: Option<Value>)
    ensures PrefixFree(Diff(current, desired))
    decreases current.Some? && desired.Some?, Subject(current, desired)
  {
    if current != desired && Descends(current, desired) && KeysOf(current, desired) != {} {
      var keys := Sorted(KeysOf(current, desired));
      forall k | k in keys ensures PrefixFreeBelow(current, desired, k) {
        ChildrenAreSmaller(current, desired, k);
        EntriesArePrefixFree(Child(current, k), Child(desired, k));
      }
      KeysArePrefixFree(current, desired, keys);
    }
  }

  // -------------------------------------------------------------------- overlay

  /** Writes `x` at `path`, making the mappings on the way where there are none. */
  function Put(v: Option<Value>, path: Path, x: Value): (r: Value)
    decreases |path|
  {
    if path == [] then x
    else Map(EntriesOf(v)[path[0] := Put(Child(v, path[0]), path[1..], x)])
  }

  predicate NoDeletion(entries: seq<DiffEntry>) {
    forall e :: e in entries ==> e.target.Some?
  }

  function Overlay(v: Option<Value>, entries: seq<DiffEntry>): (r: Option<Value>)
    requires NoDeletion(entries)
    decreases |entries|
  {
    if entries == [] then v
    else
      assert entries[0] in entries;
      Overlay(Some(Put(v, entries[0].path, entries[0].target.value)), entries[1..])
  }

  lemma {:induction false} OverlayConcat(v: Option<Value>, a: seq<DiffEntry>, b: seq<DiffEntry>)
    requires NoDeletion(a + b)
    ensures NoDeletion(a) && NoDeletion(b)
    ensures Overlay(v, a + b) == Overlay(Overlay(v, a), b)
    decreases |a|
  {
    forall e | e in a || e in b ensures e in a + b {}
    if a == [] {
      assert a + b == b;
    } else {
      assert (a + b)[1..] == a[1..] + b;
      OverlayConcat(Some(Put(v, a[0].path, a[0].target.value)), a[1..], b);
    }
  }

  /** Overlaying entries that all sit under one key overlays the value at that key. */
  lemma {:induction false} OverlayUnder(v: Option<Value>, key: string, entries: seq<DiffEntry>)
    requires NoDeletion(entries) && entries != []
    ensures NoDeletion(Under([key], entries))
    ensures Overlay(Child(v, key), entries).Some?
    ensures Overlay(v, Under([key], entries)) == Some(Map(EntriesOf(v)[key := Overlay(Child(v, key), entries).value]))
    decreases |entries|
  {
    var under, e := Under([key], entries), entries[0];
    forall u | u in under ensures u.target.Some? {
      var i :| 0 <= i < |under| && under[i] == u;
      assert entries[i] in entries;
    }
    assert e in entries;
    var next := Some(Put(v, under[0].path, e.target.value));
    assert under[0].path[1..] == e.path;
    assert under[1..] == Under([key], entries[1..]);
    if |entries| > 1 {
      OverlayUnder(next, key, entries[1..]);
      assert EntriesOf(next)[key := Overlay(Child(next, key), entries[1..]).value]
          == EntriesOf(v)[key := Overlay(Child(next, key), entries[1..]).value];
    } else {
      assert entries[1..] == [] && under[1..] == [];
    }
  }

  ghost predicate Reaches(current: Option<Value>, desired: Option<Value>) {
    NoDeletion(Diff(current, desired)) ==> Overlay(current, Diff(current, desired)) == desired
  }

  /** What overlaying the entries of `keys` makes of `v`. */
  ghost predicate KeysOverlaid(v: Option<Value>, after: Option<Value>, desired: Option<Value>, keys: seq<string>,
      changed: bool)
  {
    && (forall k :: Child(after, k) == if k in keys then Child(desired, k) else Child(v, k))
    && if changed then IsMap(after) else after == v
  }

  /** One key and then the others. */
  lemma OverlaidInTurn(v: Option<Value>, mid: Option<Value>, after: Option<Value>, desired: Option<Value>,
                       keys: seq<string>, first: bool, others: bool)
    requires keys != []
    requires forall k :: Child(mid, k) == if k == keys[0] then Child(desired, k) else Child(v, k)
    requires if first then IsMap(mid) else mid == v
    requires keys[0] !in keys[1..] && KeysOverlaid(mid, after, desired, keys[1..], others)
    ensures KeysOverlaid(v, after, desired, keys, first || others)
  {
    assert keys == [keys[0]] + keys[1..];
  }

  lemma OverlayKey(v: Option<Value>, key: string, below: seq<DiffEntry>, desired: Option<Value>)
    requires NoDeletion(below) && NoDeletion(Under([key], below)) && Overlay(Child(v, key), below) == desired
    ensures var after := Overlay(v, Under([key], below));
      && (forall k :: Child(after, k) == if k == key then desired else Child(v, k))
      && (below == [] ==> after == v) && (below != [] ==> IsMap(after))
  {
    if below != [] {
      OverlayUnder(v, key, below);
    } else {
      assert Under([key], below) == [];
    }
  }

  lemma UnderHasNoDeletion(prefix: Path, entries: seq<DiffEntry>)
    requires NoDeletion(Under(prefix, entries))
    ensures NoDeletion(entries)
  {
    forall e | e in entries ensures e.target.Some? {
      var i :| 0 <= i < |entries| && entries[i] == e;
      assert Under(prefix, entries)[i] in Under(prefix, entries);
    }
  }

  lemma FirstKeyOverlaid(v: Option<Value>, current: Option<Value>, desired: Option<Value>, keys: seq<string>,
                         below: seq<DiffEntry>, here: seq<DiffEntry>, rest: seq<DiffEntry>)
    requires Walkable(current, desired, keys) && keys != [] && NoDeletion(DiffKeys(current, desired, keys))
    requires Child(v, keys[0]) == Child(current, keys[0]) && Reaches(Child(current, keys[0]), Child(desired, keys[0]))
    requires below == Diff(Child(current, keys[0]), Child(desired, keys[0])) && here == Under([keys[0]], below)
    requires rest == DiffKeys(current, desired, keys[1..])
    ensures DiffKeys(current, desired, keys) == here + rest && NoDeletion(here) && NoDeletion(rest)
    ensures Overlay(v, here + rest) == Overlay(Overlay(v, here), rest)
    ensures forall k :: Child(Overlay(v, here), k) == if k == keys[0] then Child(desired, k) else Child(v, k)
    ensures if below != [] then IsMap(Overlay(v, here)) else Overlay(v, here) == v
  {
    assert DiffKeys(current, desired, keys) == here + rest;
    OverlayConcat(v, here, rest);
    UnderHasNoDeletion([keys[0]], below);
    OverlayKey(v, keys[0], below, Child(desired, keys[0]));
  }

  /** Overlaying the entries of some keys gives those keys their desired values and leaves the others alone. */
  lemma {:induction false} OverlayKeys(v: Option<Value>, current: Option<Value>, desired: Option<Value>,
      keys: seq<string>)
    requires Walkable(current, desired, keys)
    requires forall i, j :: 0 <= i < j < |keys| ==> keys[i] != keys[j]
    requires forall k :: k in keys ==> Child(v, k) == Child(current, k) && Reaches(Child(current, k), Child(desired, k))
    requires NoDeletion(DiffKeys(current, desired, keys))
    ensures var entries := DiffKeys(current, desired, keys);
      KeysOverlaid(v, Overlay(v, entries), desired, keys, entries != [])
    decreases |keys|
  {
    if keys != [] {
      var k, others := keys[0], keys[1..];
      var below := Diff(Child(current, k), Child(desired, k));
      var here, rest := Under([k], below), DiffKeys(current, desired, others);
      FirstKeyOverlaid(v, current, desired, keys, below, here, rest);
      OverlayKeys(Overlay(v, here), current, desired, others);
      OverlaidInTurn(v, Overlay(v, here), Overlay(Overlay(v, here), rest), desired, keys, below != [], rest != []);
    }
  }

  /** A diff without deletions, laid over the current value, gives the desired one. */
  lemma {:induction false} OverlayReaches(current: Option<Value>, desired: Option<Value>)
    requires NoDeletion(Diff(current, desired))
    ensures Overlay(current, Diff(current, desired)) == desired
    decreases current.Some? && desired.Some?, Subject(current, desired)
  {
    if current != desired && Descends(current, desired) && KeysOf(current, desired) != {} {
      var keys := Sorted(KeysOf(current, desired));
      forall k | k in keys ensures Reaches(Child(current, k), Child(desired, k)) {
        ChildrenAreSmaller(current, desired, k);
        if NoDeletion(Diff(Child(current, k), Child(desired, k))) {
          OverlayReaches(Child(current, k), Child(desired, k));
        }
      }
      OverlayKeys(current, current, desired, keys);
      EmptyMeansEqual(current, desired);
      var after := Overlay(current, Diff(current, desired));
      if desired.None? {
        var e := DifferenceHasEntry(current, desired);
        EntryIsTrue(current, desired, e);
        NothingBelowNone(e.path);
      } else {
        SameChildrenSameMap(after, desired);
      }
    } else if current != desired {
      var entry := DiffEntry([], desired);
      assert Diff(current, desired) == [entry] && entry in Diff(current, desired);
      assert Diff(current, desired)[1..] == [];
    }
  }

  lemma {:induction false} NothingBelowNone(path: Path)
    ensures ValueAt(None, path) == None
    decreases |path|
  {
    if path != [] {
      NothingBelowNone(path[1..]);
    }
  }

  lemma SameChildrenSameMap(a: Option<Value>, b: Option<Value>)
    requires IsMap(a) && IsMap(b) && forall k :: Child(a, k) == Child(b, k)
    ensures a == b
  {
    forall k | k in EntriesOf(a) || k in EntriesOf(b)
      ensures k in EntriesOf(a) && k in EntriesOf(b) && EntriesOf(a)[k] == EntriesOf(b)[k]
    {
      assert Child(a, k) == Child(b, k);
    }
    assert EntriesOf(a) == EntriesOf(b);
  }

  /**
   The diff of two documents is sound and complete: each entry names the desired
   value at its path, where the current one differs; no path contains another;
   there are none exactly for equal documents; and one without deletions takes
   the current document to the desired one.
   */
  lemma ChangesAreSoundAndComplete(current: Mapping, desired: Mapping)
    ensures var changes := Changes(current, desired);
      && (forall e :: e in changes ==>
            && e.target == ValueAt(Some(Map(desired)), e.path)
            && ValueAt(Some(Map(current)), e.path) != e.target)
      && PrefixFree(changes)
      && (changes == [] <==> current == desired)
      && (NoDeletion(changes) ==> Overlay(Some(Map(current)), changes) == Some(Map(desired)))
  {
    var c, d := Some(Map(current)), Some(Map(desired));
    forall e | e in Changes(current, desired)
      ensures e.target == ValueAt(d, e.path) && ValueAt(c, e.path) != e.target
    {
      EntryIsTrue(c, d, e);
    }
    EntriesArePrefixFree(c, d);
    EmptyMeansEqual(c, d);
    if NoDeletion(Changes(current, desired)) {
      OverlayReaches(c, d);
    }
  }

  // ------------------------------------------------------------------ recorders

  lemma UnderRoot(prefix: Path, entry: DiffEntry)
    requires entry.path == []
    ensures Under(prefix, [entry]) == [DiffEntry(prefix, entry.target)]
    ensures Under(prefix, []) == []
  {
    assert prefix + [] == prefix;
  }

  lemma UnderStep(prefix: Path, key: string, below: seq<DiffEntry>, rest: seq<DiffEntry>)
    ensures Under(prefix, Under([key], below) + rest) == Under(prefix + [key], below) + Under(prefix, rest)
  {
    forall j | 0 <= j < |below| ensures prefix + ([key] + below[j].path) == prefix + [key] + below[j].path {}
  }

  /** The entries of the keys still to walk, as the walk meets them under `prefix`. */
  lemma DiffKeysStep(prefix: Path, current: Option<Value>, desired: Option<Value>, keys: seq<string>)
    requires Walkable(current, desired, keys) && keys != []
    ensures Walkable(current, desired, keys[1..]) && keys[0] in KeysOf(current, desired)
    ensures Under(prefix, DiffKeys(current, desired, keys))
      == Under(prefix + [keys[0]], Diff(Child(current, keys[0]), Child(desired, keys[0])))
         + Under(prefix, DiffKeys(current, desired, keys[1..]))
  {
    var below := Diff(Child(current, keys[0]), Child(desired, keys[0]));
    UnderStep(prefix, keys[0], below, DiffKeys(current, desired, keys[1..]));
  }

  lemma LeavesStep(prefix: Path, value: Value, keys: seq<string>)
    requires value.Map? && keys != [] && forall k :: k in keys ==> k in value.entries
    ensures LeavesUnder(prefix, LeavesOf(value, keys))
      == LeavesUnder(prefix + [keys[0]], Leaves(value.entries[keys[0]]))
         + LeavesUnder(prefix, LeavesOf(value, keys[1..]))
  {
    var below := Leaves(value.entries[keys[0]]);
    forall j | 0 <= j < |below| ensures prefix + ([keys[0]] + below[j].path) == prefix + [keys[0]] + below[j].path {}
  }

  /** The diff as it is run: one shared path, pushed and popped, and one growing change list. */
  class DiffRecorder {
    var path: Path
    var changes: seq<DiffEntry>

    constructor ()
      ensures path == [] && changes == []
    {
      path, changes := [], [];
    }

    method DiffValue(current: Option<Value>, desired: Option<Value>)
      modifies this
      ensures path == old(path)
      ensures changes == old(changes) + Under(old(path), Diff(current, desired))
      decreases current.Some? && desired.Some?, Subject(current, desired), 1
    {
      if current == desired {
        return;
      }
      if Descends(current, desired) && KeysOf(current, desired) != {} {
        DiffChildren(current, desired, Sorted(KeysOf(current, desired)));
        return;
      }
      changes := changes + [DiffEntry(path, desired)];
      UnderRoot(path, DiffEntry([], desired));
    }

    method DiffChildren(current: Option<Value>, desired: Option<Value>, keys: seq<string>)
      requires Walkable(current, desired, keys)
      modifies this
      ensures path == old(path)
      ensures changes == old(changes) + Under(old(path), DiffKeys(current, desired, keys))
      decreases current.Some? && desired.Some?, Subject(current, desired), 0, 1
    {
      var rest := keys;
      ghost var all := changes + Under(path, DiffKeys(current, desired, keys));
      while rest != []
        invariant path == old(path) && Walkable(current, desired, rest)
        invariant changes + Under(path, DiffKeys(current, desired, rest)) == all
        decreases |rest|
      {
        ghost var before := changes;
        ghost var here := Under(path + [rest[0]], Diff(Child(current, rest[0]), Child(desired, rest[0])));
        DiffKeysStep(path, current, desired, rest);
        DiffChild(current, desired, rest[0]);
        rest := rest[1..];
        Associate(before, here, Under(path, DiffKeys(current, desired, rest)));
      }
    }

    method DiffChild(current: Option<Value>, desired: Option<Value>, key: string)
      requires Descends(current, desired) && key in KeysOf(current, desired)
      modifies this
      ensures path == old(path)
      ensures changes == old(changes) + Under(old(path) + [key], Diff(Child(current, key), Child(desired, key)))
      decreases current.Some? && desired.Some?, Subject(current, desired), 0, 0
    {
      ChildrenAreSmaller(current, desired, key);
      path := path + [key];
      DiffValue(Child(current, key), Child(desired, key));
      path := path[..|path| - 1];
    }
  }

  method ComputeDiff(current: Mapping, desired: Mapping) returns (changes: seq<DiffEntry>)
    ensures changes == Changes(current, desired)
  {
    var recorder := new DiffRecorder();
    recorder.DiffValue(Some(Map(current)), Some(Map(desired)));
    UnderNothing(Changes(current, desired));
    changes := recorder.changes;
  }

  lemma UnderNothing(entries: seq<DiffEntry>)
    ensures [] + Under([], entries) == entries
  {
    forall i | 0 <= i < |entries| ensures Under([], entries)[i] == entries[i] {
      assert [] + entries[i].path == entries[i].path;
    }
  }

  lemma LeavesUnderRoot(prefix: Path, value: Value)
    ensures LeavesUnder(prefix, [Leaf([], value)]) == [Leaf(prefix, value)]
  {
    assert prefix + [] == prefix;
  }

  /** Leaf collection as it is run, with the same shared path. */
  class LeafRecorder {
    var path: Path
    var leaves: seq<Leaf>

    constructor ()
      ensures path == [] && leaves == []
    {
      path, leaves := [], [];
    }

    method CollectLeaves(value: Value)
      modifies this
      ensures path == old(path)
      ensures leaves == old(leaves) + LeavesUnder(old(path), Leaves(value))
      decreases value, 1
    {
      if value.Map? && value.entries != map[] {
        CollectChildren(value, Sorted(value.entries.Keys));
        return;
      }
      leaves := leaves + [Leaf(path, value)];
      LeavesUnderRoot(path, value);
    }

    method CollectChildren(value: Value, keys: seq<string>)
      requires value.Map? && forall k :: k in keys ==> k in value.entries
      modifies this
      ensures path == old(path)
      ensures leaves == old(leaves) + LeavesUnder(old(path), LeavesOf(value, keys))
      decreases value, 0, 1
    {
      var rest := keys;
      ghost var all := leaves + LeavesUnder(path, LeavesOf(value, keys));
      while rest != []
        invariant path == old(path) && forall k :: k in rest ==> k in value.entries
        invariant leaves + LeavesUnder(path, LeavesOf(value, rest)) == all
        decreases |rest|
      {
        ghost var before, here := leaves, LeavesUnder(path + [rest[0]], Leaves(value.entries[rest[0]]));
        LeavesStep(path, value, rest);
        CollectChild(value, rest[0]);
        rest := rest[1..];
        Associate(before, here, LeavesUnder(path, LeavesOf(value, rest)));
      }
    }

    method CollectChild(value: Value, key: string)
      requires value.Map? && key in value.entries
      modifies this
      ensures path == old(path)
      ensures leaves == old(leaves) + LeavesUnder(old(path) + [key], Leaves(value.entries[key]))
      decreases value, 0, 0
    {
      path := path + [key];
      CollectLeaves(value.entries[key]);
      path := path[..|path| - 1];
    }
  }
}
