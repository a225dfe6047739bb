/**
 The sequence guard over the wire-type echo. Reconciles run one after the other
 but the tasks watching them finish in any order, so each watcher compares its
 operation's run sequence with the newest one applied before it publishes.
 */
module EchoGuard {
  import opened Wrappers

  datatype ApplyOutcome =
    | Started
    | Noop
    | Patched
    | Reloaded
    | Restarted
    | Switched
    | RolledBack
    | DurabilityUncertain(outcome: ApplyOutcome, warning: string)

  datatype Terminal = Reconciled(outcome: ApplyOutcome) | OtherSuccess | Failed

  /** A watcher at the guard: its operation's run sequence, the type it asked for, and how it ended. */
  datatype Watcher = Watcher(sequence: nat, coreType: string, state: Terminal)

  /** The newest sequence applied, the published type, and how often subscribers were notified. */
  datatype Echo = Echo(applied: Option<nat>, published: Option<string>, notices: nat)

  /** The outcome behind any nesting of durability warnings. */
  function Effective(outcome: ApplyOutcome): (r: ApplyOutcome) {
    match outcome
    case DurabilityUncertain(inner, _) => Effective(inner)
    case _ => outcome
  }

  predicate Commits(state: Terminal) {
    state.Reconciled? && !Effective(state.outcome).RolledBack?
  }

  /** A watcher whose transaction never reached a commit point says nothing about the echo. */
  predicate Speaks(w: Watcher) {
    w.state.Reconciled?
  }

  function Observe(e: Echo, w: Watcher): (r: Echo) {
    if !Speaks(w) || (e.applied.Some? && e.applied.value >= w.sequence) then e
    else Echo(Some(w.sequence), if Commits(w.state) then Some(w.coreType) else e.published, e.notices + 1)
  }

  function ObserveAll(e: Echo, arrivals: seq<Watcher>): (r: Echo)
    decreases |arrivals|
  {
    if arrivals == [] then e
    else Observe(ObserveAll(e, arrivals[..|arrivals| - 1]), arrivals[|arrivals| - 1])
  }

  const FRESH := Echo(None, None, 0)

  /** No reconcile has had a say yet; a v1 start may have published a type already. */
  predicate Unguarded(e: Echo) {
    e.applied.None?
  }

  /** `w` is the latest run among the speaking arrivals; sequences name runs, so no other arrival shares its number. */
  ghost predicate Newest(arrivals: seq<Watcher>, w: Watcher) {
    && w in arrivals && Speaks(w)
    && forall v :: v in arrivals && Speaks(v) && v != w ==> v.sequence < w.sequence
  }

  // -------------------------------------------------------------------- results

  /** Wrapping an outcome in any number of durability warnings never changes whether it commits. */
  lemma {:induction false} WarningsDoNotDecide(outcome: ApplyOutcome, warnings: seq<string>)
    ensures Commits(Reconciled(Wrapped(outcome, warnings))) == Commits(Reconciled(outcome))
  {
    if warnings != [] {
      WarningsDoNotDecide(outcome, warnings[1..]);
    }
  }

  function Wrapped(outcome: ApplyOutcome, warnings: seq<string>): (r: ApplyOutcome) {
    if warnings == [] then outcome else DurabilityUncertain(Wrapped(outcome, warnings[1..]), warnings[0])
  }

  /** The guard remembers the newest speaking sequence, in whatever order the watchers come. */
  lemma {:induction false} AppliedIsNewest(start: Echo, arrivals: seq<Watcher>)
    requires Unguarded(start)
    ensures var e := ObserveAll(start, arrivals);
      && (e.applied.None? <==> forall v :: v in arrivals ==> !Speaks(v))
      && (e.applied.Some? ==>
            && (exists v :: v in arrivals && Speaks(v) && v.sequence == e.applied.value)
            && (forall v :: v in arrivals && Speaks(v) ==> v.sequence <= e.applied.value))
  {
    if arrivals != [] {
      var front, w := arrivals[..|arrivals| - 1], arrivals[|arrivals| - 1];
      AppliedIsNewest(start, front);
      assert forall v :: v in arrivals <==> v in front || v == w;
      assert w in arrivals;
    }
  }

  /** If the newest speaking watcher committed, its core type is the echo, whatever the order of arrival. */
  lemma {:induction false} NewestCommitWins(start: Echo, arrivals: seq<Watcher>, newest: Watcher)
    requires Unguarded(start) && Newest(arrivals, newest) && Commits(newest.state)
    ensures ObserveAll(start, arrivals).applied == Some(newest.sequence)
    ensures ObserveAll(start, arrivals).published == Some(newest.coreType)
  {
    var front, w := arrivals[..|arrivals| - 1], arrivals[|arrivals| - 1];
    assert forall v :: v in arrivals <==> v in front || v == w;
    AppliedIsNewest(start, front);
    if newest in front {
      NewestCommitWins(start, front, newest);
    }
  }

  /** A speaking watcher newer than all before it. */
  predicate Record(arrivals: seq<Watcher>, i: nat)
    requires i < |arrivals|
  {
    Speaks(arrivals[i]) && forall j :: 0 <= j < i && Speaks(arrivals[j]) ==> arrivals[j].sequence < arrivals[i].sequence
  }

  function Records(arrivals: seq<Watcher>): (count: nat) {
    if arrivals == [] then 0
    else Records(arrivals[..|arrivals| - 1]) + if Record(arrivals, |arrivals| - 1) then 1 else 0
  }

  /** Each watcher newer than all before it notifies, committed or rolled back, and no other does. */
  lemma {:induction false} NewestSoFarNotifies(start: Echo, arrivals: seq<Watcher>)
    requires Unguarded(start)
    ensures ObserveAll(start, arrivals).notices == start.notices + Records(arrivals)
  {
    if arrivals != [] {
      var n := |arrivals| - 1;
      var front := arrivals[..n];
      NewestSoFarNotifies(start, front);
      AppliedIsNewest(start, front);
      assert forall j :: 0 <= j < n ==> arrivals[j] == front[j];
      assert forall v :: v in front ==> exists j :: 0 <= j < n && arrivals[j] == v;
    }
  }

  /** Two arrival orders of the same watchers. */
  ghost predicate SameWatchers(a: seq<Watcher>, b: seq<Watcher>) {
    multiset(a) == multiset(b)
  }

  /** The published echo is some committed type that arrived, or still the one published before. */
  lemma {:induction false} EchoIsACommit(start: Echo, arrivals: seq<Watcher>)
    ensures var e := ObserveAll(start, arrivals).published;
      e == start.published || exists v :: v in arrivals && Commits(v.state) && Some(v.coreType) == e
  {
    if arrivals != [] {
      var front, w := arrivals[..|arrivals| - 1], arrivals[|arrivals| - 1];
      EchoIsACommit(start, front);
      assert forall v :: v in arrivals <==> v in front || v == w;
    }
  }

  lemma {:induction false} ObserveAllConcat(e: Echo, a: seq<Watcher>, b: seq<Watcher>)
    ensures ObserveAll(e, a + b) == ObserveAll(ObserveAll(e, a), b)
    decreases |b|
  {
    if b == [] {
      assert a + b == a;
    } else {
      assert (a + b)[..|a + b| - 1] == a + b[..|b| - 1];
      ObserveAllConcat(e, a, b[..|b| - 1]);
    }
  }

  lemma {:induction false} StaleArrivalsAreIgnored(e: Echo, arrivals: seq<Watcher>)
    requires e.applied.Some?
    requires forall v :: v in arrivals && Speaks(v) ==> v.sequence <= e.applied.value
    ensures ObserveAll(e, arrivals) == e
  {
    if arrivals != [] {
      var front := arrivals[..|arrivals| - 1];
      assert arrivals[|arrivals| - 1] in arrivals;
      assert forall v :: v in front ==> v in arrivals;
      StaleArrivalsAreIgnored(e, front);
    }
  }

  /** A rolled-back newest that is seen first hides everything after it. */
  lemma SeenFirstHides(start: Echo, newest: Watcher, others: seq<Watcher>)
    requires Unguarded(start) && Speaks(newest) && !Commits(newest.state)
    requires forall v :: v in others && Speaks(v) ==> v.sequence <= newest.sequence
    ensures ObserveAll(start, [newest] + others).published == start.published
  {
    ObserveAllConcat(start, [newest], others);
    assert ObserveAll(start, [newest][..0]) == start;
    StaleArrivalsAreIgnored(Observe(start, newest), others);
  }

  /** A commit seen just before it stays published. */
  lemma SeenSecondShows(start: Echo, newest: Watcher, commit: Watcher, others: seq<Watcher>)
    requires Unguarded(start)
    requires Speaks(newest) && !Commits(newest.state) && Commits(commit.state) && commit.sequence < newest.sequence
    requires forall v :: v in others && Speaks(v) ==> v.sequence <= newest.sequence
    ensures ObserveAll(start, [commit] + ([newest] + others)).published == Some(commit.coreType)
  {
    var one := Observe(start, commit);
    ObserveAllConcat(start, [commit], [newest] + others);
    assert ObserveAll(start, [commit][..0]) == start;
    ObserveAllConcat(one, [newest], others);
    assert ObserveAll(one, [newest][..0]) == one;
    StaleArrivalsAreIgnored(Observe(one, newest), others);
  }

  lemma SwapFront(x: Watcher, y: Watcher, rest: seq<Watcher>)
    ensures multiset([x] + ([y] + rest)) == multiset{x, y} + multiset(rest)
  {
    assert [x] + ([y] + rest) == [x, y] + rest;
  }

  /** The two orders that tell a rolled-back newest apart. */
  lemma ConflictingOrders(start: Echo, arrivals: seq<Watcher>, newest: Watcher, commit: Watcher)
    returns (hidden: seq<Watcher>, shown: seq<Watcher>)
    requires Unguarded(start) && Newest(arrivals, newest) && !Commits(newest.state)
    requires commit in arrivals && Commits(commit.state)
    ensures SameWatchers(hidden, arrivals) && SameWatchers(shown, arrivals)
    ensures ObserveAll(start, hidden).published == start.published
    ensures ObserveAll(start, shown).published == Some(commit.coreType)
  {
    var without := Removed(arrivals, newest);
    var rest := Removed(without, commit);
    hidden, shown := [newest] + ([commit] + rest), [commit] + ([newest] + rest);
    SplitOff(arrivals, newest);
    SplitOff(without, commit);
    SwapFront(newest, commit, rest);
    SwapFront(commit, newest, rest);
    assert multiset([newest] + without) == multiset{newest} + multiset(without);
    forall v | v in [commit] + rest ensures v in arrivals {
      assert v in multiset([commit] + rest) && v in multiset(without);
      assert v in multiset([newest] + without) && v in multiset(arrivals);
    }
    SeenFirstHides(start, newest, [commit] + rest);
    SeenSecondShows(start, newest, commit, rest);
  }

  /** Every commit that arrives is of the type already published. */
  ghost predicate CommitsChangeNothing(start: Echo, arrivals: seq<Watcher>) {
    forall v :: v in arrivals && Commits(v.state) ==> Some(v.coreType) == start.published
  }

  /**
   When the echo is independent of arrival order. Whatever was published before,
   among watchers of distinct runs with a newest one every order publishes the
   same echo if and only if the newest committed or every commit is of the type
   already published: a rolled-back newest, seen first, hides every commit, and
   seen last it hides none.
   */
  lemma OrderMattersOnlyAfterRollback(start: Echo, arrivals: seq<Watcher>, newest: Watcher)
    requires Unguarded(start) && Newest(arrivals, newest)
    ensures (forall a, b :: SameWatchers(a, arrivals) && SameWatchers(b, arrivals) ==>
        ObserveAll(start, a).published == ObserveAll(start, b).published)
      <==> Commits(newest.state) || CommitsChangeNothing(start, arrivals)
  {
    if Commits(newest.state) || CommitsChangeNothing(start, arrivals) {
      forall a, b | SameWatchers(a, arrivals) && SameWatchers(b, arrivals)
        ensures ObserveAll(start, a).published == ObserveAll(start, b).published
      {
        AgreeingOrder(start, arrivals, newest, a);
        AgreeingOrder(start, arrivals, newest, b);
      }
    } else {
      var commit :| commit in arrivals && Commits(commit.state) && Some(commit.coreType) != start.published;
      var hidden, shown := ConflictingOrders(start, arrivals, newest, commit);
    }
  }

  lemma AgreeingOrder(start: Echo, arrivals: seq<Watcher>, newest: Watcher, a: seq<Watcher>)
    requires Unguarded(start) && Newest(arrivals, newest) && SameWatchers(a, arrivals)
    requires Commits(newest.state) || CommitsChangeNothing(start, arrivals)
    ensures ObserveAll(start, a).published == if Commits(newest.state) then Some(newest.coreType) else start.published
  {
    assert forall v :: v in a <==> v in multiset(a);
    assert forall v :: v in arrivals <==> v in multiset(arrivals);
    if Commits(newest.state) {
      NewestCommitWins(start, a, newest);
    } else {
      EchoIsACommit(start, a);
    }
  }

  function Removed(arrivals: seq<Watcher>, w: Watcher): (r: seq<Watcher>) {
    if arrivals == [] then []
    else if arrivals[0] == w then arrivals[1..]
    else [arrivals[0]] + Removed(arrivals[1..], w)
  }

  lemma {:induction false} SplitOff(arrivals: seq<Watcher>, w: Watcher)
    requires w in arrivals
    ensures multiset([w] + Removed(arrivals, w)) == multiset(arrivals)
    ensures forall v :: v in arrivals && v != w ==> v in Removed(arrivals, w)
  {
    assert arrivals == [arrivals[0]] + arrivals[1..];
    if arrivals[0] != w {
      SplitOff(arrivals[1..], w);
    }
  }

  // ------------------------------------------------------------------ the guard

  /** The commit decision as the service takes it: one loop down the wrappers. */
  method EchoCommits(state: Terminal) returns (commits: bool)
    ensures commits == Commits(state)
  {
    if !state.Reconciled? {
      return false;
    }
    var effective := state.outcome;
    while effective.DurabilityUncertain?
      invariant Effective(effective) == Effective(state.outcome)
      decreases effective
    {
      effective := effective.outcome;
    }
    return !effective.RolledBack?;
  }

  /** The guarded echo, updated in place under its lock. */
  class EchoPublisher {
    var applied: Option<nat>
    var published: Option<string>
    var notices: nat

    function View(): (r: Echo)
      reads this
    {
      Echo(applied, published, notices)
    }

    constructor ()
      ensures View() == FRESH
    {
      applied, published, notices := None, None, 0;
    }

    /** Commits a type, or republishes the current one; subscribers are notified either way. */
    method PublishRequestedCore(committed: Option<string>)
      modifies this`published, this`notices
      ensures published == if committed.Some? then committed else old(published)
      ensures notices == old(notices) + 1
    {
      if committed.Some? {
        published := committed;
      }
      notices := notices + 1;
    }

    method WatchReconcile(w: Watcher)
      modifies this
      ensures View() == Observe(old(View()), w)
    {
      var commits := EchoCommits(w.state);
      if !commits && !w.state.Reconciled? {
        return;
      }
      if applied.Some? && applied.value >= w.sequence {
        return;
      }
      applied := Some(w.sequence);
      if commits {
        PublishRequestedCore(Some(w.coreType));
      } else {
        PublishRequestedCore(None);
      }
    }
  }
}
