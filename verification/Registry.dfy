/**
 The bounded most-recent-operations registry of the control plane: the
 idempotency table, its eviction rule, and admission with rollback.

 `Table` is the value the registry holds under its lock; the functions over it
 specify the `Registry` class at the end of the file, whose fields are updated
 in place.
 */
module OperationRegistry {
  import opened Wrappers

  datatype OperationId = OperationId(nanos: nat, pid: nat, counter: nat)

  datatype Command = Reconcile(payload: string) | Stop | Recover | Shutdown

  datatype ErrorKind = OperationConflict | QueueFull | Internal | ShuttingDown | Domain(name: string)

  datatype CoreError = CoreError(kind: ErrorKind, retryable: bool, operation: OperationId)

  datatype Output = Reconciled(outcome: string) | Stopped | Recovered | ShutDown

  datatype OperationState = Queued | Running | Succeeded(output: Output) | Failed(error: CoreError)

  predicate IsTerminal(state: OperationState) {
    state.Succeeded? || state.Failed?
  }

  datatype Entry = Entry(digest: string, sequence: nat, state: OperationState)

  datatype Table = Table(operations: map<OperationId, Entry>, order: seq<OperationId>, nextSequence: nat)

  /** What the non-blocking enqueue answered while the registry lock was held. */
  datatype SendAnswer = Sent | Full | Closed

  datatype Admission = Registered(sequence: nat) | Existing(sequence: nat)

  // ---------------------------------------------------------------- the table

  const EMPTY_TABLE := Table(map[], [], 0)

  predicate TerminalIn(operations: map<OperationId, Entry>, id: OperationId) {
    id in operations && IsTerminal(operations[id].state)
  }

  predicate LiveIn(operations: map<OperationId, Entry>, id: OperationId) {
    id in operations && !IsTerminal(operations[id].state)
  }

  /** Every listed id is registered, and registrations are listed by sequence. */
  ghost predicate Increasing(operations: map<OperationId, Entry>, ids: seq<OperationId>) {
    && (forall i :: 0 <= i < |ids| ==> ids[i] in operations)
    && (forall i, j :: 0 <= i < j < |ids| ==> operations[ids[i]].sequence < operations[ids[j]].sequence)
  }

  /** `order` lists exactly the registered ids, oldest registration first. */
  ghost predicate WellOrdered(t: Table) {
    && Increasing(t.operations, t.order)
    && |t.order| == |t.operations|
    && (forall id :: id in t.operations ==> t.operations[id].sequence < t.nextSequence)
  }

  function Elements(ids: seq<OperationId>): (r: set<OperationId>) {
    set id | id in ids
  }

  /** A list in increasing sequence order has as many distinct ids as positions. */
  lemma {:induction false} IncreasingIsDistinct(operations: map<OperationId, Entry>, ids: seq<OperationId>)
    requires Increasing(operations, ids)
    ensures |Elements(ids)| == |ids|
  {
    if |ids| > 0 {
      var front, last := ids[..|ids| - 1], ids[|ids| - 1];
      IncreasingIsDistinct(operations, front);
      assert Elements(ids) == Elements(front) + {last};
      assert last !in front;
    }
  }

  lemma SubsetOfSameSize(small: set<OperationId>, large: set<OperationId>)
    requires small <= large && |small| == |large|
    ensures small == large
  {
    assert |large - small| == |large| - |small|;
    assert large == small + (large - small);
  }

  lemma EveryOperationIsListed(t: Table, id: OperationId)
    requires WellOrdered(t) && id in t.operations
    ensures id in t.order
  {
    IncreasingIsDistinct(t.operations, t.order);
    SubsetOfSameSize(Elements(t.order), t.operations.Keys);
  }

  /** The first position at or after `from` whose operation is terminal. */
  function Position(operations: map<OperationId, Entry>, order: seq<OperationId>, from: nat): (p: Option<nat>)
    requires from <= |order|
    ensures p.Some? ==> from <= p.value < |order| && TerminalIn(operations, order[p.value])
    ensures p.Some? ==> forall i :: from <= i < p.value ==> !TerminalIn(operations, order[i])
    ensures p.None? ==> forall i :: from <= i < |order| ==> !TerminalIn(operations, order[i])
    decreases |order| - from
  {
    if from == |order| then None
    else if TerminalIn(operations, order[from]) then Some(from)
    else Position(operations, order, from + 1)
  }

  function Without(t: Table, p: nat): (r: Table)
    requires p < |t.order|
  {
    Table(t.operations - {t.order[p]}, t.order[..p] + t.order[p + 1..], t.nextSequence)
  }

  /** Drops the oldest terminal entry until the table is below capacity or holds live entries only. */
  function Evict(t: Table, capacity: nat): (r: Table)
    decreases |t.order|
  {
    if |t.operations| < capacity then t
    else
      match Position(t.operations, t.order, 0)
      case None => t
      case Some(p) => Evict(Without(t, p), capacity)
  }

  function Insert(t: Table, id: OperationId, digest: string): (r: Table) {
    Table(t.operations[id := Entry(digest, t.nextSequence, Queued)], t.order + [id], t.nextSequence + 1)
  }

  /** Undoes an insertion whose enqueue failed; the sequence stays consumed. */
  function RollBack(t: Table, id: OperationId): (r: Table)
    requires |t.order| > 0
  {
    Table(t.operations - {id}, t.order[..|t.order| - 1], t.nextSequence)
  }

  function Admit(t: Table, capacity: nat, id: OperationId, digest: string, answer: SendAnswer)
    : (r: (Table, Result<Admission, CoreError>))
  {
    if id in t.operations then
      (t,
       if t.operations[id].digest == digest then Ok(Existing(t.operations[id].sequence))
       else Err(CoreError(OperationConflict, false, id)))
    else
      var evicted := Evict(t, capacity);
      var inserted := Insert(evicted, id, digest);
      match answer
      case Sent => (inserted, Ok(Registered(evicted.nextSequence)))
      case Full => (RollBack(inserted, id), Err(CoreError(QueueFull, true, id)))
      case Closed => (RollBack(inserted, id), Err(CoreError(Internal, false, id)))
  }

  function SetState(t: Table, id: OperationId, state: OperationState): (r: Table) {
    if id in t.operations then t.(operations := t.operations[id := t.operations[id].(state := state)]) else t
  }

  // ----------------------------------------------------------------- eviction

  lemma WithoutKeepsOrder(t: Table, p: nat)
    requires WellOrdered(t) && p < |t.order|
    ensures WellOrdered(Without(t, p))
    ensures |Without(t, p).operations| == |t.operations| - 1
  {
    var w, victim := Without(t, p), t.order[p];
    assert forall i :: 0 <= i < |w.order| ==> w.order[i] == t.order[if i < p then i else i + 1];
    assert w.operations.Keys == t.operations.Keys - {victim};
  }

  /** What eviction to `capacity` promises about the table `e` it makes of `t`. */
  ghost predicate OldestTerminalEvicted(t: Table, e: Table, capacity: nat) {
    && WellOrdered(e) && e.nextSequence == t.nextSequence
    && (forall id :: id in e.operations ==> id in t.operations && e.operations[id] == t.operations[id])
    && (forall id :: LiveIn(t.operations, id) ==> id in e.operations)
    && (forall gone, kept :: gone in t.operations && gone !in e.operations && TerminalIn(e.operations, kept)
          ==> t.operations[gone].sequence < t.operations[kept].sequence)
    && (|e.operations| < capacity || forall id :: id in e.operations ==> LiveIn(e.operations, id))
    && (|t.operations| < capacity ==> e == t)
    && (|t.operations| <= capacity ==> |t.operations| - |e.operations| <= 1)
  }

  lemma VictimIsOldestTerminal(t: Table, p: nat, kept: OperationId)
    requires WellOrdered(t) && Position(t.operations, t.order, 0) == Some(p)
    requires TerminalIn(t.operations, kept) && kept != t.order[p]
    ensures t.operations[t.order[p]].sequence < t.operations[kept].sequence
  {
    EveryOperationIsListed(t, kept);
    var k :| 0 <= k < |t.order| && t.order[k] == kept;
    assert p < k;
  }

  lemma EvictOneMore(t: Table, p: nat, e: Table, capacity: nat)
    requires WellOrdered(t) && Position(t.operations, t.order, 0) == Some(p)
    requires |t.operations| >= capacity && |Without(t, p).operations| == |t.operations| - 1
    requires OldestTerminalEvicted(Without(t, p), e, capacity)
    ensures OldestTerminalEvicted(t, e, capacity)
  {
    var w, victim := Without(t, p), t.order[p];
    forall gone, kept | gone in t.operations && gone !in e.operations && TerminalIn(e.operations, kept)
      ensures t.operations[gone].sequence < t.operations[kept].sequence
    {
      assert kept in w.operations;
      if gone == victim {
        VictimIsOldestTerminal(t, p, kept);
      } else {
        assert gone in w.operations;
      }
    }
  }

  /**
   Eviction never touches a live entry and never reorders: what it removes is
   terminal and older than every terminal entry it keeps, and it stops only
   below capacity or with live entries alone.
   */
  lemma {:induction false} EvictOldestTerminal(t: Table, capacity: nat)
    requires WellOrdered(t)
    ensures OldestTerminalEvicted(t, Evict(t, capacity), capacity)
    decreases |t.order|
  {
    if |t.operations| >= capacity {
      match Position(t.operations, t.order, 0)
      case None =>
        forall id | id in t.operations ensures LiveIn(t.operations, id) {
          EveryOperationIsListed(t, id);
        }
      case Some(p) =>
        WithoutKeepsOrder(t, p);
        EvictOldestTerminal(Without(t, p), capacity);
        EvictOneMore(t, p, Evict(t, capacity), capacity);
    }
  }

  lemma InsertKeepsOrder(t: Table, id: OperationId, digest: string)
    requires WellOrdered(t) && id !in t.operations
    ensures WellOrdered(Insert(t, id, digest))
    ensures RollBack(Insert(t, id, digest), id) == t.(nextSequence := t.nextSequence + 1)
  {
    var n := Insert(t, id, digest);
    assert n.operations - {id} == t.operations;
  }

  /**
   Admission, case by case. A known id leaves the table alone; a new one that
   was queued is appended under a fresh sequence; a refused one leaves exactly
   the evicted table, with its sequence number spent.
   */
  lemma AdmitCases(t: Table, capacity: nat, id: OperationId, digest: string, answer: SendAnswer)
    requires WellOrdered(t)
    ensures var (after, result) := Admit(t, capacity, id, digest, answer);
      var e := Evict(t, capacity);
      && WellOrdered(after) && after.nextSequence >= t.nextSequence
      && (id in t.operations ==> after == t)
      && (id in t.operations && t.operations[id].digest == digest ==> result == Ok(Existing(t.operations[id].sequence)))
      && (id !in t.operations && answer == Sent ==>
            && result == Ok(Registered(t.nextSequence))
            && after == Insert(e, id, digest))
      && (id !in t.operations && answer != Sent ==>
            && after == e.(nextSequence := t.nextSequence + 1)
            && result == Err(if answer == Full then CoreError(QueueFull, true, id) else CoreError(Internal, false, id)))
  {
    EvictOldestTerminal(t, capacity);
    if id !in t.operations {
      InsertKeepsOrder(Evict(t, capacity), id, digest);
    }
  }

  // ---------------------------------------------------------------- the class

  /** The registry itself: the fields under the lock, updated in place. */
  class Registry {
    const capacity: nat
    var operations: map<OperationId, Entry>
    var order: seq<OperationId>
    var nextSequence: nat

    function View(): (r: Table)
      reads this
    {
      Table(operations, order, nextSequence)
    }

    constructor (capacity: nat)
      ensures this.capacity == capacity && View() == EMPTY_TABLE
    {
      this.capacity := capacity;
      operations, order, nextSequence := map[], [], 0;
    }

    method FindTerminal() returns (position: Option<nat>)
      ensures position == Position(operations, order, 0)
    {
      var i := 0;
      while i < |order|
        invariant 0 <= i <= |order|
        invariant Position(operations, order, 0) == Position(operations, order, i)
      {
        if TerminalIn(operations, order[i]) {
          return Some(i);
        }
        i := i + 1;
      }
      return None;
    }

    /** Drops the oldest terminal entries until there is room or none is left. */
    method EvictTerminal()
      modifies this`operations, this`order
      ensures View() == Evict(old(View()), capacity)
    {
      while |operations| >= capacity
        invariant Evict(old(View()), capacity) == Evict(View(), capacity)
        decreases |order|
      {
        var position := FindTerminal();
        if position.None? {
          return;
        }
        var evicted := order[position.value];
        order := order[..position.value] + order[position.value + 1..];
        operations := operations - {evicted};
      }
    }

    /** Registration and enqueue in one critical section; `answer` is what the enqueue says if it is reached. */
    method AdmitOperation(id: OperationId, digest: string, answer: SendAnswer)
      returns (admission: Result<Admission, CoreError>)
      modifies this
      ensures (View(), admission) == Admit(old(View()), capacity, id, digest, answer)
    {
      if id in operations {
        if operations[id].digest == digest {
          return Ok(Existing(operations[id].sequence));
        }
        return Err(CoreError(OperationConflict, false, id));
      }
      EvictTerminal();
      var sequence := nextSequence;
      nextSequence := nextSequence + 1;
      operations := operations[id := Entry(digest, sequence, Queued)];
      order := order + [id];
      if answer != Sent {
        operations := operations - {id};
        order := order[..|order| - 1];
        return Err(if answer == Full then CoreError(QueueFull, true, id) else CoreError(Internal, false, id));
      }
      return Ok(Registered(sequence));
    }

    method Set(id: OperationId, state: OperationState)
      modifies this
      ensures View() == SetState(old(View()), id, state)
    {
      if id in operations {
        operations := operations[id := operations[id].(state := state)];
      }
    }
  }
}
