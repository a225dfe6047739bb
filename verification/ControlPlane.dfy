/**
 The control plane as a step system: concurrent submitters, `shutdown()`
 callers and one executor task over a bounded queue, the operation registry and
 the closing latch.

 Callers are anonymous, so the ones between two of their own atomic steps are
 counted rather than named. `started` is history: what began executing, in order.
 */
module ControlPlane {
  import opened Wrappers
  import opened OperationRegistry

  const USIZE_MAX: nat := 0xFFFF_FFFF_FFFF_FFFF

  datatype Config = Config(queueCapacity: nat, registryCapacity: nat) {
    /** The bounds the queue itself imposes: it refuses zero and more than an eighth of the word range. */
    predicate Valid() {
      1 <= queueCapacity <= USIZE_MAX / 8 && registryCapacity <= USIZE_MAX
    }

    function LiveRegistryCapacity(): (r: nat) {
      var raised := if queueCapacity == USIZE_MAX then USIZE_MAX else queueCapacity + 1;
      if registryCapacity >= raised then registryCapacity else raised
    }
  }

  datatype Work = Work(id: OperationId, command: Command)

  datatype Envelope = Envelope(work: Work, digest: string)

  datatype Exit = Clean | Died

  datatype Phase =
    | Receiving
    | InHand(work: Work, latchedAtDequeue: bool)
    | Refusing(work: Work)
    | Starting(work: Work, latchedAtDequeue: bool)
    | Executing(work: Work)
    | Unwinding                                        // panicked: recorded, latch not stored yet
    | Closing(exit: Exit)                              // loop left, queue not closed yet
    | Draining(exit: Exit, hand: Option<Work>)
    | Exited(exit: Exit)

  datatype Start = Start(id: OperationId, sequence: nat, command: Command, latchedAtDequeue: bool)

  datatype State = State(
    table: Table,
    queue: seq<Work>,
    closed: bool,
    permits: nat,                    // reserved by shutdown() callers, not used yet
    checked: multiset<Envelope>,     // submits that passed the latch check, not admitted yet
    latching: nat,                   // submits that queued a Shutdown, latch not stored yet
    reserving: nat,                  // shutdown() callers waiting for a permit
    handlesGone: bool,
    closing: bool,
    phase: Phase,
    started: seq<Start>)

  const INITIAL := State(EMPTY_TABLE, [], false, 0, multiset{}, 0, 0, false, false, Receiving, [])

  datatype Step =
    | CheckLatch(envelope: Envelope)
    | AdmitSubmit(envelope: Envelope)
    | StoreLatch
    | BeginShutdown
    | AbandonShutdown
    | Reserve
    | ReserveRefused
    | AdmitPermit(id: OperationId, digest: string)
    | DropHandles
    | Dequeue
    | ChannelOver
    | Decide
    | Refuse
    | SetRunning
    | Finish(success: bool, output: Output, error: CoreError)
    | Panic
    | LatchAfterPanic
    | CloseQueue
    | DrainDequeue
    | DrainSet
    | Exit

  // -------------------------------------------------------------------- steps

  function TrySend(c: Config, s: State): (r: SendAnswer) {
    if s.closed then Closed
    else if |s.queue| + s.permits >= c.queueCapacity then Full
    else Sent
  }

  function DrainOutcome(exit: Exit, work: Work): (r: OperationState) {
    if exit == Died then Failed(CoreError(Internal, false, work.id))
    else if work.command.Shutdown? then Succeeded(ShutDown)
    else Failed(CoreError(ShuttingDown, false, work.id))
  }

  predicate Enabled(c: Config, s: State, step: Step) {
    match step
    case CheckLatch(_) => !s.closing && !s.handlesGone
    case AdmitSubmit(e) => e in s.checked
    case StoreLatch => s.latching > 0
    case BeginShutdown => !s.handlesGone
    case AbandonShutdown => s.reserving > 0
    case Reserve => s.reserving > 0 && !s.closed && |s.queue| + s.permits < c.queueCapacity
    case ReserveRefused => s.reserving > 0 && s.closed
    case AdmitPermit(_, _) => s.permits > 0
    case DropHandles => s.checked == multiset{} && s.latching == 0 && s.reserving == 0 && s.permits == 0
    case Dequeue => s.phase.Receiving? && |s.queue| > 0
    case ChannelOver => s.phase.Receiving? && s.queue == [] && s.handlesGone
    case Decide => s.phase.InHand?
    case Refuse => s.phase.Refusing?
    case SetRunning => s.phase.Starting?
    case Finish(_, _, _) => s.phase.Executing?
    case Panic => s.phase.Executing?
    case LatchAfterPanic => s.phase.Unwinding?
    case CloseQueue => s.phase.Closing?
    case DrainDequeue => s.phase.Draining? && s.phase.hand.None? && |s.queue| > 0
    case DrainSet => s.phase.Draining? && s.phase.hand.Some?
    case Exit => s.phase.Draining? && s.phase.hand.None? && s.queue == [] && s.permits == 0
  }

  /** Admission of `work` while the registry lock is held: the queue grows exactly when the entry is new and sent. */
  function AdmitWork(c: Config, s: State, work: Work, digest: string, answer: SendAnswer): (r: State) {
    var (table, result) := Admit(s.table, c.LiveRegistryCapacity(), work.id, digest, answer);
    s.(table := table, queue := if result.Ok? && result.value.Registered? then s.queue + [work] else s.queue)
  }

  function Apply(c: Config, s: State, step: Step): (r: State)
    requires Enabled(c, s, step)
  {
    match step
    case CheckLatch(e) => s.(checked := s.checked + multiset{e})
    case AdmitSubmit(e) =>
      var after := AdmitWork(c, s, e.work, e.digest, TrySend(c, s));
      after.(
        checked := s.checked - multiset{e},
        latching := if e.work.command.Shutdown? && after.queue != s.queue then s.latching + 1 else s.latching)
    case StoreLatch => s.(closing := true, latching := s.latching - 1)
    case BeginShutdown => s.(closing := true, reserving := s.reserving + 1)
    case AbandonShutdown => s.(reserving := s.reserving - 1)
    case Reserve => s.(reserving := s.reserving - 1, permits := s.permits + 1)
    case ReserveRefused => s.(reserving := s.reserving - 1)
    case AdmitPermit(id, digest) =>
      AdmitWork(c, s, Work(id, Shutdown), digest, Sent).(permits := s.permits - 1)
    case DropHandles => s.(handlesGone := true)
    case Dequeue => s.(phase := InHand(s.queue[0], s.closing), queue := s.queue[1..])
    case ChannelOver => s.(phase := Closing(Clean))
    case Decide =>
      var w := s.phase.work;
      s.(phase := if !w.command.Shutdown? && s.closing then Refusing(w) else Starting(w, s.phase.latchedAtDequeue))
    case Refuse =>
      var id := s.phase.work.id;
      s.(table := SetState(s.table, id, Failed(CoreError(ShuttingDown, false, id))), phase := Receiving)
    case SetRunning =>
      var w := s.phase.work;
      var sequence := if w.id in s.table.operations then s.table.operations[w.id].sequence else 0;
      s.(table := SetState(s.table, w.id, Running), phase := Executing(w),
         started := s.started + [Start(w.id, sequence, w.command, s.phase.latchedAtDequeue)])
    case Finish(success, output, error) =>
      var w := s.phase.work;
      s.(table := SetState(s.table, w.id, if success then Succeeded(output) else Failed(error)),
         phase := if w.command.Shutdown? then Closing(Clean) else Receiving)
    case Panic =>
      var id := s.phase.work.id;
      s.(table := SetState(s.table, id, Failed(CoreError(Internal, false, id))), phase := Unwinding)
    case LatchAfterPanic => s.(closing := true, phase := Closing(Died))
    case CloseQueue => s.(closed := true, phase := Draining(s.phase.exit, None))
    case DrainDequeue => s.(phase := Draining(s.phase.exit, Some(s.queue[0])), queue := s.queue[1..])
    case DrainSet =>
      var w := s.phase.hand.value;
      s.(table := SetState(s.table, w.id, DrainOutcome(s.phase.exit, w)), phase := Draining(s.phase.exit, None))
    case Exit => s.(phase := Exited(s.phase.exit))
  }

  // --------------------------------------------------------------------- runs

  /** Whether `steps` can be taken one after the other from `s`. */
  predicate Run(c: Config, s: State, steps: seq<Step>)
    decreases |steps|
  {
    steps == [] || (Enabled(c, s, steps[0]) && Run(c, Apply(c, s, steps[0]), steps[1..]))
  }

  function After(c: Config, s: State, steps: seq<Step>): (r: State)
    requires Run(c, s, steps)
    decreases |steps|
  {
    if steps == [] then s else After(c, Apply(c, s, steps[0]), steps[1..])
  }

  // ---------------------------------------------------------------- invariant

  function Hand(phase: Phase): (r: seq<OperationId>) {
    match phase
    case InHand(w, _) => [w.id]
    case Refusing(w) => [w.id]
    case Starting(w, _) => [w.id]
    case Executing(w) => [w.id]
    case Draining(_, Some(w)) => [w.id]
    case _ => []
  }

  function Ids(queue: seq<Work>): (ids: seq<OperationId>)
    ensures |ids| == |queue| && forall i :: 0 <= i < |queue| ==> ids[i] == queue[i].id
  {
    seq(|queue|, i requires 0 <= i < |queue| => queue[i].id)
  }

  /** The operation in hand, if any, and then the queue. */
  function Pipeline(s: State): (r: seq<OperationId>) {
    Hand(s.phase) + Ids(s.queue)
  }

  /** The live entries are exactly the pipeline, in registration order; only its head may be running. */
  ghost predicate TiedTo(operations: map<OperationId, Entry>, pipeline: seq<OperationId>, running: bool) {
    && Increasing(operations, pipeline)
    && (forall i :: 0 <= i < |pipeline| ==>
          operations[pipeline[i]].state == if i == 0 && running then Running else Queued)
    && (forall id :: LiveIn(operations, id) ==> id in pipeline)
  }

  ghost predicate Tied(s: State) {
    WellOrdered(s.table) && TiedTo(s.table.operations, Pipeline(s), s.phase.Executing?)
  }

  predicate Bounded(c: Config, s: State) {
    && |s.queue| + s.permits <= c.queueCapacity
    && |s.table.operations| <= c.LiveRegistryCapacity()
  }

  /** Operations waiting to run have larger sequences than any that ran, and runs are in sequence order. */
  ghost predicate RunOrder(s: State) {
    && (forall i, j :: 0 <= i < j < |s.started| ==> s.started[i].sequence < s.started[j].sequence)
    && (forall i :: 0 <= i < |s.started| ==> s.started[i].sequence < s.table.nextSequence)
    && (s.phase.Executing? ==>
          && |s.started| > 0 && s.phase.work.id in s.table.operations
          && var last := s.started[|s.started| - 1];
             last.id == s.phase.work.id && last.command == s.phase.work.command
             && last.sequence == s.table.operations[last.id].sequence)
    && (!s.phase.Executing? ==> forall i, id :: 0 <= i < |s.started| && LiveIn(s.table.operations, id) ==>
          s.started[i].sequence < s.table.operations[id].sequence)
  }

  predicate Over(phase: Phase) {
    phase.Unwinding? || phase.Closing? || phase.Draining? || phase.Exited?
  }

  ghost predicate LatchOrder(s: State) {
    && (s.closed <==> s.phase.Draining? || s.phase.Exited?)
    && (s.phase.Exited? ==> s.queue == [] && s.permits == 0)
    && (s.handlesGone ==> s.checked == multiset{} && s.latching == 0 && s.reserving == 0 && s.permits == 0)
    && (s.phase.InHand? && s.phase.latchedAtDequeue ==> s.closing)
    && (s.phase.Starting? && s.phase.latchedAtDequeue ==> s.phase.work.command.Shutdown?)
    && (forall i :: 0 <= i < |s.started| && s.started[i].latchedAtDequeue ==> s.started[i].command.Shutdown?)
    && (forall i :: 0 <= i < |s.started| && s.started[i].command.Shutdown? ==> i == |s.started| - 1)
    && (|s.started| > 0 && s.started[|s.started| - 1].command.Shutdown? ==>
          Over(s.phase) || (s.phase.Executing? && s.phase.work.command.Shutdown?))
    && ((s.phase.Closing? || s.phase.Draining? || s.phase.Exited?) && s.phase.exit == Clean ==>
          || (|s.started| > 0 && s.started[|s.started| - 1].command.Shutdown?)
          || (s.handlesGone && s.queue == [] && Hand(s.phase) == []))
    && ((s.phase.Closing? || s.phase.Draining? || s.phase.Exited?) && s.phase.exit == Died ==> s.closing)
  }

  ghost predicate Inv(c: Config, s: State) {
    c.Valid() && Tied(s) && Bounded(c, s) && RunOrder(s) && LatchOrder(s)
  }

  // --------------------------------------------------------- what steps touch

  predicate ByCaller(step: Step) {
    || step.CheckLatch? || step.AdmitSubmit? || step.StoreLatch? || step.BeginShutdown? || step.AbandonShutdown?
    || step.Reserve? || step.ReserveRefused? || step.AdmitPermit? || step.DropHandles?
  }

  predicate Admits(step: Step) {
    step.AdmitSubmit? || step.AdmitPermit?
  }

  predicate Takes(step: Step) {
    step.Dequeue? || step.DrainDequeue?
  }

  predicate Concludes(step: Step) {
    step.Refuse? || step.Finish? || step.Panic? || step.DrainSet?
  }

  predicate Records(step: Step) {
    step.SetRunning? || Concludes(step)
  }

  /** Every step that is neither an admission nor a record moves work at most from the queue into the hand. */
  predicate Moves(step: Step) {
    !Admits(step) && !Records(step)
  }

  lemma AdmissionTouches(c: Config, s: State, work: Work, digest: string, answer: SendAnswer)
    ensures var s' := AdmitWork(c, s, work, digest, answer);
      && s' == s.(table := s'.table, queue := s'.queue)
      && (s'.queue == s.queue || s'.queue == s.queue + [work])
  {
  }

  /** Callers never move the executor or its history; they may latch, queue, and use permits. */
  lemma CallerSteps(c: Config, s: State, step: Step)
    requires Enabled(c, s, step) && ByCaller(step)
    ensures var s' := Apply(c, s, step);
      && s'.phase == s.phase && s'.started == s.started && s'.closed == s.closed && (s.closing ==> s'.closing)
      && (s'.queue == s.queue || |s'.queue| == |s.queue| + 1)
      && (!Admits(step) ==> s'.queue == s.queue && s'.table == s.table)
      && (s'.permits <= s.permits || |s.queue| + s'.permits <= c.queueCapacity)
      && (step.AdmitPermit? ==> s'.permits == s.permits - 1)
  {
    if step.AdmitSubmit? {
      AdmissionTouches(c, s, step.envelope.work, step.envelope.digest, TrySend(c, s));
    } else if step.AdmitPermit? {
      AdmissionTouches(c, s, Work(step.id, Shutdown), step.digest, Sent);
    }
  }

  /** The executor takes from the queue, records for the operation in hand, and starts; it uses no permit. */
  lemma ExecutorSteps(c: Config, s: State, step: Step)
    requires Enabled(c, s, step) && !ByCaller(step)
    ensures var s' := Apply(c, s, step);
      && s'.permits == s.permits && (s.closing ==> s'.closing)
      && (if Takes(step) then |s.queue| > 0 && s'.queue == s.queue[1..] else s'.queue == s.queue)
      && (!Records(step) ==> s'.table == s.table)
      && (Moves(step) && !Takes(step) ==> Hand(s'.phase) == Hand(s.phase))
      && (if step.SetRunning? then s.started <= s'.started else s'.started == s.started)
  {
  }

  /** Only `SetRunning` makes the executor execute, only a concluding step ends that, and what is over stays over. */
  lemma ExecutorPhases(c: Config, s: State, step: Step)
    requires Enabled(c, s, step) && !ByCaller(step)
    ensures var s' := Apply(c, s, step);
      && (Over(s.phase) ==> Over(s'.phase))
      && (s.phase.Executing? ==> Concludes(step))
      && (s'.phase.Executing? <==> step.SetRunning?)
  {
  }

  lemma StepTouches(c: Config, s: State, step: Step)
    requires Enabled(c, s, step)
    ensures var s' := Apply(c, s, step);
      && (s.closing ==> s'.closing) && (Over(s.phase) ==> Over(s'.phase))
      && (if step.SetRunning? then s.started <= s'.started else s'.started == s.started)
      && (Moves(step) ==> s'.table == s.table && |s'.queue| <= |s.queue|)
      && (Moves(step) ==> s'.permits <= s.permits || |s.queue| + s'.permits <= c.queueCapacity)
      && (Moves(step) && !Takes(step) ==> Hand(s'.phase) == Hand(s.phase) && s'.queue == s.queue)
      && (s.phase.Executing? && !Concludes(step) ==> s'.phase == s.phase)
      && (!s.phase.Executing? && !step.SetRunning? ==> !s'.phase.Executing?)
  {
    if ByCaller(step) {
      CallerSteps(c, s, step);
    } else {
      ExecutorSteps(c, s, step);
      ExecutorPhases(c, s, step);
    }
  }

  // ------------------------------------------------- preservation, step by step

  lemma PipelineFits(operations: map<OperationId, Entry>, ids: seq<OperationId>)
    requires Increasing(operations, ids)
    requires forall id :: id in operations ==> id in ids
    ensures |operations| <= |ids|
  {
    IncreasingIsDistinct(operations, ids);
    assert operations.Keys == Elements(ids);
  }

  lemma DequeueKeepsPipeline(hand: Work, queue: seq<Work>)
    requires |queue| > 0 && hand == queue[0]
    ensures [hand.id] + Ids(queue[1..]) == Ids(queue)
  {
  }

  lemma SetStateKeepsOrder(t: Table, id: OperationId, state: OperationState)
    requires WellOrdered(t)
    ensures WellOrdered(SetState(t, id, state))
    ensures SetState(t, id, state).operations.Keys == t.operations.Keys
    ensures |SetState(t, id, state).operations| == |t.operations|
  {
    assert SetState(t, id, state).operations.Keys == t.operations.Keys;
  }

  /** Recording a terminal state for the operation in hand takes exactly it out of the pipeline. */
  lemma TerminalLeavesPipeline(operations: map<OperationId, Entry>, pipeline: seq<OperationId>, running: bool,
      state: OperationState)
    requires TiedTo(operations, pipeline, running) && |pipeline| > 0 && IsTerminal(state)
    ensures TiedTo(operations[pipeline[0] := operations[pipeline[0]].(state := state)], pipeline[1..], false)
  {
    var head, rest := pipeline[0], pipeline[1..];
    var operations' := operations[head := operations[head].(state := state)];
    assert forall i :: 0 <= i < |rest| ==> rest[i] == pipeline[i + 1] && rest[i] != head;
    forall id | LiveIn(operations', id) ensures id in rest {
      assert LiveIn(operations, id);
      var k :| 0 <= k < |pipeline| && pipeline[k] == id;
      assert rest[k - 1] == id;
    }
  }

  lemma RunningStaysAtHead(operations: map<OperationId, Entry>, pipeline: seq<OperationId>)
    requires TiedTo(operations, pipeline, false) && |pipeline| > 0
    ensures TiedTo(operations[pipeline[0] := operations[pipeline[0]].(state := Running)], pipeline, true)
  {
    assert forall i :: 0 < i < |pipeline| ==> pipeline[i] != pipeline[0];
  }

  /** Removing entries that are not live keeps the pipeline tied. */
  lemma EvictionKeepsPipeline(t: Table, e: Table, capacity: nat, pipeline: seq<OperationId>, running: bool)
    requires TiedTo(t.operations, pipeline, running) && OldestTerminalEvicted(t, e, capacity)
    ensures TiedTo(e.operations, pipeline, running)
  {
    forall i | 0 <= i < |pipeline|
      ensures pipeline[i] in e.operations && e.operations[pipeline[i]] == t.operations[pipeline[i]]
    {
      assert LiveIn(t.operations, pipeline[i]);
    }
  }

  lemma InsertionExtendsPipeline(t: Table, pipeline: seq<OperationId>, running: bool, id: OperationId, digest: string)
    requires WellOrdered(t) && TiedTo(t.operations, pipeline, running) && id !in t.operations
    requires running ==> |pipeline| > 0
    ensures TiedTo(Insert(t, id, digest).operations, pipeline + [id], running)
  {
    var operations', pipeline' := Insert(t, id, digest).operations, pipeline + [id];
    assert pipeline'[|pipeline|] == id;
    forall other | LiveIn(operations', other) ensures other in pipeline' {
      if other != id {
        assert LiveIn(t.operations, other);
      }
    }
  }

  /** A table at its bound after eviction holds live entries only, and then the pipeline is as long as the table. */
  lemma FullTableIsAllLive(t: Table, e: Table, capacity: nat, pipeline: seq<OperationId>, running: bool)
    requires TiedTo(t.operations, pipeline, running) && OldestTerminalEvicted(t, e, capacity)
    ensures |e.operations| < capacity || |e.operations| <= |pipeline|
  {
    if |e.operations| >= capacity {
      EvictionKeepsPipeline(t, e, capacity, pipeline, running);
      forall id | id in e.operations ensures id in pipeline {
        assert LiveIn(e.operations, id);
      }
      PipelineFits(e.operations, pipeline);
    }
  }

  lemma AcceptedEntryFits(t: Table, capacity: nat, pipeline: seq<OperationId>, running: bool,
      id: OperationId, digest: string)
    requires WellOrdered(t) && TiedTo(t.operations, pipeline, running) && id !in t.operations
    requires |pipeline| < capacity && (running ==> |pipeline| > 0)
    ensures var after := Insert(Evict(t, capacity), id, digest);
      WellOrdered(after) && TiedTo(after.operations, pipeline + [id], running) && |after.operations| <= capacity
  {
    var e := Evict(t, capacity);
    assert OldestTerminalEvicted(t, e, capacity) by { EvictOldestTerminal(t, capacity); }
    assert TiedTo(e.operations, pipeline, running) by { EvictionKeepsPipeline(t, e, capacity, pipeline, running); }
    assert |e.operations| < capacity by { FullTableIsAllLive(t, e, capacity, pipeline, running); }
    InsertionExtendsPipeline(e, pipeline, running, id, digest);
    InsertKeepsOrder(e, id, digest);
  }

  lemma RefusedEntryFits(t: Table, capacity: nat, pipeline: seq<OperationId>, running: bool)
    requires WellOrdered(t) && TiedTo(t.operations, pipeline, running) && |t.operations| <= capacity
    ensures var e := Evict(t, capacity);
      && WellOrdered(e.(nextSequence := t.nextSequence + 1))
      && TiedTo(e.operations, pipeline, running) && |e.operations| <= capacity
  {
    var e := Evict(t, capacity);
    assert OldestTerminalEvicted(t, e, capacity) by { EvictOldestTerminal(t, capacity); }
    EvictionKeepsPipeline(t, e, capacity, pipeline, running);
    assert e.operations.Keys <= t.operations.Keys;
    SubsetIsNoLarger(e.operations.Keys, t.operations.Keys);
  }

  lemma SubsetIsNoLarger<T>(small: set<T>, large: set<T>)
    requires small <= large
    ensures |small| <= |large|
  {
    assert |large - small| == |large| - |small|;
  }

  /**
   Admission keeps everything tied and bounded. When the registry is full of
   live entries the pipeline alone fills it, so the queue has no room and the
   enqueue fails: that is why the table never outgrows its bound.
   */
  lemma AdmitKeeps(c: Config, s: State, work: Work, digest: string, answer: SendAnswer)
    requires c.Valid() && Tied(s)
    requires |s.table.operations| <= c.LiveRegistryCapacity()
    requires answer == Sent ==> |s.queue| < c.queueCapacity
    ensures Tied(AdmitWork(c, s, work, digest, answer))
    ensures |AdmitWork(c, s, work, digest, answer).table.operations| <= c.LiveRegistryCapacity()
  {
    var s' := AdmitWork(c, s, work, digest, answer);
    var capacity, running := c.LiveRegistryCapacity(), s.phase.Executing?;
    var evicted, pipeline := Evict(s.table, capacity), Pipeline(s);
    if work.id in s.table.operations {
      assert Pipeline(s') == pipeline;
    } else if answer == Sent {
      AcceptedEntryFits(s.table, capacity, pipeline, running, work.id, digest);
      assert Pipeline(s') == pipeline + [work.id];
      assert s'.table == Insert(evicted, work.id, digest);
    } else {
      RefusedEntryFits(s.table, capacity, pipeline, running);
      AdmitCases(s.table, capacity, work.id, digest, answer);
      assert Pipeline(s') == pipeline;
    }
  }

  /**
   How one table may follow another: an entry keeps its digest and sequence and
   a terminal state for as long as it lives, and an id found again after an
   eviction carries a sequence never given out before.
   */
  ghost predicate Evolves(t: Table, t': Table) {
    && t.nextSequence <= t'.nextSequence
    && forall id :: id in t'.operations ==>
         var e' := t'.operations[id];
         || (id in t.operations
             && var e := t.operations[id];
                e'.digest == e.digest && e'.sequence == e.sequence && (IsTerminal(e.state) ==> e'.state == e.state))
         || e'.sequence >= t.nextSequence
  }

  /** A live entry is never evicted and never loses its identity. */
  ghost predicate KeepsLive(t: Table, t': Table) {
    forall id :: LiveIn(t.operations, id) ==>
      && id in t'.operations
      && t'.operations[id].digest == t.operations[id].digest
      && t'.operations[id].sequence == t.operations[id].sequence
  }

  lemma EvolvesTransitive(a: Table, b: Table, c: Table)
    requires Evolves(a, b) && Evolves(b, c)
    ensures Evolves(a, c)
  {
  }

  lemma AdmitEvolves(t: Table, capacity: nat, id: OperationId, digest: string, answer: SendAnswer)
    requires WellOrdered(t)
    ensures Evolves(t, Admit(t, capacity, id, digest, answer).0)
    ensures KeepsLive(t, Admit(t, capacity, id, digest, answer).0)
  {
    AdmitCases(t, capacity, id, digest, answer);
    EvictOldestTerminal(t, capacity);
  }

  /** Recording a state for a live operation changes that entry's state and nothing else. */
  lemma RecordEvolves(t: Table, id: OperationId, state: OperationState)
    requires LiveIn(t.operations, id)
    ensures Evolves(t, SetState(t, id, state)) && KeepsLive(t, SetState(t, id, state))
  {
  }

  lemma StepEvolves(c: Config, s: State, step: Step)
    requires Tied(s) && Enabled(c, s, step)
    ensures Evolves(s.table, Apply(c, s, step).table)
    ensures KeepsLive(s.table, Apply(c, s, step).table)
  {
    if step.AdmitSubmit? {
      var e := step.envelope;
      AdmitEvolves(s.table, c.LiveRegistryCapacity(), e.work.id, e.digest, TrySend(c, s));
    } else if step.AdmitPermit? {
      AdmitEvolves(s.table, c.LiveRegistryCapacity(), step.id, step.digest, Sent);
    } else if step.SetRunning? {
      HandIsLive(s, s.phase.work.id);
      RecordEvolves(s.table, s.phase.work.id, Running);
    } else if Concludes(step) {
      ConcludeRecords(c, s, step);
      HandIsLive(s, Hand(s.phase)[0]);
      RecordEvolves(s.table, Hand(s.phase)[0], Conclusion(s, step));
    } else {
      StepTouches(c, s, step);
    }
  }

  lemma HandIsLive(s: State, id: OperationId)
    requires Tied(s) && Hand(s.phase) == [id]
    ensures LiveIn(s.table.operations, id)
  {
    assert Pipeline(s)[0] == id;
  }

  lemma TakenIsInHand(s: State, t: State)
    requires |s.queue| > 0 && Hand(s.phase) == [] && Hand(t.phase) == [s.queue[0].id] && t.queue == s.queue[1..]
    ensures Pipeline(t) == Pipeline(s)
  {
    DequeueKeepsPipeline(s.queue[0], s.queue);
    assert [] + Ids(s.queue) == Ids(s.queue);
  }

  lemma TakingHands(c: Config, s: State, step: Step)
    requires Enabled(c, s, step) && Takes(step)
    ensures var t := Apply(c, s, step);
      |s.queue| > 0 && Hand(s.phase) == [] && Hand(t.phase) == [s.queue[0].id] && t.queue == s.queue[1..]
  {
  }

  lemma TakingKeepsPipeline(c: Config, s: State, step: Step)
    requires Enabled(c, s, step) && Takes(step)
    ensures Pipeline(Apply(c, s, step)) == Pipeline(s)
  {
    TakingHands(c, s, step);
    TakenIsInHand(s, Apply(c, s, step));
  }

  lemma MoveKeepsPipeline(c: Config, s: State, step: Step)
    requires Bounded(c, s) && Enabled(c, s, step) && Moves(step)
    ensures var s' := Apply(c, s, step);
      s'.table == s.table && Pipeline(s') == Pipeline(s) && s'.phase.Executing? == s.phase.Executing? && Bounded(c, s')
  {
    StepTouches(c, s, step);
    if Takes(step) {
      TakingKeepsPipeline(c, s, step);
    }
  }

  /** What a concluding step records for the operation in hand. */
  function Conclusion(s: State, step: Step): (r: OperationState)
    requires Concludes(step) && Hand(s.phase) != []
    requires step.DrainSet? ==> s.phase.Draining?
  {
    var id := Hand(s.phase)[0];
    match step
    case Refuse => Failed(CoreError(ShuttingDown, false, id))
    case Finish(success, output, error) => if success then Succeeded(output) else Failed(error)
    case Panic => Failed(CoreError(Internal, false, id))
    case DrainSet => DrainOutcome(s.phase.exit, s.phase.hand.value)
  }

  lemma ConcludeRecords(c: Config, s: State, step: Step)
    requires Enabled(c, s, step) && Concludes(step)
    ensures Hand(s.phase) != []
    ensures var s' := Apply(c, s, step); var id := Hand(s.phase)[0];
      && Hand(s.phase) == [id] && Hand(s'.phase) == [] && s'.queue == s.queue && s'.permits == s.permits
      && s'.table == SetState(s.table, id, Conclusion(s, step)) && s'.started == s.started
  {
  }

  lemma StepKeepsTied(c: Config, s: State, step: Step)
    requires c.Valid() && Tied(s) && Bounded(c, s) && Enabled(c, s, step)
    ensures Tied(Apply(c, s, step)) && Bounded(c, Apply(c, s, step))
  {
    var s' := Apply(c, s, step);
    if Moves(step) {
      MoveKeepsPipeline(c, s, step);
    } else if Concludes(step) {
      ConcludeRecords(c, s, step);
      HandReachesTerminal(s, s', Hand(s.phase)[0], Conclusion(s, step));
    } else if step.SetRunning? {
      StartKeepsTied(c, s);
    } else {
      AdmissionKeepsTied(c, s, step);
    }
  }

  lemma StartKeepsTied(c: Config, s: State)
    requires Tied(s) && Bounded(c, s) && s.phase.Starting?
    ensures Tied(Apply(c, s, SetRunning)) && Bounded(c, Apply(c, s, SetRunning))
  {
    var s' := Apply(c, s, SetRunning);
    assert Pipeline(s')[0] == Pipeline(s)[0] == s.phase.work.id;
    assert Pipeline(s') == Pipeline(s);
    RunningStaysAtHead(s.table.operations, Pipeline(s));
    SetStateKeepsOrder(s.table, s.phase.work.id, Running);
  }

  lemma AdmissionKeepsTied(c: Config, s: State, step: Step)
    requires c.Valid() && Tied(s) && Bounded(c, s) && Enabled(c, s, step)
    requires step.AdmitSubmit? || step.AdmitPermit?
    ensures Tied(Apply(c, s, step)) && Bounded(c, Apply(c, s, step))
  {
    if step.AdmitSubmit? {
      AdmitKeeps(c, s, step.envelope.work, step.envelope.digest, TrySend(c, s));
    } else {
      AdmitKeeps(c, s, Work(step.id, Shutdown), step.digest, Sent);
    }
  }

  lemma HandReachesTerminal(s: State, s': State, id: OperationId, state: OperationState)
    requires Tied(s) && Hand(s.phase) == [id] && IsTerminal(state)
    requires s'.table == SetState(s.table, id, state) && s'.queue == s.queue && Hand(s'.phase) == []
    ensures Tied(s') && |s'.table.operations| == |s.table.operations|
  {
    var p := Pipeline(s);
    assert p[0] == id && Pipeline(s') == p[1..];
    TerminalLeavesPipeline(s.table.operations, p, s.phase.Executing?, state);
    SetStateKeepsOrder(s.table, id, state);
  }

  lemma IdleKeepsRunOrder(s: State, s': State)
    requires RunOrder(s) && !s.phase.Executing? && !s'.phase.Executing? && s'.started == s.started
    requires Evolves(s.table, s'.table)
    ensures RunOrder(s')
  {
  }

  lemma ExecutingKeepsRunOrder(s: State, s': State)
    requires RunOrder(s) && s.phase.Executing? && s'.phase == s.phase && s'.started == s.started
    requires s.table.nextSequence <= s'.table.nextSequence
    requires KeepsLive(s.table, s'.table) && LiveIn(s.table.operations, s.phase.work.id)
    ensures RunOrder(s')
  {
  }

  /** When the running operation ends, everything still live was registered after it. */
  lemma EndingKeepsRunOrder(s: State, s': State, state: OperationState)
    requires RunOrder(s) && Tied(s) && s.phase.Executing? && !s'.phase.Executing? && s'.started == s.started
    requires IsTerminal(state) && s'.table == SetState(s.table, s.phase.work.id, state)
    ensures RunOrder(s')
  {
    var operations, p := s.table.operations, Pipeline(s);
    assert p[0] == s.phase.work.id;
    forall id | LiveIn(s'.table.operations, id) ensures operations[p[0]].sequence < s'.table.operations[id].sequence {
      assert LiveIn(operations, id);
      var k :| 0 <= k < |p| && p[k] == id;
    }
  }

  lemma StartKeepsRunOrder(c: Config, s: State)
    requires RunOrder(s) && Tied(s) && s.phase.Starting?
    ensures RunOrder(Apply(c, s, SetRunning))
  {
    assert Pipeline(s)[0] == s.phase.work.id;
    assert LiveIn(s.table.operations, s.phase.work.id);
  }

  /** Only `SetRunning` appends to the history, and only a concluding step ends a run. */
  lemma StepHistory(c: Config, s: State, step: Step)
    requires Enabled(c, s, step)
    ensures var s' := Apply(c, s, step);
      && (!step.SetRunning? ==> s'.started == s.started)
      && (!s.phase.Executing? && !step.SetRunning? ==> !s'.phase.Executing?)
      && (s.phase.Executing? && !Concludes(step) ==> s'.phase == s.phase)
      && (s.phase.Executing? && Concludes(step) ==>
            !s'.phase.Executing? && s'.table == SetState(s.table, s.phase.work.id, Conclusion(s, step)))
  {
    StepTouches(c, s, step);
    if s.phase.Executing? && Concludes(step) {
      ConcludeRecords(c, s, step);
      ConcludingEnds(c, s, step);
    }
  }

  lemma ConcludingEnds(c: Config, s: State, step: Step)
    requires Enabled(c, s, step) && s.phase.Executing? && Concludes(step)
    ensures !Apply(c, s, step).phase.Executing?
  {
  }

  lemma StepKeepsRunOrder(c: Config, s: State, step: Step)
    requires Tied(s) && RunOrder(s) && Enabled(c, s, step)
    ensures RunOrder(Apply(c, s, step))
  {
    var s' := Apply(c, s, step);
    StepHistory(c, s, step);
    if step.SetRunning? {
      StartKeepsRunOrder(c, s);
    } else if !s.phase.Executing? {
      StepEvolves(c, s, step);
      IdleKeepsRunOrder(s, s');
    } else if Concludes(step) {
      EndingKeepsRunOrder(s, s', Conclusion(s, step));
    } else {
      StepEvolves(c, s, step);
      assert Pipeline(s)[0] == s.phase.work.id;
      ExecutingKeepsRunOrder(s, s');
    }
  }

  lemma CallerKeepsLatchOrder(c: Config, s: State, step: Step)
    requires LatchOrder(s) && Enabled(c, s, step) && ByCaller(step)
    requires s.closed && (step.AdmitSubmit? || step.Reserve?) ==>
      Apply(c, s, step).queue == s.queue && Apply(c, s, step).permits == s.permits
    ensures LatchOrder(Apply(c, s, step))
  {
    CallerSteps(c, s, step);
  }

  lemma ClosedQueueRefuses(c: Config, s: State, e: Envelope)
    requires s.closed && e in s.checked
    ensures Apply(c, s, AdmitSubmit(e)).queue == s.queue
  {
  }

  /** The executor's own steps up to the end of a run, and from there on. */
  predicate InLoop(step: Step) {
    step.Dequeue? || step.ChannelOver? || step.Decide? || step.Refuse? || step.SetRunning?
  }

  /** Nothing starts after a Shutdown, so appending a start keeps Shutdown last. */
  lemma StartKeepsLatchOrder(c: Config, s: State)
    requires LatchOrder(s) && s.phase.Starting?
    ensures LatchOrder(Apply(c, s, SetRunning))
  {
    var s' := Apply(c, s, SetRunning);
    assert s'.started == s.started + [s'.started[|s.started|]];
  }

  lemma LoopKeepsLatchOrder(c: Config, s: State, step: Step)
    requires LatchOrder(s) && Enabled(c, s, step) && InLoop(step) && !step.SetRunning?
    ensures LatchOrder(Apply(c, s, step))
  {
    assert Apply(c, s, step).started == s.started;
  }

  lemma LeavingKeepsLatchOrder(c: Config, s: State, step: Step)
    requires RunOrder(s) && LatchOrder(s) && Enabled(c, s, step) && !InLoop(step) && !ByCaller(step)
    ensures LatchOrder(Apply(c, s, step))
  {
    assert Apply(c, s, step).started == s.started;
  }

  lemma StepKeepsLatchOrder(c: Config, s: State, step: Step)
    requires RunOrder(s) && LatchOrder(s) && Enabled(c, s, step)
    ensures LatchOrder(Apply(c, s, step))
  {
    if ByCaller(step) {
      if s.closed && step.AdmitSubmit? {
        ClosedQueueRefuses(c, s, step.envelope);
      }
      CallerKeepsLatchOrder(c, s, step);
    } else if step.SetRunning? {
      StartKeepsLatchOrder(c, s);
    } else if InLoop(step) {
      LoopKeepsLatchOrder(c, s, step);
    } else {
      LeavingKeepsLatchOrder(c, s, step);
    }
  }

  // ------------------------------------------------------- results, every run

  lemma StepKeepsInv(c: Config, s: State, step: Step)
    requires Inv(c, s) && Enabled(c, s, step)
    ensures Inv(c, Apply(c, s, step))
  {
    StepKeepsTied(c, s, step);
    StepKeepsRunOrder(c, s, step);
    StepKeepsLatchOrder(c, s, step);
  }

  lemma {:induction false} RunKeepsInv(c: Config, s: State, steps: seq<Step>)
    requires Inv(c, s) && Run(c, s, steps)
    ensures Inv(c, After(c, s, steps))
    decreases |steps|
  {
    if steps != [] {
      StepKeepsInv(c, s, steps[0]);
      RunKeepsInv(c, Apply(c, s, steps[0]), steps[1..]);
    }
  }

  lemma ReachableInv(c: Config, steps: seq<Step>)
    requires c.Valid() && Run(c, INITIAL, steps)
    ensures Inv(c, After(c, INITIAL, steps))
  {
    assert Pipeline(INITIAL) == [];
    RunKeepsInv(c, INITIAL, steps);
  }

  /**
   No operation is ever lost. In every reachable state the non-terminal registry
   entries are exactly the operation in hand and the queued ones, each once; and
   an executor that has exited leaves none of them behind.
   */
  lemma LiveOperationsAreTracked(c: Config, steps: seq<Step>)
    requires c.Valid() && Run(c, INITIAL, steps)
    ensures var s := After(c, INITIAL, steps); var p := Pipeline(s);
      && (forall id :: LiveIn(s.table.operations, id) <==> id in p)
      && (forall i, j :: 0 <= i < j < |p| ==> p[i] != p[j])
      && |Hand(s.phase)| <= 1
      && (s.phase.Exited? ==> forall id :: id in s.table.operations ==> IsTerminal(s.table.operations[id].state))
  {
    var s := After(c, INITIAL, steps);
    var p := Pipeline(s);
    ReachableInv(c, steps);
    assert s.phase.Exited? ==> p == [];
    forall id | id in s.table.operations ensures s.phase.Exited? ==> IsTerminal(s.table.operations[id].state) {
      assert LiveIn(s.table.operations, id) ==> id in p;
    }
  }

  /** The registry never holds more than its bound, whatever was submitted. */
  lemma RegistryIsBounded(c: Config, steps: seq<Step>)
    requires c.Valid() && Run(c, INITIAL, steps)
    ensures |After(c, INITIAL, steps).table.operations| <= c.LiveRegistryCapacity()
  {
    ReachableInv(c, steps);
  }

  /**
   When eviction finds no terminal entry to drop, a new submit is refused and
   leaves no trace but the sequence it spent; and no permit is outstanding, so
   a `shutdown()` is never admitted into a full table.
   */
  lemma FullRegistryRefuses(c: Config, steps: seq<Step>, e: Envelope)
    requires c.Valid() && Run(c, INITIAL, steps)
    requires Enabled(c, After(c, INITIAL, steps), AdmitSubmit(e))
    requires var s := After(c, INITIAL, steps);
      && e.work.id !in s.table.operations
      && |Evict(s.table, c.LiveRegistryCapacity()).operations| >= c.LiveRegistryCapacity()
    ensures var s := After(c, INITIAL, steps); var s' := Apply(c, s, AdmitSubmit(e));
      && s.permits == 0
      && TrySend(c, s) != Sent
      && s'.queue == s.queue && s'.latching == s.latching
      && s'.table.operations == s.table.operations
      && s'.table == s.table.(nextSequence := s.table.nextSequence + 1)
  {
    var s := After(c, INITIAL, steps);
    ReachableInv(c, steps);
    FullTableHasNoRoom(c, s);
    RefusedSubmitLeavesNothing(c, s, e);
  }

  /** With nothing to evict, live work alone fills the table, and with it the queue. */
  lemma FullTableHasNoRoom(c: Config, s: State)
    requires Inv(c, s) && |Evict(s.table, c.LiveRegistryCapacity()).operations| >= c.LiveRegistryCapacity()
    ensures s.permits == 0 && TrySend(c, s) != Sent && Evict(s.table, c.LiveRegistryCapacity()) == s.table
  {
    var capacity := c.LiveRegistryCapacity();
    var evicted := Evict(s.table, capacity);
    EvictOldestTerminal(s.table, capacity);
    FullTableIsAllLive(s.table, evicted, capacity, Pipeline(s), s.phase.Executing?);
    assert evicted.operations.Keys <= s.table.operations.Keys;
    SameSizeEviction(s.table, evicted, capacity);
  }

  lemma RefusedSubmitLeavesNothing(c: Config, s: State, e: Envelope)
    requires WellOrdered(s.table) && Enabled(c, s, AdmitSubmit(e)) && TrySend(c, s) != Sent
    requires e.work.id !in s.table.operations && Evict(s.table, c.LiveRegistryCapacity()) == s.table
    ensures var s' := Apply(c, s, AdmitSubmit(e));
      && s'.queue == s.queue && s'.latching == s.latching
      && s'.table == s.table.(nextSequence := s.table.nextSequence + 1)
  {
    AdmitCases(s.table, c.LiveRegistryCapacity(), e.work.id, e.digest, TrySend(c, s));
  }

  lemma SameSizeEviction(t: Table, e: Table, capacity: nat)
    requires WellOrdered(t) && e == Evict(t, capacity) && |t.operations| <= capacity <= |e.operations|
    ensures e == t
  {
    if Position(t.operations, t.order, 0).Some? && |t.operations| >= capacity {
      var p := Position(t.operations, t.order, 0).value;
      WithoutKeepsOrder(t, p);
      assert Evict(Without(t, p), capacity) == Without(t, p);
    }
  }

  /**
   Commands start in strictly increasing sequence, so a registration starts at
   most once; one still queued has not started, and the one running is the last
   that did.
   */
  lemma CommandsStartInSequence(c: Config, steps: seq<Step>)
    requires c.Valid() && Run(c, INITIAL, steps)
    ensures var s := After(c, INITIAL, steps); var started := s.started;
      && (forall i, j :: 0 <= i < j < |started| ==> started[i].sequence < started[j].sequence)
      && (forall i, id :: 0 <= i < |started| && id in s.table.operations && s.table.operations[id].state.Queued? ==>
            started[i].sequence < s.table.operations[id].sequence)
      && (forall id :: id in s.table.operations && s.table.operations[id].state.Running? ==>
            |started| > 0 && started[|started| - 1].id == id
            && started[|started| - 1].sequence == s.table.operations[id].sequence)
  {
    var s := After(c, INITIAL, steps);
    ReachableInv(c, steps);
    forall id | id in s.table.operations && s.table.operations[id].state.Queued?
      ensures forall i :: 0 <= i < |s.started| ==> s.started[i].sequence < s.table.operations[id].sequence
    {
      QueuedHasNotStarted(s, id);
    }
    forall id | id in s.table.operations && s.table.operations[id].state.Running?
      ensures s.phase.Executing? && s.phase.work.id == id
    {
      RunningIsInHand(s, id);
    }
  }

  lemma QueuedHasNotStarted(s: State, id: OperationId)
    requires Tied(s) && RunOrder(s) && id in s.table.operations && s.table.operations[id].state.Queued?
    ensures forall i :: 0 <= i < |s.started| ==> s.started[i].sequence < s.table.operations[id].sequence
  {
    var p := Pipeline(s);
    assert LiveIn(s.table.operations, id);
    if s.phase.Executing? {
      var k :| 0 <= k < |p| && p[k] == id;
      assert p[0] == s.phase.work.id;
    }
  }

  lemma RunningIsInHand(s: State, id: OperationId)
    requires Tied(s) && id in s.table.operations && s.table.operations[id].state.Running?
    ensures s.phase.Executing? && s.phase.work.id == id
  {
    var p := Pipeline(s);
    assert LiveIn(s.table.operations, id);
    var k :| 0 <= k < |p| && p[k] == id;
  }

  lemma {:induction false} RunEvolves(c: Config, s: State, steps: seq<Step>)
    requires Inv(c, s) && Run(c, s, steps)
    ensures Evolves(s.table, After(c, s, steps).table)
    decreases |steps|
  {
    if steps != [] {
      var next := Apply(c, s, steps[0]);
      StepEvolves(c, s, steps[0]);
      StepKeepsInv(c, s, steps[0]);
      RunEvolves(c, next, steps[1..]);
      EvolvesTransitive(s.table, next.table, After(c, s, steps).table);
    }
  }

  /**
   Idempotency over a run. Between any two moments of a run an entry that lived
   through keeps its digest, its sequence and any terminal state; resubmitting
   the id with that digest answers that sequence and changes nothing, and with
   another digest conflicts.
   */
  lemma ResubmissionIsIdempotent(c: Config, before: seq<Step>, later: seq<Step>,
      id: OperationId, digest: string, answer: SendAnswer)
    requires c.Valid() && Run(c, INITIAL, before) && Run(c, After(c, INITIAL, before), later)
    requires id in After(c, INITIAL, before).table.operations
    requires var s := After(c, INITIAL, before); var t := After(c, s, later);
      id in t.table.operations && t.table.operations[id].sequence < s.table.nextSequence
    ensures var s := After(c, INITIAL, before); var t := After(c, s, later);
      var was := s.table.operations[id]; var now := t.table.operations[id];
      && now.digest == was.digest && now.sequence == was.sequence
      && (IsTerminal(was.state) ==> now.state == was.state)
      && Admit(t.table, c.LiveRegistryCapacity(), id, digest, answer)
         == (t.table,
             if digest == was.digest then Ok(Existing(was.sequence)) else Err(CoreError(OperationConflict, false, id)))
  {
    ReachableInv(c, before);
    RunEvolves(c, After(c, INITIAL, before), later);
  }

  predicate ShutdownStarted(s: State) {
    exists i :: 0 <= i < |s.started| && s.started[i].command.Shutdown?
  }

  /** What a later state keeps of an earlier one: the latch, the history, and that a finished history is final. */
  predicate Extends(s: State, t: State) {
    && (s.closing ==> t.closing)
    && s.started <= t.started
    && (ShutdownStarted(s) || Over(s.phase) ==> t.started == s.started && (ShutdownStarted(t) || Over(t.phase)))
  }

  lemma StepExtends(c: Config, s: State, step: Step)
    requires Inv(c, s) && Enabled(c, s, step)
    ensures Extends(s, Apply(c, s, step))
  {
    StepHistory(c, s, step);
    StepTouches(c, s, step);
    if ShutdownStarted(s) {
      assert !step.SetRunning?;
    }
  }

  lemma {:induction false} RunExtendsHistory(c: Config, s: State, steps: seq<Step>)
    requires Inv(c, s) && Run(c, s, steps)
    ensures Extends(s, After(c, s, steps))
    decreases |steps|
  {
    if steps != [] {
      StepExtends(c, s, steps[0]);
      StepKeepsInv(c, s, steps[0]);
      RunExtendsHistory(c, Apply(c, s, steps[0]), steps[1..]);
    }
  }

  /**
   Shutdown is last. The latch never lifts; nothing but a Shutdown that was
   dequeued under the latch is ever executed; at most one Shutdown executes; and
   once one has started, or the executor has panicked, nothing starts again,
   however submits that passed the latch check earlier are interleaved.
   */
  lemma ShutdownIsLast(c: Config, before: seq<Step>, later: seq<Step>)
    requires c.Valid() && Run(c, INITIAL, before) && Run(c, After(c, INITIAL, before), later)
    ensures var s := After(c, INITIAL, before); var t := After(c, s, later);
      && (s.closing ==> t.closing)
      && (forall i :: 0 <= i < |t.started| && t.started[i].latchedAtDequeue ==> t.started[i].command.Shutdown?)
      && (forall i :: 0 <= i < |t.started| && t.started[i].command.Shutdown? ==> i == |t.started| - 1)
      && (ShutdownStarted(s) || Over(s.phase) ==> t.started == s.started)
  {
    ReachableInv(c, before);
    RunExtendsHistory(c, After(c, INITIAL, before), later);
    RunKeepsInv(c, After(c, INITIAL, before), later);
  }

  // ----------------------------------------------------------------- draining

  /** What draining still has to do: a permit costs an admission, a dequeue and a record. */
  function DrainWork(s: State): (r: nat) {
    3 * s.permits + 2 * |s.queue| + |Hand(s.phase)| + if s.phase.Exited? then 0 else 1
  }

  predicate AdvancesDrain(step: Step) {
    step.DrainDequeue? || step.DrainSet? || step.Exit? || step.AdmitPermit?
  }

  /** Each step of the drain, and each use of an outstanding permit, shrinks the work left; no caller makes it grow. */
  lemma DrainWorkShrinks(c: Config, s: State, step: Step)
    requires s.phase.Draining? && s.closed && Enabled(c, s, step)
    ensures DrainWork(Apply(c, s, step)) <= DrainWork(s)
    ensures AdvancesDrain(step) ==> DrainWork(Apply(c, s, step)) < DrainWork(s)
  {
    if ByCaller(step) {
      CallerSteps(c, s, step);
      if step.AdmitSubmit? {
        ClosedQueueRefuses(c, s, step.envelope);
      }
    }
  }

  /** Draining always gets to the end: until the exit one of those steps is possible. */
  lemma DrainReachesExit(c: Config, s: State)
    requires s.phase.Draining?
    ensures exists step :: Enabled(c, s, step) && AdvancesDrain(step)
  {
    var step :=
      if s.phase.hand.Some? then DrainSet
      else if |s.queue| > 0 then DrainDequeue
      else if s.permits > 0 then AdmitPermit(OperationId(0, 0, 0), "")
      else Step.Exit;
    assert Enabled(c, s, step) && AdvancesDrain(step);
  }

  lemma HeadFirst(first: seq<Step>, second: seq<Step>)
    requires first != []
    ensures [first[0]] + (first[1..] + second) == first + second
  {
  }

  lemma {:induction false} RunJoin(c: Config, s: State, first: seq<Step>, second: seq<Step>)
    requires Run(c, s, first) && Run(c, After(c, s, first), second)
    ensures Run(c, s, first + second) && After(c, s, first + second) == After(c, After(c, s, first), second)
    decreases |first|
  {
    if first == [] {
      assert first + second == second;
    } else {
      RunJoin(c, Apply(c, s, first[0]), first[1..], second);
      RunOfTwo(c, s, first[0], first[1..] + second);
      HeadFirst(first, second);
    }
  }

  /** So some run of the drain gets there: nothing needs the callers' help but the permits they hold. */
  lemma {:induction false} DrainTerminates(c: Config, s: State) returns (steps: seq<Step>)
    requires s.phase.Draining? && s.closed
    ensures Run(c, s, steps) && After(c, s, steps).phase == Exited(s.phase.exit)
    ensures forall i :: 0 <= i < |steps| ==> AdvancesDrain(steps[i])
    decreases DrainWork(s)
  {
    DrainReachesExit(c, s);
    var step :| Enabled(c, s, step) && AdvancesDrain(step);
    DrainWorkShrinks(c, s, step);
    DrainStepStays(c, s, step);
    if step.Exit? {
      steps := [step];
    } else {
      var rest := DrainTerminates(c, Apply(c, s, step));
      RunOfTwo(c, s, step, rest);
      steps := [step] + rest;
    }
  }

  lemma DrainStepStays(c: Config, s: State, step: Step)
    requires s.phase.Draining? && s.closed && Enabled(c, s, step) && AdvancesDrain(step)
    ensures var t := Apply(c, s, step);
      && t.closed
      && if step.Exit? then t.phase == Exited(s.phase.exit)
         else t.phase.Draining? && t.phase.exit == s.phase.exit
  {
    if step.AdmitPermit? {
      CallerSteps(c, s, step);
    }
  }

  /** A queued Shutdown is reported done exactly when the executor left cleanly, and then some Shutdown did run. */
  lemma DrainedShutdownMeansOneRan(c: Config, steps: seq<Step>)
    requires c.Valid() && Run(c, INITIAL, steps)
    requires var s := After(c, INITIAL, steps);
      s.phase.Draining? && s.phase.hand.Some? && s.phase.hand.value.command.Shutdown?
    ensures var s := After(c, INITIAL, steps);
      var id := s.phase.hand.value.id;
      && id in Apply(c, s, DrainSet).table.operations
      && (Apply(c, s, DrainSet).table.operations[id].state == Succeeded(ShutDown) <==> s.phase.exit == Clean)
      && (s.phase.exit == Clean ==> ShutdownStarted(s))
  {
    var s := After(c, INITIAL, steps);
    ReachableInv(c, steps);
    assert Pipeline(s)[0] == s.phase.hand.value.id;
  }

  /** The rest of a run in which the executing Shutdown fails, up to the first drained operation. */
  function FailThenDrain(error: CoreError): (r: seq<Step>) {
    [Finish(false, ShutDown, error)] + [CloseQueue] + [DrainDequeue] + [DrainSet]
  }

  lemma RunOfTwo(c: Config, s: State, step: Step, rest: seq<Step>)
    requires Enabled(c, s, step) && Run(c, Apply(c, s, step), rest)
    ensures Run(c, s, [step] + rest) && After(c, s, [step] + rest) == After(c, Apply(c, s, step), rest)
  {
    assert ([step] + rest)[1..] == rest;
  }

  lemma FailThenDrainRuns(c: Config, s: State, error: CoreError)
    requires s.phase.Executing? && s.phase.work.command.Shutdown? && |s.queue| > 0
    ensures Run(c, s, FailThenDrain(error))
    ensures After(c, s, FailThenDrain(error)).table ==
      SetState(SetState(s.table, s.phase.work.id, Failed(error)), s.queue[0].id, DrainOutcome(Clean, s.queue[0]))
  {
    var a := Apply(c, s, Finish(false, ShutDown, error));
    ClosedThenDrained(c, a);
    RunOfTwo(c, s, Finish(false, ShutDown, error), [CloseQueue] + ([DrainDequeue] + [DrainSet]));
    assert FailThenDrain(error) == [Finish(false, ShutDown, error)] + ([CloseQueue] + ([DrainDequeue] + [DrainSet]));
  }

  lemma ClosedThenDrained(c: Config, s: State)
    requires s.phase == Closing(Clean) && |s.queue| > 0
    ensures Run(c, s, [CloseQueue] + ([DrainDequeue] + [DrainSet]))
    ensures After(c, s, [CloseQueue] + ([DrainDequeue] + [DrainSet])).table
      == SetState(s.table, s.queue[0].id, DrainOutcome(Clean, s.queue[0]))
  {
    var b := Apply(c, s, CloseQueue);
    var d := Apply(c, b, DrainDequeue);
    RunOfTwo(c, d, DrainSet, []);
    assert [DrainSet] + [] == [DrainSet];
    RunOfTwo(c, b, DrainDequeue, [DrainSet]);
    RunOfTwo(c, s, CloseQueue, [DrainDequeue] + [DrainSet]);
  }

  // ------------------------------------------------------------ a covered failure

  predicate HoldsShutdown(queue: seq<Work>) {
    exists i :: 0 <= i < |queue| && queue[i].command.Shutdown?
  }

  predicate HandIsShutdown(s: State) {
    s.phase.Draining? && s.phase.hand.Some? && s.phase.hand.value.command.Shutdown?
  }

  /** After `steps` the clean drain holds Shutdown `id` and is about to record it done. */
  predicate Covers(c: Config, s: State, steps: seq<Step>, id: OperationId) {
    && Run(c, s, steps)
    && After(c, s, steps).phase == Draining(Clean, Some(Work(id, Shutdown)))
    && TerminalIn(Apply(c, After(c, s, steps), DrainSet).table.operations, id)
    && Apply(c, After(c, s, steps), DrainSet).table.operations[id].state == Succeeded(ShutDown)
  }

  ghost predicate CanBeCovered(c: Config, s: State) {
    exists steps, id :: Covers(c, s, steps, id)
  }

  /** Whether the drain will find a Shutdown: one in hand or queued, or a permit that will be used for one. */
  predicate ShutdownAhead(s: State) {
    s.permits > 0 || HoldsShutdown(s.queue) || HandIsShutdown(s)
  }

  /** Before the queue is closed a caller of `shutdown()` can still reserve a free slot. */
  predicate ShutdownComes(c: Config, s: State) {
    ShutdownAhead(s) || (!s.closed && !s.handlesGone && |s.queue| < c.queueCapacity)
  }

  predicate LeavingCleanly(s: State) {
    && (s.phase.Closing? || s.phase.Draining? || s.phase.Exited?) && s.phase.exit == Clean
    && (s.closed <==> !s.phase.Closing?)
    && (s.handlesGone ==> s.checked == multiset{} && s.reserving == 0)
  }

  lemma NoShutdownLeaves(queue: seq<Work>)
    requires !HoldsShutdown(queue) && |queue| > 0
    ensures !queue[0].command.Shutdown? && !HoldsShutdown(queue[1..])
  {
    assert forall i :: 0 <= i < |queue[1..]| ==> queue[1..][i] == queue[i + 1];
  }

  lemma CallersBringNone(c: Config, s: State, step: Step)
    requires LeavingCleanly(s) && !ShutdownComes(c, s) && Enabled(c, s, step) && ByCaller(step)
    ensures Apply(c, s, step).queue == s.queue && Apply(c, s, step).permits == 0
  {
    if step.AdmitSubmit? {
      assert TrySend(c, s) != Sent;
    }
  }

  lemma NoneStaysNone(c: Config, s: State, step: Step)
    requires LeavingCleanly(s) && !ShutdownComes(c, s) && Enabled(c, s, step)
    ensures LeavingCleanly(Apply(c, s, step)) && !ShutdownComes(c, Apply(c, s, step))
  {
    if ByCaller(step) {
      CallerSteps(c, s, step);
      CallersBringNone(c, s, step);
    } else if |s.queue| > 0 {
      NoShutdownLeaves(s.queue);
    }
  }

  lemma {:induction false} NoneNeverCovers(c: Config, s: State, steps: seq<Step>)
    requires LeavingCleanly(s) && !ShutdownComes(c, s) && Run(c, s, steps)
    ensures !ShutdownComes(c, After(c, s, steps))
    decreases |steps|
  {
    if steps != [] {
      NoneStaysNone(c, s, steps[0]);
      NoneNeverCovers(c, Apply(c, s, steps[0]), steps[1..]);
    }
  }

  /** Draining one queue entry after the other arrives at the first Shutdown. */
  lemma {:induction false} DrainToShutdown(c: Config, s: State) returns (steps: seq<Step>, id: OperationId)
    requires s.phase.Draining? && s.phase.exit == Clean && (HoldsShutdown(s.queue) || HandIsShutdown(s))
    ensures Run(c, s, steps) && After(c, s, steps).phase == Draining(Clean, Some(Work(id, Shutdown)))
    decreases |s.queue|, s.phase.hand.Some?
  {
    if HandIsShutdown(s) {
      return [], s.phase.hand.value.id;
    }
    var step := if s.phase.hand.Some? then DrainSet else DrainDequeue;
    NextHand(s);
    var rest;
    rest, id := DrainToShutdown(c, Apply(c, s, step));
    RunOfTwo(c, s, step, rest);
    steps := [step] + rest;
  }

  lemma NextHand(s: State)
    requires HoldsShutdown(s.queue)
    ensures s.queue[0].command.Shutdown? || HoldsShutdown(s.queue[1..])
  {
    var i :| 0 <= i < |s.queue| && s.queue[i].command.Shutdown?;
    assert i > 0 ==> s.queue[1..][i - 1].command.Shutdown?;
  }

  lemma {:induction false} FreshId(ids: set<OperationId>) returns (id: OperationId)
    ensures id !in ids && forall other :: other in ids ==> other.nanos < id.nanos
  {
    if ids == {} {
      return OperationId(0, 0, 0);
    }
    var some :| some in ids;
    var rest := FreshId(ids - {some});
    return OperationId(rest.nanos + some.nanos + 1, 0, 0);
  }

  /** A permit becomes a queued Shutdown, closed or not. */
  lemma PermitQueuesShutdown(c: Config, s: State, id: OperationId)
    requires s.permits > 0 && id !in s.table.operations && WellOrdered(s.table)
    ensures var t := Apply(c, s, AdmitPermit(id, "shutdown"));
      t.phase == s.phase && t.queue == s.queue + [Work(id, Shutdown)] && HoldsShutdown(t.queue)
  {
    AdmitCases(s.table, c.LiveRegistryCapacity(), id, "shutdown", Sent);
    assert (s.queue + [Work(id, Shutdown)])[|s.queue|].command.Shutdown?;
  }

  /** With a slot free a caller gets a permit. */
  lemma ReserveSlot(c: Config, s: State) returns (steps: seq<Step>)
    requires !s.closed && !s.handlesGone && |s.queue| + s.permits < c.queueCapacity
    ensures Run(c, s, steps) && var t := After(c, s, steps);
      t.permits > 0 && t.phase == s.phase && t.table == s.table && t.queue == s.queue
  {
    RunOfTwo(c, Apply(c, s, BeginShutdown), Reserve, []);
    assert [Reserve] + [] == [Reserve];
    RunOfTwo(c, s, BeginShutdown, [Reserve]);
    steps := [BeginShutdown] + [Reserve];
  }

  /** The steps that put a Shutdown where the drain will find it. */
  lemma BringShutdown(c: Config, s: State) returns (steps: seq<Step>)
    requires Inv(c, s) && (s.phase.Closing? || s.phase.Draining?) && s.phase.exit == Clean && ShutdownComes(c, s)
    ensures Run(c, s, steps) && var t := After(c, s, steps);
      t.phase == s.phase && (HoldsShutdown(t.queue) || HandIsShutdown(t))
  {
    steps := [];
    if !ShutdownAhead(s) {
      steps := ReserveSlot(c, s);
    }
    ghost var t := After(c, s, steps);
    if !HoldsShutdown(t.queue) && !HandIsShutdown(t) {
      var id := FreshId(t.table.operations.Keys);
      PermitQueuesShutdown(c, t, id);
      RunOneMore(c, s, steps, AdmitPermit(id, "shutdown"));
      steps := steps + [AdmitPermit(id, "shutdown")];
    }
  }

  /** The same, up to the drain. */
  lemma BringToDrain(c: Config, s: State) returns (steps: seq<Step>)
    requires Inv(c, s) && (s.phase.Closing? || s.phase.Draining?) && s.phase.exit == Clean && ShutdownComes(c, s)
    ensures Run(c, s, steps) && var t := After(c, s, steps);
      t.phase.Draining? && t.phase.exit == Clean && (HoldsShutdown(t.queue) || HandIsShutdown(t))
  {
    steps := BringShutdown(c, s);
    if s.phase.Closing? {
      RunOneMore(c, s, steps, CloseQueue);
      steps := steps + [CloseQueue];
    }
  }

  lemma ShutdownIsCovered(c: Config, s: State) returns (steps: seq<Step>, id: OperationId)
    requires Inv(c, s) && (s.phase.Closing? || s.phase.Draining?) && s.phase.exit == Clean && ShutdownComes(c, s)
    ensures Covers(c, s, steps, id)
  {
    var first := BringToDrain(c, s);
    var second;
    second, id := DrainToShutdown(c, After(c, s, first));
    RunJoin(c, s, first, second);
    steps := first + second;
    RunKeepsInv(c, s, steps);
    DrainRecords(c, After(c, s, steps), id);
  }

  lemma DrainRecords(c: Config, s: State, id: OperationId)
    requires Inv(c, s) && s.phase == Draining(Clean, Some(Work(id, Shutdown)))
    ensures TerminalIn(Apply(c, s, DrainSet).table.operations, id)
    ensures Apply(c, s, DrainSet).table.operations[id].state == Succeeded(ShutDown)
  {
    assert Pipeline(s)[0] == id;
  }

  lemma CoveredIffComes(c: Config, s: State)
    requires Inv(c, s) && (s.phase.Closing? || s.phase.Draining?) && s.phase.exit == Clean
    ensures CanBeCovered(c, s) <==> ShutdownComes(c, s)
  {
    if ShutdownComes(c, s) {
      var steps, id := ShutdownIsCovered(c, s);
    } else {
      forall steps, id ensures !Covers(c, s, steps, id) {
        if Covers(c, s, steps, id) {
          NoneNeverCovers(c, s, steps);
        }
      }
    }
  }

  /**
   When a failed Shutdown is covered. From any reachable moment after the
   executor's loop was left by a Shutdown recorded as failed, some continuation
   reports another Shutdown as done if and only if one is queued or in hand, a
   permit is outstanding, or the queue is still open to a caller of `shutdown()`
   with a free slot.
   */
  lemma FailedShutdownIsCoveredIff(c: Config, before: seq<Step>)
    requires c.Valid() && Run(c, INITIAL, before)
    requires var s := After(c, INITIAL, before);
      && (s.phase.Closing? || s.phase.Draining?) && s.phase.exit == Clean
      && ShutdownStarted(s)
      && var last := s.started[|s.started| - 1].id;
         last in s.table.operations && s.table.operations[last].state.Failed?
    ensures CanBeCovered(c, After(c, INITIAL, before)) <==> ShutdownComes(c, After(c, INITIAL, before))
  {
    ReachableInv(c, before);
    CoveredIffComes(c, After(c, INITIAL, before));
  }

  /** Once the queue is closed, exactly what is queued, in hand or reserved counts. */
  lemma ClosedQueueCoversIff(c: Config, s: State)
    requires Inv(c, s) && s.phase.Draining? && s.phase.exit == Clean
    ensures CanBeCovered(c, s) <==> s.permits > 0 || HoldsShutdown(s.queue) || HandIsShutdown(s)
  {
    CoveredIffComes(c, s);
  }

  /**
   But the one that ran may have failed: from any moment at which a Shutdown
   executes with another queued behind it, the first can fail and the second
   still be reported as done.
   */
  lemma DrainedShutdownMayCoverAFailure(c: Config, s: State, error: CoreError)
    requires Inv(c, s) && s.phase.Executing? && s.phase.work.command.Shutdown?
    requires |s.queue| > 0 && s.queue[0].command.Shutdown?
    ensures Run(c, s, FailThenDrain(error))
    ensures var operations := After(c, s, FailThenDrain(error)).table.operations;
      && s.phase.work.id in operations && operations[s.phase.work.id].state == Failed(error)
      && s.queue[0].id in operations && operations[s.queue[0].id].state == Succeeded(ShutDown)
  {
    var p := Pipeline(s);
    assert p[0] == s.phase.work.id && p[1] == s.queue[0].id;
    FailThenDrainRuns(c, s, error);
  }

  lemma RunOneMore(c: Config, s: State, steps: seq<Step>, step: Step)
    requires Run(c, s, steps) && Enabled(c, After(c, s, steps), step)
    ensures Run(c, s, steps + [step]) && After(c, s, steps + [step]) == Apply(c, After(c, s, steps), step)
    decreases |steps|
  {
    if steps == [] {
      RunOfTwo(c, s, step, []);
      assert [] + [step] == [step] + [];
    } else {
      RunOneMore(c, Apply(c, s, steps[0]), steps[1..], step);
      assert steps + [step] == [steps[0]] + (steps[1..] + [step]);
      RunOfTwo(c, s, steps[0], steps[1..] + [step]);
    }
  }

  /** A submit of a fresh id into an idle control plane with room, from latch check to queue. */
  lemma SubmitIsQueued(c: Config, steps: seq<Step>, e: Envelope)
    requires c.Valid() && Run(c, INITIAL, steps)
    requires var s := After(c, INITIAL, steps);
      && !s.closing && !s.closed && !s.handlesGone
      && |s.queue| + s.permits < c.queueCapacity && e.work.id !in s.table.operations
    ensures var s := After(c, INITIAL, steps); var steps' := steps + [CheckLatch(e)] + [AdmitSubmit(e)];
      && Run(c, INITIAL, steps')
      && var s' := After(c, INITIAL, steps');
         && s'.queue == s.queue + [e.work] && s'.phase == s.phase && s'.permits == s.permits
         && !s'.closing && !s'.closed && !s'.handlesGone
         && (forall id :: id in s'.table.operations ==> id in s.table.operations || id == e.work.id)
  {
    var s := After(c, INITIAL, steps);
    var checked := Apply(c, s, CheckLatch(e));
    RunOneMore(c, INITIAL, steps, CheckLatch(e));
    RunOneMore(c, INITIAL, steps + [CheckLatch(e)], AdmitSubmit(e));
    assert WellOrdered(s.table) by { ReachableInv(c, steps); }
    RoomyAdmission(c, checked, e);
  }

  lemma RoomyAdmission(c: Config, s: State, e: Envelope)
    requires WellOrdered(s.table) && e in s.checked && e.work.id !in s.table.operations && TrySend(c, s) == Sent
    ensures var s' := Apply(c, s, AdmitSubmit(e));
      && s'.queue == s.queue + [e.work] && s'.phase == s.phase && s'.permits == s.permits
      && s'.closing == s.closing && s'.closed == s.closed && s'.handlesGone == s.handlesGone
      && (forall id :: id in s'.table.operations ==> id in s.table.operations || id == e.work.id)
  {
    EvictOldestTerminal(s.table, c.LiveRegistryCapacity());
  }

  /** A Shutdown at the head of an idle executor's queue is started. */
  lemma HeadIsExecuted(c: Config, steps: seq<Step>)
    requires Run(c, INITIAL, steps)
    requires var s := After(c, INITIAL, steps); s.phase.Receiving? && |s.queue| > 0 && s.queue[0].command.Shutdown?
    ensures var s := After(c, INITIAL, steps); var steps' := steps + [Dequeue] + [Decide] + [SetRunning];
      && Run(c, INITIAL, steps')
      && var s' := After(c, INITIAL, steps'); s'.phase == Executing(s.queue[0]) && s'.queue == s.queue[1..]
  {
    RunOneMore(c, INITIAL, steps, Dequeue);
    RunOneMore(c, INITIAL, steps + [Dequeue], Decide);
    RunOneMore(c, INITIAL, steps + [Dequeue] + [Decide], SetRunning);
  }

  /** Such a moment is reachable: two submitted Shutdowns, the first of them started. */
  lemma TwoShutdownsReachable(c: Config, a: OperationId, b: OperationId)
    requires c.Valid() && c.queueCapacity >= 2 && a != b
    ensures exists steps ::
      && Run(c, INITIAL, steps)
      && After(c, INITIAL, steps).phase == Executing(Work(a, Shutdown))
      && After(c, INITIAL, steps).queue == [Work(b, Shutdown)]
  {
    var x, y := Envelope(Work(a, Shutdown), "shutdown"), Envelope(Work(b, Shutdown), "shutdown");
    SubmitIsQueued(c, [], x);
    var one := [] + [CheckLatch(x)] + [AdmitSubmit(x)];
    SubmitIsQueued(c, one, y);
    var two := one + [CheckLatch(y)] + [AdmitSubmit(y)];
    assert After(c, INITIAL, two).queue == [x.work, y.work];
    HeadIsExecuted(c, two);
  }

  /** A run from the start in which the Shutdown that ran failed and the one behind it is reported done. */
  lemma FailureIsCoveredFromTheStart(c: Config, a: OperationId, b: OperationId, error: CoreError)
    requires c.Valid() && c.queueCapacity >= 2 && a != b
    ensures exists steps :: Run(c, INITIAL, steps) && CoveredIn(After(c, INITIAL, steps), a, b, error)
  {
    TwoShutdownsReachable(c, a, b);
    var steps :| Run(c, INITIAL, steps)
      && After(c, INITIAL, steps).phase == Executing(Work(a, Shutdown))
      && After(c, INITIAL, steps).queue == [Work(b, Shutdown)];
    var s := After(c, INITIAL, steps);
    ReachableInv(c, steps);
    DrainedShutdownMayCoverAFailure(c, s, error);
    RunJoin(c, INITIAL, steps, FailThenDrain(error));
    assert CoveredIn(After(c, INITIAL, steps + FailThenDrain(error)), a, b, error);
  }

  predicate CoveredIn(s: State, failed: OperationId, reported: OperationId, error: CoreError) {
    && failed in s.table.operations && s.table.operations[failed].state == Failed(error)
    && reported in s.table.operations && s.table.operations[reported].state == Succeeded(ShutDown)
  }
}
