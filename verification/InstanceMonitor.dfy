/**
 The monitor of one core instance: it takes supervisor events, probe
 observations and deadlines, and decides when the instance is running. The
 probe driver, the supervisor and the callers that stop an instance take steps of
 their own in between. What the health tracker makes of an observation, and what
 the supervisor answers to an acknowledgement, come with the observation.
 */
module InstanceMonitor {
  import opened Wrappers

  /** The largest run number; the counter stays there. */
  const LAST_RUN := 0xFFFF_FFFF_FFFF_FFFF

  datatype Config = Config(initialDeadline: int, startupTimeout: nat)

  /** A probe's result: `healthy` once the tracker has seen it, `acknowledged` if the supervisor accepts the pid. */
  datatype Observation = Observation(runId: nat, pid: nat, completedAt: int, healthy: bool, acknowledged: bool)

  datatype Run = Run(runId: nat, pid: nat, ackAttempted: bool, ready: bool)

  /** What a probe driver puts on everything it reports. */
  datatype Tag = Tag(runId: nat, pid: nat)

  datatype StopReason = User | TimedOut | Finished | Failed

  datatype Lifecycle = Starting | Running(pid: nat) | Restarting(attempt: nat) | Stopping | Stopped(reason: StopReason)

  datatype Event =
    | Started(pid: nat)
    | RestartScheduled(attempt: nat)
    | Exited(clean: bool)
    | PreparationFailed
    | GaveUp
    | SupervisorStopped
    | Alive

  /** A move into `Running`: on which observation, for which run, and the driver and deadlines then in place. */
  datatype Move =
    Move(observation: Observation, run: Run, driver: Option<Tag>, everReady: bool, respawnDeadline: Option<int>)

  datatype Monitor = Monitor(
    probesCancelled: bool, everReady: bool, timeoutFired: bool, nextRunId: nat,
    current: Option<Run>, driver: Option<Tag>, respawnDeadline: Option<int>, exitedCleanly: bool,
    cancelled: bool, userStop: bool, probeTimeout: bool, lifecycle: Lifecycle,
    observations: seq<Observation>, moves: seq<Move>, attempts: seq<nat>, finished: bool)

  const FRESH := Monitor(
    false, false, false, 0, None, None, None, false, false, false, false, Starting, [], [], [], false)

  // ----------------------------------------------------------------- observations

  predicate Applies(o: Observation, r: Run) {
    o.runId == r.runId && o.pid == r.pid
  }

  /** Completed no later than every deadline that applies. */
  predicate InTime(c: Config, m: Monitor, o: Observation) {
    && (!m.everReady ==> o.completedAt <= c.initialDeadline)
    && (m.respawnDeadline.Some? ==> o.completedAt <= m.respawnDeadline.value)
  }

  /** Whether the observation makes the monitor ask the supervisor for an acknowledgement. */
  predicate Attempts(c: Config, m: Monitor, o: Observation) {
    && m.current.Some? && Applies(o, m.current.value) && InTime(c, m, o)
    && !m.current.value.ackAttempted && o.healthy
  }

  predicate BecomesReady(c: Config, m: Monitor, o: Observation) {
    Attempts(c, m, o) && o.acknowledged
  }

  function Ask(m: Monitor): (r: Monitor)
    requires m.current.Some?
  {
    m.(current := Some(m.current.value.(ackAttempted := true)), attempts := m.attempts + [m.current.value.runId])
  }

  function MoveToRunning(m: Monitor, o: Observation): (r: Monitor)
    requires m.current.Some?
  {
    m.(current := Some(m.current.value.(ready := true)), everReady := true, respawnDeadline := None,
       lifecycle := Running(m.current.value.pid),
       moves := m.moves + [Move(o, m.current.value, m.driver, m.everReady, m.respawnDeadline)])
  }

  /** What the supervisor's answer to an acknowledgement changes. */
  function Answered(m: Monitor, o: Observation): (r: Monitor)
    requires m.current.Some?
  {
    if o.acknowledged then MoveToRunning(m, o) else m
  }

  function ApplyObservation(c: Config, m: Monitor, o: Observation): (r: Monitor) {
    if Attempts(c, m, o) then Answered(Ask(m), o) else m
  }

  /** The queue without its first observation. */
  function Popped(m: Monitor): (r: Monitor)
    requires m.observations != []
  {
    m.(observations := m.observations[1..])
  }

  /** The monitor after draining its observations up to one that makes it ready, and whether there was one. */
  datatype Drained = Drained(monitor: Monitor, ready: bool)

  function Drain(c: Config, m: Monitor): (r: Drained)
    decreases |m.observations|
  {
    if m.observations == [] then Drained(m, false)
    else
      var o, popped := m.observations[0], Popped(m);
      var next := ApplyObservation(c, popped, o);
      if BecomesReady(c, popped, o) then Drained(next, true) else Drain(c, next)
  }

  // --------------------------------------------------------------------- the loop

  function GiveUp(m: Monitor): (r: Monitor) {
    m.(current := None, respawnDeadline := None, driver := None, probeTimeout := true, cancelled := true)
  }

  function OnCancel(m: Monitor): (r: Monitor) {
    m.(probesCancelled := true, driver := None, current := None, respawnDeadline := None)
  }

  function TerminalReason(m: Monitor): (r: StopReason) {
    if m.userStop then User
    else if m.probeTimeout then TimedOut
    else if m.exitedCleanly then Finished
    else Failed
  }

  function Terminate(m: Monitor, reason: StopReason): (r: Monitor) {
    m.(driver := None, lifecycle := Stopped(reason), finished := true)
  }

  /** The event channel has closed; the driver is not stopped first. */
  function OnEventsEnd(m: Monitor): (r: Monitor) {
    m.(lifecycle := Stopped(TerminalReason(m)), finished := true)
  }

  function NextRunId(m: Monitor): (r: nat) {
    if m.nextRunId >= LAST_RUN then LAST_RUN else m.nextRunId + 1
  }

  function OnStarted(c: Config, m: Monitor, pid: nat, now: int): (r: Monitor) {
    var runId := NextRunId(m);
    m.(nextRunId := runId,
       current := Some(Run(runId, pid, false, false)),
       respawnDeadline := if m.everReady then Some(now + c.startupTimeout) else None,
       driver := if m.probesCancelled then None else Some(Tag(runId, pid)))
  }

  function OnEvent(c: Config, m: Monitor, e: Event, now: int): (r: Monitor) {
    match e
    case Started(pid) => OnStarted(c, m, pid, now)
    case RestartScheduled(attempt) =>
      m.(driver := None, current := None, respawnDeadline := None, lifecycle := Restarting(attempt))
    case Exited(clean) =>
      m.(driver := None, current := None, respawnDeadline := None, exitedCleanly := clean)
    case PreparationFailed => Terminate(m, Failed)
    case GaveUp => Terminate(m, Failed)
    case SupervisorStopped => Terminate(m, TerminalReason(m))
    case Alive => m
  }

  function OnInitialDeadline(c: Config, m: Monitor): (r: Monitor) {
    var d := Drain(c, m);
    if !d.ready && !d.monitor.everReady then GiveUp(d.monitor.(timeoutFired := true)) else d.monitor
  }

  function OnRespawnDeadline(c: Config, m: Monitor): (r: Monitor) {
    var d := Drain(c, m);
    if !d.ready && d.monitor.respawnDeadline.Some? then GiveUp(d.monitor) else d.monitor
  }

  /** An observation is taken; if it asks for an acknowledgement, the answer is a step of its own. */
  function OnObservation(c: Config, m: Monitor): (r: Monitor)
    requires m.observations != []
  {
    if Attempts(c, Popped(m), m.observations[0]) then Ask(Popped(m)) else Popped(m)
  }

  // ------------------------------------------------------------------------- runs

  const EVENTS := 0
  const INITIAL_TIMER := 1
  const RESPAWN_TIMER := 2
  const REQUESTS := 3
  const REPORTS := 4

  type Arm = n: nat | n <= REPORTS

  /**
   Where the loop is. It waits, or is about to poll: every pass over the branches
   begins with the cancellation, a wake-up's too. It has found none and polls the
   branches in their order, `arm` next. Or it has asked for an acknowledgement.
   */
  datatype Point = Parked | Polling(arm: Arm) | Awaiting(observation: Observation)

  datatype State = State(monitor: Monitor, now: int, events: seq<Event>, at: Point)

  const INITIAL := State(FRESH, 0, [], Parked)

  datatype Step =
    // The clock, the supervisor, the probe driver and callers that stop the instance.
    | Tick(now: int)
    | Send(event: Event)
    | Observe(observation: Observation)
    | RequestStop
    | PublishStopping
    | PublishStopped
    // The loop's passes and branches. A deadline's drain also sees what the driver reports meanwhile,
    // and what it reports before it is stopped stays queued.
    | Poll
    | Pass
    | TakeCancel
    | TakeEvent
    | EventsEnd
    | InitialDeadline(late: seq<Observation>, stragglers: seq<Observation>)
    | RespawnDeadline(late: seq<Observation>, stragglers: seq<Observation>)
    | TakeRequest
    | TakeObservation
    | Answer

  predicate FromDriver(m: Monitor, o: Observation) {
    m.driver == Some(Tag(o.runId, o.pid))
  }

  predicate AllFromDriver(m: Monitor, observations: seq<Observation>) {
    forall k :: 0 <= k < |observations| ==> FromDriver(m, observations[k])
  }

  predicate InLoop(step: Step) {
    || step.Poll? || step.Pass? || step.TakeCancel? || step.TakeEvent? || step.EventsEnd? || step.InitialDeadline?
    || step.RespawnDeadline? || step.TakeRequest? || step.TakeObservation? || step.Answer?
  }

  predicate Cancelling(m: Monitor) {
    m.cancelled && !m.probesCancelled
  }

  /** Whether a branch that is polled has to be taken; callers may or may not have queued a request. */
  predicate MustTake(c: Config, s: State, arm: nat) {
    var m := s.monitor;
    || (arm == EVENTS && s.events != [])
    || (arm == INITIAL_TIMER && !m.everReady && !m.timeoutFired && s.now >= c.initialDeadline)
    || (arm == RESPAWN_TIMER && m.respawnDeadline.Some? && s.now >= m.respawnDeadline.value)
    || (arm == REPORTS && m.observations != [])
  }

  predicate Enabled(c: Config, s: State, step: Step) {
    var m := s.monitor;
    && (InLoop(step) ==> !m.finished)
    && match step
       case Tick(now) => now >= s.now
       case Send(_) => true
       case Observe(o) => FromDriver(m, o)
       case RequestStop => true
       case PublishStopping => !m.lifecycle.Stopped?
       case PublishStopped => !m.lifecycle.Stopped?
       case Poll => s.at.Parked? && !Cancelling(m)
       case TakeCancel => s.at.Parked? && Cancelling(m)
       case Pass => s.at.Polling? && !MustTake(c, s, s.at.arm)
       case TakeEvent => s.at == Polling(EVENTS) && s.events != []
       case EventsEnd => s.at == Polling(EVENTS) && s.events == []
       case InitialDeadline(late, stragglers) =>
         && s.at == Polling(INITIAL_TIMER) && MustTake(c, s, INITIAL_TIMER)
         && AllFromDriver(m, late) && AllFromDriver(m, stragglers)
       case RespawnDeadline(late, stragglers) =>
         && s.at == Polling(RESPAWN_TIMER) && MustTake(c, s, RESPAWN_TIMER)
         && AllFromDriver(m, late) && AllFromDriver(m, stragglers)
       case TakeRequest => s.at == Polling(REQUESTS)
       case TakeObservation => s.at == Polling(REPORTS) && m.observations != []
       case Answer => s.at.Awaiting? && m.current.Some?
  }

  function Queue(m: Monitor, more: seq<Observation>): (r: Monitor) {
    m.(observations := m.observations + more)
  }

  function Branch(c: Config, s: State, step: Step): (r: Monitor)
    requires Enabled(c, s, step)
  {
    var m := s.monitor;
    match step
    case Tick(_) => m
    case Send(_) => m
    case Observe(o) => Queue(m, [o])
    case RequestStop => m.(userStop := true, cancelled := true)
    case PublishStopping => m.(lifecycle := Stopping)
    case PublishStopped => m.(lifecycle := Stopped(User))
    case Poll => m
    case Pass => m
    case TakeCancel => OnCancel(m)
    case TakeEvent => OnEvent(c, m, s.events[0], s.now)
    case EventsEnd => OnEventsEnd(m)
    case InitialDeadline(late, stragglers) => Queue(OnInitialDeadline(c, Queue(m, late)), stragglers)
    case RespawnDeadline(late, stragglers) => Queue(OnRespawnDeadline(c, Queue(m, late)), stragglers)
    case TakeRequest => m
    case TakeObservation => OnObservation(c, m)
    case Answer => Answered(m, s.at.observation)
  }

  /** Where a step leaves the loop: it begins again after every branch but an observation that asks. */
  function Arrives(c: Config, s: State, step: Step): (r: Point)
    requires Enabled(c, s, step)
  {
    if !InLoop(step) then s.at
    else if step.Poll? then Polling(EVENTS)
    else if step.Pass? && s.at.arm < REPORTS then Polling(s.at.arm + 1)
    else if step.TakeObservation? && Attempts(c, Popped(s.monitor), s.monitor.observations[0]) then
      Awaiting(s.monitor.observations[0])
    else Parked
  }

  function Apply(c: Config, s: State, step: Step): (r: State)
    requires Enabled(c, s, step)
  {
    var m := Branch(c, s, step);
    State(m,
      if step.Tick? then step.now else s.now,
      if step.Send? then s.events + [step.event] else if step.TakeEvent? then s.events[1..] else s.events,
      Arrives(c, s, step))
  }

  predicate IsRun(c: Config, s: State, steps: seq<Step>)
    decreases |steps|
  {
    steps == [] || (Enabled(c, s, steps[0]) && IsRun(c, Apply(c, s, steps[0]), steps[1..]))
  }

  function After(c: Config, s: State, steps: seq<Step>): (r: State)
    requires IsRun(c, s, steps)
    decreases |steps|
  {
    if steps == [] then s else After(c, Apply(c, s, steps[0]), steps[1..])
  }

  // ------------------------------------------------------------------- invariants

  /** The evidence behind a move into `Running`. */
  predicate Justified(c: Config, v: Move) {
    && Applies(v.observation, v.run)
    && v.driver == Some(Tag(v.run.runId, v.run.pid))
    && v.observation.healthy && v.observation.acknowledged
    && (!v.everReady ==> v.observation.completedAt <= c.initialDeadline)
    && (v.respawnDeadline.Some? ==> v.observation.completedAt <= v.respawnDeadline.value)
  }

  predicate AllJustified(c: Config, m: Monitor) {
    && (forall i :: 0 <= i < |m.moves| ==> Justified(c, m.moves[i]))
    && (m.everReady <==> m.moves != [])
    && (m.lifecycle.Running? ==> m.moves != [] && m.lifecycle.pid == m.moves[|m.moves| - 1].run.pid)
  }

  predicate Rising(numbers: seq<nat>) {
    forall i, j :: 0 <= i < j < |numbers| ==> numbers[i] < numbers[j]
  }

  /** Acknowledgements are asked for in the order of the runs, at most once for each. */
  predicate AskedOnce(m: Monitor) {
    && Rising(m.attempts)
    && (forall i :: 0 <= i < |m.attempts| ==> m.attempts[i] <= m.nextRunId)
    && (m.current.Some? && m.current.value.ready ==> m.current.value.ackAttempted)
    && (m.current.Some? && !m.current.value.ackAttempted ==>
          forall i :: 0 <= i < |m.attempts| ==> m.attempts[i] < m.nextRunId)
  }

  /** Only the driver of the current run reports observations that apply to it; without probing nothing does. */
  predicate Tagged(m: Monitor) {
    && (m.driver.Some? ==> m.driver.value.runId == m.nextRunId && !m.probesCancelled)
    && (m.current.Some? ==> m.current.value.runId == m.nextRunId)
    && (forall k :: 0 <= k < |m.observations| ==> m.observations[k].runId <= m.nextRunId)
    && (m.current.Some? && m.probesCancelled ==>
          forall k :: 0 <= k < |m.observations| ==> m.observations[k].runId < m.nextRunId)
    && (m.current.Some? && !m.probesCancelled ==>
          forall k :: 0 <= k < |m.observations| && m.observations[k].runId == m.nextRunId ==>
            m.observations[k].pid == m.current.value.pid)
    && (m.current.Some? && !m.probesCancelled && !m.finished ==>
          m.driver == Some(Tag(m.nextRunId, m.current.value.pid)))
    && (m.driver.Some? && m.current.Some? ==> m.driver.value.pid == m.current.value.pid)
  }

  predicate Inv(c: Config, m: Monitor) {
    AllJustified(c, m) && AskedOnce(m) && Tagged(m)
  }

  /** While an acknowledgement is awaited the run is still the one it was asked for, on evidence in time. */
  predicate Asking(c: Config, s: State) {
    s.at.Awaiting? ==>
      var m, o := s.monitor, s.at.observation;
      m.current.Some? && m.current.value.ackAttempted && Applies(o, m.current.value) && InTime(c, m, o) && o.healthy
      && !m.probesCancelled
  }

  predicate StateInv(c: Config, s: State) {
    Inv(c, s.monitor) && Asking(c, s)
  }

  lemma ObservationKeepsInv(c: Config, m: Monitor, o: Observation)
    requires Inv(c, m) && (Attempts(c, m, o) ==> FromDriver(m, o))
    ensures Inv(c, ApplyObservation(c, m, o))
  {
    if Attempts(c, m, o) {
      AskKeepsInv(c, m);
      if o.acknowledged {
        RunningKeepsInv(c, Ask(m), o);
      }
    }
  }

  lemma AskKeepsInv(c: Config, m: Monitor)
    requires Inv(c, m) && m.current.Some? && !m.current.value.ackAttempted
    ensures Inv(c, Ask(m))
  {
  }

  lemma RunningKeepsInv(c: Config, m: Monitor, o: Observation)
    requires Inv(c, m) && m.current.Some? && m.current.value.ackAttempted && FromDriver(m, o)
    requires Applies(o, m.current.value) && InTime(c, m, o) && o.healthy && o.acknowledged
    ensures Inv(c, MoveToRunning(m, o))
  {
  }

  /** A queued observation that applies was sent by the driver now running. */
  lemma QueuedIsFromDriver(m: Monitor, k: nat)
    requires Tagged(m) && !m.finished && k < |m.observations|
    requires m.current.Some? && Applies(m.observations[k], m.current.value)
    ensures FromDriver(m, m.observations[k])
  {
  }

  lemma TakingKeepsInv(c: Config, m: Monitor)
    requires Inv(c, m) && !m.finished && m.observations != []
    ensures Inv(c, ApplyObservation(c, Popped(m), m.observations[0])) && Inv(c, OnObservation(c, m))
  {
    PoppingKeepsInv(c, m);
    if Attempts(c, Popped(m), m.observations[0]) {
      QueuedIsFromDriver(m, 0);
      AskKeepsInv(c, Popped(m));
    }
    ObservationKeepsInv(c, Popped(m), m.observations[0]);
  }

  lemma PoppingKeepsInv(c: Config, m: Monitor)
    requires Inv(c, m) && m.observations != []
    ensures Inv(c, Popped(m))
  {
    var rest := m.observations[1..];
    assert forall k :: 0 <= k < |rest| ==> rest[k] == m.observations[k + 1];
  }

  lemma {:induction false} DrainKeepsInv(c: Config, m: Monitor)
    requires Inv(c, m) && !m.finished
    ensures Inv(c, Drain(c, m).monitor)
    decreases |m.observations|
  {
    if m.observations != [] {
      var popped := Popped(m);
      TakingKeepsInv(c, m);
      if !BecomesReady(c, popped, m.observations[0]) {
        DrainKeepsInv(c, ApplyObservation(c, popped, m.observations[0]));
      }
    }
  }

  /** What draining leaves alone. */
  predicate SameRun(m: Monitor, t: Monitor) {
    && t.nextRunId == m.nextRunId && t.probesCancelled == m.probesCancelled && t.driver == m.driver
    && t.finished == m.finished && t.cancelled == m.cancelled
    && (t.current.Some? <==> m.current.Some?)
    && (m.current.Some? ==>
          t.current.value.runId == m.current.value.runId && t.current.value.pid == m.current.value.pid)
  }

  lemma ObservationKeepsRun(c: Config, m: Monitor, o: Observation)
    ensures SameRun(m, ApplyObservation(c, m, o))
  {
  }

  lemma SameRunAgain(a: Monitor, b: Monitor, d: Monitor)
    requires SameRun(a, b) && SameRun(b, d)
    ensures SameRun(a, d)
  {
  }

  lemma {:induction false} DrainKeepsRun(c: Config, m: Monitor)
    ensures SameRun(m, Drain(c, m).monitor)
    decreases |m.observations|
  {
    if m.observations != [] {
      var popped := Popped(m);
      var next := ApplyObservation(c, popped, m.observations[0]);
      ObservationKeepsRun(c, popped, m.observations[0]);
      if !BecomesReady(c, popped, m.observations[0]) {
        DrainKeepsRun(c, next);
        SameRunAgain(popped, next, Drain(c, m).monitor);
      }
    }
  }

  /** Observations that only the driver of the latest run can have sent. */
  predicate Fits(m: Monitor, more: seq<Observation>) {
    forall k :: 0 <= k < |more| ==>
      && more[k].runId == m.nextRunId
      && (m.current.Some? ==> !m.probesCancelled && more[k].pid == m.current.value.pid)
  }

  lemma DriverFits(m: Monitor, more: seq<Observation>)
    requires Tagged(m) && AllFromDriver(m, more)
    ensures Fits(m, more)
  {
  }

  lemma QueueKeepsInv(c: Config, m: Monitor, more: seq<Observation>)
    requires Inv(c, m) && Fits(m, more)
    ensures Inv(c, Queue(m, more))
  {
  }

  lemma GiveUpKeepsInv(c: Config, m: Monitor, fired: bool)
    requires Inv(c, m)
    ensures Inv(c, GiveUp(m.(timeoutFired := fired)))
  {
  }

  lemma EventKeepsInv(c: Config, m: Monitor, e: Event, now: int)
    requires Inv(c, m) && OnEvent(c, m, e, now).nextRunId < LAST_RUN && !m.finished
    ensures Inv(c, OnEvent(c, m, e, now))
  {
    if e.Started? {
      StartKeepsInv(c, m, e.pid, now);
    }
  }

  lemma StartKeepsInv(c: Config, m: Monitor, pid: nat, now: int)
    requires Inv(c, m) && NextRunId(m) < LAST_RUN
    ensures Inv(c, OnStarted(c, m, pid, now))
  {
    assert NextRunId(m) == m.nextRunId + 1;
  }

  lemma InitialDeadlineKeepsInv(c: Config, m: Monitor, late: seq<Observation>, stragglers: seq<Observation>)
    requires Inv(c, m) && !m.finished && AllFromDriver(m, late) && AllFromDriver(m, stragglers)
    ensures Inv(c, Queue(OnInitialDeadline(c, Queue(m, late)), stragglers))
  {
    var d := Drain(c, Queue(m, late)).monitor;
    DriverFits(m, late);
    QueueKeepsInv(c, m, late);
    DrainKeepsInv(c, Queue(m, late));
    DrainKeepsRun(c, Queue(m, late));
    GiveUpKeepsInv(c, d, true);
    StragglersFit(m, d, stragglers);
    QueueKeepsInv(c, OnInitialDeadline(c, Queue(m, late)), stragglers);
  }

  /** What fits a monitor fits any with the same latest run, or with none in hand. */
  lemma FitsToo(m: Monitor, t: Monitor, more: seq<Observation>)
    requires Fits(m, more) && t.nextRunId == m.nextRunId
    requires t.current.None?
      || (m.current.Some? && t.current.value.pid == m.current.value.pid && t.probesCancelled == m.probesCancelled)
    ensures Fits(t, more)
  {
  }

  lemma StragglersFit(m: Monitor, d: Monitor, stragglers: seq<Observation>)
    requires Tagged(m) && AllFromDriver(m, stragglers) && SameRun(m, d)
    ensures Fits(d, stragglers) && Fits(GiveUp(d), stragglers) && Fits(GiveUp(d.(timeoutFired := true)), stragglers)
  {
    DriverFits(m, stragglers);
    FitsToo(m, d, stragglers);
    FitsToo(m, GiveUp(d), stragglers);
    FitsToo(m, GiveUp(d.(timeoutFired := true)), stragglers);
  }

  lemma RespawnDeadlineKeepsInv(c: Config, m: Monitor, late: seq<Observation>, stragglers: seq<Observation>)
    requires Inv(c, m) && !m.finished && AllFromDriver(m, late) && AllFromDriver(m, stragglers)
    ensures Inv(c, Queue(OnRespawnDeadline(c, Queue(m, late)), stragglers))
  {
    var d := Drain(c, Queue(m, late)).monitor;
    DriverFits(m, late);
    QueueKeepsInv(c, m, late);
    DrainKeepsInv(c, Queue(m, late));
    DrainKeepsRun(c, Queue(m, late));
    GiveUpKeepsInv(c, d, d.timeoutFired);
    StragglersFit(m, d, stragglers);
    QueueKeepsInv(c, OnRespawnDeadline(c, Queue(m, late)), stragglers);
  }

  /** The steps that stop probing, publish a stop, end the loop, or change nothing here. */
  predicate IsPlain(step: Step) {
    !step.TakeEvent? && !step.InitialDeadline? && !step.RespawnDeadline? && !step.TakeObservation? && !step.Observe?
    && !step.Answer?
  }

  /** A state that differs in its stop flags, or shows a stop. */
  predicate StopsOnly(m: Monitor, t: Monitor) {
    && t.probesCancelled == m.probesCancelled && t.everReady == m.everReady && t.timeoutFired == m.timeoutFired
    && t.nextRunId == m.nextRunId && t.current == m.current && t.driver == m.driver
    && t.respawnDeadline == m.respawnDeadline && t.observations == m.observations
    && t.moves == m.moves && t.attempts == m.attempts
    && (t.lifecycle == m.lifecycle || !t.lifecycle.Running?)
    && (m.finished ==> t.finished)
  }

  lemma PlainStep(c: Config, s: State, step: Step)
    requires Enabled(c, s, step) && IsPlain(step)
    ensures var t := Branch(c, s, step);
      if step.TakeCancel? then t == OnCancel(s.monitor) else StopsOnly(s.monitor, t)
  {
  }

  lemma PlainKeepsInv(c: Config, s: State, step: Step)
    requires Inv(c, s.monitor) && Enabled(c, s, step) && IsPlain(step)
    ensures Inv(c, Branch(c, s, step))
  {
    PlainStep(c, s, step);
    if step.TakeCancel? {
      CancelKeepsInv(c, s.monitor);
    } else {
      StopKeepsInv(c, s.monitor, Branch(c, s, step));
    }
  }

  lemma StopKeepsInv(c: Config, m: Monitor, t: Monitor)
    requires Inv(c, m) && StopsOnly(m, t)
    ensures Inv(c, t)
  {
  }

  lemma CancelKeepsInv(c: Config, m: Monitor)
    requires Inv(c, m)
    ensures Inv(c, OnCancel(m))
  {
  }

  lemma StepKeepsInv(c: Config, s: State, step: Step)
    requires StateInv(c, s) && Enabled(c, s, step) && Branch(c, s, step).nextRunId < LAST_RUN
    ensures StateInv(c, Apply(c, s, step))
  {
    StepKeepsAsking(c, s, step);
    if IsPlain(step) {
      PlainKeepsInv(c, s, step);
    } else {
      BusyKeepsInv(c, s, step);
    }
  }

  /** What asks is not answered by anything but the answer, and nothing asks once probing is cancelled. */
  lemma StepKeepsAsking(c: Config, s: State, step: Step)
    requires StateInv(c, s) && Enabled(c, s, step)
    ensures Asking(c, Apply(c, s, step))
  {
    if step.TakeObservation? && Attempts(c, Popped(s.monitor), s.monitor.observations[0]) {
      AskedIsProbing(c, s.monitor);
    }
  }

  lemma AskedIsProbing(c: Config, m: Monitor)
    requires Tagged(m) && m.observations != [] && Attempts(c, Popped(m), m.observations[0])
    ensures !m.probesCancelled
  {
  }

  lemma AnswerKeepsInv(c: Config, s: State)
    requires StateInv(c, s) && Enabled(c, s, Answer)
    ensures Inv(c, Branch(c, s, Answer))
  {
    if s.at.observation.acknowledged {
      RunningKeepsInv(c, s.monitor, s.at.observation);
    }
  }

  lemma BusyKeepsInv(c: Config, s: State, step: Step)
    requires StateInv(c, s) && Enabled(c, s, step) && Branch(c, s, step).nextRunId < LAST_RUN && !IsPlain(step)
    ensures Inv(c, Branch(c, s, step))
  {
    var m := s.monitor;
    if step.TakeEvent? {
      EventKeepsInv(c, m, s.events[0], s.now);
    } else if step.InitialDeadline? {
      InitialDeadlineKeepsInv(c, m, step.late, step.stragglers);
    } else if step.RespawnDeadline? {
      RespawnDeadlineKeepsInv(c, m, step.late, step.stragglers);
    } else if step.TakeObservation? {
      TakingKeepsInv(c, m);
    } else if step.Answer? {
      AnswerKeepsInv(c, s);
    } else {
      DriverFits(m, [step.observation]);
      QueueKeepsInv(c, m, [step.observation]);
    }
  }

  lemma EventNumbersGrow(c: Config, m: Monitor, e: Event, now: int)
    requires m.nextRunId <= LAST_RUN
    ensures m.nextRunId <= OnEvent(c, m, e, now).nextRunId <= LAST_RUN
  {
    match e
    case Started(pid) =>
    case RestartScheduled(attempt) =>
    case Exited(clean) =>
    case PreparationFailed =>
    case GaveUp =>
    case SupervisorStopped =>
    case Alive =>
  }

  lemma DeadlineKeepsNumber(c: Config, m: Monitor)
    ensures OnInitialDeadline(c, m).nextRunId == m.nextRunId && OnRespawnDeadline(c, m).nextRunId == m.nextRunId
  {
    DrainKeepsRun(c, m);
  }

  lemma RunNumbersGrow(c: Config, s: State, step: Step)
    requires Enabled(c, s, step) && s.monitor.nextRunId <= LAST_RUN
    ensures s.monitor.nextRunId <= Branch(c, s, step).nextRunId <= LAST_RUN
  {
    if step.TakeEvent? {
      EventNumbersGrow(c, s.monitor, s.events[0], s.now);
    } else if step.InitialDeadline? || step.RespawnDeadline? {
      DeadlineKeepsNumber(c, Queue(s.monitor, step.late));
    }
  }

  lemma {:induction false} RunKeepsInv(c: Config, s: State, steps: seq<Step>)
    requires IsRun(c, s, steps) && StateInv(c, s) && s.monitor.nextRunId <= LAST_RUN
    requires After(c, s, steps).monitor.nextRunId < LAST_RUN
    ensures StateInv(c, After(c, s, steps)) && s.monitor.nextRunId <= After(c, s, steps).monitor.nextRunId
    decreases |steps|
  {
    if steps != [] {
      NumbersGrow(c, Apply(c, s, steps[0]), steps[1..]);
      RunNumbersGrow(c, s, steps[0]);
      StepKeepsInv(c, s, steps[0]);
      RunKeepsInv(c, Apply(c, s, steps[0]), steps[1..]);
    }
  }

  lemma {:induction false} NumbersGrow(c: Config, s: State, steps: seq<Step>)
    requires IsRun(c, s, steps)
    ensures s.monitor.nextRunId <= LAST_RUN ==> s.monitor.nextRunId <= After(c, s, steps).monitor.nextRunId <= LAST_RUN
    decreases |steps|
  {
    if steps != [] && s.monitor.nextRunId <= LAST_RUN {
      RunNumbersGrow(c, s, steps[0]);
      NumbersGrow(c, Apply(c, s, steps[0]), steps[1..]);
    }
  }

  /**
   Whatever the order of events, observations, deadlines and stops: each move into
   `Running` rests on an acknowledged observation sent by the driver of the run
   that was current, in time for the deadline that applied; no run is acknowledged twice; and the pid
   shown as running is that of the last move. (The counter has not saturated.)
   */
  lemma RunningIsJustified(c: Config, steps: seq<Step>)
    requires IsRun(c, INITIAL, steps) && After(c, INITIAL, steps).monitor.nextRunId < LAST_RUN
    ensures var m := After(c, INITIAL, steps).monitor;
      && (forall i :: 0 <= i < |m.moves| ==> Justified(c, m.moves[i]))
      && Rising(m.attempts)
      && (m.lifecycle.Running? ==> m.moves != [] && m.lifecycle.pid == m.moves[|m.moves| - 1].run.pid)
  {
    RunKeepsInv(c, INITIAL, steps);
  }

  /** While probing, an observation that applies to the current run was sent by the driver now running. */
  lemma StaleObservationsAreIgnored(c: Config, steps: seq<Step>, k: nat)
    requires IsRun(c, INITIAL, steps) && After(c, INITIAL, steps).monitor.nextRunId < LAST_RUN
    requires var m := After(c, INITIAL, steps).monitor;
      k < |m.observations| && !m.finished && m.current.Some? && Applies(m.observations[k], m.current.value)
    ensures FromDriver(After(c, INITIAL, steps).monitor, After(c, INITIAL, steps).monitor.observations[k])
  {
    RunKeepsInv(c, INITIAL, steps);
  }

  // -------------------------------------------------------------------- giving up

  /** No run can become ready any more: probing is cancelled, or will be before anything else is taken. */
  predicate Doomed(s: State) {
    var m := s.monitor;
    || m.probesCancelled
    || (s.at.Parked? && m.cancelled && m.current.None? && m.driver.None?)
  }

  lemma {:induction false} NothingApplies(c: Config, m: Monitor)
    requires Tagged(m) && m.probesCancelled
    ensures var d := Drain(c, m);
      !d.ready && d.monitor.moves == m.moves && d.monitor.lifecycle == m.lifecycle && d.monitor.everReady == m.everReady
    decreases |m.observations|
  {
    if m.observations != [] {
      var popped := Popped(m);
      assert forall k :: 0 <= k < |popped.observations| ==> popped.observations[k] == m.observations[k + 1];
      assert !Attempts(c, popped, m.observations[0]);
      NothingApplies(c, popped);
    }
  }

  /** Without a driver there is nothing late and there are no stragglers. */
  lemma NoDriverNoLate(m: Monitor, more: seq<Observation>)
    requires m.driver.None? && AllFromDriver(m, more)
    ensures more == [] && Queue(m, more) == m
  {
    assert more != [] ==> FromDriver(m, more[0]);
  }

  /** The lifecycle never turns to running. */
  predicate Quiet(m: Monitor, t: Monitor) {
    t.moves == m.moves && (t.lifecycle.Running? ==> t.lifecycle == m.lifecycle)
  }

  lemma CancelledEventIsQuiet(c: Config, m: Monitor, e: Event, now: int)
    requires m.probesCancelled
    ensures OnEvent(c, m, e, now).probesCancelled && Quiet(m, OnEvent(c, m, e, now))
  {
    match e
    case Started(pid) =>
    case RestartScheduled(attempt) =>
    case Exited(clean) =>
    case PreparationFailed =>
    case GaveUp =>
    case SupervisorStopped =>
    case Alive =>
  }

  lemma CancelledDeadlineIsQuiet(c: Config, m: Monitor, late: seq<Observation>)
    requires Tagged(m) && m.probesCancelled && AllFromDriver(m, late)
    ensures Quiet(m, OnInitialDeadline(c, Queue(m, late))) && OnInitialDeadline(c, Queue(m, late)).probesCancelled
    ensures Quiet(m, OnRespawnDeadline(c, Queue(m, late))) && OnRespawnDeadline(c, Queue(m, late)).probesCancelled
  {
    NoDriverNoLate(m, late);
    NothingApplies(c, m);
    DrainKeepsRun(c, m);
  }

  lemma CancelledObservationIsQuiet(c: Config, m: Monitor)
    requires Tagged(m) && m.probesCancelled && m.observations != []
    ensures OnObservation(c, m).probesCancelled && Quiet(m, OnObservation(c, m))
  {
    assert !Attempts(c, Popped(m), m.observations[0]);
  }

  lemma CancelledStaysCancelled(c: Config, s: State, step: Step)
    requires StateInv(c, s) && s.monitor.probesCancelled && Enabled(c, s, step)
    ensures Branch(c, s, step).probesCancelled && Quiet(s.monitor, Branch(c, s, step))
  {
    if step.TakeEvent? {
      CancelledEventIsQuiet(c, s.monitor, s.events[0], s.now);
    } else if step.InitialDeadline? || step.RespawnDeadline? {
      CancelledDeadlineIsQuiet(c, s.monitor, step.late);
    } else if step.TakeObservation? {
      CancelledObservationIsQuiet(c, s.monitor);
    }
  }

  lemma DoomedStaysDoomed(c: Config, s: State, step: Step)
    requires StateInv(c, s) && Doomed(s) && Enabled(c, s, step)
    ensures Doomed(Apply(c, s, step)) && Quiet(s.monitor, Branch(c, s, step))
  {
    if s.monitor.probesCancelled {
      CancelledStaysCancelled(c, s, step);
    } else if InLoop(step) {
      assert step.TakeCancel?;
    }
  }

  lemma {:induction false} DoomedNeverRuns(c: Config, s: State, steps: seq<Step>)
    requires IsRun(c, s, steps) && StateInv(c, s) && Doomed(s)
    requires s.monitor.nextRunId <= LAST_RUN && After(c, s, steps).monitor.nextRunId < LAST_RUN
    ensures Quiet(s.monitor, After(c, s, steps).monitor)
    decreases |steps|
  {
    if steps != [] {
      NumbersGrow(c, Apply(c, s, steps[0]), steps[1..]);
      RunNumbersGrow(c, s, steps[0]);
      StepKeepsInv(c, s, steps[0]);
      DoomedStaysDoomed(c, s, steps[0]);
      DoomedNeverRuns(c, Apply(c, s, steps[0]), steps[1..]);
    }
  }

  /**
   Once the initial deadline has fired on an instance that was not ready, and did
   not become so on what was queued, nothing that can happen afterwards, another
   start or a late observation included, makes it running.
   */
  lemma InitialDeadlineIsFinal(c: Config, before: seq<Step>, step: Step, later: seq<Step>)
    requires step.InitialDeadline? && IsRun(c, INITIAL, before) && Enabled(c, After(c, INITIAL, before), step)
    requires !Branch(c, After(c, INITIAL, before), step).everReady
    requires IsRun(c, Apply(c, After(c, INITIAL, before), step), later)
    requires After(c, Apply(c, After(c, INITIAL, before), step), later).monitor.nextRunId < LAST_RUN
    ensures var m := After(c, Apply(c, After(c, INITIAL, before), step), later).monitor;
      m.moves == [] && !m.lifecycle.Running?
  {
    var s := After(c, INITIAL, before);
    var t := Apply(c, s, step);
    NumbersGrow(c, INITIAL, before);
    RunNumbersGrow(c, s, step);
    NumbersGrow(c, t, later);
    RunKeepsInv(c, INITIAL, before);
    StepKeepsInv(c, s, step);
    FiredUnready(c, s.monitor, step.late, step.stragglers);
    DoomedNeverRuns(c, t, later);
  }

  lemma FiredUnready(c: Config, m: Monitor, late: seq<Observation>, stragglers: seq<Observation>)
    requires !OnInitialDeadline(c, Queue(m, late)).everReady
    ensures var t := Queue(OnInitialDeadline(c, Queue(m, late)), stragglers);
      t.cancelled && t.current.None? && t.driver.None? && t.timeoutFired && t.probeTimeout
  {
    ReadyMeansEverReady(c, Queue(m, late));
  }

  lemma {:induction false} ReadyMeansEverReady(c: Config, m: Monitor)
    ensures Drain(c, m).ready ==> Drain(c, m).monitor.everReady
    decreases |m.observations|
  {
    if m.observations != [] {
      var popped := Popped(m);
      if !BecomesReady(c, popped, m.observations[0]) {
        ReadyMeansEverReady(c, ApplyObservation(c, popped, m.observations[0]));
      }
    }
  }

  /** So is a respawn deadline that cancels probing, and any cancellation the loop has taken. */
  lemma CancellationIsFinal(c: Config, before: seq<Step>, step: Step, later: seq<Step>)
    requires IsRun(c, INITIAL, before) && Enabled(c, After(c, INITIAL, before), step)
    requires step.TakeCancel? || (step.RespawnDeadline? && Branch(c, After(c, INITIAL, before), step).driver.None?
                                  && Branch(c, After(c, INITIAL, before), step).current.None?
                                  && Branch(c, After(c, INITIAL, before), step).cancelled)
    requires IsRun(c, Apply(c, After(c, INITIAL, before), step), later)
    requires After(c, Apply(c, After(c, INITIAL, before), step), later).monitor.nextRunId < LAST_RUN
    ensures var t := Apply(c, After(c, INITIAL, before), step);
      Quiet(t.monitor, After(c, t, later).monitor)
  {
    var s := After(c, INITIAL, before);
    var t := Apply(c, s, step);
    NumbersGrow(c, INITIAL, before);
    RunNumbersGrow(c, s, step);
    NumbersGrow(c, t, later);
    RunKeepsInv(c, INITIAL, before);
    StepKeepsInv(c, s, step);
    DoomedNeverRuns(c, t, later);
  }

  // ------------------------------------------------------------------- deadlines

  predicate Waits(m: Monitor) {
    m.current.Some? && !m.current.value.ready
  }

  /** A respawn deadline belongs to a later run that is not ready, and is at most the startup timeout away. */
  predicate Armed(c: Config, m: Monitor, now: int) {
    && (m.respawnDeadline.Some? ==> m.everReady && Waits(m) && m.respawnDeadline.value <= now + c.startupTimeout)
    && (Waits(m) && m.everReady ==> m.respawnDeadline.Some?)
  }

  /** The initial deadline is spent only by giving up for good. */
  predicate Spent(s: State) {
    s.monitor.timeoutFired ==> Doomed(s)
  }

  lemma ObservationKeepsArmed(c: Config, m: Monitor, o: Observation, now: int)
    requires Armed(c, m, now)
    ensures Armed(c, ApplyObservation(c, m, o), now) && ApplyObservation(c, m, o).timeoutFired == m.timeoutFired
  {
  }

  lemma {:induction false} DrainKeepsArmed(c: Config, m: Monitor, now: int)
    requires Armed(c, m, now)
    ensures Armed(c, Drain(c, m).monitor, now) && Drain(c, m).monitor.timeoutFired == m.timeoutFired
    decreases |m.observations|
  {
    if m.observations != [] {
      var popped := Popped(m);
      var next := ApplyObservation(c, popped, m.observations[0]);
      ObservationKeepsArmed(c, popped, m.observations[0], now);
      if !BecomesReady(c, popped, m.observations[0]) {
        DrainKeepsArmed(c, next, now);
      }
    }
  }

  lemma EventKeepsArmed(c: Config, m: Monitor, e: Event, now: int)
    requires Armed(c, m, now)
    ensures Armed(c, OnEvent(c, m, e, now), now) && OnEvent(c, m, e, now).timeoutFired == m.timeoutFired
  {
    match e
    case Started(pid) =>
    case RestartScheduled(attempt) =>
    case Exited(clean) =>
    case PreparationFailed =>
    case GaveUp =>
    case SupervisorStopped =>
    case Alive =>
  }

  lemma DeadlinesKeepArmed(c: Config, m: Monitor, now: int)
    requires Armed(c, m, now)
    ensures Armed(c, OnInitialDeadline(c, m), now) && Armed(c, OnRespawnDeadline(c, m), now)
    ensures OnRespawnDeadline(c, m).timeoutFired == m.timeoutFired
  {
    DrainKeepsArmed(c, m, now);
  }

  lemma LaterStaysArmed(c: Config, m: Monitor, now: int, later: int)
    requires Armed(c, m, now) && now <= later
    ensures Armed(c, m, later)
  {
  }

  lemma CancelKeepsArmed(c: Config, m: Monitor, now: int)
    requires Armed(c, m, now)
    ensures Armed(c, OnCancel(m), now)
  {
  }

  lemma StopKeepsArmed(c: Config, m: Monitor, t: Monitor, now: int)
    requires Armed(c, m, now) && StopsOnly(m, t)
    ensures Armed(c, t, now)
  {
  }

  lemma PlainKeepsArmed(c: Config, s: State, step: Step)
    requires Armed(c, s.monitor, s.now) && Enabled(c, s, step) && IsPlain(step)
    ensures Armed(c, Branch(c, s, step), s.now)
  {
    PlainStep(c, s, step);
    if step.TakeCancel? {
      CancelKeepsArmed(c, s.monitor, s.now);
    } else {
      StopKeepsArmed(c, s.monitor, Branch(c, s, step), s.now);
    }
  }

  lemma TimeGoesOn(c: Config, s: State, step: Step)
    requires Enabled(c, s, step)
    ensures s.now <= Apply(c, s, step).now
  {
  }

  lemma QueueKeepsArmed(c: Config, m: Monitor, more: seq<Observation>, now: int)
    requires Armed(c, m, now)
    ensures Armed(c, Queue(m, more), now)
  {
  }

  lemma DeadlineStepKeepsArmed(c: Config, m: Monitor, late: seq<Observation>, stragglers: seq<Observation>, now: int)
    requires Armed(c, m, now)
    ensures Armed(c, Queue(OnInitialDeadline(c, Queue(m, late)), stragglers), now)
    ensures Armed(c, Queue(OnRespawnDeadline(c, Queue(m, late)), stragglers), now)
  {
    QueueKeepsArmed(c, m, late, now);
    DeadlinesKeepArmed(c, Queue(m, late), now);
    QueueKeepsArmed(c, OnInitialDeadline(c, Queue(m, late)), stragglers, now);
    QueueKeepsArmed(c, OnRespawnDeadline(c, Queue(m, late)), stragglers, now);
  }

  lemma AskKeepsArmed(c: Config, m: Monitor, now: int)
    requires Armed(c, m, now) && m.current.Some?
    ensures Armed(c, Ask(m), now)
  {
  }

  lemma PoppedKeepsArmed(c: Config, m: Monitor, now: int)
    requires Armed(c, m, now) && m.observations != []
    ensures Armed(c, Popped(m), now)
  {
  }

  lemma TakingKeepsArmed(c: Config, m: Monitor, now: int)
    requires Armed(c, m, now) && m.observations != []
    ensures Armed(c, OnObservation(c, m), now)
  {
    PoppedKeepsArmed(c, m, now);
    if Attempts(c, Popped(m), m.observations[0]) {
      AskKeepsArmed(c, Popped(m), now);
    }
  }

  lemma AnswerKeepsArmed(c: Config, m: Monitor, o: Observation, now: int)
    requires Armed(c, m, now) && m.current.Some?
    ensures Armed(c, Answered(m, o), now) && Answered(m, o).timeoutFired == m.timeoutFired
  {
  }

  lemma BusyKeepsArmed(c: Config, s: State, step: Step)
    requires Armed(c, s.monitor, s.now) && Enabled(c, s, step) && !IsPlain(step)
    ensures Armed(c, Branch(c, s, step), s.now)
  {
    if step.TakeEvent? {
      EventKeepsArmed(c, s.monitor, s.events[0], s.now);
    } else if step.InitialDeadline? || step.RespawnDeadline? {
      DeadlineStepKeepsArmed(c, s.monitor, step.late, step.stragglers, s.now);
    } else if step.TakeObservation? {
      TakingKeepsArmed(c, s.monitor, s.now);
    } else if step.Answer? {
      AnswerKeepsArmed(c, s.monitor, s.at.observation, s.now);
    } else {
      QueueKeepsArmed(c, s.monitor, [step.observation], s.now);
    }
  }

  lemma BranchKeepsArmed(c: Config, s: State, step: Step)
    requires Armed(c, s.monitor, s.now) && Enabled(c, s, step)
    ensures Armed(c, Branch(c, s, step), s.now)
  {
    if IsPlain(step) {
      PlainKeepsArmed(c, s, step);
    } else {
      BusyKeepsArmed(c, s, step);
    }
  }

  lemma StepKeepsArmed(c: Config, s: State, step: Step)
    requires Armed(c, s.monitor, s.now) && Enabled(c, s, step)
    ensures Armed(c, Branch(c, s, step), Apply(c, s, step).now)
  {
    BranchKeepsArmed(c, s, step);
    TimeGoesOn(c, s, step);
    LaterStaysArmed(c, Branch(c, s, step), s.now, Apply(c, s, step).now);
  }

  lemma FiringSpends(c: Config, m: Monitor, now: int, late: seq<Observation>, stragglers: seq<Observation>)
    requires Armed(c, m, now) && !m.timeoutFired
    ensures var t := Queue(OnInitialDeadline(c, Queue(m, late)), stragglers);
      t.timeoutFired ==> t.cancelled && t.current.None? && t.driver.None?
  {
    DrainKeepsArmed(c, Queue(m, late), now);
  }

  lemma OthersKeepUnfired(c: Config, s: State, step: Step)
    requires Armed(c, s.monitor, s.now) && Enabled(c, s, step) && !step.InitialDeadline?
    ensures Branch(c, s, step).timeoutFired == s.monitor.timeoutFired
  {
    if step.TakeEvent? {
      EventKeepsArmed(c, s.monitor, s.events[0], s.now);
    } else if step.RespawnDeadline? {
      DeadlinesKeepArmed(c, Queue(s.monitor, step.late), s.now);
    }
  }

  lemma CancelledStays(c: Config, s: State, step: Step)
    requires s.monitor.probesCancelled && Enabled(c, s, step)
    ensures Branch(c, s, step).probesCancelled
  {
    if step.TakeEvent? {
      CancelledEventIsQuiet(c, s.monitor, s.events[0], s.now);
    } else if step.InitialDeadline? || step.RespawnDeadline? {
      DrainKeepsRun(c, Queue(s.monitor, step.late));
    }
  }

  lemma StepKeepsSpent(c: Config, s: State, step: Step)
    requires Armed(c, s.monitor, s.now) && Spent(s) && Enabled(c, s, step)
    ensures Spent(Apply(c, s, step))
  {
    if s.monitor.probesCancelled {
      CancelledStays(c, s, step);
    } else if s.monitor.timeoutFired {
      assert InLoop(step) ==> step.TakeCancel?;
    } else if step.InitialDeadline? {
      FiringSpends(c, s.monitor, s.now, step.late, step.stragglers);
    } else {
      OthersKeepUnfired(c, s, step);
    }
  }

  lemma {:induction false} RunKeepsArmed(c: Config, s: State, steps: seq<Step>)
    requires IsRun(c, s, steps) && Armed(c, s.monitor, s.now) && Spent(s)
    ensures var t := After(c, s, steps); Armed(c, t.monitor, t.now) && Spent(t)
    decreases |steps|
  {
    if steps != [] {
      StepKeepsArmed(c, s, steps[0]);
      StepKeepsSpent(c, s, steps[0]);
      RunKeepsArmed(c, Apply(c, s, steps[0]), steps[1..]);
    }
  }

  /**
   No start waits for ever. While probing, a run that is not ready always has a
   deadline ahead: the initial one until the instance was ever ready, and a
   respawn deadline, never further away than the startup timeout, afterwards.
   */
  lemma UnreadyRunsHaveADeadline(c: Config, steps: seq<Step>)
    requires IsRun(c, INITIAL, steps)
    requires Waits(After(c, INITIAL, steps).monitor) && !After(c, INITIAL, steps).monitor.probesCancelled
    ensures var t := After(c, INITIAL, steps);
      if t.monitor.everReady then
        t.monitor.respawnDeadline.Some? && t.monitor.respawnDeadline.value <= t.now + c.startupTimeout
      else
        !t.monitor.timeoutFired && t.monitor.respawnDeadline.None?
  {
    RunKeepsArmed(c, INITIAL, steps);
  }

  // ------------------------------------------------------------------ the last drain

  predicate Qualifies(c: Config, m: Monitor, o: Observation) {
    m.current.Some? && Applies(o, m.current.value) && InTime(c, m, o) && o.healthy
  }

  predicate FirstQualifying(c: Config, m: Monitor, k: nat)
    requires k < |m.observations|
  {
    Qualifies(c, m, m.observations[k]) && forall j :: 0 <= j < k ==> !Qualifies(c, m, m.observations[j])
  }

  lemma {:induction false} AskedBeforeNeverReady(c: Config, m: Monitor)
    requires m.current.Some? ==> m.current.value.ackAttempted
    ensures !Drain(c, m).ready
    decreases |m.observations|
  {
    if m.observations != [] {
      AskedBeforeNeverReady(c, Popped(m));
    }
  }

  /** The first qualifying observation in the queue is there and is acknowledged. */
  ghost predicate TimelyReady(c: Config, m: Monitor) {
    exists k :: 0 <= k < |m.observations| && FirstQualifying(c, m, k) && m.observations[k].acknowledged
  }

  lemma SkipUnqualified(c: Config, m: Monitor, popped: Monitor)
    requires m.observations != [] && popped == Popped(m)
    requires !Qualifies(c, m, m.observations[0])
    ensures TimelyReady(c, m) <==> TimelyReady(c, popped)
  {
    if TimelyReady(c, popped) {
      var k :| 0 <= k < |popped.observations| && FirstQualifying(c, popped, k) && popped.observations[k].acknowledged;
      ShiftFirst(c, m, popped, k);
    }
    if TimelyReady(c, m) {
      var k :| 0 <= k < |m.observations| && FirstQualifying(c, m, k) && m.observations[k].acknowledged;
      ShiftFirst(c, m, popped, k - 1);
    }
  }

  lemma HeadDecidesTimely(c: Config, m: Monitor)
    requires m.observations != [] && Qualifies(c, m, m.observations[0])
    ensures TimelyReady(c, m) <==> m.observations[0].acknowledged
  {
    assert FirstQualifying(c, m, 0);
  }

  lemma HeadDecidesDrain(c: Config, m: Monitor)
    requires m.observations != [] && Qualifies(c, m, m.observations[0]) && !m.current.value.ackAttempted
    ensures Drain(c, m).ready <==> m.observations[0].acknowledged
  {
    var popped := Popped(m);
    assert Attempts(c, popped, m.observations[0]);
    if !m.observations[0].acknowledged {
      AskedLeavesAsked(c, m, popped);
      AskedBeforeNeverReady(c, Ask(popped));
    }
  }

  lemma AskedLeavesAsked(c: Config, m: Monitor, popped: Monitor)
    requires m.observations != [] && popped == Popped(m)
    requires Attempts(c, popped, m.observations[0]) && !m.observations[0].acknowledged
    ensures Drain(c, m) == Drain(c, Ask(popped)) && Ask(popped).current.value.ackAttempted
  {
  }

  lemma DrainSkips(c: Config, m: Monitor, popped: Monitor)
    requires m.observations != [] && popped == Popped(m)
    requires !Qualifies(c, m, m.observations[0])
    ensures Drain(c, m) == Drain(c, popped)
  {
    assert !Attempts(c, popped, m.observations[0]);
  }

  /**
   A deadline that fires still honours what was reported in time: draining makes
   an unacknowledged run ready exactly when the first queued observation that is
   its own, healthy and in time is acknowledged.
   */
  lemma {:induction false} DrainHonoursTimelyObservations(c: Config, m: Monitor)
    requires m.current.Some? && !m.current.value.ackAttempted
    ensures Drain(c, m).ready <==> TimelyReady(c, m)
    decreases |m.observations|
  {
    if m.observations != [] {
      if Qualifies(c, m, m.observations[0]) {
        HeadDecidesTimely(c, m);
        HeadDecidesDrain(c, m);
      } else {
        var popped := Popped(m);
        DrainSkips(c, m, popped);
        SkipUnqualified(c, m, popped);
        DrainHonoursTimelyObservations(c, popped);
      }
    }
  }

  lemma ShiftFirst(c: Config, m: Monitor, popped: Monitor, k: nat)
    requires m.observations != [] && popped == Popped(m) && k < |popped.observations|
    requires !Qualifies(c, m, m.observations[0])
    ensures FirstQualifying(c, popped, k) <==> FirstQualifying(c, m, k + 1)
  {
    assert forall j :: 0 <= j < |popped.observations| ==> popped.observations[j] == m.observations[j + 1];
    if FirstQualifying(c, m, k + 1) {
      forall j | 0 <= j < k
        ensures !Qualifies(c, popped, popped.observations[j])
      {
        assert !Qualifies(c, m, m.observations[j + 1]);
      }
    }
    if FirstQualifying(c, popped, k) {
      forall j | 0 <= j < k + 1
        ensures !Qualifies(c, m, m.observations[j])
      {
        if j > 0 {
          assert !Qualifies(c, popped, popped.observations[j - 1]);
        }
      }
    }
  }

  // -------------------------------------------------------------- a requested stop

  /** No queued observation can make the current run ready: it was asked for, or the first that would ask is refused. */
  predicate Blocked(c: Config, m: Monitor) {
    || m.current.None?
    || m.current.value.ackAttempted
    || exists k :: 0 <= k < |m.observations| && FirstQualifying(c, m, k) && !m.observations[k].acknowledged
  }

  lemma BlockedIsNotTimely(c: Config, m: Monitor)
    requires Blocked(c, m)
    ensures !Drain(c, m).ready
  {
    if m.current.None? || m.current.value.ackAttempted {
      AskedBeforeNeverReady(c, m);
    } else {
      DrainHonoursTimelyObservations(c, m);
    }
  }

  lemma MoreStaysBlocked(c: Config, m: Monitor, more: seq<Observation>)
    requires Blocked(c, m)
    ensures Blocked(c, Queue(m, more))
  {
    if m.current.Some? && !m.current.value.ackAttempted {
      var k :| 0 <= k < |m.observations| && FirstQualifying(c, m, k) && !m.observations[k].acknowledged;
      MoreKeepsFirst(c, m, more, k);
      assert !Queue(m, more).observations[k].acknowledged;
    }
  }

  lemma MoreKeepsFirst(c: Config, m: Monitor, more: seq<Observation>, k: nat)
    requires k < |m.observations|
    ensures Queue(m, more).observations[k] == m.observations[k]
    ensures FirstQualifying(c, Queue(m, more), k) <==> FirstQualifying(c, m, k)
  {
    var q := Queue(m, more);
    assert forall j :: 0 <= j <= k ==> q.observations[j] == m.observations[j];
    if FirstQualifying(c, q, k) {
      forall j | 0 <= j < k ensures !Qualifies(c, m, m.observations[j]) {
        assert !Qualifies(c, q, q.observations[j]);
      }
    }
    if FirstQualifying(c, m, k) {
      forall j | 0 <= j < k ensures !Qualifies(c, q, q.observations[j]) {
        assert !Qualifies(c, m, m.observations[j]);
      }
    }
  }

  /** Draining moves into `Running` exactly when it makes the instance ready. */
  predicate MovedIff(m: Monitor, t: Monitor, ready: bool) {
    if ready then |t.moves| > |m.moves| else t.moves == m.moves && t.lifecycle == m.lifecycle
  }

  lemma ObservationMovesIffReady(c: Config, m: Monitor, o: Observation)
    ensures MovedIff(m, ApplyObservation(c, m, o), BecomesReady(c, m, o))
  {
  }

  lemma {:induction false} DrainMovesIffReady(c: Config, m: Monitor)
    ensures MovedIff(m, Drain(c, m).monitor, Drain(c, m).ready)
    decreases |m.observations|
  {
    if m.observations != [] {
      var popped := Popped(m);
      ObservationMovesIffReady(c, popped, m.observations[0]);
      if !BecomesReady(c, popped, m.observations[0]) {
        DrainMovesIffReady(c, ApplyObservation(c, popped, m.observations[0]));
      }
    }
  }

  lemma BlockedDeadlineIsQuiet(c: Config, m: Monitor, late: seq<Observation>)
    requires Blocked(c, m)
    ensures Quiet(m, OnInitialDeadline(c, Queue(m, late))) && Quiet(m, OnRespawnDeadline(c, Queue(m, late)))
    ensures m.cancelled ==>
      OnInitialDeadline(c, Queue(m, late)).cancelled && OnRespawnDeadline(c, Queue(m, late)).cancelled
  {
    MoreStaysBlocked(c, m, late);
    BlockedIsNotTimely(c, Queue(m, late));
    DrainMovesIffReady(c, Queue(m, late));
    DrainKeepsRun(c, Queue(m, late));
  }

  lemma EventIsQuiet(c: Config, m: Monitor, e: Event, now: int)
    ensures Quiet(m, OnEvent(c, m, e, now)) && OnEvent(c, m, e, now).cancelled == m.cancelled
  {
    match e
    case Started(pid) =>
    case RestartScheduled(attempt) =>
    case Exited(clean) =>
    case PreparationFailed =>
    case GaveUp =>
    case SupervisorStopped =>
    case Alive =>
  }

  lemma SameQueueSameBlock(c: Config, m: Monitor, t: Monitor)
    requires Blocked(c, m) && t.observations == m.observations && t.current == m.current
    requires t.everReady == m.everReady && t.respawnDeadline == m.respawnDeadline
    ensures Blocked(c, t)
  {
    if m.current.Some? && !m.current.value.ackAttempted {
      var k :| 0 <= k < |m.observations| && FirstQualifying(c, m, k) && !m.observations[k].acknowledged;
      forall j | 0 <= j <= k ensures Qualifies(c, t, t.observations[j]) == Qualifies(c, m, m.observations[j]) {}
      assert FirstQualifying(c, t, k);
    }
  }

  /** The branch of the deadline ahead of a run that is not ready. */
  function DeadlineArm(m: Monitor): (arm: Arm) {
    if m.everReady then RESPAWN_TIMER else INITIAL_TIMER
  }

  /** The next report, the first in the queue or one still to come, can make the current run ready. */
  predicate ReportMakesReady(c: Config, m: Monitor) {
    && m.current.Some? && !m.current.value.ackAttempted
    && (m.observations != [] ==> Qualifies(c, m, m.observations[0]) && m.observations[0].acknowledged)
  }

  /**
   What the loop does before it polls the cancellation again may still move into
   `Running`: the answer it awaits does; or its pass has yet to come to the run's
   deadline, no event is in the way, and the drain finds nothing to refuse the run;
   or its pass has only the next report to come to, and that one does.
   */
  predicate Overtakable(c: Config, s: State) {
    var m := s.monitor;
    && !m.finished && !m.probesCancelled
    && match s.at
       case Parked => false
       case Awaiting(o) => o.acknowledged
       case Polling(arm) =>
         if arm == EVENTS && s.events != [] then false
         else if arm <= DeadlineArm(m) then !Blocked(c, m)
         else ReportMakesReady(c, m)
  }

  lemma BlockedReport(c: Config, m: Monitor)
    requires Blocked(c, m)
    ensures !ReportMakesReady(c, m)
  {
    if m.current.Some? && !m.current.value.ackAttempted {
      var k :| 0 <= k < |m.observations| && FirstQualifying(c, m, k) && !m.observations[k].acknowledged;
      assert k > 0 ==> !Qualifies(c, m, m.observations[0]);
    }
  }

  /** What others do meanwhile lets nothing overtake the stop. */
  lemma OthersKeepSecure(c: Config, s: State, step: Step)
    requires Enabled(c, s, step) && !InLoop(step) && !Overtakable(c, s)
    ensures !Overtakable(c, Apply(c, s, step)) && Quiet(s.monitor, Branch(c, s, step))
  {
    if Blocked(c, s.monitor) {
      if step.Observe? {
        MoreStaysBlocked(c, s.monitor, [step.observation]);
      } else {
        SameQueueSameBlock(c, s.monitor, Branch(c, s, step));
      }
    }
  }

  /** A pass that goes on has no more to come to. */
  lemma PassKeepsSecure(c: Config, s: State)
    requires Enabled(c, s, Pass) && !Overtakable(c, s)
    ensures !Overtakable(c, Apply(c, s, Pass))
  {
    if Blocked(c, s.monitor) {
      BlockedReport(c, s.monitor);
    }
  }

  /** A branch that is taken moves nothing, and only an observation that asks keeps the loop from starting over. */
  lemma BranchKeepsSecure(c: Config, s: State, step: Step)
    requires Enabled(c, s, step) && InLoop(step) && s.at.Polling? && !step.Pass?
    requires Armed(c, s.monitor, s.now) && !s.monitor.probesCancelled && !Overtakable(c, s)
    ensures !Overtakable(c, Apply(c, s, step)) && Quiet(s.monitor, Branch(c, s, step))
  {
    if step.TakeEvent? {
      EventIsQuiet(c, s.monitor, s.events[0], s.now);
    } else if step.InitialDeadline? || step.RespawnDeadline? {
      BlockedDeadlineIsQuiet(c, s.monitor, step.late);
    } else if step.TakeObservation? && Attempts(c, Popped(s.monitor), s.monitor.observations[0]) {
      assert Qualifies(c, s.monitor, s.monitor.observations[0]);
    }
  }

  lemma StepKeepsSecure(c: Config, s: State, step: Step)
    requires StateInv(c, s) && Armed(c, s.monitor, s.now) && s.monitor.cancelled && Enabled(c, s, step)
    requires !Overtakable(c, s)
    ensures !Overtakable(c, Apply(c, s, step)) && Quiet(s.monitor, Branch(c, s, step))
  {
    if s.monitor.probesCancelled {
      CancelledStaysCancelled(c, s, step);
    } else if !InLoop(step) {
      OthersKeepSecure(c, s, step);
    } else if step.Pass? {
      PassKeepsSecure(c, s);
    } else if s.at.Polling? {
      BranchKeepsSecure(c, s, step);
    }
  }

  lemma StopStaysRequested(c: Config, s: State, step: Step)
    requires Enabled(c, s, step) && s.monitor.cancelled
    ensures Branch(c, s, step).cancelled
  {
    if step.TakeEvent? {
      EventIsQuiet(c, s.monitor, s.events[0], s.now);
    } else if step.InitialDeadline? || step.RespawnDeadline? {
      DrainKeepsRun(c, Queue(s.monitor, step.late));
    }
  }

  lemma {:induction false} SecureNeverRuns(c: Config, s: State, steps: seq<Step>)
    requires IsRun(c, s, steps) && StateInv(c, s) && Armed(c, s.monitor, s.now)
    requires s.monitor.cancelled && !Overtakable(c, s)
    requires s.monitor.nextRunId <= LAST_RUN && After(c, s, steps).monitor.nextRunId < LAST_RUN
    ensures Quiet(s.monitor, After(c, s, steps).monitor)
    decreases |steps|
  {
    if steps != [] {
      NumbersGrow(c, Apply(c, s, steps[0]), steps[1..]);
      RunNumbersGrow(c, s, steps[0]);
      StepKeepsInv(c, s, steps[0]);
      StepKeepsArmed(c, s, steps[0]);
      StepKeepsSecure(c, s, steps[0]);
      StopStaysRequested(c, s, steps[0]);
      SecureNeverRuns(c, Apply(c, s, steps[0]), steps[1..]);
    }
  }

  /** A healthy report of the current run, completed just in time. */
  function JustInTime(c: Config, m: Monitor): (o: Observation)
    requires m.current.Some?
  {
    var r := m.current.value;
    var deadline := if m.respawnDeadline.Some? then m.respawnDeadline.value else c.initialDeadline;
    Observation(r.runId, r.pid, deadline, true, true)
  }

  /** What has to be reported late for the next drain to make the run ready. */
  lemma LateMakesReady(c: Config, m: Monitor, now: int) returns (late: seq<Observation>)
    requires Inv(c, m) && !m.finished && !m.probesCancelled && Armed(c, m, now) && !Blocked(c, m)
    ensures AllFromDriver(m, late) && Drain(c, Queue(m, late)).ready
  {
    var o := JustInTime(c, m);
    if k :| 0 <= k < |m.observations| && FirstQualifying(c, m, k) {
      late := [];
      MoreKeepsFirst(c, m, late, k);
    } else {
      late := [o];
      NoneQualifies(c, m);
      FirstOfAll(c, m, o);
    }
    DrainHonoursTimelyObservations(c, Queue(m, late));
  }

  /** With no first qualifying observation there is none at all. */
  lemma NoneQualifies(c: Config, m: Monitor)
    requires forall k :: 0 <= k < |m.observations| ==> !FirstQualifying(c, m, k)
    ensures forall k :: 0 <= k < |m.observations| ==> !Qualifies(c, m, m.observations[k])
  {
    var n := 0;
    while n < |m.observations|
      invariant n <= |m.observations| && forall k :: 0 <= k < n ==> !Qualifies(c, m, m.observations[k])
    {
      assert !FirstQualifying(c, m, n);
      n := n + 1;
    }
  }

  lemma FirstOfAll(c: Config, m: Monitor, o: Observation)
    requires Qualifies(c, m, o) && o.acknowledged
    requires forall k :: 0 <= k < |m.observations| ==> !Qualifies(c, m, m.observations[k])
    ensures TimelyReady(c, Queue(m, [o]))
  {
    var q := Queue(m, [o]);
    forall j | 0 <= j < |m.observations| ensures !Qualifies(c, q, q.observations[j]) {
      assert !Qualifies(c, m, m.observations[j]);
    }
    assert FirstQualifying(c, q, |m.observations|);
  }

  lemma RunFrom(c: Config, s: State, step: Step, rest: seq<Step>)
    requires Enabled(c, s, step) && IsRun(c, Apply(c, s, step), rest)
    ensures IsRun(c, s, [step] + rest) && After(c, s, [step] + rest) == After(c, Apply(c, s, step), rest)
  {
    assert ([step] + rest)[1..] == rest;
  }

  lemma RunOfTwo(c: Config, s: State, first: Step, second: Step)
    requires Enabled(c, s, first) && Enabled(c, Apply(c, s, first), second)
    ensures IsRun(c, s, [first] + [second]) && After(c, s, [first] + [second]) == Apply(c, Apply(c, s, first), second)
  {
    RunFrom(c, Apply(c, s, first), second, []);
    assert [second] + [] == [second];
    RunFrom(c, s, first, [second]);
  }

  lemma HeadFirst(first: seq<Step>, second: seq<Step>)
    requires first != []
    ensures [first[0]] + (first[1..] + second) == first + second
  {
  }

  lemma {:induction false} RunJoin(c: Config, s: State, first: seq<Step>, second: seq<Step>)
    requires IsRun(c, s, first) && IsRun(c, After(c, s, first), second)
    ensures IsRun(c, s, first + second) && After(c, s, first + second) == After(c, After(c, s, first), second)
    decreases |first|
  {
    if first == [] {
      assert first + second == second;
    } else {
      RunJoin(c, Apply(c, s, first[0]), first[1..], second);
      RunFrom(c, s, first[0], first[1..] + second);
      HeadFirst(first, second);
    }
  }

  /** A pass goes by the branches that need not be taken. */
  lemma {:induction false} PassTo(c: Config, s: State, arm: Arm) returns (steps: seq<Step>)
    requires s.at.Polling? && s.at.arm <= arm && !s.monitor.finished
    requires forall a: nat :: s.at.arm <= a < arm ==> !MustTake(c, s, a)
    ensures IsRun(c, s, steps) && After(c, s, steps) == s.(at := Polling(arm))
    decreases arm - s.at.arm
  {
    if s.at.arm == arm {
      return [];
    }
    var t := Apply(c, s, Pass);
    assert t == s.(at := Polling(s.at.arm + 1));
    forall a: nat | t.at.arm <= a < arm ensures !MustTake(c, t, a) {
      assert !MustTake(c, s, a);
    }
    var rest := PassTo(c, t, arm);
    RunFrom(c, s, Pass, rest);
    steps := [Pass] + rest;
  }

  /** The pass comes to the run's deadline when that is due, and the drain makes the run ready after all. */
  lemma DrainOvertakes(c: Config, s: State) returns (steps: seq<Step>)
    requires StateInv(c, s) && Armed(c, s.monitor, s.now) && Spent(s) && Overtakable(c, s)
    requires s.at.Polling? && s.at.arm <= DeadlineArm(s.monitor)
    ensures IsRun(c, s, steps) && |After(c, s, steps).monitor.moves| > |s.monitor.moves|
    ensures After(c, s, steps).monitor.nextRunId == s.monitor.nextRunId
  {
    var m, arm := s.monitor, DeadlineArm(s.monitor);
    var passes := PassTo(c, s, arm);
    var t := s.(at := Polling(arm));
    var late := LateMakesReady(c, m, s.now);
    var deadline := if m.everReady then m.respawnDeadline.value else c.initialDeadline;
    var wait := Tick(if deadline > s.now then deadline else s.now);
    var fire := if m.everReady then RespawnDeadline(late, []) else InitialDeadline(late, []);
    RunOfTwo(c, t, wait, fire);
    DrainMovesIffReady(c, Queue(m, late));
    DeadlineKeepsNumber(c, Queue(m, late));
    RunJoin(c, s, passes, [wait] + [fire]);
    steps := passes + ([wait] + [fire]);
  }

  /** The first report in the queue is taken, and the supervisor accepts. */
  lemma QueuedReportOvertakes(c: Config, s: State)
    requires s.at == Polling(REPORTS) && s.monitor.observations != [] && !s.monitor.finished
    requires ReportMakesReady(c, s.monitor)
    ensures IsRun(c, s, [TakeObservation] + [Answer])
    ensures var t := After(c, s, [TakeObservation] + [Answer]);
      |t.monitor.moves| > |s.monitor.moves| && t.monitor.nextRunId == s.monitor.nextRunId
  {
    assert Attempts(c, Popped(s.monitor), s.monitor.observations[0]);
    RunOfTwo(c, s, TakeObservation, Answer);
  }

  lemma NextReportOvertakes(c: Config, s: State) returns (steps: seq<Step>)
    requires StateInv(c, s) && !s.monitor.finished && !s.monitor.probesCancelled
    requires s.at == Polling(REPORTS) && ReportMakesReady(c, s.monitor) && Armed(c, s.monitor, s.now)
    ensures IsRun(c, s, steps) && |After(c, s, steps).monitor.moves| > |s.monitor.moves|
    ensures After(c, s, steps).monitor.nextRunId == s.monitor.nextRunId
  {
    steps := [TakeObservation] + [Answer];
    if s.monitor.observations == [] {
      var report := Observe(JustInTime(c, s.monitor));
      QueuedReportOvertakes(c, Apply(c, s, report));
      RunFrom(c, s, report, steps);
      steps := [report] + steps;
    } else {
      QueuedReportOvertakes(c, s);
    }
  }

  /** The pass comes to a report that makes the run ready. */
  lemma ReportOvertakes(c: Config, s: State) returns (steps: seq<Step>)
    requires StateInv(c, s) && Armed(c, s.monitor, s.now) && Overtakable(c, s)
    requires s.at.Polling? && s.at.arm > DeadlineArm(s.monitor)
    ensures IsRun(c, s, steps) && |After(c, s, steps).monitor.moves| > |s.monitor.moves|
    ensures After(c, s, steps).monitor.nextRunId == s.monitor.nextRunId
  {
    var passes := PassTo(c, s, REPORTS);
    var t := s.(at := Polling(REPORTS));
    var rest := NextReportOvertakes(c, t);
    RunJoin(c, s, passes, rest);
    steps := passes + rest;
  }

  lemma AnswerOvertakes(c: Config, s: State)
    requires StateInv(c, s) && Overtakable(c, s) && s.at.Awaiting?
    ensures IsRun(c, s, [Answer] + []) && |After(c, s, [Answer] + []).monitor.moves| > |s.monitor.moves|
    ensures After(c, s, [Answer] + []).monitor.nextRunId == s.monitor.nextRunId
  {
    RunFrom(c, s, Answer, []);
  }

  lemma OvertakesStop(c: Config, s: State) returns (steps: seq<Step>)
    requires StateInv(c, s) && Armed(c, s.monitor, s.now) && Spent(s) && Overtakable(c, s)
    ensures IsRun(c, s, steps) && |After(c, s, steps).monitor.moves| > |s.monitor.moves|
    ensures After(c, s, steps).monitor.nextRunId == s.monitor.nextRunId
  {
    if s.at.Awaiting? {
      AnswerOvertakes(c, s);
      steps := [Answer] + [];
    } else if s.at.arm <= DeadlineArm(s.monitor) {
      steps := DrainOvertakes(c, s);
    } else {
      steps := ReportOvertakes(c, s);
    }
  }

  /**
   The counter of runs must not saturate: from then on a restarted run has the
   number of the one before it, and is acknowledged under it again.
   */
  lemma SaturatedNumberIsAskedTwice(c: Config, m: Monitor, pid: nat, now: int)
    requires m.nextRunId == LAST_RUN && m.attempts != [] && m.attempts[|m.attempts| - 1] == LAST_RUN
    ensures var t := OnStarted(c, m, pid, now); !Rising(ApplyObservation(c, t, JustInTime(c, t)).attempts)
  {
    var t := OnStarted(c, m, pid, now);
    var o := JustInTime(c, t);
    var n := |m.attempts|;
    assert Attempts(c, t, o);
    assert ApplyObservation(c, t, o).attempts == m.attempts + [LAST_RUN];
    assert (m.attempts + [LAST_RUN])[n - 1] == (m.attempts + [LAST_RUN])[n];
  }

  /** Whether no continuation of `s` moves into `Running`. */
  ghost predicate StopIsFinal(c: Config, s: State) {
    forall steps :: StaysDown(c, s, steps)
  }

  predicate StaysDown(c: Config, s: State, steps: seq<Step>) {
    IsRun(c, s, steps) && After(c, s, steps).monitor.nextRunId < LAST_RUN ==>
      After(c, s, steps).monitor.moves == s.monitor.moves
  }

  /**
   When a requested stop is final. Once it was requested, no continuation moves
   into `Running` if and only if nothing the loop has begun can overtake it. A loop
   that is parked has begun nothing: there the stop always wins.
   */
  lemma RequestedStopIsFinalIff(c: Config, before: seq<Step>)
    requires IsRun(c, INITIAL, before) && After(c, INITIAL, before).monitor.nextRunId < LAST_RUN
    requires After(c, INITIAL, before).monitor.cancelled
    ensures var s := After(c, INITIAL, before);
      && (StopIsFinal(c, s) <==> !Overtakable(c, s))
      && (s.at.Parked? ==> StopIsFinal(c, s))
  {
    var s := After(c, INITIAL, before);
    RunKeepsInv(c, INITIAL, before);
    RunKeepsArmed(c, INITIAL, before);
    if Overtakable(c, s) {
      var steps := OvertakesStop(c, s);
      assert !StaysDown(c, s, steps);
    } else {
      forall steps ensures StaysDown(c, s, steps) {
        if IsRun(c, s, steps) && After(c, s, steps).monitor.nextRunId < LAST_RUN {
          SecureNeverRuns(c, s, steps);
        }
      }
    }
  }

  /** A report of the first run's driver, in time and accepted. */
  function FirstReport(c: Config, pid: nat): (o: Observation) {
    Observation(1, pid, c.initialDeadline, true, true)
  }

  /** A first run has started and its report is queued. */
  lemma ReportIsQueued(c: Config, pid: nat) returns (steps: seq<Step>, s: State)
    ensures IsRun(c, INITIAL, steps) && s == After(c, INITIAL, steps)
    ensures s.monitor.current == Some(Run(1, pid, false, false)) && s.monitor.observations == [FirstReport(c, pid)]
    ensures s.monitor == FRESH.(nextRunId := 1, current := s.monitor.current, driver := Some(Tag(1, pid)),
                                observations := s.monitor.observations)
    ensures s.events == [] && s.now == 0 && s.at == Parked
  {
    var a := Apply(c, INITIAL, Send(Started(pid)));
    var b := Apply(c, a, Poll);
    var report := Observe(FirstReport(c, pid));
    RunOfTwo(c, b, TakeEvent, report);
    RunFrom(c, a, Poll, [TakeEvent] + [report]);
    RunFrom(c, INITIAL, Send(Started(pid)), [Poll] + ([TakeEvent] + [report]));
    steps := [Send(Started(pid))] + ([Poll] + ([TakeEvent] + [report]));
    s := Apply(c, Apply(c, b, TakeEvent), report);
  }

  /** A pass takes the report and asks. */
  lemma ReportIsTaken(c: Config, s: State) returns (steps: seq<Step>)
    requires s.at.Parked? && s.events == [] && s.now < c.initialDeadline && !s.monitor.finished && !s.monitor.cancelled
    requires s.monitor.respawnDeadline.None? && s.monitor.observations != []
    requires Attempts(c, Popped(s.monitor), s.monitor.observations[0])
    ensures IsRun(c, s, steps)
    ensures After(c, s, steps) == s.(monitor := Ask(Popped(s.monitor)), at := Awaiting(s.monitor.observations[0]))
  {
    var t := Apply(c, s, Poll);
    var passes := PassTo(c, t, REPORTS);
    var u := t.(at := Polling(REPORTS));
    RunFrom(c, u, TakeObservation, []);
    RunJoin(c, t, passes, [TakeObservation] + []);
    RunFrom(c, s, Poll, passes + ([TakeObservation] + []));
    steps := [Poll] + (passes + ([TakeObservation] + []));
  }

  /** A stop requested while the supervisor's answer to a report is awaited: the answer still moves into `Running`. */
  lemma StopCanBeOvertaken(c: Config, pid: nat) returns (before: seq<Step>)
    requires c.initialDeadline > 0
    ensures IsRun(c, INITIAL, before) && After(c, INITIAL, before).at.Awaiting?
    ensures !After(c, INITIAL, before).monitor.cancelled
    ensures var stopped := [RequestStop] + [Answer];
      && IsRun(c, After(c, INITIAL, before), stopped)
      && var m := After(c, After(c, INITIAL, before), stopped).monitor; m.userStop && m.lifecycle == Running(pid)
  {
    var queued, s := ReportIsQueued(c, pid);
    var taken := ReportIsTaken(c, s);
    RunJoin(c, INITIAL, queued, taken);
    before := queued + taken;
    RunOfTwo(c, After(c, INITIAL, before), RequestStop, Answer);
  }

  // ---------------------------------------------------------------------- objects

  /** The loop's own state, with what it shares with the instance; the last two fields are history. */
  class MonitorLoop {
    const config: Config
    var probesCancelled: bool
    var everReady: bool
    var timeoutFired: bool
    var nextRunId: nat
    var current: Option<Run>
    var driver: Option<Tag>
    var respawnDeadline: Option<int>
    var exitedCleanly: bool
    var cancelled: bool
    var userStop: bool
    var probeTimeout: bool
    var lifecycle: Lifecycle
    var observations: seq<Observation>
    var finished: bool
    ghost var moves: seq<Move>
    ghost var attempts: seq<nat>

    ghost function View(): (r: Monitor)
      reads this
    {
      Monitor(probesCancelled, everReady, timeoutFired, nextRunId, current, driver, respawnDeadline, exitedCleanly,
        cancelled, userStop, probeTimeout, lifecycle, observations, moves, attempts, finished)
    }

    constructor (config: Config)
      ensures View() == FRESH && this.config == config
    {
      this.config := config;
      probesCancelled, everReady, timeoutFired, nextRunId := false, false, false, 0;
      current, driver, respawnDeadline, exitedCleanly := None, None, None, false;
      cancelled, userStop, probeTimeout, lifecycle := false, false, false, Starting;
      observations, finished, moves, attempts := [], false, [], [];
    }

    method AskSupervisor()
      requires current.Some?
      modifies this`current, this`attempts
      ensures View() == Ask(old(View()))
    {
      attempts := attempts + [current.value.runId];
      current := Some(current.value.(ackAttempted := true));
    }

    method PublishRunning(o: Observation)
      requires current.Some?
      modifies this`current, this`everReady, this`respawnDeadline, this`lifecycle, this`moves
      ensures View() == MoveToRunning(old(View()), o)
    {
      moves := moves + [Move(o, current.value, driver, everReady, respawnDeadline)];
      everReady := true;
      respawnDeadline := None;
      lifecycle := Running(current.value.pid);
      current := Some(current.value.(ready := true));
    }

    /** Reconciles one observation; true when it made the instance ready. */
    method Reconcile(o: Observation) returns (ready: bool)
      modifies this
      ensures View() == ApplyObservation(config, old(View()), o)
      ensures ready == BecomesReady(config, old(View()), o)
    {
      if current.None? || o.runId != current.value.runId || o.pid != current.value.pid {
        return false;
      }
      var beyondInitial := !everReady && o.completedAt > config.initialDeadline;
      var beyondRespawn := respawnDeadline.Some? && o.completedAt > respawnDeadline.value;
      if beyondInitial || beyondRespawn || current.value.ackAttempted || !o.healthy {
        return false;
      }
      AskSupervisor();
      if o.acknowledged {
        PublishRunning(o);
      }
      ready := o.acknowledged;
    }

    /** Takes what is queued until something makes the instance ready. */
    method DrainObservations() returns (ready: bool)
      modifies this
      ensures Drained(View(), ready) == Drain(config, old(View()))
    {
      while observations != []
        invariant Drain(config, View()) == Drain(config, old(View()))
        decreases |observations|
      {
        var o := observations[0];
        observations := observations[1..];
        ghost var popped := View();
        ready := Reconcile(o);
        if ready {
          return true;
        }
      }
      ready := false;
    }

    method StopProbing()
      modifies this`probeTimeout, this`cancelled, this`current, this`respawnDeadline, this`driver
      ensures View() == GiveUp(old(View()))
    {
      current, respawnDeadline, driver := None, None, None;
      probeTimeout, cancelled := true, true;
    }

    method InitialDeadlineFired()
      modifies this
      ensures View() == OnInitialDeadline(config, old(View()))
    {
      var ready := DrainObservations();
      if !ready && !everReady {
        timeoutFired := true;
        StopProbing();
      }
    }

    method RespawnDeadlineFired()
      modifies this
      ensures View() == OnRespawnDeadline(config, old(View()))
    {
      var ready := DrainObservations();
      if !ready && respawnDeadline.Some? {
        StopProbing();
      }
    }

    method ProbeCancelled()
      modifies this
      ensures View() == OnCancel(old(View()))
    {
      probesCancelled := true;
      driver, current, respawnDeadline := None, None, None;
    }

    method CoreStarted(pid: nat, now: int)
      modifies this
      ensures View() == OnStarted(config, old(View()), pid, now)
    {
      driver := None;
      nextRunId := if nextRunId >= LAST_RUN then LAST_RUN else nextRunId + 1;
      current := Some(Run(nextRunId, pid, false, false));
      respawnDeadline := if everReady then Some(now + config.startupTimeout) else None;
      if !probesCancelled {
        driver := Some(Tag(nextRunId, pid));
      }
    }

    method CoreLeft()
      modifies this`driver, this`current, this`respawnDeadline
      ensures View() == old(View()).(driver := None, current := None, respawnDeadline := None)
    {
      driver, current, respawnDeadline := None, None, None;
    }

    method EndLoop(reason: StopReason)
      modifies this`driver, this`lifecycle, this`finished
      ensures View() == Terminate(old(View()), reason)
    {
      driver, lifecycle, finished := None, Stopped(reason), true;
    }

    method SupervisorReported(e: Event, now: int)
      modifies this
      ensures View() == OnEvent(config, old(View()), e, now)
    {
      match e
      case Started(pid) =>
        CoreStarted(pid, now);
      case RestartScheduled(attempt) =>
        CoreLeft();
        lifecycle := Restarting(attempt);
      case Exited(clean) =>
        CoreLeft();
        exitedCleanly := clean;
      case PreparationFailed =>
        EndLoop(Failed);
      case GaveUp =>
        EndLoop(Failed);
      case SupervisorStopped =>
        var reason :=
          if userStop then User else if probeTimeout then TimedOut else if exitedCleanly then Finished else Failed;
        EndLoop(reason);
      case Alive =>
    }
  }
}
