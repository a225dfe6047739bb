/**
 Status publication: two coalescing watch channels (the manager's status and the
 wire-type echo) feed one bridge task, which feeds a lossy broadcast ring read by
 any number of connections, each of which resubscribes and resends a snapshot
 when it lags.

 Every atomic read, mark and send is a step of its own, so any interleaving of
 publishers, the bridge and the connections is a run.
 */
module StatusBridge {
  import opened Wrappers

  // ------------------------------------------------------------ wire projection

  datatype ManagerState =
    | Stopped(reason: Option<string>)
    | Starting(epoch: nat)
    | Running(epoch: nat, pid: nat)
    | Restarting(epoch: nat, attempt: nat)
    | Switching(from: Option<nat>, to: nat)
    | Stopping(epoch: nat)

  /** The manager's snapshot; `detail` stands for the fields the projection copies. */
  datatype CoreStatus = CoreStatus(state: ManagerState, changedAt: int, detail: string)

  datatype WireState = WireRunning | WireStopped(reason: Option<string>)

  datatype CoreInfos =
    CoreInfos(coreType: Option<string>, wireState: WireState, state: ManagerState, changedAt: int, detail: string)

  datatype Event = StatusChanged(infos: CoreInfos) | StateChanged(state: WireState)

  function MapCoreState(state: ManagerState): (r: WireState) {
    match state
    case Running(_, _) => WireRunning
    case Switching(_, _) => WireRunning
    case Stopping(_) => WireRunning
    case Starting(_) => WireStopped(None)
    case Restarting(_, _) => WireStopped(None)
    case Stopped(reason) => WireStopped(reason)
  }

  function Project(status: CoreStatus, echo: Option<string>): (r: CoreInfos) {
    CoreInfos(echo, MapCoreState(status.state), status.state, status.changedAt, status.detail)
  }

  /** The guards of the legacy stream: an arrival at Stopping or Switching never resurrects a stopped core. */
  predicate Suppressed(last: WireState, raw: CoreStatus) {
    || ((raw.state.Stopping? || raw.state.Switching?) && last.WireStopped?)
    || last == MapCoreState(raw.state)
  }

  // --------------------------------------------------------------------- states

  /** A watch channel with one receiver: the value, how often it was sent, and the last version seen. */
  datatype Watch<T> = Watch(value: T, version: nat, seen: nat)

  function Publish<T>(w: Watch<T>, value: T): (r: Watch<T>) {
    Watch(value, w.version + 1, w.seen)
  }

  function MarkSeen<T>(w: Watch<T>): (r: Watch<T>) {
    w.(seen := w.version)
  }

  datatype Bridge =
    | NotStarted
    | Waiting
    | StatusWoke                                     // `states.changed()` returned
    | StatusRead(raw: CoreStatus)                    // status read and marked
    | StatusReady(raw: CoreStatus, echo: Option<string>)
    | StatusSent(raw: CoreStatus)                    // snapshot sent, legacy frame pending
    | EchoWoke                                       // `requested_core.changed()` returned
    | EchoPeeked(raw: CoreStatus)                    // status borrowed, not marked
    | EchoReady(raw: CoreStatus, echo: Option<string>)

  datatype Turn =
    | Subscribed                                     // subscribed, snapshot not read yet
    | SnapshotRead(raw: CoreStatus)                  // status read, echo not yet
    | SnapshotReady(raw: CoreStatus, echo: Option<string>)
    | Receiving
    | Lagging                                        // told it lagged, not resubscribed yet

  /**
   One connection: where it stands in the ring, its turn, the last status its
   client was sent, and, as history, the status its latest snapshot was read from.
   */
  datatype Connection = Connection(pos: nat, turn: Turn, shown: Option<CoreInfos>, taken: Option<CoreStatus>)

  datatype State = State(
    status: Watch<CoreStatus>,
    echo: Watch<Option<string>>,
    bridge: Bridge,
    last: WireState,
    ring: seq<Event>,                // everything ever sent; a reader reaches only the newest `capacity`
    connections: map<nat, Connection>,
    announced: CoreInfos,            // history: the newest status frame, or the snapshot the bridge began with
    first: WireState)                // history: the wire state the bridge began with

  datatype Step =
    | PublishStatus(status: CoreStatus)
    | PublishEcho(echo: Option<string>)
    | StartBridge
    | WakeOnStatus
    | WakeOnEcho
    | Advance
    | Connect(client: nat)
    | Disconnect(client: nat)
    | ReadSnapshot(client: nat)
    | SendSnapshot(client: nat)
    | Receive(client: nat)
    | Resubscribe(client: nat)

  const CAPACITY: nat := 256

  predicate Initial(s: State) {
    s.bridge.NotStarted? && s.ring == [] && s.connections == map[] && s.echo.seen <= s.echo.version
  }

  predicate Enabled(s: State, step: Step) {
    match step
    case PublishStatus(_) => true
    case PublishEcho(_) => true
    case StartBridge => s.bridge.NotStarted?
    case WakeOnStatus => s.bridge.Waiting? && s.status.seen < s.status.version
    case WakeOnEcho => s.bridge.Waiting? && s.echo.seen < s.echo.version
    case Advance => !s.bridge.NotStarted? && !s.bridge.Waiting?
    case Connect(client) => client !in s.connections
    case Disconnect(client) => client in s.connections
    case ReadSnapshot(client) =>
      client in s.connections && (s.connections[client].turn.Subscribed? || s.connections[client].turn.SnapshotRead?)
    case SendSnapshot(client) => client in s.connections && s.connections[client].turn.SnapshotReady?
    case Receive(client) =>
      client in s.connections && s.connections[client].turn.Receiving? && s.connections[client].pos < |s.ring|
    case Resubscribe(client) => client in s.connections && s.connections[client].turn.Lagging?
  }

  /** The bridge's own next atomic action inside a turn. */
  function AdvanceBridge(s: State): (r: State)
    requires !s.bridge.NotStarted? && !s.bridge.Waiting?
  {
    match s.bridge
    case StatusWoke => s.(status := MarkSeen(s.status), bridge := StatusRead(s.status.value))
    case StatusRead(raw) => s.(echo := MarkSeen(s.echo), bridge := StatusReady(raw, s.echo.value))
    case StatusReady(raw, echo) =>
      s.(ring := s.ring + [StatusChanged(Project(raw, echo))],
         announced := Project(raw, echo), bridge := StatusSent(raw))
    case StatusSent(raw) =>
      if Suppressed(s.last, raw) then s.(bridge := Waiting)
      else
        s.(ring := s.ring + [StateChanged(MapCoreState(raw.state))], last := MapCoreState(raw.state), bridge := Waiting)
    case EchoWoke => s.(bridge := EchoPeeked(s.status.value))
    case EchoPeeked(raw) => s.(echo := MarkSeen(s.echo), bridge := EchoReady(raw, s.echo.value))
    case EchoReady(raw, echo) =>
      s.(ring := s.ring + [StatusChanged(Project(raw, echo))], announced := Project(raw, echo), bridge := Waiting)
  }

  function ReadNext(s: State, turn: Turn): (r: Turn) {
    match turn
    case SnapshotRead(raw) => SnapshotReady(raw, s.echo.value)
    case _ => SnapshotRead(s.status.value)
  }

  /** One `recv`: the next event, or word of a lag once the ring has overwritten it. */
  function ReceiveNext(s: State, c: Connection): (r: Connection)
    requires c.pos < |s.ring|
  {
    if |s.ring| - c.pos > CAPACITY then c.(turn := Lagging)
    else
      match s.ring[c.pos]
      case StatusChanged(infos) => c.(pos := c.pos + 1, shown := Some(infos))
      case StateChanged(_) => c.(pos := c.pos + 1)
  }

  function Apply(s: State, step: Step): (r: State)
    requires Enabled(s, step)
  {
    match step
    case PublishStatus(status) => s.(status := Publish(s.status, status))
    case PublishEcho(echo) => s.(echo := Publish(s.echo, echo))
    case StartBridge =>
      s.(status := MarkSeen(s.status), bridge := Waiting, last := MapCoreState(s.status.value.state),
         first := MapCoreState(s.status.value.state), announced := Project(s.status.value, s.echo.value))
    case WakeOnStatus => s.(status := MarkSeen(s.status), bridge := StatusWoke)
    case WakeOnEcho => s.(echo := MarkSeen(s.echo), bridge := EchoWoke)
    case Advance => AdvanceBridge(s)
    case Connect(client) => s.(connections := s.connections[client := Connection(|s.ring|, Subscribed, None, None)])
    case Disconnect(client) => s.(connections := s.connections - {client})
    case ReadSnapshot(client) =>
      var c := s.connections[client];
      var taken := if c.turn.SnapshotRead? then c.taken else Some(s.status.value);
      s.(connections := s.connections[client := c.(turn := ReadNext(s, c.turn), taken := taken)])
    case SendSnapshot(client) =>
      var c := s.connections[client];
      s.(connections := s.connections[client := c.(turn := Receiving, shown := Some(Project(c.turn.raw, c.turn.echo)))])
    case Receive(client) => s.(connections := s.connections[client := ReceiveNext(s, s.connections[client])])
    case Resubscribe(client) =>
      s.(connections := s.connections[client := s.connections[client].(pos := |s.ring|, turn := Subscribed)])
  }

  // ----------------------------------------------------------------- invariants

  predicate AllSeen(s: State) {
    s.status.seen == s.status.version && s.echo.seen == s.echo.version
  }

  /** Nothing is on its way: the bridge waits and has seen both channels. */
  predicate Settled(s: State) {
    s.bridge.Waiting? && AllSeen(s)
  }

  function Current(s: State): (r: CoreInfos) {
    Project(s.status.value, s.echo.value)
  }

  /** The last status frame among `events`, if there is one. */
  function LastStatus(events: seq<Event>): (r: Option<CoreInfos>) {
    if events == [] then None
    else
      var e := events[|events| - 1];
      if e.StatusChanged? then Some(e.infos) else LastStatus(events[..|events| - 1])
  }

  /** The legacy frames among `events`, in order. */
  function Legacy(events: seq<Event>): (r: seq<WireState>) {
    if events == [] then []
    else
      var e := events[|events| - 1];
      Legacy(events[..|events| - 1]) + if e.StateChanged? then [e.state] else []
  }

  predicate Unrepeated(legacy: seq<WireState>) {
    forall i :: 0 < i < |legacy| ==> legacy[i] != legacy[i - 1]
  }

  /** What a legacy client was last told, or with no frame the wire state the bridge began with. */
  function Told(s: State): (r: WireState) {
    var legacy := Legacy(s.ring);
    if legacy == [] then s.first else legacy[|legacy| - 1]
  }

  predicate InStatusTurn(bridge: Bridge) {
    bridge.StatusWoke? || bridge.StatusRead? || bridge.StatusReady? || bridge.StatusSent?
  }

  /** What the bridge holds is current unless the channel it came from has moved on unseen. */
  predicate BridgeFresh(s: State) {
    && (LastStatus(s.ring).Some? ==> LastStatus(s.ring) == Some(s.announced))
    && var statusSeen := s.status.seen == s.status.version;
       var echoSeen := s.echo.seen == s.echo.version;
       match s.bridge
       case Waiting => statusSeen && echoSeen ==> s.announced == Current(s)
       case StatusRead(raw) => statusSeen ==> raw == s.status.value
       case StatusReady(raw, echo) => (statusSeen ==> raw == s.status.value) && (echoSeen ==> echo == s.echo.value)
       case StatusSent(raw) =>
         (statusSeen ==> raw == s.status.value) && (statusSeen && echoSeen ==> s.announced == Current(s))
       case EchoPeeked(raw) => statusSeen ==> raw == s.status.value
       case EchoReady(raw, echo) => (statusSeen ==> raw == s.status.value) && (echoSeen ==> echo == s.echo.value)
       case _ => true
  }

  /** The legacy stream never repeats itself, ends at `last`, and owes nothing once the status is seen. */
  predicate LegacyFresh(s: State) {
    var legacy := Legacy(s.ring);
    && Unrepeated(legacy)
    && (legacy != [] ==> legacy[0] != s.first)
    && s.last == Told(s)
    && (!InStatusTurn(s.bridge) && s.status.seen == s.status.version ==> Suppressed(s.last, s.status.value))
  }

  /** The bridge is not about to send a status frame. */
  predicate Quiet(s: State) {
    s.bridge.Waiting? || s.bridge.StatusSent?
  }

  /**
   With no status frame left for it in the ring and none about to be sent, what
   a connection has shown, or is about to show, is current.
   */
  predicate ConnectionFresh(s: State, c: Connection) {
    && c.pos <= |s.ring|
    && (c.turn.Lagging? ==> c.pos < |s.ring|)
    && (LastStatus(s.ring[c.pos..]).None? && Quiet(s) && AllSeen(s) ==>
          match c.turn
          case SnapshotRead(raw) => raw == s.status.value
          case SnapshotReady(raw, echo) => raw == s.status.value && echo == s.echo.value
          case Receiving => c.shown == Some(Current(s))
          case _ => true)
  }

  /** Before the bridge starts a connection shows its snapshot, and an unmoved echo is the one it read. */
  predicate EarlyConnection(s: State, c: Connection) {
    && c.pos == 0
    && match c.turn
       case Subscribed => c.taken.None?
       case SnapshotRead(raw) => c.taken == Some(raw)
       case SnapshotReady(raw, echo) => c.taken == Some(raw) && (s.echo.seen == s.echo.version ==> echo == s.echo.value)
       case Receiving =>
         && c.shown.Some? && c.taken.Some?
         && c.shown.value == Project(c.taken.value, c.shown.value.coreType)
         && (s.echo.seen == s.echo.version ==> c.shown.value.coreType == s.echo.value)
       case Lagging => false
  }

  predicate SeenInOrder(s: State) {
    s.status.seen <= s.status.version && s.echo.seen <= s.echo.version
  }

  /** What every run keeps of the bridge and the legacy stream, however the bridge started. */
  predicate BridgeInv(s: State) {
    && SeenInOrder(s)
    && if s.bridge.NotStarted? then s.ring == [] else BridgeFresh(s) && LegacyFresh(s)
  }

  ghost predicate AllEarly(s: State) {
    forall client :: client in s.connections ==> EarlyConnection(s, s.connections[client])
  }

  ghost predicate AllFresh(s: State) {
    forall client :: client in s.connections ==> ConnectionFresh(s, s.connections[client])
  }

  ghost predicate Inv(s: State) {
    BridgeInv(s) && if s.bridge.NotStarted? then AllEarly(s) else AllFresh(s)
  }

  /** Every snapshot taken so far was read from the status the bridge would start from; so with no connection. */
  predicate CleanStart(s: State) {
    forall client :: client in s.connections && s.connections[client].taken.Some? ==>
      s.connections[client].taken.value == s.status.value
  }

  /** The start loses nothing: every snapshot is of the current status, or an unseen echo will resend the status. */
  predicate SafeStart(s: State) {
    CleanStart(s) || s.echo.seen < s.echo.version
  }

  // --------------------------------------------------------------------- proofs

  lemma {:induction false} LastStatusOfConcat(a: seq<Event>, b: seq<Event>)
    ensures LastStatus(a + b) == if LastStatus(b).Some? then LastStatus(b) else LastStatus(a)
  {
    if b == [] {
      assert a + b == a;
    } else {
      assert (a + b)[..|a + b| - 1] == a + b[..|b| - 1];
      LastStatusOfConcat(a, b[..|b| - 1]);
    }
  }

  lemma SendExtends(ring: seq<Event>, e: Event)
    ensures LastStatus(ring + [e]) == if e.StatusChanged? then Some(e.infos) else LastStatus(ring)
    ensures Legacy(ring + [e]) == Legacy(ring) + if e.StateChanged? then [e.state] else []
  {
    assert (ring + [e])[..|ring|] == ring;
  }

  /** The frame the bridge sends with its next action, if it sends one. */
  function Frame(s: State): (r: Option<Event>) {
    match s.bridge
    case StatusReady(raw, echo) => Some(StatusChanged(Project(raw, echo)))
    case EchoReady(raw, echo) => Some(StatusChanged(Project(raw, echo)))
    case StatusSent(raw) => if Suppressed(s.last, raw) then None else Some(StateChanged(MapCoreState(raw.state)))
    case _ => None
  }

  lemma AdvanceSends(s: State)
    requires !s.bridge.NotStarted? && !s.bridge.Waiting?
    ensures AdvanceBridge(s).ring == match Frame(s) case Some(e) => s.ring + [e] case None => s.ring
  {
  }

  lemma AdvanceKeepsBridge(s: State)
    requires s.status.seen <= s.status.version && s.echo.seen <= s.echo.version
    requires BridgeFresh(s) && !s.bridge.NotStarted? && !s.bridge.Waiting?
    ensures BridgeFresh(AdvanceBridge(s))
  {
    AdvanceSends(s);
    if Frame(s).Some? {
      SendExtends(s.ring, Frame(s).value);
    }
  }

  /** A legacy frame other than the last one leaves a stream without repetition. */
  lemma LegacyGrows(s: State, t: State, told: WireState)
    requires LegacyFresh(s) && told != s.last && Legacy(t.ring) == Legacy(s.ring) + [told]
    requires t.first == s.first && t.last == told
    requires t.status.seen == t.status.version ==> Suppressed(told, t.status.value)
    ensures LegacyFresh(t)
  {
  }

  /** Only the end of a status turn touches the legacy stream. */
  lemma StatusTurnKeepsLegacy(s: State, raw: CoreStatus)
    requires s.bridge == StatusSent(raw) && BridgeFresh(s) && LegacyFresh(s)
    ensures LegacyFresh(AdvanceBridge(s))
  {
    if !Suppressed(s.last, raw) {
      var told := MapCoreState(raw.state);
      SendExtends(s.ring, StateChanged(told));
      LegacyGrows(s, AdvanceBridge(s), told);
    }
  }

  /** Elsewhere in a turn neither the legacy frames nor `last` change, and an unfinished status turn owes the rest. */
  lemma OtherTurnsTouchNoLegacy(s: State)
    requires !s.bridge.NotStarted? && !s.bridge.Waiting? && !s.bridge.StatusSent?
    ensures var t := AdvanceBridge(s);
      && t.last == s.last && t.first == s.first && InStatusTurn(t.bridge) == InStatusTurn(s.bridge)
      && t.status.value == s.status.value && t.status.version == s.status.version
      && (!InStatusTurn(s.bridge) ==> t.status == s.status)
  {
    match s.bridge
    case StatusWoke =>
    case StatusRead(_) =>
    case StatusReady(_, _) =>
    case EchoWoke =>
    case EchoPeeked(_) =>
    case EchoReady(_, _) =>
  }

  lemma OtherTurnsSendNoLegacy(s: State)
    requires !s.bridge.NotStarted? && !s.bridge.Waiting? && !s.bridge.StatusSent?
    ensures Legacy(AdvanceBridge(s).ring) == Legacy(s.ring)
  {
    AdvanceSends(s);
    var frame := Frame(s);
    if frame.Some? {
      assert frame.value.StatusChanged?;
      SendExtends(s.ring, frame.value);
      assert Legacy(s.ring) + [] == Legacy(s.ring);
    }
  }

  lemma SameLegacyStaysFresh(s: State, t: State)
    requires LegacyFresh(s) && Legacy(t.ring) == Legacy(s.ring) && t.last == s.last && t.first == s.first
    requires InStatusTurn(t.bridge) || (!InStatusTurn(s.bridge) && t.status == s.status)
    ensures LegacyFresh(t)
  {
  }

  lemma OtherTurnsKeepLegacy(s: State)
    requires LegacyFresh(s) && !s.bridge.NotStarted? && !s.bridge.Waiting? && !s.bridge.StatusSent?
    ensures LegacyFresh(AdvanceBridge(s))
  {
    OtherTurnsTouchNoLegacy(s);
    OtherTurnsSendNoLegacy(s);
    SameLegacyStaysFresh(s, AdvanceBridge(s));
  }

  lemma AdvanceKeepsLegacy(s: State)
    requires BridgeFresh(s) && LegacyFresh(s) && !s.bridge.NotStarted? && !s.bridge.Waiting?
    ensures LegacyFresh(AdvanceBridge(s))
  {
    if s.bridge.StatusSent? {
      StatusTurnKeepsLegacy(s, s.bridge.raw);
    } else {
      OtherTurnsKeepLegacy(s);
    }
  }

  /** A status frame is left for the connection; a legacy frame or none changes nothing it waits for. */
  lemma SentReaches(ring: seq<Event>, pos: nat, e: Event)
    requires pos <= |ring|
    ensures LastStatus((ring + [e])[pos..]) == if e.StatusChanged? then Some(e.infos) else LastStatus(ring[pos..])
  {
    assert (ring + [e])[pos..] == ring[pos..] + [e];
    SendExtends(ring[pos..], e);
  }

  lemma SilentKeepsConnection(s: State, c: Connection)
    requires BridgeFresh(s) && !s.bridge.NotStarted? && !s.bridge.Waiting? && ConnectionFresh(s, c) && Frame(s).None?
    ensures ConnectionFresh(AdvanceBridge(s), c)
  {
  }

  lemma SendingKeepsConnection(s: State, c: Connection)
    requires BridgeFresh(s) && !s.bridge.NotStarted? && !s.bridge.Waiting? && ConnectionFresh(s, c) && Frame(s).Some?
    ensures ConnectionFresh(AdvanceBridge(s), c)
  {
    AdvanceSends(s);
    SentReaches(s.ring, c.pos, Frame(s).value);
  }

  lemma AdvanceKeepsConnection(s: State, c: Connection)
    requires BridgeFresh(s) && !s.bridge.NotStarted? && !s.bridge.Waiting? && ConnectionFresh(s, c)
    ensures ConnectionFresh(AdvanceBridge(s), c)
  {
    if Frame(s).Some? {
      SendingKeepsConnection(s, c);
    } else {
      SilentKeepsConnection(s, c);
    }
  }

  /** What is left of the ring after its next event. */
  lemma NextOfRing(ring: seq<Event>, pos: nat)
    requires pos < |ring|
    ensures LastStatus(ring[pos..]) ==
      if LastStatus(ring[pos + 1..]).Some? then LastStatus(ring[pos + 1..])
      else if ring[pos].StatusChanged? then Some(ring[pos].infos) else None
  {
    assert ring[pos..] == [ring[pos]] + ring[pos + 1..];
    LastStatusOfConcat([ring[pos]], ring[pos + 1..]);
    SendExtends([], ring[pos]);
    assert [] + [ring[pos]] == [ring[pos]];
  }

  /** The last status frame left for a reader, if any, is the last of the whole ring. */
  lemma LastLeftIsLast(ring: seq<Event>, pos: nat)
    requires pos <= |ring|
    ensures LastStatus(ring[pos..]).Some? ==> LastStatus(ring) == LastStatus(ring[pos..])
  {
    assert ring == ring[..pos] + ring[pos..];
    LastStatusOfConcat(ring[..pos], ring[pos..]);
  }

  lemma ReceiveKeepsConnection(s: State, c: Connection)
    requires BridgeFresh(s) && !s.bridge.NotStarted? && ConnectionFresh(s, c) && c.turn.Receiving? && c.pos < |s.ring|
    ensures ConnectionFresh(s, ReceiveNext(s, c))
  {
    NextOfRing(s.ring, c.pos);
    LastLeftIsLast(s.ring, c.pos);
    if |s.ring| - c.pos <= CAPACITY && s.ring[c.pos].StatusChanged? {
      ShownIsAnnounced(s, c);
    }
  }

  /** A status frame after which no other is left is what the bridge last announced. */
  lemma ShownIsAnnounced(s: State, c: Connection)
    requires BridgeFresh(s) && c.pos < |s.ring| && s.ring[c.pos].StatusChanged?
    ensures LastStatus(s.ring[c.pos + 1..]).None? ==> s.ring[c.pos].infos == s.announced
  {
    NextOfRing(s.ring, c.pos);
    LastLeftIsLast(s.ring, c.pos);
  }

  predicate ByConnection(step: Step) {
    step.Connect? || step.Disconnect? || step.ReadSnapshot? || step.SendSnapshot? || step.Receive? || step.Resubscribe?
  }

  predicate ByBridge(step: Step) {
    step.StartBridge? || step.WakeOnStatus? || step.WakeOnEcho? || step.Advance?
  }

  predicate Publishes(step: Step) {
    step.PublishStatus? || step.PublishEcho?
  }

  /** What a step leaves alone: connections act for themselves, and only the start sets off the bridge. */
  lemma StepTouches(s: State, step: Step)
    requires Enabled(s, step)
    ensures ByConnection(step) ==> Apply(s, step) == s.(connections := Apply(s, step).connections)
    ensures !ByConnection(step) ==> Apply(s, step).connections == s.connections
    ensures Apply(s, step).bridge.NotStarted? <==> s.bridge.NotStarted? && !step.StartBridge?
    ensures s.bridge.NotStarted? ==> Apply(s, step).ring == s.ring
    ensures SeenInOrder(s) ==> SeenInOrder(Apply(s, step))
  {
  }

  /** The bridge starts with what it announces current and a legacy stream that owes nothing. */
  lemma StartIsFresh(s: State)
    requires s.bridge.NotStarted? && s.ring == []
    ensures BridgeFresh(Apply(s, StartBridge)) && LegacyFresh(Apply(s, StartBridge))
  {
  }

  predicate ByChannel(step: Step) {
    Publishes(step) || step.WakeOnStatus? || step.WakeOnEcho?
  }

  /** A publication, or the bridge noticing one, excuses what the bridge holds until it has seen the channel. */
  lemma ChannelStepKeepsBridge(s: State, step: Step)
    requires SeenInOrder(s) && BridgeFresh(s) && Enabled(s, step) && ByChannel(step) && !s.bridge.NotStarted?
    ensures BridgeFresh(Apply(s, step))
  {
  }

  lemma ChannelStepTouches(s: State, step: Step)
    requires SeenInOrder(s) && Enabled(s, step) && ByChannel(step)
    ensures var t := Apply(s, step);
      && t.ring == s.ring && t.last == s.last && t.first == s.first
      && (InStatusTurn(s.bridge) ==> InStatusTurn(t.bridge))
      && (t.status == s.status || t.status.seen < t.status.version || InStatusTurn(t.bridge))
  {
  }

  lemma ChannelStepKeepsLegacy(s: State, t: State)
    requires LegacyFresh(s) && t.ring == s.ring && t.last == s.last && t.first == s.first
    requires InStatusTurn(s.bridge) ==> InStatusTurn(t.bridge)
    requires t.status == s.status || t.status.seen < t.status.version || InStatusTurn(t.bridge)
    ensures LegacyFresh(t)
  {
  }

  lemma StepKeepsBridge(s: State, step: Step)
    requires BridgeInv(s) && Enabled(s, step)
    ensures BridgeInv(Apply(s, step))
  {
    StepTouches(s, step);
    if step.StartBridge? {
      StartIsFresh(s);
    } else if !s.bridge.NotStarted? && step.Advance? {
      AdvanceKeepsBridge(s);
      AdvanceKeepsLegacy(s);
    } else if !s.bridge.NotStarted? && !ByConnection(step) {
      ChannelStepKeepsBridge(s, step);
      ChannelStepTouches(s, step);
      ChannelStepKeepsLegacy(s, Apply(s, step));
    }
  }

  lemma SafeStartIsFresh(s: State, c: Connection)
    requires s.bridge.NotStarted? && s.ring == [] && EarlyConnection(s, c)
    requires (c.taken.Some? ==> c.taken.value == s.status.value) || s.echo.seen < s.echo.version
    ensures ConnectionFresh(Apply(s, StartBridge), c)
  {
  }

  lemma StartMakesFresh(s: State, t: State)
    requires s.bridge.NotStarted? && s.ring == [] && AllEarly(s) && SafeStart(s) && t == Apply(s, StartBridge)
    ensures AllFresh(t)
  {
    forall client | client in t.connections ensures ConnectionFresh(t, t.connections[client]) {
      SafeStartIsFresh(s, s.connections[client]);
    }
  }

  lemma EarlyStepKeepsEarly(s: State, step: Step)
    requires s.bridge.NotStarted? && s.ring == [] && SeenInOrder(s) && AllEarly(s)
    requires Enabled(s, step) && !step.StartBridge?
    ensures AllEarly(Apply(s, step))
  {
  }

  /** A connection's own step touches that connection alone, and keeps it fresh. */
  lemma ConnectionStepKeepsOwn(s: State, step: Step)
    requires BridgeFresh(s) && AllFresh(s) && !s.bridge.NotStarted? && Enabled(s, step)
    requires ByConnection(step) && !step.Disconnect?
    ensures var own := Apply(s, step).connections;
      && own == s.connections[step.client := own[step.client]] && ConnectionFresh(s, own[step.client])
  {
    if step.Receive? {
      ReceiveKeepsConnection(s, s.connections[step.client]);
    } else if !step.Connect? {
      assert ConnectionFresh(s, s.connections[step.client]);
    }
  }

  lemma ConnectionStepKeepsFresh(s: State, step: Step, t: State)
    requires BridgeFresh(s) && AllFresh(s) && !s.bridge.NotStarted? && Enabled(s, step) && ByConnection(step)
    requires t == Apply(s, step)
    ensures AllFresh(t)
  {
    StepTouches(s, step);
    if !step.Disconnect? {
      ConnectionStepKeepsOwn(s, step);
    }
    forall client | client in t.connections ensures ConnectionFresh(t, t.connections[client]) {
      assert ConnectionFresh(s, t.connections[client]);
    }
  }

  lemma ChannelStepKeepsConnection(s: State, step: Step, c: Connection)
    requires Enabled(s, step) && !s.bridge.NotStarted? && !ByConnection(step) && !step.Advance?
    requires SeenInOrder(s) && ConnectionFresh(s, c)
    ensures ConnectionFresh(Apply(s, step), c)
  {
  }

  lemma OtherStepKeepsFresh(s: State, step: Step, t: State)
    requires BridgeInv(s) && AllFresh(s) && !s.bridge.NotStarted? && Enabled(s, step) && !ByConnection(step)
    requires t == Apply(s, step)
    ensures AllFresh(t)
  {
    StepTouches(s, step);
    forall client | client in t.connections ensures ConnectionFresh(t, t.connections[client]) {
      if step.Advance? {
        AdvanceKeepsConnection(s, s.connections[client]);
      } else {
        ChannelStepKeepsConnection(s, step, s.connections[client]);
      }
    }
  }

  lemma StepKeepsInv(s: State, step: Step)
    requires Inv(s) && Enabled(s, step) && (step.StartBridge? ==> SafeStart(s))
    ensures Inv(Apply(s, step))
  {
    StepTouches(s, step);
    StepKeepsBridge(s, step);
    if step.StartBridge? {
      StartMakesFresh(s, Apply(s, step));
    } else if s.bridge.NotStarted? {
      EarlyStepKeepsEarly(s, step);
    } else if ByConnection(step) {
      ConnectionStepKeepsFresh(s, step, Apply(s, step));
    } else {
      OtherStepKeepsFresh(s, step, Apply(s, step));
    }
  }

  // ------------------------------------------------------- results, every run

  /** Whether `steps` can be taken in turn. */
  predicate Run(s: State, steps: seq<Step>)
    decreases |steps|
  {
    steps == [] || (Enabled(s, steps[0]) && Run(Apply(s, steps[0]), steps[1..]))
  }

  function After(s: State, steps: seq<Step>): (t: State)
    requires Run(s, steps)
    decreases |steps|
  {
    if steps == [] then s else After(Apply(s, steps[0]), steps[1..])
  }

  /** Whether the bridge, if it starts in this run, starts safely. */
  predicate StartsSafely(s: State, steps: seq<Step>)
    requires Run(s, steps)
    decreases |steps|
  {
    steps == [] || ((steps[0].StartBridge? ==> SafeStart(s)) && StartsSafely(Apply(s, steps[0]), steps[1..]))
  }

  lemma {:induction false} RunKeepsInv(s: State, steps: seq<Step>)
    requires Inv(s) && Run(s, steps) && StartsSafely(s, steps)
    ensures Inv(After(s, steps))
    decreases |steps|
  {
    if steps != [] {
      StepKeepsInv(s, steps[0]);
      RunKeepsInv(Apply(s, steps[0]), steps[1..]);
    }
  }

  /** A bridge that runs does not start again. */
  lemma {:induction false} StartedIsSafe(s: State, steps: seq<Step>)
    requires !s.bridge.NotStarted? && Run(s, steps)
    ensures StartsSafely(s, steps) && !After(s, steps).bridge.NotStarted?
    decreases |steps|
  {
    if steps != [] {
      StepTouches(s, steps[0]);
      StartedIsSafe(Apply(s, steps[0]), steps[1..]);
    }
  }

  /** Up to a state in which the bridge has not started there is nothing to be safe about. */
  lemma {:induction false} UnstartedIsSafe(s: State, steps: seq<Step>)
    requires Run(s, steps) && After(s, steps).bridge.NotStarted?
    ensures StartsSafely(s, steps)
    decreases |steps|
  {
    if steps != [] {
      if !Apply(s, steps[0]).bridge.NotStarted? {
        StartedIsSafe(Apply(s, steps[0]), steps[1..]);
      }
      UnstartedIsSafe(Apply(s, steps[0]), steps[1..]);
    }
  }

  /** A connection at its loop head with nothing left in its ring. */
  predicate Drained(s: State, client: nat) {
    client in s.connections && s.connections[client].turn.Receiving? && s.connections[client].pos == |s.ring|
  }

  /**
   End to end: whenever both channels are seen and a connection is drained, the
   last status its client was sent is the projection of the current status and
   echo, whatever was coalesced, lost to lag or resent on the way.
   */
  lemma DrainedClientIsCurrent(s: State, steps: seq<Step>, client: nat)
    requires Initial(s) && s.status.seen <= s.status.version && Run(s, steps) && StartsSafely(s, steps)
    requires Settled(After(s, steps)) && Drained(After(s, steps), client)
    ensures After(s, steps).connections[client].shown == Some(Current(After(s, steps)))
  {
    RunKeepsInv(s, steps);
    var t := After(s, steps);
    assert t.ring[t.connections[client].pos..] == [];
  }

  /** Whether every way to go on from `s` ends, when it settles, with every drained client current. */
  ghost predicate AlwaysAgrees(s: State) {
    forall steps, client :: AgreesAfter(s, steps, client)
  }

  predicate AgreesAfter(s: State, steps: seq<Step>, client: nat) {
    Run(s, steps) && Settled(After(s, steps)) && Drained(After(s, steps), client) ==>
      After(s, steps).connections[client].shown == Some(Current(After(s, steps)))
  }

  /**
   Exactly when starting the bridge is safe. However early clients connected,
   every continuation of the start that settles leaves every drained client
   current if and only if, at the start, each snapshot read so far was of the
   status the bridge starts from, or the echo had moved unseen.
   */
  lemma StartAgreesIffSafe(initial: State, before: seq<Step>)
    requires Initial(initial) && initial.status.seen <= initial.status.version && Run(initial, before)
    requires After(initial, before).bridge.NotStarted?
    ensures AlwaysAgrees(Apply(After(initial, before), StartBridge)) <==> SafeStart(After(initial, before))
  {
    var s := After(initial, before);
    UnstartedIsSafe(initial, before);
    RunKeepsInv(initial, before);
    if SafeStart(s) {
      forall steps, client
        ensures AgreesAfter(Apply(s, StartBridge), steps, client)
      {
        SafeStartAgrees(s, steps, client);
      }
    } else {
      var client :| client in s.connections && s.connections[client].taken.Some?
        && s.connections[client].taken.value != s.status.value;
      var steps := UnsafeStartDisagrees(s, client);
    }
  }

  lemma SafeStartAgrees(s: State, steps: seq<Step>, client: nat)
    requires Inv(s) && s.bridge.NotStarted? && SafeStart(s)
    ensures AgreesAfter(Apply(s, StartBridge), steps, client)
  {
    var t := Apply(s, StartBridge);
    if Run(t, steps) && Settled(After(t, steps)) && Drained(After(t, steps), client) {
      StepKeepsInv(s, StartBridge);
      StartedIsSafe(t, steps);
      RunKeepsInv(t, steps);
      var u := After(t, steps);
      assert u.ring[u.connections[client].pos..] == [];
    }
  }

  /** A connection that read another status finishes its snapshot, and nothing tells its client of the difference. */
  lemma UnsafeStartDisagrees(s: State, client: nat) returns (steps: seq<Step>)
    requires Inv(s) && s.bridge.NotStarted? && s.echo.seen == s.echo.version
    requires client in s.connections && s.connections[client].taken.Some?
    requires s.connections[client].taken.value != s.status.value
    ensures !AgreesAfter(Apply(s, StartBridge), steps, client)
  {
    var t := Apply(s, StartBridge);
    var c := s.connections[client];
    assert EarlyConnection(s, c);
    if c.turn.SnapshotRead? {
      steps := [ReadSnapshot(client)] + [SendSnapshot(client)];
      RunOfTwo(Apply(t, ReadSnapshot(client)), SendSnapshot(client), []);
      assert [SendSnapshot(client)] + [] == [SendSnapshot(client)];
      RunOfTwo(t, ReadSnapshot(client), [SendSnapshot(client)]);
    } else if c.turn.SnapshotReady? {
      steps := [SendSnapshot(client)];
      RunOfTwo(t, SendSnapshot(client), []);
      assert [SendSnapshot(client)] + [] == [SendSnapshot(client)];
    } else {
      steps := [];
    }
  }

  /** An unsafe start is reachable: a client connects and reads its snapshot, and then the status moves. */
  lemma StaleStart(s: State, before: CoreStatus, after: CoreStatus)
    requires Initial(s) && s.echo.seen == s.echo.version && s.status.value == before && before != after
    ensures var steps := [Connect(0)] + ([ReadSnapshot(0)] + [PublishStatus(after)]);
      Run(s, steps) && After(s, steps).bridge.NotStarted? && !SafeStart(After(s, steps))
  {
    var a := Apply(s, Connect(0));
    var b := Apply(a, ReadSnapshot(0));
    RunOfTwo(b, PublishStatus(after), []);
    assert [PublishStatus(after)] + [] == [PublishStatus(after)];
    RunOfTwo(a, ReadSnapshot(0), [PublishStatus(after)]);
    RunOfTwo(s, Connect(0), [ReadSnapshot(0)] + [PublishStatus(after)]);
    assert Apply(b, PublishStatus(after)).connections[0].taken == Some(before);
  }

  lemma RunOfTwo(s: State, step: Step, rest: seq<Step>)
    requires Enabled(s, step) && Run(Apply(s, step), rest)
    ensures Run(s, [step] + rest) && After(s, [step] + rest) == After(Apply(s, step), rest)
  {
    assert ([step] + rest)[1..] == rest;
  }

  lemma {:induction false} RunKeepsBridge(s: State, steps: seq<Step>)
    requires BridgeInv(s) && Run(s, steps)
    ensures BridgeInv(After(s, steps))
    decreases |steps|
  {
    if steps != [] {
      StepKeepsBridge(s, steps[0]);
      RunKeepsBridge(Apply(s, steps[0]), steps[1..]);
    }
  }

  /**
   The legacy stream over every run, however the bridge starts: no frame repeats
   the one before it, and once the bridge has started, is in no status turn and
   has seen the status, the last frame is that of the current status, except that
   a core reported stopped is not resurrected by a Stopping or Switching arrival.
   */
  lemma LegacyStreamIsCurrent(s: State, steps: seq<Step>)
    requires Initial(s) && s.status.seen <= s.status.version && Run(s, steps)
    ensures var t := After(s, steps); var legacy := Legacy(t.ring); var now := t.status.value.state;
      && Unrepeated(legacy)
      && (legacy != [] ==> legacy[0] != t.first)
      && (!t.bridge.NotStarted? && !InStatusTurn(t.bridge) && t.status.seen == t.status.version ==>
            Told(t) == MapCoreState(now) || (Told(t).WireStopped? && (now.Stopping? || now.Switching?)))
  {
    RunKeepsBridge(s, steps);
  }

  // ------------------------------------------------------------------ progress

  function BridgeWork(s: State): (r: nat) {
    var pending := (if s.status.seen < s.status.version then 6 else 0) + if s.echo.seen < s.echo.version then 6 else 0;
    pending +
    match s.bridge
    case NotStarted => 13
    case Waiting => 0
    case StatusWoke => 4
    case StatusRead(_) => 3
    case StatusReady(_, _) => 2
    case StatusSent(_) => 1
    case EchoWoke => 3
    case EchoPeeked(_) => 2
    case EchoReady(_, _) => 1
  }

  /** Every action of the bridge brings it closer to settling, and nothing a connection does sets it back. */
  lemma BridgeWorkShrinks(s: State, step: Step)
    requires s.status.seen <= s.status.version && s.echo.seen <= s.echo.version && Enabled(s, step)
    ensures ByBridge(step) ==> BridgeWork(Apply(s, step)) < BridgeWork(s)
    ensures ByConnection(step) ==> BridgeWork(Apply(s, step)) == BridgeWork(s)
  {
  }

  /** So without publications it settles: the work is gone exactly then, and until then the bridge has a step. */
  lemma BridgeSettles(s: State)
    requires s.status.seen <= s.status.version && s.echo.seen <= s.echo.version
    ensures BridgeWork(s) == 0 <==> Settled(s)
    ensures !Settled(s) ==>
      Enabled(s, StartBridge) || Enabled(s, WakeOnStatus) || Enabled(s, WakeOnEcho) || Enabled(s, Advance)
  {
  }

  predicate NoPublication(steps: seq<Step>) {
    forall i :: 0 <= i < |steps| ==> !Publishes(steps[i])
  }

  lemma FirstThenRest(s: State, step: Step, rest: seq<Step>)
    requires Enabled(s, step) && !Publishes(step) && Run(Apply(s, step), rest) && NoPublication(rest)
    ensures var steps := [step] + rest;
      Run(s, steps) && NoPublication(steps) && After(s, steps) == After(Apply(s, step), rest)
  {
    RunOfTwo(s, step, rest);
  }

  lemma {:induction false} BridgeRunsToSettled(s: State) returns (steps: seq<Step>)
    requires Inv(s) && !s.bridge.NotStarted?
    ensures Run(s, steps) && Settled(After(s, steps)) && NoPublication(steps)
    ensures After(s, steps).connections == s.connections && Inv(After(s, steps))
    decreases BridgeWork(s)
  {
    if Settled(s) {
      return [];
    }
    BridgeSettles(s);
    var step :=
      if Enabled(s, WakeOnStatus) then WakeOnStatus else if Enabled(s, WakeOnEcho) then WakeOnEcho else Advance;
    BridgeWorkShrinks(s, step);
    StepTouches(s, step);
    StepKeepsInv(s, step);
    var rest := BridgeRunsToSettled(Apply(s, step));
    FirstThenRest(s, step, rest);
    steps := [step] + rest;
  }

  /** What a connection still has to do before it is drained, if the ring stays as it is. */
  function ConnectionWork(s: State, c: Connection): (work: nat)
    requires c.pos <= |s.ring|
  {
    10 * (|s.ring| - c.pos) +
    match c.turn
    case Subscribed => 4
    case SnapshotRead(_) => 3
    case SnapshotReady(_, _) => 2
    case Receiving => 1
    case Lagging => 0
  }

  function NextOf(c: Connection, client: nat): (step: Step) {
    match c.turn
    case Subscribed => ReadSnapshot(client)
    case SnapshotRead(_) => ReadSnapshot(client)
    case SnapshotReady(_, _) => SendSnapshot(client)
    case Receiving => Receive(client)
    case Lagging => Resubscribe(client)
  }

  lemma NextIsEnabled(s: State, client: nat)
    requires client in s.connections && ConnectionFresh(s, s.connections[client]) && !Drained(s, client)
    ensures var step := NextOf(s.connections[client], client);
      Enabled(s, step) && ByConnection(step) && !step.Disconnect?
  {
  }

  lemma TurnWorkShrinks(s: State, client: nat)
    requires client in s.connections && s.connections[client].pos <= |s.ring|
    requires !s.connections[client].turn.Receiving? && Enabled(s, NextOf(s.connections[client], client))
    requires s.connections[client].turn.Lagging? ==> s.connections[client].pos < |s.ring|
    ensures var own := Apply(s, NextOf(s.connections[client], client)).connections;
      && client in own && own[client].pos <= |s.ring|
      && ConnectionWork(s, own[client]) < ConnectionWork(s, s.connections[client])
  {
  }

  lemma ReceivingWorkShrinks(s: State, c: Connection)
    requires c.turn.Receiving? && c.pos < |s.ring|
    ensures ReceiveNext(s, c).pos <= |s.ring| && ConnectionWork(s, ReceiveNext(s, c)) < ConnectionWork(s, c)
  {
  }

  lemma ConnectionWorkShrinks(s: State, client: nat)
    requires client in s.connections && ConnectionFresh(s, s.connections[client]) && !Drained(s, client)
    ensures var step := NextOf(s.connections[client], client);
      && Enabled(s, step) && ByConnection(step) && !step.Disconnect?
      && var t := Apply(s, step);
         && client in t.connections && t == s.(connections := t.connections)
         && t.connections[client].pos <= |t.ring|
         && ConnectionWork(t, t.connections[client]) < ConnectionWork(s, s.connections[client])
  {
    NextIsEnabled(s, client);
    StepTouches(s, NextOf(s.connections[client], client));
    if s.connections[client].turn.Receiving? {
      ReceivingWorkShrinks(s, s.connections[client]);
    } else {
      TurnWorkShrinks(s, client);
    }
  }

  lemma ConnectionStepAdvances(s: State, client: nat) returns (step: Step, t: State)
    requires Inv(s) && Settled(s) && client in s.connections && !Drained(s, client)
    ensures Enabled(s, step) && !Publishes(step) && t == Apply(s, step)
    ensures Inv(t) && Settled(t) && client in t.connections && t.connections[client].pos <= |t.ring|
    ensures ConnectionWork(t, t.connections[client]) < ConnectionWork(s, s.connections[client])
  {
    assert ConnectionFresh(s, s.connections[client]);
    ConnectionWorkShrinks(s, client);
    step := NextOf(s.connections[client], client);
    StepKeepsInv(s, step);
    t := Apply(s, step);
  }

  lemma {:induction false} ConnectionRunsToDrained(s: State, client: nat) returns (steps: seq<Step>)
    requires Inv(s) && Settled(s) && client in s.connections && s.connections[client].pos <= |s.ring|
    ensures Run(s, steps) && NoPublication(steps)
    ensures Settled(After(s, steps)) && Drained(After(s, steps), client)
    decreases ConnectionWork(s, s.connections[client])
  {
    if Drained(s, client) {
      return [];
    }
    var step, t := ConnectionStepAdvances(s, client);
    var rest := ConnectionRunsToDrained(t, client);
    FirstThenRest(s, step, rest);
    steps := [step] + rest;
  }

  lemma {:induction false} RunJoin(s: State, first: seq<Step>, second: seq<Step>)
    requires Run(s, first) && Run(After(s, first), second)
    ensures Run(s, first + second) && After(s, first + second) == After(After(s, first), second)
    decreases |first|
  {
    if first == [] {
      assert first + second == second;
    } else {
      RunJoin(Apply(s, first[0]), first[1..], second);
      RunOfTwo(s, first[0], first[1..] + second);
      assert [first[0]] + (first[1..] + second) == first + second;
    }
  }

  /**
   Agreement is always within reach: from any state of a run whose bridge started
   safely, steps of the bridge and of one connection alone settle the bridge,
   drain the connection and leave its client current.
   */
  lemma ClientBecomesCurrent(s: State, client: nat) returns (steps: seq<Step>)
    requires Inv(s) && !s.bridge.NotStarted? && client in s.connections
    ensures Run(s, steps) && NoPublication(steps)
    ensures var t := After(s, steps);
      Settled(t) && Drained(t, client) && t.connections[client].shown == Some(Current(t))
  {
    var first := BridgeRunsToSettled(s);
    var t := After(s, first);
    assert ConnectionFresh(t, t.connections[client]);
    var second := ConnectionRunsToDrained(t, client);
    RunJoin(s, first, second);
    steps := first + second;
    StartedIsSafe(s, steps);
    RunKeepsInv(s, steps);
    var u := After(s, steps);
    assert u.ring[u.connections[client].pos..] == [];
  }
}
