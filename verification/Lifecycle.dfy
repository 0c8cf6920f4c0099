/** One node as a step system: one step per critical section of the hub, of a
    session's close guard, of the admission channel and of the shutdown thread.
    A schedule is any sequence of actions; an action that is not enabled does
    nothing, so the runs of the system are exactly the schedules. */
module Lifecycle {
  import opened Common
  import opened RoomIndex

  /** A connection ID and the user who owns it. Connection IDs are unique. */
  datatype Session = Session(conn: string, user: string)

  /** How far the once-only Close of a session has come. */
  datatype Phase =
    | Open
    | Guarded  // the once guard is taken
    | Marked   // `closed` is set and `done` is closed
    | Cleaned  // OnClose has run Unregister
    | Closed   // the once guard is released

  /** The goroutine that serves one upgrade request. */
  datatype Handler =
    | Checking
    | Cleared       // passed the readiness, origin and identity checks
    | Refused
    | Admitted      // holds a slot
    | UpgradeFailed // counted as rejected, slot still held
    | Failed
    | Constructed
    | Replacing(prior: Session) // installed; closing the session it replaced
    | Reading       // inside Run, at the next frame
    | Answering     // a command has run, its reply comes next
    | Finishing     // the read loop has ended; Run closes the session
    | Returned

  /** The hub's critical sections that change it, and the moments at which a
      session is marked closed, in the order they took their locks. */
  datatype Event =
    | Marking(session: Session)
    | Installed(session: Session)
    | Removed(session: Session)
    | Joining(session: Session, room: string)
    | Leaving(session: Session, room: string)

  datatype Node = Node(
    hub: HubState<Session>,
    handlers: map<Session, Handler>,
    phases: map<Session, Phase>,
    slots: nat,      // messages in the admission channel
    attempted: nat,  // counter of upgrades attempted
    rejected: nat,   // counter of upgrades rejected
    active: int,     // gauge of active connections
    log: seq<Event>
  )

  datatype Stage =
    | Serving
    | Withdrawn
    | Notifying(pending: set<Session>)
    | Sleeping
    | ClosingAll(pending: set<Session>)
    | Stopped

  /** The shutdown thread, and what its two snapshots held. */
  datatype Shutdown = Shutdown(
    stage: Stage,
    notified: set<Session>, // the draining snapshot
    accepted: set<Session>, // those of it that accepted the notice
    doomed: set<Session>,   // the snapshot that CloseAll took
    doomedAt: nat           // the length of the log then
  )

  datatype State = State(node: Node, down: Shutdown)

  datatype Config = Config(maxConnections: nat, maxRooms: int)

  /** Steps of a request handler outside the hub. */
  datatype RequestOp =
    | Arrive
    | Clear
    | Refuse
    | Admit
    | FailUpgrade
    | ReleaseFailed
    | Construct
    | ReplacedClosed
    | OtherCommand  // a frame that changes neither registry nor rooms
    | ReplyQueued
    | ReplyRefused  // the session is marked closed, or its queue is full
    | StopReading
    | RunReturns

  /** Steps on a session or the hub. The closing steps may come from any thread:
      a sender that found the queue full, a handler that replaced the session,
      CloseAll, the write loop or the session's own Run. */
  datatype SessionOp =
    | Install
    | BeginClose
    | MarkClosed
    | Unregister
    | EndClose
    | Join(room: string)
    | Leave(room: string)

  datatype ShutdownOp =
    | Withdraw
    | SnapshotDraining
    | NoticeAccepted(c: Session)
    | NoticeRefused(c: Session)
    | EndNotices
    | SnapshotClosing
    | CloseAwaited(c: Session)
    | EndClosing

  datatype Action =
    | OnRequest(c: Session, request: RequestOp)
    | OnSession(c: Session, op: SessionOp)
    | OnShutdown(down: ShutdownOp)

  // ---------- Classes of handlers and phases ----------

  predicate HoldsSlot(h: Handler) {
    h.Admitted? || h.UpgradeFailed? || h.Constructed? || h.Replacing? || h.Reading? || h.Answering? || h.Finishing?
  }

  predicate Rejected(h: Handler) {
    h.Refused? || h.UpgradeFailed? || h.Failed?
  }

  predicate HandedOff(h: Handler) {
    h.Constructed? || h.Replacing? || h.Reading? || h.Answering? || h.Finishing? || h.Returned?
  }

  predicate InProgress(h: Handler) {
    h.Checking? || h.Cleared? || h.Admitted?
  }

  /** Known to the hub, and Run has not returned. */
  predicate Live(h: Handler) {
    h.Replacing? || h.Reading? || h.Answering? || h.Finishing?
  }

  /** The session's Unregister has not run yet. */
  predicate Pending(p: Phase) {
    p.Open? || p.Guarded? || p.Marked?
  }

  predicate IsMarked(p: Phase) {
    p.Marked? || p.Cleaned? || p.Closed?
  }

  predicate NotClosed(p: Phase) {
    !p.Closed?
  }

  predicate FullyClosed(p: Phase) {
    p.Closed?
  }

  predicate Is<T(==)>(m: map<Session, T>, c: Session, v: T) {
    c in m && m[c] == v
  }

  // ---------- Steps ----------

  predicate RequestEnabled(cfg: Config, ready: bool, n: Node, c: Session, op: RequestOp) {
    match op
    case Arrive => forall d :: d in n.handlers ==> d.conn != c.conn
    case Clear => Is(n.handlers, c, Checking) && ready
    case Refuse =>
      Is(n.handlers, c, Checking) || (Is(n.handlers, c, Cleared) && n.slots >= cfg.maxConnections)
    case Admit => Is(n.handlers, c, Cleared) && n.slots < cfg.maxConnections
    case FailUpgrade => Is(n.handlers, c, Admitted)
    case ReleaseFailed => Is(n.handlers, c, UpgradeFailed) && n.slots > 0
    case Construct => Is(n.handlers, c, Admitted)
    case ReplacedClosed => c in n.handlers && n.handlers[c].Replacing? && Is(n.phases, n.handlers[c].prior, Closed)
    case OtherCommand => Is(n.handlers, c, Reading)
    case ReplyQueued => Is(n.handlers, c, Answering) && c in n.phases && !IsMarked(n.phases[c])
    case ReplyRefused => Is(n.handlers, c, Answering)
    case StopReading => Is(n.handlers, c, Reading)
    case RunReturns => Is(n.handlers, c, Finishing) && Is(n.phases, c, Closed) && n.slots > 0
  }

  function RequestEffect(n: Node, c: Session, op: RequestOp): Node
    requires op.ReleaseFailed? || op.RunReturns? ==> n.slots > 0
  {
    match op
    case Arrive => n.(handlers := n.handlers[c := Checking], attempted := n.attempted + 1)
    case Clear => n.(handlers := n.handlers[c := Cleared])
    case Refuse => n.(handlers := n.handlers[c := Refused], rejected := n.rejected + 1)
    case Admit => n.(handlers := n.handlers[c := Admitted], slots := n.slots + 1)
    case FailUpgrade => n.(handlers := n.handlers[c := UpgradeFailed], rejected := n.rejected + 1)
    case ReleaseFailed => n.(handlers := n.handlers[c := Failed], slots := n.slots - 1)
    case Construct =>
      n.(handlers := n.handlers[c := Constructed], phases := n.phases[c := Open], active := n.active + 1)
    case ReplacedClosed => n.(handlers := n.handlers[c := Reading])
    case OtherCommand => n.(handlers := n.handlers[c := Answering])
    case ReplyQueued => n.(handlers := n.handlers[c := Reading])
    case ReplyRefused => n.(handlers := n.handlers[c := Finishing])
    case StopReading => n.(handlers := n.handlers[c := Finishing])
    case RunReturns => n.(handlers := n.handlers[c := Returned], slots := n.slots - 1)
  }

  predicate SessionEnabled(cfg: Config, n: Node, c: Session, op: SessionOp) {
    match op
    case Install => Is(n.handlers, c, Constructed)
    case BeginClose => c in n.handlers && Live(n.handlers[c]) && Is(n.phases, c, Open)
    case MarkClosed => Is(n.phases, c, Guarded)
    case Unregister => Is(n.phases, c, Marked)
    case EndClose => Is(n.phases, c, Cleaned)
    case Join(room) => Is(n.handlers, c, Reading) && !JoinRefused(n.hub, c.conn, room, cfg.maxRooms)
    case Leave(room) => Is(n.handlers, c, Reading)
  }

  function SessionEffect(n: Node, c: Session, op: SessionOp): Node {
    match op
    case Install =>
      var next := if c.user in n.hub.clients then Replacing(n.hub.clients[c.user]) else Reading;
      n.(handlers := n.handlers[c := next], hub := Registered(n.hub, c.user, c), log := n.log + [Installed(c)])
    case BeginClose => n.(phases := n.phases[c := Guarded])
    case MarkClosed => n.(phases := n.phases[c := Marked], log := n.log + [Marking(c)])
    case Unregister =>
      n.(phases := n.phases[c := Cleaned], hub := Unregistered(n.hub, c.conn, c.user, c), log := n.log + [Removed(c)])
    case EndClose => n.(phases := n.phases[c := Closed], active := n.active - 1)
    case Join(room) =>
      n.(handlers := n.handlers[c := Answering],
         hub := Joined(n.hub, c.conn, c, room),
         log := n.log + [Joining(c, room)])
    case Leave(room) =>
      n.(handlers := n.handlers[c := Answering],
         hub := Left(n.hub, c.conn, room),
         log := n.log + [Leaving(c, room)])
  }

  predicate ShutdownEnabled(n: Node, d: Shutdown, op: ShutdownOp) {
    match op
    case Withdraw => d.stage.Serving?
    case SnapshotDraining => d.stage.Withdrawn?
    case NoticeAccepted(c) => d.stage.Notifying? && c in d.stage.pending && c in n.phases && !IsMarked(n.phases[c])
    case NoticeRefused(c) => d.stage.Notifying? && c in d.stage.pending && c in n.phases && IsMarked(n.phases[c])
    case EndNotices => d.stage == Notifying({})
    case SnapshotClosing => d.stage.Sleeping?
    case CloseAwaited(c) => d.stage.ClosingAll? && c in d.stage.pending && Is(n.phases, c, Closed)
    case EndClosing => d.stage == ClosingAll({})
  }

  function ShutdownEffect(n: Node, d: Shutdown, op: ShutdownOp): Shutdown
    requires ShutdownEnabled(n, d, op)
  {
    match op
    case Withdraw => d.(stage := Withdrawn)
    case SnapshotDraining => d.(stage := Notifying(n.hub.clients.Values), notified := n.hub.clients.Values)
    case NoticeAccepted(c) => d.(stage := Notifying(d.stage.pending - {c}), accepted := d.accepted + {c})
    case NoticeRefused(c) => d.(stage := Notifying(d.stage.pending - {c}))
    case EndNotices => d.(stage := Sleeping)
    case SnapshotClosing =>
      d.(stage := ClosingAll(n.hub.clients.Values), doomed := n.hub.clients.Values, doomedAt := |n.log|)
    case CloseAwaited(c) => d.(stage := ClosingAll(d.stage.pending - {c}))
    case EndClosing => d.(stage := Stopped)
  }

  function Step(cfg: Config, s: State, a: Action): State {
    match a
    case OnRequest(c, op) =>
      if RequestEnabled(cfg, s.down.stage.Serving?, s.node, c, op) then s.(node := RequestEffect(s.node, c, op)) else s
    case OnSession(c, op) =>
      if SessionEnabled(cfg, s.node, c, op) then s.(node := SessionEffect(s.node, c, op)) else s
    case OnShutdown(op) =>
      if ShutdownEnabled(s.node, s.down, op) then s.(down := ShutdownEffect(s.node, s.down, op)) else s
  }

  function Start(): State {
    State(Node(EmptyHub(), map[], map[], 0, 0, 0, 0, []), Shutdown(Serving, {}, {}, {}, 0))
  }

  /** The state that a schedule reaches. */
  function Run(cfg: Config, schedule: seq<Action>): State {
    if schedule == [] then Start()
    else Step(cfg, Run(cfg, schedule[..|schedule| - 1]), schedule[|schedule| - 1])
  }

  // ---------- What the log says ----------

  /** The last event that concerns (c, room) is a join. */
  predicate MemberByLog(log: seq<Event>, c: Session, room: string) {
    if log == [] then false
    else
      var rest := MemberByLog(log[..|log| - 1], c, room);
      match log[|log| - 1]
      case Joining(d, r) => (d == c && r == room) || rest
      case Leaving(d, r) => !(d == c && r == room) && rest
      case Removed(d) => d != c && rest
      case Installed(_) => rest
      case Marking(_) => rest
  }

  /** The last event that concerns c's claim to its user is its own install. */
  predicate ActiveByLog(log: seq<Event>, c: Session) {
    if log == [] then false
    else
      var rest := ActiveByLog(log[..|log| - 1], c);
      match log[|log| - 1]
      case Installed(d) => d == c || (d.user != c.user && rest)
      case Removed(d) => d != c && rest
      case Joining(_, _) => rest
      case Leaving(_, _) => rest
      case Marking(_) => rest
  }

  predicate Holds(h: HubState<Session>, c: Session, room: string) {
    Entry(h, room, c.conn, c)
  }

  predicate Active(h: HubState<Session>, c: Session) {
    c.user in h.clients && h.clients[c.user] == c
  }

  // ---------- The invariant ----------

  ghost predicate Shape(n: Node) {
    && n.phases.Keys <= n.handlers.Keys
    && (forall c :: c in n.handlers ==> (c in n.phases <==> HandedOff(n.handlers[c])))
    && (forall c :: c in n.phases && n.handlers[c].Constructed? ==> n.phases[c].Open?)
    && (forall c :: c in n.phases && n.handlers[c].Returned? ==> n.phases[c].Closed?)
    && (forall c, d :: c in n.handlers && d in n.handlers && c.conn == d.conn ==> c == d)
  }

  ghost predicate Registry(n: Node) {
    forall user :: user in n.hub.clients ==>
      var c := n.hub.clients[user];
      c.user == user && c in n.phases && Pending(n.phases[c]) && c in n.handlers && Live(n.handlers[c])
  }

  ghost predicate Rooms(cfg: Config, n: Node) {
    Consistent(n.hub) && WithinCap(n.hub, cfg.maxRooms)
  }

  ghost predicate RoomEntries(n: Node) {
    forall room, conn :: room in n.hub.rooms && conn in n.hub.rooms[room] ==>
      var c := n.hub.rooms[room][conn];
      c.conn == conn && c in n.phases && c in n.handlers && !n.handlers[c].Constructed?
  }

  ghost predicate Slots(cfg: Config, n: Node) {
    n.slots == |Having(n.handlers, HoldsSlot)| && n.slots <= cfg.maxConnections
  }

  ghost predicate Upgrades(n: Node) {
    n.attempted == |n.handlers| && n.rejected == |Having(n.handlers, Rejected)|
  }

  ghost predicate Gauge(n: Node) {
    n.active == |Having(n.phases, NotClosed)|
  }

  ghost predicate RegistryByLog(n: Node) {
    forall c :: Active(n.hub, c) <==> ActiveByLog(n.log, c)
  }

  ghost predicate RoomsByLog(n: Node) {
    forall c, room :: Holds(n.hub, c, room) <==> MemberByLog(n.log, c, room)
  }

  /** Only installed sessions appear in the log. */
  ghost predicate EventsKnown(n: Node) {
    forall i :: 0 <= i < |n.log| ==>
      n.log[i].session in n.phases && n.log[i].session in n.handlers && !n.handlers[n.log[i].session].Constructed?
  }

  /** Each session is removed at most once: when its Unregister runs. */
  ghost predicate RemovedOnce(n: Node) {
    && (forall c :: c in n.phases && !Pending(n.phases[c]) <==> Removed(c) in n.log)
    && (forall i, j :: 0 <= i < j < |n.log| && n.log[i].Removed? ==> n.log[j] != n.log[i])
  }

  predicate IsCommandOf(e: Event, c: Session) {
    (e.Joining? || e.Leaving?) && e.session == c
  }

  /** May still take a frame. */
  predicate MayRead(h: Handler) {
    h.Replacing? || h.Reading?
  }

  /** A session is marked before it is removed, and runs at most one more join
      or leave after that: the reply to it fails and ends the read loop. */
  ghost predicate MarkedOnce(n: Node) {
    && (forall c :: c in n.phases && IsMarked(n.phases[c]) <==> Marking(c) in n.log)
    && (forall i :: 0 <= i < |n.log| && n.log[i].Removed? ==> Marking(n.log[i].session) in n.log[..i])
  }

  ghost predicate OneLateCommand(n: Node) {
    && (forall i, j :: 0 <= i < j < |n.log| && n.log[i].Marking? && IsCommandOf(n.log[j], n.log[i].session) ==>
          n.log[i].session in n.handlers && !MayRead(n.handlers[n.log[i].session]))
    && (forall i, j, k :: 0 <= i < j < k < |n.log| && n.log[i].Marking? && IsCommandOf(n.log[j], n.log[i].session) ==>
          !IsCommandOf(n.log[k], n.log[i].session))
  }

  ghost predicate NodeInv(cfg: Config, n: Node) {
    && Shape(n) && Registry(n) && Rooms(cfg, n) && RoomEntries(n)
    && RegistryByLog(n) && RoomsByLog(n) && EventsKnown(n) && RemovedOnce(n)
    && MarkedOnce(n) && OneLateCommand(n)
    && Slots(cfg, n) && Upgrades(n) && Gauge(n)
  }

  /** Nobody in the draining snapshot is forgotten: whoever is no longer pending
      accepted the notice or is closed. */
  ghost predicate NoticesTell(n: Node, d: Shutdown) {
    && d.notified <= n.phases.Keys
    && (d.stage.Serving? || d.stage.Withdrawn? ==> d.notified == {} && d.accepted == {})
    && (d.stage.Notifying? ==> d.stage.pending <= d.notified)
    && (forall c :: c in d.notified && !(d.stage.Notifying? && c in d.stage.pending) ==>
          c in d.accepted || IsMarked(n.phases[c]))
  }

  /** Whoever CloseAll no longer waits for is closed, and any other registered
      session was installed after CloseAll took its snapshot. */
  ghost predicate ClosingTells(n: Node, d: Shutdown) {
    && d.doomed <= n.phases.Keys
    && d.doomedAt <= |n.log|
    && (d.stage.ClosingAll? ==> d.stage.pending <= d.doomed)
    && (d.stage.ClosingAll? || d.stage.Stopped? ==>
          && (forall c :: c in d.doomed && !(d.stage.ClosingAll? && c in d.stage.pending) ==> n.phases[c].Closed?)
          && (forall c :: Active(n.hub, c) ==> c in d.doomed || Installed(c) in n.log[d.doomedAt..]))
  }

  ghost predicate Inv(cfg: Config, s: State) {
    NodeInv(cfg, s.node) && NoticesTell(s.node, s.down) && ClosingTells(s.node, s.down)
  }
}
