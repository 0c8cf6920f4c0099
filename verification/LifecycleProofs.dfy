/** Every step of a node keeps its invariant. */
module LifecycleProofs {
  import opened Common
  import opened RoomIndex
  import opened Lifecycle

  // ---------- Steps of a request handler ----------

  /** The handler state that a request step leads to. */
  function NextHandler(op: RequestOp): Handler {
    match op
    case Arrive => Checking
    case Clear => Cleared
    case Refuse => Refused
    case Admit => Admitted
    case FailUpgrade => UpgradeFailed
    case ReleaseFailed => Failed
    case Construct => Constructed
    case ReplacedClosed => Reading
    case OtherCommand => Answering
    case ReplyQueued => Reading
    case ReplyRefused => Finishing
    case StopReading => Finishing
    case RunReturns => Returned
  }

  /** A request step moves one handler and, on construction, opens a session. */
  ghost predicate HandlerMoves(n: Node, c: Session, op: RequestOp, n': Node) {
    && n'.hub == n.hub && n'.log == n.log
    && n'.handlers == n.handlers[c := NextHandler(op)]
    && n'.phases == if op.Construct? then n.phases[c := Open] else n.phases
  }

  lemma RequestMoves(n: Node, c: Session, op: RequestOp)
    requires op.ReleaseFailed? || op.RunReturns? ==> n.slots > 0
    ensures HandlerMoves(n, c, op, RequestEffect(n, c, op))
  {}

  /** Where the handler may come from. */
  lemma RequestComesFrom(cfg: Config, ready: bool, n: Node, c: Session, op: RequestOp)
    requires Shape(n) && RequestEnabled(cfg, ready, n, c, op)
    ensures op.Arrive? <==> c !in n.handlers
    ensures op.Arrive? ==> forall d :: d in n.handlers ==> d.conn != c.conn
    ensures HandedOff(NextHandler(op)) && !op.Construct? ==> c in n.phases && !n.handlers[c].Constructed?
    ensures !HandedOff(NextHandler(op)) || op.Construct? ==> c !in n.phases
    ensures op.RunReturns? ==> n.phases[c].Closed?
    ensures c in n.handlers && Live(n.handlers[c]) && !op.RunReturns? ==> Live(NextHandler(op))
  {}

  lemma RequestShape(cfg: Config, ready: bool, n: Node, c: Session, op: RequestOp)
    requires Shape(n) && RequestEnabled(cfg, ready, n, c, op)
    ensures Shape(RequestEffect(n, c, op))
  {
    RequestMoves(n, c, op);
    RequestComesFrom(cfg, ready, n, c, op);
    MovedShape(n, c, op, RequestEffect(n, c, op));
  }

  lemma MovedShape(n: Node, c: Session, op: RequestOp, n': Node)
    requires Shape(n) && HandlerMoves(n, c, op, n')
    requires op.Arrive? <==> c !in n.handlers
    requires op.Arrive? ==> forall d :: d in n.handlers ==> d.conn != c.conn
    requires HandedOff(NextHandler(op)) && !op.Construct? ==> c in n.phases
    requires !HandedOff(NextHandler(op)) ==> c !in n.phases
    requires op.RunReturns? ==> c in n.phases && n.phases[c].Closed?
    ensures Shape(n')
  {}

  lemma RequestRegistry(cfg: Config, ready: bool, n: Node, c: Session, op: RequestOp)
    requires Shape(n) && Registry(n) && RequestEnabled(cfg, ready, n, c, op)
    ensures Registry(RequestEffect(n, c, op))
  {
    RequestMoves(n, c, op);
    RequestComesFrom(cfg, ready, n, c, op);
    MovedRegistry(n, c, op, RequestEffect(n, c, op));
  }

  lemma MovedRegistry(n: Node, c: Session, op: RequestOp, n': Node)
    requires Registry(n) && HandlerMoves(n, c, op, n')
    requires c in n.handlers && Live(n.handlers[c]) && !op.RunReturns? ==> Live(NextHandler(op))
    requires op.RunReturns? ==> c in n.phases && n.phases[c].Closed?
    requires op.Construct? ==> c !in n.phases
    ensures Registry(n')
  {}

  lemma RequestRooms(cfg: Config, ready: bool, n: Node, c: Session, op: RequestOp)
    requires Shape(n) && RoomEntries(n) && RequestEnabled(cfg, ready, n, c, op)
    ensures RoomEntries(RequestEffect(n, c, op))
  {
    RequestMoves(n, c, op);
    RequestComesFrom(cfg, ready, n, c, op);
    MovedEntries(n, c, op, RequestEffect(n, c, op));
  }

  lemma MovedEntries(n: Node, c: Session, op: RequestOp, n': Node)
    requires RoomEntries(n) && HandlerMoves(n, c, op, n')
    requires op.Construct? ==> c !in n.phases
    ensures RoomEntries(n')
  {}

  lemma RequestLog(cfg: Config, ready: bool, n: Node, c: Session, op: RequestOp)
    requires Shape(n) && EventsKnown(n) && RemovedOnce(n) && RequestEnabled(cfg, ready, n, c, op)
    ensures EventsKnown(RequestEffect(n, c, op)) && RemovedOnce(RequestEffect(n, c, op))
    ensures RequestEffect(n, c, op).hub == n.hub && RequestEffect(n, c, op).log == n.log
  {
    RequestMoves(n, c, op);
    RequestComesFrom(cfg, ready, n, c, op);
    MovedLog(n, c, op, RequestEffect(n, c, op));
  }

  lemma MovedLog(n: Node, c: Session, op: RequestOp, n': Node)
    requires EventsKnown(n) && RemovedOnce(n) && HandlerMoves(n, c, op, n')
    requires op.Construct? ==> c !in n.phases
    ensures EventsKnown(n') && RemovedOnce(n')
  {
    if op.Construct? {
      assert forall i :: 0 <= i < |n.log| ==> n.log[i].session != c;
      assert Removed(c) !in n.log;
    }
  }

  lemma RequestMarks(cfg: Config, ready: bool, n: Node, c: Session, op: RequestOp)
    requires Shape(n) && MarkedOnce(n) && OneLateCommand(n) && RequestEnabled(cfg, ready, n, c, op)
    ensures MarkedOnce(RequestEffect(n, c, op)) && OneLateCommand(RequestEffect(n, c, op))
  {
    RequestMoves(n, c, op);
    RequestComesFrom(cfg, ready, n, c, op);
    MovedMarks(n, c, op, RequestEffect(n, c, op));
  }

  lemma MovedMarks(n: Node, c: Session, op: RequestOp, n': Node)
    requires MarkedOnce(n) && OneLateCommand(n) && HandlerMoves(n, c, op, n')
    requires op.Construct? ==> c !in n.phases
    requires op.ReplyQueued? ==> c in n.phases && !IsMarked(n.phases[c])
    requires op.ReplacedClosed? ==> c in n.handlers && n.handlers[c].Replacing?
    ensures MarkedOnce(n') && OneLateCommand(n')
  {
    assert op.ReplyQueued? || op.Construct? ==> Marking(c) !in n.log;
    forall i, j | 0 <= i < j < |n.log| && n.log[i].Marking? && IsCommandOf(n.log[j], n.log[i].session)
      ensures n.log[i].session in n'.handlers && !MayRead(n'.handlers[n.log[i].session])
    {
      assert n.log[i] in n.log && n.log[i] == Marking(n.log[i].session);
    }
  }

  lemma RequestSlots(cfg: Config, ready: bool, n: Node, c: Session, op: RequestOp)
    requires Slots(cfg, n) && RequestEnabled(cfg, ready, n, c, op)
    ensures Slots(cfg, RequestEffect(n, c, op))
  {
    RequestMoves(n, c, op);
    HavingUpdate(n.handlers, c, NextHandler(op), HoldsSlot);
  }

  lemma RequestUpgrades(cfg: Config, ready: bool, n: Node, c: Session, op: RequestOp)
    requires Upgrades(n) && RequestEnabled(cfg, ready, n, c, op)
    ensures Upgrades(RequestEffect(n, c, op))
  {
    RequestMoves(n, c, op);
    HavingUpdate(n.handlers, c, NextHandler(op), Rejected);
    UpdateSize(n.handlers, c, NextHandler(op));
  }

  lemma UpdateSize<V>(m: map<Session, V>, c: Session, v: V)
    ensures |m[c := v]| == |m| + if c in m then 0 else 1
  {
    assert m[c := v].Keys == m.Keys + {c};
  }

  lemma RequestGauge(cfg: Config, ready: bool, n: Node, c: Session, op: RequestOp)
    requires Shape(n) && Gauge(n) && RequestEnabled(cfg, ready, n, c, op)
    ensures Gauge(RequestEffect(n, c, op))
  {
    HavingUpdate(n.phases, c, Open, NotClosed);
  }

  // ---------- Steps on a session or the hub ----------

  lemma SessionShape(cfg: Config, n: Node, c: Session, op: SessionOp)
    requires Shape(n) && SessionEnabled(cfg, n, c, op)
    ensures Shape(SessionEffect(n, c, op))
  {}

  lemma SessionRegistry(cfg: Config, n: Node, c: Session, op: SessionOp)
    requires Shape(n) && Registry(n) && SessionEnabled(cfg, n, c, op)
    ensures Registry(SessionEffect(n, c, op))
  {}

  lemma SessionRooms(cfg: Config, n: Node, c: Session, op: SessionOp)
    requires Rooms(cfg, n) && SessionEnabled(cfg, n, c, op)
    ensures Rooms(cfg, SessionEffect(n, c, op))
  {
    match op
    case Install => RegisterKeepsRelation(n.hub, c.user, c);
    case Unregister => UnregisterRefinesPurge(n.hub, c.conn, c.user, c, cfg.maxRooms);
    case Join(room) => JoinRefinesInsert(n.hub, c.conn, c, room, cfg.maxRooms);
    case Leave(room) => LeaveRefinesDelete(n.hub, c.conn, room, cfg.maxRooms);
    case _ =>
  }

  lemma SessionEntries(cfg: Config, n: Node, c: Session, op: SessionOp)
    requires Shape(n) && RoomEntries(n) && SessionEnabled(cfg, n, c, op)
    ensures RoomEntries(SessionEffect(n, c, op))
  {
    var n' := SessionEffect(n, c, op);
    EntriesAfter(n, c, op);
    forall room, conn | room in n'.hub.rooms && conn in n'.hub.rooms[room]
      ensures var d := n'.hub.rooms[room][conn];
              d.conn == conn && d in n'.phases && d in n'.handlers && !n'.handlers[d].Constructed?
    {
      if !EntriesFrom(n'.hub, n.hub) {
        assert Entry(Joined(n.hub, c.conn, c, op.room), room, conn, n'.hub.rooms[room][conn]);
        JoinEntry(n.hub, c.conn, c, op.room, room, conn, n'.hub.rooms[room][conn]);
      }
    }
  }

  lemma EntriesAfter(n: Node, c: Session, op: SessionOp)
    ensures EntriesFrom(SessionEffect(n, c, op).hub, n.hub) || op.Join?
  {
    UnregisterAddsNothing(n.hub, c.conn, c.user, c);
  }

  lemma SessionCounts(cfg: Config, n: Node, c: Session, op: SessionOp)
    requires Slots(cfg, n) && Upgrades(n) && SessionEnabled(cfg, n, c, op)
    ensures Slots(cfg, SessionEffect(n, c, op)) && Upgrades(SessionEffect(n, c, op))
  {
    if op.Install? || op.Join? || op.Leave? {
      var next := SessionEffect(n, c, op).handlers[c];
      HavingUpdate(n.handlers, c, next, HoldsSlot);
      HavingUpdate(n.handlers, c, next, Rejected);
      assert n.handlers[c := next].Keys == n.handlers.Keys;
    }
  }

  lemma SessionGauge(cfg: Config, n: Node, c: Session, op: SessionOp)
    requires Shape(n) && Gauge(n) && SessionEnabled(cfg, n, c, op)
    ensures Gauge(SessionEffect(n, c, op))
  {
    if op.BeginClose? || op.MarkClosed? || op.Unregister? || op.EndClose? {
      HavingUpdate(n.phases, c, SessionEffect(n, c, op).phases[c], NotClosed);
    }
  }

  // ---------- The log ----------

  lemma LastEvent(log: seq<Event>, e: Event)
    ensures (log + [e])[..|log + [e]| - 1] == log && (log + [e])[|log + [e]| - 1] == e
    ensures forall x :: x in log + [e] <==> x in log || x == e
  {}

  /** The event that an operation leaves in the log. */
  function EventOf(c: Session, op: SessionOp): seq<Event> {
    match op
    case Install => [Installed(c)]
    case Unregister => [Removed(c)]
    case MarkClosed => [Marking(c)]
    case Join(room) => [Joining(c, room)]
    case Leave(room) => [Leaving(c, room)]
    case _ => []
  }

  lemma LogAfter(n: Node, c: Session, op: SessionOp)
    ensures SessionEffect(n, c, op).log == n.log + EventOf(c, op)
  {}

  lemma ActiveAfter(n: Node, c: Session, op: SessionOp, d: Session)
    ensures var after := Active(SessionEffect(n, c, op).hub, d);
            match op
            case Install => after <==> d == c || (d.user != c.user && Active(n.hub, d))
            case Unregister => after <==> d != c && Active(n.hub, d)
            case _ => after <==> Active(n.hub, d)
  {}

  lemma SessionActiveLog(n: Node, c: Session, op: SessionOp)
    requires RegistryByLog(n)
    ensures RegistryByLog(SessionEffect(n, c, op))
  {
    var n' := SessionEffect(n, c, op);
    LogAfter(n, c, op);
    forall d ensures Active(n'.hub, d) <==> ActiveByLog(n'.log, d) {
      assert Active(n.hub, d) <==> ActiveByLog(n.log, d);
      ActiveAfter(n, c, op, d);
      if EventOf(c, op) != [] {
        LastEvent(n.log, EventOf(c, op)[0]);
      }
    }
  }

  lemma SessionRoomLog(cfg: Config, n: Node, c: Session, op: SessionOp)
    requires Shape(n) && Rooms(cfg, n) && RoomEntries(n) && RoomsByLog(n) && SessionEnabled(cfg, n, c, op)
    ensures RoomsByLog(SessionEffect(n, c, op))
  {
    var n' := SessionEffect(n, c, op);
    LogAfter(n, c, op);
    assert c in n.handlers;
    forall d, room ensures Holds(n'.hub, d, room) <==> MemberByLog(n'.log, d, room) {
      assert Holds(n.hub, d, room) <==> MemberByLog(n.log, d, room);
      HoldsAfter(n, c, op, d, room);
      MemberAfter(n.log, c, op, d, room);
    }
  }

  /** What each hub section's event does to one possible room entry. */
  lemma MemberAfter(log: seq<Event>, c: Session, op: SessionOp, d: Session, room: string)
    ensures var before, after := MemberByLog(log, d, room), MemberByLog(log + EventOf(c, op), d, room);
            match op
            case Join(r) => after <==> before || (d == c && r == room)
            case Leave(r) => after <==> before && !(d == c && r == room)
            case Unregister => after <==> before && d != c
            case _ => after <==> before
  {
    if EventOf(c, op) != [] {
      LastEvent(log, EventOf(c, op)[0]);
    } else {
      assert log + EventOf(c, op) == log;
    }
  }

  /** What each hub section does to one possible room entry. */
  lemma HoldsAfter(n: Node, c: Session, op: SessionOp, d: Session, room: string)
    requires Consistent(n.hub) && RoomEntries(n) && Shape(n) && c in n.handlers
    ensures var after := Holds(SessionEffect(n, c, op).hub, d, room);
            match op
            case Join(r) => after <==> Holds(n.hub, d, room) || (d == c && r == room)
            case Leave(r) => after <==> Holds(n.hub, d, room) && !(d == c && r == room)
            case Unregister => after <==> Holds(n.hub, d, room) && d != c
            case _ => after <==> Holds(n.hub, d, room)
  {
    assert Holds(n.hub, d, room) && d.conn == c.conn ==> d == c;
    match op
    case Join(r) => JoinEntry(n.hub, c.conn, c, r, room, d.conn, d);
    case Leave(r) => LeaveEntry(n.hub, c.conn, r, room, d.conn, d);
    case Unregister => UnregisterEntry(n.hub, c.conn, c.user, c, room, d.conn, d);
    case _ =>
  }

  lemma SessionEvents(cfg: Config, n: Node, c: Session, op: SessionOp)
    requires Shape(n) && EventsKnown(n) && SessionEnabled(cfg, n, c, op)
    ensures EventsKnown(SessionEffect(n, c, op))
  {
    var n' := SessionEffect(n, c, op);
    forall i | 0 <= i < |n'.log| ensures n'.log[i].session in n'.phases && n'.log[i].session in n'.handlers {
      assert i < |n.log| ==> n'.log[i] == n.log[i];
    }
  }

  lemma SessionRemovals(cfg: Config, n: Node, c: Session, op: SessionOp)
    requires RemovedOnce(n) && SessionEnabled(cfg, n, c, op)
    requires c in n.handlers && n.handlers[c].Constructed? ==> c in n.phases && n.phases[c].Open?
    ensures RemovedOnce(SessionEffect(n, c, op))
  {
    LogAfter(n, c, op);
    if EventOf(c, op) != [] {
      LastEvent(n.log, EventOf(c, op)[0]);
    }
  }

  lemma SessionMarks(cfg: Config, n: Node, c: Session, op: SessionOp)
    requires Shape(n) && MarkedOnce(n) && SessionEnabled(cfg, n, c, op)
    ensures MarkedOnce(SessionEffect(n, c, op))
  {
    var n' := SessionEffect(n, c, op);
    LogAfter(n, c, op);
    MarkedByPhase(cfg, n, c, op);
    if op.Unregister? {
      assert Marking(c) in n.log;
    }
    forall i | 0 <= i < |n'.log| && n'.log[i].Removed? ensures Marking(n'.log[i].session) in n'.log[..i] {
      assert n'.log[..i] == n.log[..i];
      assert i == |n.log| ==> n.log[..i] == n.log;
    }
  }

  lemma MarkedByPhase(cfg: Config, n: Node, c: Session, op: SessionOp)
    requires MarkedOnce(n) && SessionEnabled(cfg, n, c, op)
    ensures var n' := SessionEffect(n, c, op);
            forall d :: d in n'.phases && IsMarked(n'.phases[d]) <==> Marking(d) in n'.log
  {
    LogAfter(n, c, op);
    if EventOf(c, op) != [] {
      LastEvent(n.log, EventOf(c, op)[0]);
    }
  }

  lemma SessionLateCommand(cfg: Config, n: Node, c: Session, op: SessionOp)
    requires Shape(n) && MarkedOnce(n) && OneLateCommand(n) && SessionEnabled(cfg, n, c, op)
    ensures OneLateCommand(SessionEffect(n, c, op))
  {
    var n' := SessionEffect(n, c, op);
    LogAfter(n, c, op);
    forall i, j | 0 <= i < j < |n'.log| && n'.log[i].Marking? && IsCommandOf(n'.log[j], n'.log[i].session)
      ensures n'.log[i].session in n'.handlers && !MayRead(n'.handlers[n'.log[i].session])
    {
      assert n'.log[i] == n.log[i] && n.log[i] in n.log;
      assert j < |n.log| ==> n'.log[j] == n.log[j];
    }
    forall i, j, k | 0 <= i < j < k < |n'.log| && n'.log[i].Marking? && IsCommandOf(n'.log[j], n'.log[i].session)
      ensures !IsCommandOf(n'.log[k], n'.log[i].session)
    {
      assert n'.log[i] == n.log[i] && n'.log[j] == n.log[j];
      assert k < |n.log| ==> n'.log[k] == n.log[k];
    }
  }

  // ---------- The shutdown thread ----------

  /** What a step of the node never takes back. */
  ghost predicate Grows(n: Node, n': Node) {
    && n.phases.Keys <= n'.phases.Keys
    && (forall c :: c in n.phases && IsMarked(n.phases[c]) ==> IsMarked(n'.phases[c]))
    && (forall c :: c in n.phases && n.phases[c].Closed? ==> n'.phases[c].Closed?)
    && n.log <= n'.log
    && (forall c :: Active(n'.hub, c) ==> Active(n.hub, c) || n'.log == n.log + [Installed(c)])
  }

  lemma RequestGrows(cfg: Config, ready: bool, n: Node, c: Session, op: RequestOp)
    requires Shape(n) && RequestEnabled(cfg, ready, n, c, op)
    ensures Grows(n, RequestEffect(n, c, op))
  {}

  lemma SessionGrows(cfg: Config, n: Node, c: Session, op: SessionOp)
    requires Shape(n) && SessionEnabled(cfg, n, c, op)
    ensures Grows(n, SessionEffect(n, c, op))
  {}

  lemma GrowthKeepsShutdown(n: Node, n': Node, d: Shutdown)
    requires Grows(n, n') && NoticesTell(n, d) && ClosingTells(n, d)
    ensures NoticesTell(n', d) && ClosingTells(n', d)
  {
    forall c | Active(n'.hub, c) && (d.stage.ClosingAll? || d.stage.Stopped?)
      ensures c in d.doomed || Installed(c) in n'.log[d.doomedAt..]
    {
      if Active(n.hub, c) {
        if c !in d.doomed {
          var i :| 0 <= i < |n.log[d.doomedAt..]| && n.log[d.doomedAt..][i] == Installed(c);
          assert n'.log[d.doomedAt..][i] == Installed(c);
        }
      } else {
        assert n'.log[d.doomedAt..][|n.log| - d.doomedAt] == Installed(c);
      }
    }
  }

  lemma ShutdownSteps(n: Node, d: Shutdown, op: ShutdownOp)
    requires Registry(n) && NoticesTell(n, d) && ClosingTells(n, d) && ShutdownEnabled(n, d, op)
    ensures NoticesTell(n, ShutdownEffect(n, d, op)) && ClosingTells(n, ShutdownEffect(n, d, op))
  {
    var d' := ShutdownEffect(n, d, op);
    if op.SnapshotDraining? || op.SnapshotClosing? {
      forall c | c in n.hub.clients.Values ensures c in n.phases {}
      assert forall c :: Active(n.hub, c) ==> c in n.hub.clients.Values;
    }
  }

  // ---------- Every schedule ----------

  lemma RequestKeepsInv(cfg: Config, s: State, c: Session, op: RequestOp)
    requires Inv(cfg, s) && RequestEnabled(cfg, s.down.stage.Serving?, s.node, c, op)
    ensures Inv(cfg, Step(cfg, s, OnRequest(c, op)))
  {
    var ready, n := s.down.stage.Serving?, s.node;
    RequestShape(cfg, ready, n, c, op);
    RequestRegistry(cfg, ready, n, c, op);
    RequestRooms(cfg, ready, n, c, op);
    RequestLog(cfg, ready, n, c, op);
    RequestMarks(cfg, ready, n, c, op);
    RequestSlots(cfg, ready, n, c, op);
    RequestUpgrades(cfg, ready, n, c, op);
    RequestGauge(cfg, ready, n, c, op);
    RequestGrows(cfg, ready, n, c, op);
    GrowthKeepsShutdown(n, RequestEffect(n, c, op), s.down);
  }

  lemma SessionKeepsInv(cfg: Config, s: State, c: Session, op: SessionOp)
    requires Inv(cfg, s) && SessionEnabled(cfg, s.node, c, op)
    ensures Inv(cfg, Step(cfg, s, OnSession(c, op)))
  {
    var n := s.node;
    SessionShape(cfg, n, c, op);
    SessionRegistry(cfg, n, c, op);
    SessionRooms(cfg, n, c, op);
    SessionEntries(cfg, n, c, op);
    SessionCounts(cfg, n, c, op);
    SessionGauge(cfg, n, c, op);
    SessionActiveLog(n, c, op);
    SessionRoomLog(cfg, n, c, op);
    SessionEvents(cfg, n, c, op);
    SessionRemovals(cfg, n, c, op);
    SessionMarks(cfg, n, c, op);
    SessionLateCommand(cfg, n, c, op);
    SessionGrows(cfg, n, c, op);
    GrowthKeepsShutdown(n, SessionEffect(n, c, op), s.down);
  }

  lemma StepKeepsInv(cfg: Config, s: State, a: Action)
    requires Inv(cfg, s)
    ensures Inv(cfg, Step(cfg, s, a))
  {
    match a
    case OnRequest(c, op) =>
      if RequestEnabled(cfg, s.down.stage.Serving?, s.node, c, op) {
        RequestKeepsInv(cfg, s, c, op);
      }
    case OnSession(c, op) =>
      if SessionEnabled(cfg, s.node, c, op) {
        SessionKeepsInv(cfg, s, c, op);
      }
    case OnShutdown(op) =>
      if ShutdownEnabled(s.node, s.down, op) {
        ShutdownSteps(s.node, s.down, op);
      }
  }

  lemma {:induction false} EveryScheduleKeepsInv(cfg: Config, schedule: seq<Action>)
    ensures Inv(cfg, Run(cfg, schedule))
  {
    if schedule != [] {
      EveryScheduleKeepsInv(cfg, schedule[..|schedule| - 1]);
      StepKeepsInv(cfg, Run(cfg, schedule[..|schedule| - 1]), schedule[|schedule| - 1]);
    }
  }
}
