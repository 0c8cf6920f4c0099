/** What the steps of a node achieve, and that every request can be brought to its
    end from every reachable state. */
module LifecycleProgress {
  import opened Common
  import opened RoomIndex
  import opened Lifecycle
  import opened LifecycleProofs
  import opened LifecycleTheorems

  // ---------- What single steps achieve ----------

  /** A request that passed the checks gets a slot exactly if fewer than the
      configured number of requests hold one, and is refused exactly otherwise. */
  lemma AdmittedIffSlotFree(cfg: Config, schedule: seq<Action>, c: Session)
    requires Is(Run(cfg, schedule).node.handlers, c, Cleared)
    ensures var n := Run(cfg, schedule).node;
            var free := |Having(n.handlers, HoldsSlot)| < cfg.maxConnections;
            && Run(cfg, schedule + [OnRequest(c, Admit)]).node ==
                 (if free then n.(handlers := n.handlers[c := Admitted], slots := n.slots + 1) else n)
            && Run(cfg, schedule + [OnRequest(c, Refuse)]).node ==
                 (if free then n else n.(handlers := n.handlers[c := Refused], rejected := n.rejected + 1))
  {
    EveryScheduleKeepsInv(cfg, schedule);
    OneMore(cfg, schedule, OnRequest(c, Admit));
    OneMore(cfg, schedule, OnRequest(c, Refuse));
  }

  /** A session that has been constructed is registered by its Install. */
  lemma InstallRegisters(cfg: Config, schedule: seq<Action>, c: Session)
    requires Is(Run(cfg, schedule).node.handlers, c, Constructed)
    ensures Active(Run(cfg, schedule + [OnSession(c, Install)]).node.hub, c)
  {
    OneMore(cfg, schedule, OnSession(c, Install));
  }

  /** A join by a read loop puts the session into the room exactly if it is there
      already or is in fewer rooms than a positive cap. */
  lemma JoinTakesEffect(cfg: Config, schedule: seq<Action>, c: Session, room: string)
    requires Is(Run(cfg, schedule).node.handlers, c, Reading)
    ensures var h, h' := Run(cfg, schedule).node.hub, Run(cfg, schedule + [OnSession(c, Join(room))]).node.hub;
            Holds(h', c, room) <==>
              Holds(h, c, room) || cfg.maxRooms <= 0 || |RoomsListing(h, c.conn)| < cfg.maxRooms
  {
    EveryScheduleKeepsInv(cfg, schedule);
    OneMore(cfg, schedule, OnSession(c, Join(room)));
    JoinEffect(cfg, Run(cfg, schedule), c, room);
  }

  lemma JoinEffect(cfg: Config, s: State, c: Session, room: string)
    requires Shape(s.node) && Rooms(cfg, s.node) && RoomEntries(s.node) && Is(s.node.handlers, c, Reading)
    ensures var h, h' := s.node.hub, Step(cfg, s, OnSession(c, Join(room))).node.hub;
            Holds(h', c, room) <==>
              Holds(h, c, room) || cfg.maxRooms <= 0 || |RoomsListing(h, c.conn)| < cfg.maxRooms
  {
    JoinRefusedAtCap(s.node.hub, c.conn, room, cfg.maxRooms);
    JoinEntry(s.node.hub, c.conn, c, room, room, c.conn, c);
    OnlyOwnEntry(s.node, c, room);
  }

  /** Nobody else is listed under a session's connection. */
  lemma OnlyOwnEntry(n: Node, c: Session, room: string)
    requires Shape(n) && RoomEntries(n) && c in n.handlers
    ensures InRoom(n.hub, room, c.conn) <==> Holds(n.hub, c, room)
  {}

  lemma LeaveTakesEffect(cfg: Config, schedule: seq<Action>, c: Session, room: string)
    requires Is(Run(cfg, schedule).node.handlers, c, Reading)
    ensures !Holds(Run(cfg, schedule + [OnSession(c, Leave(room))]).node.hub, c, room)
  {
    OneMore(cfg, schedule, OnSession(c, Leave(room)));
    LeaveEntry(Run(cfg, schedule).node.hub, c.conn, room, room, c.conn, c);
  }

  /** The Unregister of a marked session takes it out of registry and rooms. */
  lemma UnregisterTakesEffect(cfg: Config, schedule: seq<Action>, c: Session, room: string)
    requires Is(Run(cfg, schedule).node.phases, c, Marked)
    ensures var h := Run(cfg, schedule + [OnSession(c, Unregister)]).node.hub;
            !Active(h, c) && !Holds(h, c, room)
  {
    EveryScheduleKeepsInv(cfg, schedule);
    OneMore(cfg, schedule, OnSession(c, Unregister));
    var n := Run(cfg, schedule).node;
    UnregisterEntry(n.hub, c.conn, c.user, c, room, c.conn, c);
    ActiveAfter(n, c, Unregister, c);
  }

  // ---------- Every session can be closed ----------

  /** Whoever a new session waits for was installed. */
  ghost predicate ReplacedKnown(n: Node) {
    forall c :: c in n.handlers && n.handlers[c].Replacing? ==> WasInstalled(n, n.handlers[c].prior)
  }

  predicate WasInstalled(n: Node, c: Session) {
    c in n.handlers && c in n.phases && !n.handlers[c].Constructed?
  }

  lemma RequestKeepsInstalled(cfg: Config, ready: bool, n: Node, c: Session, op: RequestOp, d: Session)
    requires Shape(n) && WasInstalled(n, d) && RequestEnabled(cfg, ready, n, c, op)
    ensures WasInstalled(RequestEffect(n, c, op), d)
  {
    RequestComesFrom(cfg, ready, n, c, op);
    RequestMoves(n, c, op);
  }

  lemma SessionKeepsInstalled(n: Node, c: Session, op: SessionOp, d: Session)
    requires WasInstalled(n, d)
    ensures WasInstalled(SessionEffect(n, c, op), d)
  {}

  lemma RequestKeepsReplaced(cfg: Config, ready: bool, n: Node, c: Session, op: RequestOp)
    requires Shape(n) && ReplacedKnown(n) && RequestEnabled(cfg, ready, n, c, op)
    ensures ReplacedKnown(RequestEffect(n, c, op))
  {
    RequestMoves(n, c, op);
    var n' := RequestEffect(n, c, op);
    forall x | x in n'.handlers && n'.handlers[x].Replacing? ensures WasInstalled(n', n'.handlers[x].prior) {
      assert n'.handlers[x] == n.handlers[x];
      RequestKeepsInstalled(cfg, ready, n, c, op, n.handlers[x].prior);
    }
  }

  lemma SessionKeepsReplaced(cfg: Config, n: Node, c: Session, op: SessionOp)
    requires Registry(n) && ReplacedKnown(n) && SessionEnabled(cfg, n, c, op)
    ensures ReplacedKnown(SessionEffect(n, c, op))
  {
    var n' := SessionEffect(n, c, op);
    forall x | x in n'.handlers && n'.handlers[x].Replacing? ensures WasInstalled(n', n'.handlers[x].prior) {
      var prior := n'.handlers[x].prior;
      assert op.Install? && x == c ==> prior == n.hub.clients[c.user];
      assert !(op.Install? && x == c) ==> n'.handlers[x] == n.handlers[x];
      assert WasInstalled(n, prior);
      SessionKeepsInstalled(n, c, op, prior);
    }
  }

  lemma StepKeepsReplaced(cfg: Config, s: State, a: Action)
    requires Shape(s.node) && Registry(s.node) && ReplacedKnown(s.node)
    ensures ReplacedKnown(Step(cfg, s, a).node)
  {
    match a
    case OnRequest(c, op) =>
      if RequestEnabled(cfg, s.down.stage.Serving?, s.node, c, op) {
        RequestKeepsReplaced(cfg, s.down.stage.Serving?, s.node, c, op);
      }
    case OnSession(c, op) =>
      if SessionEnabled(cfg, s.node, c, op) {
        SessionKeepsReplaced(cfg, s.node, c, op);
      }
    case OnShutdown(_) =>
  }

  lemma {:induction false} EveryScheduleKeepsReplaced(cfg: Config, schedule: seq<Action>)
    ensures ReplacedKnown(Run(cfg, schedule).node)
  {
    if schedule != [] {
      var before := schedule[..|schedule| - 1];
      EveryScheduleKeepsReplaced(cfg, before);
      EveryScheduleKeepsInv(cfg, before);
      StepKeepsReplaced(cfg, Run(cfg, before), schedule[|schedule| - 1]);
    }
  }

  function Remaining(p: Phase): nat {
    match p
    case Open => 4
    case Guarded => 3
    case Marked => 2
    case Cleaned => 1
    case Closed => 0
  }

  /** The next step of the once-only Close. */
  function ClosingOp(p: Phase): SessionOp {
    match p
    case Open => BeginClose
    case Guarded => MarkClosed
    case Marked => Unregister
    case _ => EndClose
  }

  lemma ClosingStep(cfg: Config, s: State, c: Session)
    requires Shape(s.node) && WasInstalled(s.node, c) && !s.node.phases[c].Closed?
    ensures var n' := Step(cfg, s, OnSession(c, ClosingOp(s.node.phases[c]))).node;
            && n'.handlers == s.node.handlers && n'.slots == s.node.slots && c in n'.phases
            && Remaining(n'.phases[c]) < Remaining(s.node.phases[c])
  {}

  lemma ClosingStepOfRun(cfg: Config, schedule: seq<Action>, c: Session) returns (a: Action)
    requires WasInstalled(Run(cfg, schedule).node, c) && !Run(cfg, schedule).node.phases[c].Closed?
    ensures var n, n' := Run(cfg, schedule).node, Run(cfg, schedule + [a]).node;
            && n'.handlers == n.handlers && n'.slots == n.slots && c in n'.phases
            && Remaining(n'.phases[c]) < Remaining(n.phases[c])
    ensures Run(cfg, schedule + [a]).down == Run(cfg, schedule).down
  {
    EveryScheduleKeepsInv(cfg, schedule);
    var s := Run(cfg, schedule);
    a := OnSession(c, ClosingOp(s.node.phases[c]));
    OneMore(cfg, schedule, a);
    ClosingStep(cfg, s, c);
  }

  /** From every moment of every run, an installed session can be closed. */
  lemma {:induction false} SessionCanBeClosed(cfg: Config, schedule: seq<Action>, c: Session)
    returns (more: seq<Action>)
    requires WasInstalled(Run(cfg, schedule).node, c)
    ensures var n, n' := Run(cfg, schedule).node, Run(cfg, schedule + more).node;
            Is(n'.phases, c, Closed) && n'.handlers == n.handlers && n'.slots == n.slots
    ensures Run(cfg, schedule + more).down == Run(cfg, schedule).down
    decreases Remaining(Run(cfg, schedule).node.phases[c])
  {
    if Run(cfg, schedule).node.phases[c].Closed? {
      more := [];
      assert schedule + more == schedule;
    } else {
      var a := ClosingStepOfRun(cfg, schedule, c);
      var rest := SessionCanBeClosed(cfg, schedule + [a], c);
      more := [a] + rest;
      assert schedule + more == (schedule + [a]) + rest;
    }
  }

  // ---------- Every request can end ----------

  predicate Done(h: Handler) {
    h.Refused? || h.Failed? || h.Returned?
  }

  predicate Unfinished(h: Handler) {
    !Done(h)
  }

  ghost predicate AllDone(n: Node) {
    forall c :: c in n.handlers ==> Done(n.handlers[c])
  }

  /** `more` brings the handler of c to `h` and leaves the others as they are. */
  ghost predicate Brings(cfg: Config, schedule: seq<Action>, more: seq<Action>, c: Session, h: Handler) {
    Run(cfg, schedule + more).node.handlers == Run(cfg, schedule).node.handlers[c := h]
  }

  lemma BringsTwice(cfg: Config, schedule: seq<Action>, first: seq<Action>, rest: seq<Action>,
                    c: Session, g: Handler, h: Handler)
    requires Brings(cfg, schedule, first, c, g) && Brings(cfg, schedule + first, rest, c, h)
    ensures Brings(cfg, schedule, first + rest, c, h)
  {
    assert schedule + (first + rest) == (schedule + first) + rest;
    var m := Run(cfg, schedule).node.handlers;
    assert m[c := g][c := h] == m[c := h];
  }

  /** One step of the handler itself. */
  lemma HandlerStep(cfg: Config, schedule: seq<Action>, c: Session, op: RequestOp)
    requires var s := Run(cfg, schedule); RequestEnabled(cfg, s.down.stage.Serving?, s.node, c, op)
    ensures Brings(cfg, schedule, [OnRequest(c, op)], c, NextHandler(op))
  {
    OneMore(cfg, schedule, OnRequest(c, op));
    RequestMoves(Run(cfg, schedule).node, c, op);
  }

  lemma HolderMeansSlot(cfg: Config, schedule: seq<Action>, c: Session)
    requires c in Run(cfg, schedule).node.handlers && HoldsSlot(Run(cfg, schedule).node.handlers[c])
    ensures Run(cfg, schedule).node.slots > 0
  {
    EveryScheduleKeepsInv(cfg, schedule);
    var m := Run(cfg, schedule).node.handlers;
    assert c in Having(m, HoldsSlot);
  }

  lemma FromFinishing(cfg: Config, schedule: seq<Action>, c: Session) returns (more: seq<Action>)
    requires Is(Run(cfg, schedule).node.handlers, c, Finishing)
    ensures Brings(cfg, schedule, more, c, Returned)
  {
    EveryScheduleKeepsInv(cfg, schedule);
    var m := Run(cfg, schedule).node.handlers;
    var closing := SessionCanBeClosed(cfg, schedule, c);
    assert m[c := Finishing] == m;
    HolderMeansSlot(cfg, schedule + closing, c);
    HandlerStep(cfg, schedule + closing, c, RunReturns);
    more := closing + [OnRequest(c, RunReturns)];
    BringsTwice(cfg, schedule, closing, [OnRequest(c, RunReturns)], c, Finishing, Returned);
  }

  lemma FromReading(cfg: Config, schedule: seq<Action>, c: Session) returns (more: seq<Action>)
    requires Is(Run(cfg, schedule).node.handlers, c, Reading) || Is(Run(cfg, schedule).node.handlers, c, Answering)
    ensures Brings(cfg, schedule, more, c, Returned)
  {
    var op := if Run(cfg, schedule).node.handlers[c].Reading? then StopReading else ReplyRefused;
    HandlerStep(cfg, schedule, c, op);
    var rest := FromFinishing(cfg, schedule + [OnRequest(c, op)], c);
    more := [OnRequest(c, op)] + rest;
    BringsTwice(cfg, schedule, [OnRequest(c, op)], rest, c, Finishing, Returned);
  }

  lemma FromReplacing(cfg: Config, schedule: seq<Action>, c: Session) returns (more: seq<Action>)
    requires c in Run(cfg, schedule).node.handlers && Run(cfg, schedule).node.handlers[c].Replacing?
    ensures Brings(cfg, schedule, more, c, Returned)
  {
    EveryScheduleKeepsReplaced(cfg, schedule);
    var m := Run(cfg, schedule).node.handlers;
    var closing := SessionCanBeClosed(cfg, schedule, m[c].prior);
    assert m[c := m[c]] == m;
    var next := schedule + closing;
    HandlerStep(cfg, next, c, ReplacedClosed);
    var rest := FromReading(cfg, next + [OnRequest(c, ReplacedClosed)], c);
    BringsTwice(cfg, next, [OnRequest(c, ReplacedClosed)], rest, c, Reading, Returned);
    more := closing + ([OnRequest(c, ReplacedClosed)] + rest);
    BringsTwice(cfg, schedule, closing, [OnRequest(c, ReplacedClosed)] + rest, c, m[c], Returned);
  }

  lemma FromConstructed(cfg: Config, schedule: seq<Action>, c: Session) returns (more: seq<Action>)
    requires Is(Run(cfg, schedule).node.handlers, c, Constructed)
    ensures Brings(cfg, schedule, more, c, Returned)
  {
    var install := OnSession(c, Install);
    OneMore(cfg, schedule, install);
    var next := schedule + [install];
    var h := Run(cfg, next).node.handlers[c];
    assert Brings(cfg, schedule, [install], c, h);
    var rest: seq<Action>;
    if h.Reading? {
      rest := FromReading(cfg, next, c);
    } else {
      rest := FromReplacing(cfg, next, c);
    }
    more := [install] + rest;
    BringsTwice(cfg, schedule, [install], rest, c, h, Returned);
  }

  lemma FromFailed(cfg: Config, schedule: seq<Action>, c: Session) returns (more: seq<Action>)
    requires var m := Run(cfg, schedule).node.handlers; Is(m, c, Admitted) || Is(m, c, UpgradeFailed)
    ensures Brings(cfg, schedule, more, c, Failed)
  {
    var release := OnRequest(c, ReleaseFailed);
    if Is(Run(cfg, schedule).node.handlers, c, Admitted) {
      var fail := OnRequest(c, FailUpgrade);
      HandlerStep(cfg, schedule, c, FailUpgrade);
      HolderMeansSlot(cfg, schedule + [fail], c);
      HandlerStep(cfg, schedule + [fail], c, ReleaseFailed);
      more := [fail] + [release];
      BringsTwice(cfg, schedule, [fail], [release], c, UpgradeFailed, Failed);
    } else {
      HolderMeansSlot(cfg, schedule, c);
      HandlerStep(cfg, schedule, c, ReleaseFailed);
      more := [release];
    }
  }

  lemma FromCleared(cfg: Config, schedule: seq<Action>, c: Session) returns (more: seq<Action>, h: Handler)
    requires Is(Run(cfg, schedule).node.handlers, c, Cleared)
    ensures Done(h) && Brings(cfg, schedule, more, c, h)
  {
    if Run(cfg, schedule).node.slots < cfg.maxConnections {
      var admit := [OnRequest(c, Admit)];
      HandlerStep(cfg, schedule, c, Admit);
      var rest := FromFailed(cfg, schedule + admit, c);
      more, h := admit + rest, Failed;
      BringsTwice(cfg, schedule, admit, rest, c, Admitted, Failed);
    } else {
      HandlerStep(cfg, schedule, c, Refuse);
      more, h := [OnRequest(c, Refuse)], Refused;
    }
  }

  /** From every moment of every run, every request can be brought to its end,
      and no other request is touched by that. */
  lemma EveryRequestCanEnd(cfg: Config, schedule: seq<Action>, c: Session) returns (more: seq<Action>, h: Handler)
    requires c in Run(cfg, schedule).node.handlers
    ensures Done(h) && Brings(cfg, schedule, more, c, h)
  {
    var m := Run(cfg, schedule).node.handlers;
    match m[c]
    case Checking =>
      HandlerStep(cfg, schedule, c, Refuse);
      more, h := [OnRequest(c, Refuse)], Refused;
    case Cleared => more, h := FromCleared(cfg, schedule, c);
    case Admitted => more := FromFailed(cfg, schedule, c); h := Failed;
    case UpgradeFailed => more := FromFailed(cfg, schedule, c); h := Failed;
    case Constructed => more := FromConstructed(cfg, schedule, c); h := Returned;
    case Replacing(_) => more := FromReplacing(cfg, schedule, c); h := Returned;
    case Reading => more := FromReading(cfg, schedule, c); h := Returned;
    case Answering => more := FromReading(cfg, schedule, c); h := Returned;
    case Finishing => more := FromFinishing(cfg, schedule, c); h := Returned;
    case _ =>
      more, h := [], m[c];
      assert schedule + more == schedule && m[c := m[c]] == m;
  }

  lemma {:induction false} EveryoneCanEnd(cfg: Config, schedule: seq<Action>) returns (more: seq<Action>)
    ensures AllDone(Run(cfg, schedule + more).node)
    decreases |Having(Run(cfg, schedule).node.handlers, Unfinished)|
  {
    var m := Run(cfg, schedule).node.handlers;
    if c :| c in m && !Done(m[c]) {
      var first, h := EveryRequestCanEnd(cfg, schedule, c);
      HavingUpdate(m, c, h, Unfinished);
      var rest := EveryoneCanEnd(cfg, schedule + first);
      more := first + rest;
      assert schedule + more == (schedule + first) + rest;
    } else {
      more := [];
      assert schedule + more == schedule;
    }
  }

  /** Nothing is lost: from every moment of every run the node can come to a state
      in which every request has ended, every slot is free, nobody is registered
      and the gauge of active connections is zero. */
  lemma NodeCanDrain(cfg: Config, schedule: seq<Action>) returns (more: seq<Action>)
    ensures var n := Run(cfg, schedule + more).node;
            && AllDone(n)
            && n.slots == 0 && n.hub.clients == map[] && n.active == 0
  {
    more := EveryoneCanEnd(cfg, schedule);
    EveryScheduleKeepsInv(cfg, schedule + more);
    DoneMeansDrained(cfg, Run(cfg, schedule + more).node);
  }

  lemma DoneMeansDrained(cfg: Config, n: Node)
    requires Shape(n) && Registry(n) && Slots(cfg, n) && Gauge(n) && AllDone(n)
    ensures n.slots == 0 && n.hub.clients == map[] && n.active == 0
  {
    assert Having(n.handlers, HoldsSlot) == {};
    assert Having(n.phases, NotClosed) == {};
    assert forall c :: c in n.handlers ==> !Live(n.handlers[c]);
    assert n.hub.clients.Keys == {};
  }

  /** A request that passed the checks while a slot is free can be registered. */
  lemma ClearedCanRegister(cfg: Config, schedule: seq<Action>, c: Session) returns (more: seq<Action>)
    requires Is(Run(cfg, schedule).node.handlers, c, Cleared)
    requires |Having(Run(cfg, schedule).node.handlers, HoldsSlot)| < cfg.maxConnections
    ensures Active(Run(cfg, schedule + more).node.hub, c)
  {
    AdmittedIffSlotFree(cfg, schedule, c);
    var s1 := schedule + [OnRequest(c, Admit)];
    HandlerStep(cfg, s1, c, Construct);
    var s2 := s1 + [OnRequest(c, Construct)];
    InstallRegisters(cfg, s2, c);
    more := [OnRequest(c, Admit), OnRequest(c, Construct), OnSession(c, Install)];
    assert schedule + more == s2 + [OnSession(c, Install)];
  }

  // ---------- The shutdown can finish ----------

  function StageRank(stage: Stage): nat {
    match stage
    case Serving => 5
    case Withdrawn => 4
    case Notifying(_) => 3
    case Sleeping => 2
    case ClosingAll(_) => 1
    case Stopped => 0
  }

  function Outstanding(stage: Stage): set<Session> {
    match stage
    case Notifying(pending) => pending
    case ClosingAll(pending) => pending
    case _ => {}
  }

  /** The stage is closer to the end. */
  predicate Advances(before: Stage, after: Stage) {
    || StageRank(after) < StageRank(before)
    || (StageRank(after) == StageRank(before) && |Outstanding(after)| < |Outstanding(before)|)
  }

  lemma ShutdownStep(cfg: Config, schedule: seq<Action>, op: ShutdownOp)
    requires var s := Run(cfg, schedule); ShutdownEnabled(s.node, s.down, op)
    ensures Run(cfg, schedule + [OnShutdown(op)]).down ==
            ShutdownEffect(Run(cfg, schedule).node, Run(cfg, schedule).down, op)
  {
    OneMore(cfg, schedule, OnShutdown(op));
  }

  lemma LoggedWasInstalled(cfg: Config, schedule: seq<Action>, i: int)
    requires 0 <= i < |Run(cfg, schedule).node.log|
    ensures WasInstalled(Run(cfg, schedule).node, Run(cfg, schedule).node.log[i].session)
  {
    EveryScheduleKeepsInv(cfg, schedule);
  }

  lemma ListedWasLogged(cfg: Config, schedule: seq<Action>, c: Session) returns (j: int)
    requires c in Run(cfg, schedule).node.hub.clients.Values
    ensures 0 <= j < |Run(cfg, schedule).node.log| && Run(cfg, schedule).node.log[j] == Installed(c)
  {
    EveryScheduleKeepsInv(cfg, schedule);
    assert Active(Run(cfg, schedule).node.hub, c);
    RegistryIsLastInstall(cfg, schedule, c);
    j :| InstalledAt(Run(cfg, schedule).node.log, c, j);
  }

  lemma DoomedWasInstalled(cfg: Config, schedule: seq<Action>, c: Session)
    requires AfterClosing(Run(cfg, schedule).down.stage) && c in Run(cfg, schedule).down.doomed
    ensures WasInstalled(Run(cfg, schedule).node, c)
  {
    var p := ClosingMoment(cfg, schedule);
    var j := ListedWasLogged(cfg, schedule[..p], c);
    LogGrows(cfg, schedule[..p], schedule[p..]);
    assert schedule[..p] + schedule[p..] == schedule;
    LoggedWasInstalled(cfg, schedule, j);
  }

  lemma PendingIsDoomed(cfg: Config, schedule: seq<Action>, c: Session)
    requires var d := Run(cfg, schedule).down; d.stage.ClosingAll? && c in d.stage.pending
    ensures c in Run(cfg, schedule).down.doomed
  {
    EveryScheduleKeepsInv(cfg, schedule);
  }

  lemma OneNotice(cfg: Config, schedule: seq<Action>) returns (op: ShutdownOp)
    requires Run(cfg, schedule).down.stage.Notifying?
    ensures var s := Run(cfg, schedule);
            ShutdownEnabled(s.node, s.down, op) && Advances(s.down.stage, ShutdownEffect(s.node, s.down, op).stage)
  {
    EveryScheduleKeepsInv(cfg, schedule);
    var s := Run(cfg, schedule);
    if c :| c in s.down.stage.pending {
      assert c in s.node.phases;
      op := if IsMarked(s.node.phases[c]) then NoticeRefused(c) else NoticeAccepted(c);
      assert |s.down.stage.pending - {c}| < |s.down.stage.pending|;
    } else {
      op := EndNotices;
    }
  }

  lemma OneClosing(cfg: Config, schedule: seq<Action>) returns (more: seq<Action>)
    requires Run(cfg, schedule).down.stage.ClosingAll?
    ensures Advances(Run(cfg, schedule).down.stage, Run(cfg, schedule + more).down.stage)
  {
    var d := Run(cfg, schedule).down;
    if c :| c in d.stage.pending {
      PendingIsDoomed(cfg, schedule, c);
      DoomedWasInstalled(cfg, schedule, c);
      var closing := SessionCanBeClosed(cfg, schedule, c);
      ShutdownStep(cfg, schedule + closing, CloseAwaited(c));
      more := closing + [OnShutdown(CloseAwaited(c))];
      assert schedule + more == (schedule + closing) + [OnShutdown(CloseAwaited(c))];
      assert |d.stage.pending - {c}| < |d.stage.pending|;
    } else {
      ShutdownStep(cfg, schedule, EndClosing);
      more := [OnShutdown(EndClosing)];
    }
  }

  lemma OneAdvance(cfg: Config, schedule: seq<Action>) returns (more: seq<Action>)
    requires !Run(cfg, schedule).down.stage.Stopped?
    ensures Advances(Run(cfg, schedule).down.stage, Run(cfg, schedule + more).down.stage)
  {
    match Run(cfg, schedule).down.stage
    case Serving =>
      ShutdownStep(cfg, schedule, Withdraw);
      more := [OnShutdown(Withdraw)];
    case Withdrawn =>
      ShutdownStep(cfg, schedule, SnapshotDraining);
      more := [OnShutdown(SnapshotDraining)];
    case Notifying(_) =>
      var op := OneNotice(cfg, schedule);
      ShutdownStep(cfg, schedule, op);
      more := [OnShutdown(op)];
    case Sleeping =>
      ShutdownStep(cfg, schedule, SnapshotClosing);
      more := [OnShutdown(SnapshotClosing)];
    case ClosingAll(_) => more := OneClosing(cfg, schedule);
  }

  /** From every moment of every run, the shutdown can go through all its stages:
      no notice and no close that it waits for can keep it from stopping. */
  lemma {:induction false} ShutdownCanFinish(cfg: Config, schedule: seq<Action>) returns (more: seq<Action>)
    ensures Run(cfg, schedule + more).down.stage.Stopped?
    decreases StageRank(Run(cfg, schedule).down.stage), |Outstanding(Run(cfg, schedule).down.stage)|
  {
    if Run(cfg, schedule).down.stage.Stopped? {
      more := [];
      assert schedule + more == schedule;
    } else {
      var first := OneAdvance(cfg, schedule);
      var rest := ShutdownCanFinish(cfg, schedule + first);
      more := first + rest;
      assert schedule + more == (schedule + first) + rest;
    }
  }
}
