/** What holds of a node in every schedule. */
module LifecycleTheorems {
  import opened Common
  import opened RoomIndex
  import opened Lifecycle
  import opened LifecycleProofs

  // ---------- Reading the log ----------

  /** Event `j` put (c, room) into the index, and nothing took it out since. */
  ghost predicate JoinedAt(log: seq<Event>, c: Session, room: string, j: int) {
    && 0 <= j < |log| && log[j] == Joining(c, room)
    && forall k :: j < k < |log| ==> log[k] != Leaving(c, room) && log[k] != Removed(c)
  }

  lemma {:induction false} MembershipReadsOff(log: seq<Event>, c: Session, room: string)
    ensures MemberByLog(log, c, room) <==> exists j :: JoinedAt(log, c, room, j)
  {
    if log != [] {
      var n := |log| - 1;
      MembershipReadsOff(log[..n], c, room);
      if j :| JoinedAt(log[..n], c, room, j) && MemberByLog(log, c, room) {
        assert JoinedAt(log, c, room, if log[n] == Joining(c, room) then n else j);
      }
      if log[n] == Joining(c, room) {
        assert JoinedAt(log, c, room, n);
      }
      if j :| JoinedAt(log, c, room, j) && j < n {
        assert log[n] != Leaving(c, room) && log[n] != Removed(c);
        assert JoinedAt(log[..n], c, room, j);
      }
    }
  }

  /** Event `j` installed c, and nothing displaced or removed it since. */
  ghost predicate InstalledAt(log: seq<Event>, c: Session, j: int) {
    && 0 <= j < |log| && log[j] == Installed(c)
    && forall k :: j < k < |log| ==> log[k] != Removed(c) && !(log[k].Installed? && log[k].session.user == c.user)
  }

  lemma {:induction false} RegistryReadsOff(log: seq<Event>, c: Session)
    ensures ActiveByLog(log, c) <==> exists j :: InstalledAt(log, c, j)
  {
    if log != [] {
      var n := |log| - 1;
      RegistryReadsOff(log[..n], c);
      if j :| InstalledAt(log[..n], c, j) && ActiveByLog(log, c) {
        assert InstalledAt(log, c, if log[n] == Installed(c) then n else j);
      }
      if log[n] == Installed(c) {
        assert InstalledAt(log, c, n);
      }
      if j :| InstalledAt(log, c, j) && j < n {
        assert log[n] != Removed(c) && !(log[n].Installed? && log[n].session.user == c.user);
        assert InstalledAt(log[..n], c, j);
      }
    }
  }

  // ---------- Registry and rooms, in every schedule ----------

  /** The registry holds exactly the sessions that were installed and neither
      displaced by a later install nor unregistered since. */
  lemma RegistryIsLastInstall(cfg: Config, schedule: seq<Action>, c: Session)
    ensures var n := Run(cfg, schedule).node;
            Active(n.hub, c) <==> exists j :: InstalledAt(n.log, c, j)
  {
    EveryScheduleKeepsInv(cfg, schedule);
    RegistryReadsOff(Run(cfg, schedule).node.log, c);
  }

  /** The rooms hold exactly the joins that no later leave or Unregister undid. */
  lemma RoomsAreLastJoins(cfg: Config, schedule: seq<Action>, c: Session, room: string)
    ensures var n := Run(cfg, schedule).node;
            Holds(n.hub, c, room) <==> exists j :: JoinedAt(n.log, c, room, j)
  {
    EveryScheduleKeepsInv(cfg, schedule);
    MembershipReadsOff(Run(cfg, schedule).node.log, c, room);
  }

  /** In every schedule the two room maps hold one relation with no empty inner
      maps, and no connection holds more rooms than a positive cap allows. */
  lemma RoomMapsAgree(cfg: Config, schedule: seq<Action>)
    ensures Consistent(Run(cfg, schedule).node.hub)
    ensures WithinCap(Run(cfg, schedule).node.hub, cfg.maxRooms)
  {
    EveryScheduleKeepsInv(cfg, schedule);
  }

  /** A registered session is open, or its Unregister is still to come. */
  lemma RegisteredMeansUnregisterPending(cfg: Config, schedule: seq<Action>, c: Session)
    ensures var n := Run(cfg, schedule).node;
            Active(n.hub, c) ==> c in n.phases && Pending(n.phases[c]) && Removed(c) !in n.log
  {
    EveryScheduleKeepsInv(cfg, schedule);
  }

  lemma {:induction false} LogGrows(cfg: Config, schedule: seq<Action>, more: seq<Action>)
    ensures Run(cfg, schedule).node.log <= Run(cfg, schedule + more).node.log
  {
    if more == [] {
      assert schedule + more == schedule;
    } else {
      var m := |more| - 1;
      LogGrows(cfg, schedule, more[..m]);
      assert schedule + more == (schedule + more[..m]) + [more[m]];
      OneMore(cfg, schedule + more[..m], more[m]);
      StepAppendsToLog(cfg, Run(cfg, schedule + more[..m]), more[m]);
    }
  }

  lemma StepAppendsToLog(cfg: Config, s: State, a: Action)
    ensures s.node.log <= Step(cfg, s, a).node.log
  {}

  /** The log is the run: a step on a session that is enabled appends its event,
      and nothing else is ever logged. */
  lemma LogIsTheRun(cfg: Config, schedule: seq<Action>, a: Action)
    ensures var s := Run(cfg, schedule);
            Run(cfg, schedule + [a]).node.log ==
              s.node.log + if a.OnSession? && SessionEnabled(cfg, s.node, a.c, a.op) then EventOf(a.c, a.op) else []
  {
    OneMore(cfg, schedule, a);
  }

  /** Once unregistered, a session never returns to the registry. */
  lemma UnregisterIsFinal(cfg: Config, schedule: seq<Action>, more: seq<Action>, c: Session)
    requires Removed(c) in Run(cfg, schedule).node.log
    ensures !Active(Run(cfg, schedule + more).node.hub, c)
  {
    LogGrows(cfg, schedule, more);
    var i :| 0 <= i < |Run(cfg, schedule).node.log| && Run(cfg, schedule).node.log[i] == Removed(c);
    assert Run(cfg, schedule + more).node.log[i] == Removed(c);
    RegisteredMeansUnregisterPending(cfg, schedule + more, c);
  }

  /** The cleanup of one session removes no other from the registry or a room. */
  lemma StaleCleanupSparesOthers(cfg: Config, schedule: seq<Action>, c: Session, d: Session, room: string)
    requires c != d
    ensures var before := Run(cfg, schedule).node.hub;
            var after := Step(cfg, Run(cfg, schedule), OnSession(c, Unregister)).node.hub;
            && (Active(after, d) <==> Active(before, d))
            && (Holds(after, d, room) <==> Holds(before, d, room))
  {
    EveryScheduleKeepsInv(cfg, schedule);
    CleanupSparesOthers(cfg, Run(cfg, schedule).node, c, d, room);
  }

  lemma CleanupSparesOthers(cfg: Config, n: Node, c: Session, d: Session, room: string)
    requires Shape(n) && Rooms(cfg, n) && RoomEntries(n) && c != d
    ensures SessionEnabled(cfg, n, c, Unregister) ==>
              && (Active(SessionEffect(n, c, Unregister).hub, d) <==> Active(n.hub, d))
              && (Holds(SessionEffect(n, c, Unregister).hub, d, room) <==> Holds(n.hub, d, room))
  {
    if SessionEnabled(cfg, n, c, Unregister) {
      ActiveAfter(n, c, Unregister, d);
      HoldsAfter(n, c, Unregister, d, room);
    }
  }

  /** Once a session is marked closed, its read loop runs at most one more join
      or leave: the reply to that one is not queued. */
  lemma AtMostOneLateCommand(cfg: Config, schedule: seq<Action>, c: Session, i: int, j: int, k: int)
    requires var log := Run(cfg, schedule).node.log;
             && 0 <= i < j < |log| && i < k < |log|
             && log[i] == Marking(c) && IsCommandOf(log[j], c) && IsCommandOf(log[k], c)
    ensures j == k
  {
    EveryScheduleKeepsInv(cfg, schedule);
  }

  /** ... and hence at most one after its Unregister. */
  lemma OneCommandAfterRemoval(n: Node, c: Session, i: int, j: int, k: int)
    requires MarkedOnce(n) && OneLateCommand(n) && 0 <= i < j < |n.log| && i < k < |n.log|
    requires n.log[i] == Removed(c) && IsCommandOf(n.log[j], c) && IsCommandOf(n.log[k], c)
    ensures j == k
  {
    var m :| 0 <= m < i && n.log[m] == Marking(c);
  }

  /** A session that was already unregistered is in a room exactly if it ran a
      join of that room after its Unregister; then that was its only late
      command, so it is in no other room. */
  lemma LateEntryMeansLateJoin(cfg: Config, schedule: seq<Action>, c: Session, room: string, i: int)
    requires 0 <= i < |Run(cfg, schedule).node.log| && Run(cfg, schedule).node.log[i] == Removed(c)
    ensures var n := Run(cfg, schedule).node;
            && (Holds(n.hub, c, room) <==> exists j :: i < j < |n.log| && n.log[j] == Joining(c, room))
            && (Holds(n.hub, c, room) ==> forall other :: Holds(n.hub, c, other) ==> other == room)
  {
    EveryScheduleKeepsInv(cfg, schedule);
    var n := Run(cfg, schedule).node;
    LateJoinStands(n, c, room, i);
    RoomsAreLastJoins(cfg, schedule, c, room);
    forall other | Holds(n.hub, c, room) && Holds(n.hub, c, other) ensures other == room {
      RoomsAreLastJoins(cfg, schedule, c, other);
      LateJoinStands(n, c, other, i);
      var j :| i < j < |n.log| && n.log[j] == Joining(c, room);
      var k :| i < k < |n.log| && n.log[k] == Joining(c, other);
      OneCommandAfterRemoval(n, c, i, j, k);
    }
  }

  /** A join after the removal is never undone, and no earlier join stands. */
  lemma LateJoinStands(n: Node, c: Session, room: string, i: int)
    requires RemovedOnce(n) && MarkedOnce(n) && OneLateCommand(n) && 0 <= i < |n.log| && n.log[i] == Removed(c)
    ensures (exists j :: JoinedAt(n.log, c, room, j)) <==> exists j :: i < j < |n.log| && n.log[j] == Joining(c, room)
  {
    if j :| JoinedAt(n.log, c, room, j) {
      assert i < j < |n.log| && n.log[j] == Joining(c, room);
    }
    if j :| i < j < |n.log| && n.log[j] == Joining(c, room) {
      forall k | j < k < |n.log| ensures n.log[k] != Leaving(c, room) && n.log[k] != Removed(c) {
        if n.log[k] == Leaving(c, room) {
          OneCommandAfterRemoval(n, c, i, j, k);
        }
      }
      assert JoinedAt(n.log, c, room, j);
    }
  }

  /** When Run has returned, the session is out of the registry for good; it
      still occupies a room exactly when its read loop joined that room after
      some other thread's Close had unregistered the session, and it occupies
      one room at most. */
  lemma ReturnedSessionLeaksIffLateJoin(cfg: Config, schedule: seq<Action>, c: Session, room: string)
    requires Is(Run(cfg, schedule).node.handlers, c, Returned)
    ensures var n := Run(cfg, schedule).node;
            && !Active(n.hub, c)
            && (Holds(n.hub, c, room) <==>
                  exists i, j :: 0 <= i < j < |n.log| && n.log[i] == Removed(c) && n.log[j] == Joining(c, room))
            && (Holds(n.hub, c, room) ==> forall other :: Holds(n.hub, c, other) ==> other == room)
  {
    var i := ReturnedIsRemoved(cfg, schedule, c);
    LateEntryMeansLateJoin(cfg, schedule, c, room, i);
  }

  lemma ReturnedIsRemoved(cfg: Config, schedule: seq<Action>, c: Session) returns (i: int)
    requires Is(Run(cfg, schedule).node.handlers, c, Returned)
    ensures var n := Run(cfg, schedule).node;
            && !Active(n.hub, c)
            && 0 <= i < |n.log| && n.log[i] == Removed(c)
            && forall k :: 0 <= k < |n.log| && n.log[k] == Removed(c) ==> k == i
  {
    EveryScheduleKeepsInv(cfg, schedule);
    var n := Run(cfg, schedule).node;
    i := RemovedAt(n, c);
  }

  lemma RemovedAt(n: Node, c: Session) returns (i: int)
    requires Shape(n) && Registry(n) && RemovedOnce(n) && Is(n.handlers, c, Returned)
    ensures !Active(n.hub, c)
    ensures 0 <= i < |n.log| && n.log[i] == Removed(c)
    ensures forall k :: 0 <= k < |n.log| && n.log[k] == Removed(c) ==> k == i
  {
    assert Removed(c) in n.log;
    i :| 0 <= i < |n.log| && n.log[i] == Removed(c);
  }

  // ---------- Admission ----------

  lemma {:induction false} OneSlotPerUser(clients: map<string, Session>, holders: set<Session>)
    requires forall user :: user in clients ==> clients[user] in holders && clients[user].user == user
    ensures |clients| <= |holders|
    decreases |clients|
  {
    if clients != map[] {
      var user :| user in clients;
      var rest := clients - {user};
      assert clients.Keys == rest.Keys + {user};
      OneSlotPerUser(rest, holders - {clients[user]});
      assert holders == (holders - {clients[user]}) + {clients[user]};
    }
  }

  /** The admission channel bounds the registry at every moment. */
  lemma RegistryBoundedByAdmission(cfg: Config, schedule: seq<Action>)
    ensures var n := Run(cfg, schedule).node;
            |n.hub.clients| <= n.slots <= cfg.maxConnections
  {
    EveryScheduleKeepsInv(cfg, schedule);
    var n := Run(cfg, schedule).node;
    OneSlotPerUser(n.hub.clients, Having(n.handlers, HoldsSlot));
  }

  // ---------- Conservation of counters ----------

  /** Attempted upgrades are rejected, handed off or in progress. */
  lemma UpgradesAreConserved(cfg: Config, schedule: seq<Action>)
    ensures var n := Run(cfg, schedule).node;
            n.attempted == n.rejected + |Having(n.handlers, HandedOff)| + |Having(n.handlers, InProgress)|
  {
    EveryScheduleKeepsInv(cfg, schedule);
    HandlersSplit(Run(cfg, schedule).node.handlers);
  }

  lemma HandlersSplit(m: map<Session, Handler>)
    ensures |m| == |Having(m, Rejected)| + |Having(m, HandedOff)| + |Having(m, InProgress)|
  {
    assert m.Keys == Having(m, Rejected) + Having(m, HandedOff) + Having(m, InProgress);
  }

  /** The gauge is the sessions constructed minus the closes completed. */
  lemma GaugeIsConserved(cfg: Config, schedule: seq<Action>)
    ensures var n := Run(cfg, schedule).node;
            n.active == |n.phases| - |Having(n.phases, FullyClosed)|
  {
    EveryScheduleKeepsInv(cfg, schedule);
    var m := Run(cfg, schedule).node.phases;
    assert m.Keys == Having(m, NotClosed) + Having(m, FullyClosed);
  }

  // ---------- Shutdown ----------

  predicate AfterDraining(stage: Stage) {
    !stage.Serving? && !stage.Withdrawn?
  }

  predicate AfterClosing(stage: Stage) {
    stage.ClosingAll? || stage.Stopped?
  }

  /** After prefix p, the shutdown thread sent the notice to c while c was open. */
  ghost predicate AcceptedSince(cfg: Config, schedule: seq<Action>, p: nat, c: Session) {
    exists q: nat :: p < q && AcceptedAt(cfg, schedule, q, c)
  }

  ghost predicate AcceptedAt(cfg: Config, schedule: seq<Action>, q: nat, c: Session) {
    && q < |schedule| && schedule[q] == OnShutdown(NoticeAccepted(c))
    && var n := Run(cfg, schedule[..q]).node; c in n.phases && !IsMarked(n.phases[c])
  }

  /** Prefix p ends where BroadcastDraining takes its snapshot. */
  ghost predicate DrainsAt(cfg: Config, schedule: seq<Action>, p: nat) {
    p < |schedule| && schedule[p] == OnShutdown(SnapshotDraining) && Run(cfg, schedule[..p]).down.stage.Withdrawn?
  }

  /** What the shutdown thread remembers of the notices is what happened. */
  ghost predicate NoticesTold(cfg: Config, schedule: seq<Action>, p: nat) {
    && DrainsAt(cfg, schedule, p)
    && Run(cfg, schedule).down.notified == Run(cfg, schedule[..p]).node.hub.clients.Values
    && forall c :: c in Run(cfg, schedule).down.accepted ==> AcceptedSince(cfg, schedule, p, c)
  }

  lemma NoticesStayTold(cfg: Config, schedule: seq<Action>, a: Action, p: nat)
    requires NoticesTold(cfg, schedule, p) && AfterDraining(Run(cfg, schedule).down.stage)
    ensures NoticesTold(cfg, schedule + [a], p)
  {
    var s' := schedule + [a];
    OneMore(cfg, schedule, a);
    assert s'[..p] == schedule[..p];
    forall c | c in Run(cfg, s').down.accepted ensures AcceptedSince(cfg, s', p, c) {
      if c in Run(cfg, schedule).down.accepted {
        var q: nat :| p < q && AcceptedAt(cfg, schedule, q, c);
        assert s'[..q] == schedule[..q];
        assert AcceptedAt(cfg, s', q, c);
      } else {
        assert s'[..|schedule|] == schedule;
        assert AcceptedAt(cfg, s', |schedule|, c);
      }
    }
  }

  lemma {:induction false} DrainingMoment(cfg: Config, schedule: seq<Action>) returns (p: nat)
    requires AfterDraining(Run(cfg, schedule).down.stage)
    ensures NoticesTold(cfg, schedule, p)
  {
    var n := |schedule| - 1;
    var before := schedule[..n];
    assert schedule == before + [schedule[n]];
    if AfterDraining(Run(cfg, before).down.stage) {
      p := DrainingMoment(cfg, before);
      NoticesStayTold(cfg, before, schedule[n], p);
    } else {
      EveryScheduleKeepsInv(cfg, before);
      p := n;
    }
  }

  /** Once the notices are done, every session that was registered when their
      snapshot was taken has since accepted the notice or is marked closed. */
  lemma EveryoneIsNotified(cfg: Config, schedule: seq<Action>) returns (p: nat)
    requires var stage := Run(cfg, schedule).down.stage; AfterDraining(stage) && !stage.Notifying?
    ensures DrainsAt(cfg, schedule, p)
    ensures forall c :: c in Run(cfg, schedule[..p]).node.hub.clients.Values ==>
              var n := Run(cfg, schedule).node;
              AcceptedSince(cfg, schedule, p, c) || (c in n.phases && IsMarked(n.phases[c]))
  {
    EveryScheduleKeepsInv(cfg, schedule);
    p := DrainingMoment(cfg, schedule);
  }

  /** Prefix p ends where CloseAll takes its snapshot. */
  ghost predicate ClosesAt(cfg: Config, schedule: seq<Action>, p: nat) {
    p < |schedule| && schedule[p] == OnShutdown(SnapshotClosing) && Run(cfg, schedule[..p]).down.stage.Sleeping?
  }

  lemma {:induction false} ClosingMoment(cfg: Config, schedule: seq<Action>) returns (p: nat)
    requires AfterClosing(Run(cfg, schedule).down.stage)
    ensures ClosesAt(cfg, schedule, p)
    ensures var earlier, now := Run(cfg, schedule[..p]).node, Run(cfg, schedule).down;
            now.doomedAt == |earlier.log| && now.doomed == earlier.hub.clients.Values
  {
    var n := |schedule| - 1;
    var before := schedule[..n];
    if AfterClosing(Run(cfg, before).down.stage) {
      p := ClosingMoment(cfg, before);
      assert before[..p] == schedule[..p];
    } else {
      p := n;
    }
  }

  /** When CloseAll has returned, every session of its snapshot is closed, and the
      registered sessions are exactly those that were installed after it took the
      snapshot and neither displaced nor unregistered since; the registry is
      empty exactly if there is none. */
  lemma CloseAllEmptiesRegistry(cfg: Config, schedule: seq<Action>) returns (p: nat)
    requires Run(cfg, schedule).down.stage.Stopped?
    ensures ClosesAt(cfg, schedule, p)
    ensures forall c :: c in Run(cfg, schedule[..p]).node.hub.clients.Values ==>
              Is(Run(cfg, schedule).node.phases, c, Closed)
    ensures var n, start := Run(cfg, schedule).node, |Run(cfg, schedule[..p]).node.log|;
            && (forall c :: Active(n.hub, c) <==> exists j :: start <= j && InstalledAt(n.log, c, j))
            && (n.hub.clients == map[] <==> forall c, j :: InstalledAt(n.log, c, j) ==> j < start)
            && ((forall i :: start <= i < |n.log| ==> !n.log[i].Installed?) ==> n.hub.clients == map[])
  {
    EveryScheduleKeepsInv(cfg, schedule);
    p := ClosingMoment(cfg, schedule);
    var s := Run(cfg, schedule);
    SurvivorsAreLate(s.node, s.down);
    EmptyIffNobodyLate(s.node, s.down.doomedAt);
  }

  lemma SurvivorsAreLate(n: Node, d: Shutdown)
    requires Registry(n) && RegistryByLog(n) && ClosingTells(n, d) && d.stage.Stopped?
    ensures forall c :: Active(n.hub, c) <==> exists j :: d.doomedAt <= j && InstalledAt(n.log, c, j)
  {
    forall c ensures Active(n.hub, c) <==> exists j :: d.doomedAt <= j && InstalledAt(n.log, c, j) {
      RegistryReadsOff(n.log, c);
      if Active(n.hub, c) {
        SurvivorIsLate(n, d, c);
      }
    }
  }

  lemma SurvivorIsLate(n: Node, d: Shutdown, c: Session)
    requires Registry(n) && ClosingTells(n, d) && d.stage.Stopped? && Active(n.hub, c)
    requires exists j :: InstalledAt(n.log, c, j)
    ensures exists j :: d.doomedAt <= j && InstalledAt(n.log, c, j)
  {
    var j :| InstalledAt(n.log, c, j);
    var k :| 0 <= k < |n.log[d.doomedAt..]| && n.log[d.doomedAt..][k] == Installed(c);
    assert n.log[d.doomedAt + k] == Installed(c);
  }

  lemma EmptyIffNobodyLate(n: Node, start: nat)
    requires Registry(n)
    requires forall c :: Active(n.hub, c) <==> exists j :: start <= j && InstalledAt(n.log, c, j)
    ensures n.hub.clients == map[] <==> forall c, j :: InstalledAt(n.log, c, j) ==> j < start
  {
    if user :| user in n.hub.clients {
      assert Active(n.hub, n.hub.clients[user]);
    }
    forall c, j | n.hub.clients == map[] && InstalledAt(n.log, c, j) ensures j < start {
      assert !Active(n.hub, c);
    }
  }

  // ---------- Two runs that show the conditions are needed ----------

  lemma OneMore(cfg: Config, schedule: seq<Action>, a: Action)
    ensures Run(cfg, schedule + [a]) == Step(cfg, Run(cfg, schedule), a)
  {
    assert (schedule + [a])[..|schedule|] == schedule;
  }

  /** Arrive, pass the checks, take a slot and construct the client. */
  lemma Constructs(cfg: Config, c: Session) returns (schedule: seq<Action>)
    requires cfg.maxConnections > 0
    ensures Run(cfg, schedule) ==
            State(Node(EmptyHub(), map[c := Constructed], map[c := Open], 1, 1, 0, 1, []),
                  Shutdown(Serving, {}, {}, {}, 0))
  {
    OneMore(cfg, [], OnRequest(c, Arrive));
    var s1 := [] + [OnRequest(c, Arrive)];
    OneMore(cfg, s1, OnRequest(c, Clear));
    var s2 := s1 + [OnRequest(c, Clear)];
    OneMore(cfg, s2, OnRequest(c, Admit));
    var s3 := s2 + [OnRequest(c, Admit)];
    OneMore(cfg, s3, OnRequest(c, Construct));
    schedule := s3 + [OnRequest(c, Construct)];
    assert Run(cfg, s1).node.handlers == map[c := Checking];
    assert Run(cfg, s2).node.handlers == map[c := Cleared];
    assert Run(cfg, s3).node.handlers == map[c := Admitted];
    assert Run(cfg, schedule).node.handlers == map[c := Constructed];
  }

  /** Install the session and let another thread start to close it. */
  lemma MarksWhileReading(cfg: Config, c: Session) returns (schedule: seq<Action>)
    requires cfg.maxConnections > 0
    ensures var n := Run(cfg, schedule).node;
            && n.hub == HubState(map[c.user := c], map[], map[])
            && n.handlers == map[c := Reading] && n.phases == map[c := Marked]
            && n.slots == 1 && n.active == 1
  {
    var s0 := Constructs(cfg, c);
    OneMore(cfg, s0, OnSession(c, Install));
    var s1 := s0 + [OnSession(c, Install)];
    assert Run(cfg, s1).node.handlers == map[c := Reading];
    OneMore(cfg, s1, OnSession(c, BeginClose));
    var s2 := s1 + [OnSession(c, BeginClose)];
    assert Run(cfg, s2).node.phases == map[c := Guarded];
    OneMore(cfg, s2, OnSession(c, MarkClosed));
    schedule := s2 + [OnSession(c, MarkClosed)];
    assert Run(cfg, schedule).node.phases == map[c := Marked];
  }

  /** ... and to finish closing it. */
  lemma ClosesWhileReading(cfg: Config, c: Session) returns (schedule: seq<Action>)
    requires cfg.maxConnections > 0
    ensures var n := Run(cfg, schedule).node;
            && n.hub == EmptyHub() && n.handlers == map[c := Reading] && n.phases == map[c := Closed]
            && n.slots == 1 && n.active == 0
  {
    var s3 := MarksWhileReading(cfg, c);
    OneMore(cfg, s3, OnSession(c, Unregister));
    var s4 := s3 + [OnSession(c, Unregister)];
    assert Run(cfg, s4).node.phases == map[c := Cleaned];
    assert Run(cfg, s4).node.hub == EmptyHub();
    OneMore(cfg, s4, OnSession(c, EndClose));
    schedule := s4 + [OnSession(c, EndClose)];
    assert Run(cfg, schedule).node.phases == map[c := Closed];
  }

  /** A close from another thread overtakes a join of the read loop: Run
      returns, the slot is free again, and the room still lists the session. */
  lemma LateJoinLeaks(cfg: Config, c: Session, room: string) returns (schedule: seq<Action>)
    requires cfg.maxConnections > 0
    ensures var n := Run(cfg, schedule).node;
            Is(n.handlers, c, Returned) && n.slots == 0 && n.active == 0 && Holds(n.hub, c, room)
  {
    var s5 := ClosesWhileReading(cfg, c);
    OneMore(cfg, s5, OnSession(c, Join(room)));
    var s6 := s5 + [OnSession(c, Join(room))];
    JoinEntry(Run(cfg, s5).node.hub, c.conn, c, room, room, c.conn, c);
    assert Holds(Run(cfg, s6).node.hub, c, room);
    assert Run(cfg, s6).node.handlers == map[c := Answering];
    OneMore(cfg, s6, OnRequest(c, ReplyRefused));
    var s7 := s6 + [OnRequest(c, ReplyRefused)];
    assert Run(cfg, s7).node.handlers == map[c := Finishing];
    OneMore(cfg, s7, OnRequest(c, RunReturns));
    schedule := s7 + [OnRequest(c, RunReturns)];
  }

  /** A request that was cleared before readiness was withdrawn can register
      after CloseAll took its snapshot, and survive it. */
  lemma LateInstallSurvivesCloseAll(cfg: Config, c: Session) returns (schedule: seq<Action>)
    requires cfg.maxConnections > 0
    ensures var s := Run(cfg, schedule);
            s.down.stage.Stopped? && Active(s.node.hub, c)
  {
    var s0 := Constructs(cfg, c);
    OneMore(cfg, s0, OnShutdown(Withdraw));
    var s1 := s0 + [OnShutdown(Withdraw)];
    OneMore(cfg, s1, OnShutdown(SnapshotDraining));
    var s2 := s1 + [OnShutdown(SnapshotDraining)];
    assert Run(cfg, s2).down.stage == Notifying({});
    OneMore(cfg, s2, OnShutdown(EndNotices));
    var s3 := s2 + [OnShutdown(EndNotices)];
    OneMore(cfg, s3, OnShutdown(SnapshotClosing));
    var s4 := s3 + [OnShutdown(SnapshotClosing)];
    assert Run(cfg, s4).down.stage == ClosingAll({});
    OneMore(cfg, s4, OnSession(c, Install));
    var s5 := s4 + [OnSession(c, Install)];
    OneMore(cfg, s5, OnShutdown(EndClosing));
    schedule := s5 + [OnShutdown(EndClosing)];
  }
}
