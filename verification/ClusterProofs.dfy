/** Every step of the cluster keeps its invariant. */
module ClusterProofs {
  import opened Common
  import opened RoomIndex
  import opened Cluster

  /** The snapshot loops collect exactly the sessions that are addressed: the
      members of the room whose user is not the sender, or the session that is
      registered for the recipient. */
  lemma TargetsAreAddressed(h: HubState<Member>, command: Command, senderID: string, r: Member)
    ensures r in Targets(h, command, senderID) <==> Addressed(h, command, senderID, r)
    ensures r in Targets(h, command, senderID) <==>
            match command
            case Broadcast(room) =>
              r.user != senderID && room in h.rooms && exists conn :: conn in h.rooms[room] && h.rooms[room][conn] == r
            case Private(recipient) => recipient in h.clients && h.clients[recipient] == r
  {
    if command.Broadcast? {
      forall conn
        ensures Entry(h, command.room, conn, r) <==>
                InRoom(h, command.room, conn) && h.rooms[command.room][conn] == r
      {}
    }
  }

  // ---------- What one more event does to the counts ----------

  lemma CountsOfNext(t: seq<Event>, e: Event, s: Member, k: nat, n: NodeID, r: Member)
    ensures Attempts(t + [e], s, k, n, r) == Attempts(t, s, k, n, r)
              + if e.Attempt? && e.sender == s && e.index == k && e.node == n && e.recipient == r then 1 else 0
    ensures Covering(t + [e], s, k, n, r) == Covering(t, s, k, n, r)
              + if e.Snapshot? && e.sender == s && e.index == k && e.node == n && Addressed(e.hub, e.command, s.user, r)
                then 1 else 0
  {
    assert (t + [e])[..|t + [e]| - 1] == t;
  }

  lemma SnapshotsOfNext(t: seq<Event>, e: Event, s: Member, k: nat, n: NodeID)
    ensures Snapshots(t + [e], s, k, n) == Snapshots(t, s, k, n)
              + if e.Snapshot? && e.sender == s && e.index == k && e.node == n then 1 else 0
    ensures Deliveries(t + [e], s, k) ==
            if e.Publish? && e.sender == s && e.index == k then e.deliveries else Deliveries(t, s, k)
  {
    assert (t + [e])[..|t + [e]| - 1] == t;
  }

  /** A step adds at most one event, of the loop's current command. */
  lemma AtMostOneEvent(w: World, s: Member, op: Op)
    requires op.Deliver? || op.EndDelivery? ==> LoopOf(w, s).stage.Delivering?
    requires op.HandleNext? ==> LoopOf(w, s).stage.Handling? && LoopOf(w, s).stage.rest != []
    ensures var es := Advance(w, s, op).1;
            && (es == [] ==> w.trace + es == w.trace)
            && (es != [] ==>
                  && |es| == 1 && w.trace + es == w.trace + [es[0]]
                  && es[0].sender == s && es[0].index == LoopOf(w, s).index)
  {}

  // ---------- Attempts ----------

  lemma EventlessBalanced(bus: Bus, w: World, s: Member, op: Op, k: nat, n: NodeID, r: Member)
    requires Enabled(bus, w, s, op) && Balanced(w.trace, LoopOf(w, s), s, k, n, r)
    requires Advance(w, s, op).1 == []
    ensures Balanced(w.trace, Advance(w, s, op).0, s, k, n, r)
  {}

  lemma SnapshotBalanced(bus: Bus, w: World, s: Member, op: Op, k: nat, n: NodeID, r: Member)
    requires Enabled(bus, w, s, op) && Balanced(w.trace, LoopOf(w, s), s, k, n, r)
    requires Advance(w, s, op).1 != [] && (op.SnapshotHome? || op.HandleNext?)
    ensures Balanced(w.trace + [Advance(w, s, op).1[0]], Advance(w, s, op).0, s, k, n, r)
  {
    var e := Advance(w, s, op).1[0];
    CountsOfNext(w.trace, e, s, k, n, r);
    TargetsAreAddressed(e.hub, e.command, s.user, r);
  }

  lemma AttemptBalanced(bus: Bus, w: World, s: Member, op: Op, k: nat, n: NodeID, r: Member)
    requires Enabled(bus, w, s, op) && Balanced(w.trace, LoopOf(w, s), s, k, n, r)
    requires op.Take? || op.Deliver? || op.PublishTo? || op.PublishFails? || op.SendReply?
    ensures Balanced(w.trace + [Advance(w, s, op).1[0]], Advance(w, s, op).0, s, k, n, r)
  {
    CountsOfNext(w.trace, Advance(w, s, op).1[0], s, k, n, r);
  }

  lemma OwnBalanced(bus: Bus, w: World, s: Member, op: Op, k: nat, n: NodeID, r: Member)
    requires Enabled(bus, w, s, op) && Balanced(w.trace, LoopOf(w, s), s, k, n, r)
    ensures Balanced(w.trace + Advance(w, s, op).1, Advance(w, s, op).0, s, k, n, r)
  {
    AtMostOneEvent(w, s, op);
    if Advance(w, s, op).1 == [] {
      EventlessBalanced(bus, w, s, op, k, n, r);
    } else if op.SnapshotHome? || op.HandleNext? {
      SnapshotBalanced(bus, w, s, op, k, n, r);
    } else {
      AttemptBalanced(bus, w, s, op, k, n, r);
    }
  }

  lemma OthersBalanced(bus: Bus, w: World, s: Member, op: Op, x: Member, k: nat, n: NodeID, r: Member)
    requires Enabled(bus, w, s, op) && x != s && Balanced(w.trace, LoopOf(w, x), x, k, n, r)
    ensures Balanced(w.trace + Advance(w, s, op).1, LoopOf(w, x), x, k, n, r)
  {
    AtMostOneEvent(w, s, op);
    if Advance(w, s, op).1 != [] {
      CountsOfNext(w.trace, Advance(w, s, op).1[0], x, k, n, r);
    }
  }

  // ---------- Snapshots ----------

  lemma HomeSnapshot(t: seq<Event>, l: Loop, s: Member, h: HubState<Member>, todo: set<Member>, k: nat, n: NodeID)
    requires SnapshotsBalanced(t, l, s, k, n) && l.stage.Starting?
    ensures SnapshotsBalanced(t + [Snapshot(s, l.index, s.home, h, l.command)],
                              l.(stage := Delivering(s.home, todo, false, [])), s, k, n)
  {
    SnapshotsOfNext(t, Snapshot(s, l.index, s.home, h, l.command), s, k, n);
  }

  lemma AttemptSnapshots(t: seq<Event>, l: Loop, s: Member, e: Event, todo: set<Member>, k: nat, n: NodeID)
    requires SnapshotsBalanced(t, l, s, k, n) && l.stage.Delivering? && e.Attempt?
    ensures SnapshotsBalanced(t + [e], l.(stage := l.stage.(todo := todo)), s, k, n)
  {
    SnapshotsOfNext(t, e, s, k, n);
  }

  lemma PublishedSnapshots(t: seq<Event>, l: Loop, s: Member, ds: seq<NodeID>, subscribed: set<NodeID>,
                           k: nat, n: NodeID)
    requires SnapshotsBalanced(t, l, s, k, n) && l.stage.Publishing?
    ensures SnapshotsBalanced(t + [Publish(s, l.index, ds, subscribed)], l.(stage := Handling(ds)), s, k, n)
  {
    SnapshotsOfNext(t, Publish(s, l.index, ds, subscribed), s, k, n);
  }

  lemma TakenSnapshots(t: seq<Event>, l: Loop, s: Member, command: Command, k: nat, n: NodeID)
    requires SnapshotsBalanced(t, l, s, k, n) && l.stage.Idle?
    ensures SnapshotsBalanced(t + [Taken(s, l.index, command)], l.(command := command, stage := Starting), s, k, n)
  {
    SnapshotsOfNext(t, Taken(s, l.index, command), s, k, n);
  }

  lemma UnpublishedSnapshots(t: seq<Event>, l: Loop, s: Member, k: nat, n: NodeID)
    requires SnapshotsBalanced(t, l, s, k, n) && l.stage.Publishing?
    ensures SnapshotsBalanced(t + [Unpublished(s, l.index)], l.(stage := Replying), s, k, n)
  {
    SnapshotsOfNext(t, Unpublished(s, l.index), s, k, n);
  }

  lemma DroppedSnapshots(t: seq<Event>, l: Loop, s: Member, k: nat, n: NodeID)
    requires SnapshotsBalanced(t, l, s, k, n) && l.stage.Handling? && l.stage.rest != []
    requires DropsEcho(s.home, l.stage.rest[0])
    ensures SnapshotsBalanced(t, l.(stage := Handling(l.stage.rest[1..])), s, k, n)
  {}

  lemma HandledSnapshots(t: seq<Event>, l: Loop, s: Member, h: HubState<Member>, todo: set<Member>, k: nat, n: NodeID)
    requires SnapshotsBalanced(t, l, s, k, n) && l.stage.Handling? && l.stage.rest != []
    requires !DropsEcho(s.home, l.stage.rest[0])
    ensures SnapshotsBalanced(t + [Snapshot(s, l.index, l.stage.rest[0], h, l.command)],
                              l.(stage := Delivering(l.stage.rest[0], todo, true, l.stage.rest[1..])), s, k, n)
  {
    SnapshotsOfNext(t, Snapshot(s, l.index, l.stage.rest[0], h, l.command), s, k, n);
  }

  lemma RepliedSnapshots(t: seq<Event>, l: Loop, s: Member, k: nat, n: NodeID)
    requires SnapshotsBalanced(t, l, s, k, n) && l.stage.Replying?
    ensures SnapshotsBalanced(t + [Reply(s, l.index)], l.(index := l.index + 1, stage := Idle), s, k, n)
  {
    SnapshotsOfNext(t, Reply(s, l.index), s, k, n);
  }

  lemma EventlessSnapshots(t: seq<Event>, l: Loop, s: Member, l': Loop, k: nat, n: NodeID)
    requires SnapshotsBalanced(t, l, s, k, n) && l'.index == l.index && Rest(l'.stage) == Rest(l.stage)
    requires (l.stage.Delivering? && l'.stage == if l.stage.published then Handling(l.stage.rest) else Publishing)
          || (l.stage == Handling([]) && l'.stage.Replying?)
    ensures SnapshotsBalanced(t, l', s, k, n)
  {}

  lemma OwnSnapshots(bus: Bus, w: World, s: Member, op: Op, k: nat, n: NodeID)
    requires Enabled(bus, w, s, op) && SnapshotsBalanced(w.trace, LoopOf(w, s), s, k, n)
    ensures SnapshotsBalanced(w.trace + Advance(w, s, op).1, Advance(w, s, op).0, s, k, n)
  {
    var t, l := w.trace, LoopOf(w, s);
    assert t + [] == t;
    match op
    case Take(command) => TakenSnapshots(t, l, s, command, k, n);
    case PublishFails => UnpublishedSnapshots(t, l, s, k, n);
    case SnapshotHome => HomeSnapshot(t, l, s, HubOf(w, s.home), Targets(HubOf(w, s.home), l.command, s.user), k, n);
    case Deliver(r, accepted) =>
      AttemptSnapshots(t, l, s, Attempt(s, l.index, l.stage.node, r, accepted), l.stage.todo - {r}, k, n);
    case PublishTo(ds) => PublishedSnapshots(t, l, s, ds, w.subscribed, k, n);
    case HandleNext =>
      var m := l.stage.rest[0];
      if DropsEcho(s.home, m) {
        DroppedSnapshots(t, l, s, k, n);
      } else {
        HandledSnapshots(t, l, s, HubOf(w, m), Targets(HubOf(w, m), l.command, s.user), k, n);
      }
    case SendReply => RepliedSnapshots(t, l, s, k, n);
    case _ => EventlessSnapshots(t, l, s, Advance(w, s, op).0, k, n);
  }

  lemma OthersSnapshots(bus: Bus, w: World, s: Member, op: Op, x: Member, k: nat, n: NodeID)
    requires Enabled(bus, w, s, op) && x != s && SnapshotsBalanced(w.trace, LoopOf(w, x), x, k, n)
    ensures SnapshotsBalanced(w.trace + Advance(w, s, op).1, LoopOf(w, x), x, k, n)
  {
    AtMostOneEvent(w, s, op);
    if Advance(w, s, op).1 != [] {
      SnapshotsOfNext(w.trace, Advance(w, s, op).1[0], x, k, n);
    }
  }

  // ---------- Order ----------

  /** One more event of the current command keeps the order. */
  lemma OrderedNext(t: seq<Event>, l: Loop, e: Event, l': Loop, x: Member)
    requires Ordered(t, l, x)
    requires e.sender == x ==> e.index == l.index && l'.index == if e.Reply? then l.index + 1 else l.index
    requires e.sender != x ==> l' == l
    ensures Ordered(t + [e], l', x)
  {
    forall i | 0 <= i < |t + [e]| ensures i < |t| ==> (t + [e])[i] == t[i] {}
  }

  lemma StepOrdered(bus: Bus, w: World, s: Member, op: Op, x: Member)
    requires Enabled(bus, w, s, op) && Ordered(w.trace, LoopOf(w, x), x)
    ensures Ordered(w.trace + Advance(w, s, op).1, if x == s then Advance(w, s, op).0 else LoopOf(w, x), x)
  {
    AtMostOneEvent(w, s, op);
    if Advance(w, s, op).1 != [] {
      var l' := if x == s then Advance(w, s, op).0 else LoopOf(w, x);
      OrderedNext(w.trace, LoopOf(w, x), Advance(w, s, op).1[0], l', x);
    }
  }

  // ---------- Commands and publications ----------

  /** One more event, of this loop or another, keeps the commands known. */
  lemma CommandsKnownNext(t: seq<Event>, l: Loop, e: Event, l': Loop, x: Member)
    requires CommandsKnown(t, l, x)
    requires e.sender != x ==> l' == l
    requires e.sender == x ==>
               && e.index == l.index && (e.Taken? <==> l.stage.Idle?)
               && (e.Taken? ==> l'.index == l.index && !l'.stage.Idle? && l'.command == e.command)
               && (!e.Taken? && !e.Reply? ==> l'.index == l.index && !l'.stage.Idle? && l'.command == l.command)
               && (e.Reply? ==> l'.index == l.index + 1 && l'.stage.Idle?)
               && (e.Snapshot? ==> e.command == l.command)
    ensures CommandsKnown(t + [e], l', x)
  {
    var t' := t + [e];
    assert t'[|t|] == e && forall i :: 0 <= i < |t| ==> t'[i] == t[i];
    forall i | 0 <= i < |t'| && t'[i].sender == x && !t'[i].Taken? ensures TakenBefore(t', i) {
      if i < |t| {
        assert TakenBefore(t, i);
        var j :| 0 <= j < i && t[j].Taken? && t[j].sender == t[i].sender && t[j].index == t[i].index
                 && (t[i].Snapshot? ==> t[j].command == t[i].command);
        assert t'[j] == t[j];
      } else {
        var j :| 0 <= j < |t| && t[j] == Taken(x, l.index, l.command);
        assert t'[j] == t[j];
      }
    }
    if !l'.stage.Idle? && e.sender == x && !e.Taken? {
      var j :| 0 <= j < |t| && t[j] == Taken(x, l.index, l.command);
      assert t'[j] == Taken(x, l'.index, l'.command);
    }
  }

  lemma StepCommandsKnown(bus: Bus, w: World, s: Member, op: Op, x: Member)
    requires Enabled(bus, w, s, op) && CommandsKnown(w.trace, LoopOf(w, x), x)
    ensures CommandsKnown(w.trace + Advance(w, s, op).1, if x == s then Advance(w, s, op).0 else LoopOf(w, x), x)
  {
    AtMostOneEvent(w, s, op);
    var (l', es) := Advance(w, s, op);
    if es != [] {
      CommandsKnownNext(w.trace, LoopOf(w, x), es[0], if x == s then l' else LoopOf(w, x), x);
    }
  }

  lemma StepPublicationKnown(bus: Bus, w: World, s: Member, op: Op, x: Member, k: nat)
    requires Enabled(bus, w, s, op) && PublicationKnown(w.trace, LoopOf(w, x), x, k)
    ensures PublicationKnown(w.trace + Advance(w, s, op).1, if x == s then Advance(w, s, op).0 else LoopOf(w, x), x, k)
  {
    AtMostOneEvent(w, s, op);
    var (l', es) := Advance(w, s, op);
    var t, t', l, m := w.trace, w.trace + es, LoopOf(w, x), if x == s then l' else LoopOf(w, x);
    if k < l.index || (k == l.index && !BeforePublication(l.stage)) {
      var i :| 0 <= i < |t| && IsPublication(t[i], x, k);
      assert IsPublication(t'[i], x, k);
    } else if k < m.index || (k == m.index && !BeforePublication(m.stage)) {
      assert IsPublication(t'[|t|], x, k);
    }
  }

  lemma StepCommandsSound(bus: Bus, w: World, s: Member, op: Op)
    requires CommandsSound(w) && Enabled(bus, w, s, op)
    ensures CommandsSound(Step(bus, w, OfLoop(s, op)))
  {
    var w' := Step(bus, w, OfLoop(s, op));
    forall x ensures CommandsKnown(w'.trace, LoopOf(w', x), x) {
      StepCommandsKnown(bus, w, s, op, x);
    }
    forall x, k: nat ensures PublicationKnown(w'.trace, LoopOf(w', x), x, k) {
      assert PublicationKnown(w.trace, LoopOf(w, x), x, k);
      StepPublicationKnown(bus, w, s, op, x, k);
    }
  }

  lemma StepEventsSound(bus: Bus, w: World, s: Member, op: Op)
    requires Enabled(bus, w, s, op) && HubsAtHome(w) && EventsSound(bus, w.trace)
    ensures EventsSound(bus, w.trace + Advance(w, s, op).1)
  {
    AtMostOneEvent(w, s, op);
  }

  // ---------- Every schedule ----------

  lemma LoopStepKeepsInv(bus: Bus, w: World, s: Member, op: Op)
    requires Inv(bus, w) && Enabled(bus, w, s, op)
    ensures Inv(bus, Step(bus, w, OfLoop(s, op)))
  {
    var w' := Step(bus, w, OfLoop(s, op));
    StepEventsSound(bus, w, s, op);
    forall x ensures Ordered(w'.trace, LoopOf(w', x), x) {
      StepOrdered(bus, w, s, op, x);
    }
    StepCommandsSound(bus, w, s, op);
    forall x, k: nat, n, r ensures Balanced(w'.trace, LoopOf(w', x), x, k, n, r) {
      assert Balanced(w.trace, LoopOf(w, x), x, k, n, r);
      if x == s {
        OwnBalanced(bus, w, s, op, k, n, r);
      } else {
        OthersBalanced(bus, w, s, op, x, k, n, r);
      }
    }
    forall x, k: nat, n ensures SnapshotsBalanced(w'.trace, LoopOf(w', x), x, k, n) {
      assert SnapshotsBalanced(w.trace, LoopOf(w, x), x, k, n);
      if x == s {
        OwnSnapshots(bus, w, s, op, k, n);
      } else {
        OthersSnapshots(bus, w, s, op, x, k, n);
      }
    }
  }

  lemma StepKeepsInv(bus: Bus, w: World, a: Action)
    requires Inv(bus, w)
    ensures Inv(bus, Step(bus, w, a))
  {
    if a.OfLoop? && Enabled(bus, w, a.s, a.op) {
      LoopStepKeepsInv(bus, w, a.s, a.op);
    } else {
      assert forall x :: LoopOf(Step(bus, w, a), x) == LoopOf(w, x);
    }
  }

  lemma StartSound(bus: Bus)
    ensures Inv(bus, Start())
  {
    assert forall s :: LoopOf(Start(), s) == Loop(0, Broadcast(""), Idle);
  }

  lemma {:induction false} EveryScheduleKeepsInv(bus: Bus, schedule: seq<Action>)
    ensures Inv(bus, Run(bus, schedule))
  {
    if schedule == [] {
      StartSound(bus);
    } else {
      EveryScheduleKeepsInv(bus, schedule[..|schedule| - 1]);
      StepKeepsInv(bus, Run(bus, schedule[..|schedule| - 1]), schedule[|schedule| - 1]);
    }
  }
}
