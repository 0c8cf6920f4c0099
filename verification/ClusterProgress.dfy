/** Every command of a cluster can be brought to its reply, and one that nothing
    disturbs reaches exactly the sessions that it addresses. */
module ClusterProgress {
  import opened Common
  import opened RoomIndex
  import opened Cluster
  import opened ClusterProofs
  import opened ClusterTheorems

  /** Steps of the read loop of s and of nobody else. */
  ghost predicate OwnSteps(more: seq<Action>, s: Member) {
    forall i :: 0 <= i < |more| ==> more[i].OfLoop? && more[i].s == s
  }

  lemma OneMore(bus: Bus, schedule: seq<Action>, a: Action)
    ensures Run(bus, schedule + [a]) == Step(bus, Run(bus, schedule), a)
  {
    assert (schedule + [a])[..|schedule|] == schedule;
  }

  /** The state outside the read loops is the same. */
  predicate SameSurroundings(w: World, w': World) {
    w'.hubs == w.hubs && w'.subscribed == w.subscribed && w'.open == w.open
  }

  lemma {:induction false} OwnStepsKeepSurroundings(bus: Bus, schedule: seq<Action>, more: seq<Action>, s: Member)
    requires OwnSteps(more, s)
    ensures SameSurroundings(Run(bus, schedule), Run(bus, schedule + more))
    ensures Run(bus, schedule).trace <= Run(bus, schedule + more).trace
  {
    if more == [] {
      assert schedule + more == schedule;
    } else {
      var m := |more| - 1;
      OwnStepsKeepSurroundings(bus, schedule, more[..m], s);
      assert schedule + more == (schedule + more[..m]) + [more[m]];
      OneMore(bus, schedule + more[..m], more[m]);
      StepShows(bus, Run(bus, schedule + more[..m]), more[m]);
    }
  }

  // ---------- Which step comes next ----------

  /** How far a stage is from its reply. */
  function Rank(stage: Stage): nat {
    match stage
    case Idle => 0
    case Starting => 4
    case Delivering(_, _, published, _) => if published then 1 else 3
    case Publishing => 2
    case Handling(_) => 1
    case Replying => 0
  }

  function Todo(stage: Stage): set<Member> {
    if stage.Delivering? then stage.todo else {}
  }

  /** A broker that calls every subscriber once can call them in some order. */
  lemma {:induction false} SomeOrder(nodes: set<NodeID>) returns (order: seq<NodeID>)
    ensures Distinct(order) && (set n | n in order) == nodes
  {
    if nodes == {} {
      order := [];
    } else {
      var n :| n in nodes;
      var rest := SomeOrder(nodes - {n});
      order := [n] + rest;
      assert n !in (set m | m in rest);
      assert (set m | m in order) == {n} + (set m | m in rest);
    }
  }

  /** In every stage but Idle the loop has a step that brings it closer to its
      reply; before its publication on an open broker, that is a publication. */
  lemma NextStep(bus: Bus, w: World, s: Member) returns (op: Op)
    requires !LoopOf(w, s).stage.Idle?
    ensures Enabled(bus, w, s, op)
    ensures LoopOf(w, s).stage.Publishing? && w.open ==> op.PublishTo?
    ensures LoopOf(w, s).stage.Replying? ==> op.SendReply?
    ensures var before, after := LoopOf(w, s).stage, Advance(w, s, op).0.stage;
            op.SendReply? || Closer(before, after)
  {
    var stage := LoopOf(w, s).stage;
    match stage
    case Starting => op := SnapshotHome;
    case Delivering(_, todo, _, _) =>
      if todo == {} {
        op := EndDelivery;
      } else {
        var r :| r in todo;
        op := Deliver(r, true);
        assert |todo - {r}| < |todo|;
      }
    case Publishing =>
      if w.open {
        var order := SomeOrder(w.subscribed);
        op := PublishTo(order);
      } else {
        op := PublishFails;
      }
    case Handling(rest) => op := if rest == [] then EndHandling else HandleNext;
    case Replying => op := SendReply;
  }

  /** `after` is not Idle and lies below `before` in the order that the induction uses. */
  predicate Closer(before: Stage, after: Stage) {
    && !after.Idle?
    && (|| Rank(after) < Rank(before)
        || (Rank(after) == Rank(before)
            && (|| |Rest(after)| < |Rest(before)|
                || (|Rest(after)| == |Rest(before)|
                    && (|| (before.Delivering? && !after.Delivering?)
                        || (before.Delivering? && after.Delivering? && |Todo(after)| < |Todo(before)|))))))
  }

  // ---------- To the reply ----------

  /** A publication of command k of s that found these subscribers. */
  ghost predicate PublishedTo(t: seq<Event>, s: Member, k: nat, subscribed: set<NodeID>) {
    exists i :: 0 <= i < |t| && t[i].Publish? && IsPublication(t[i], s, k) && t[i].subscribed == subscribed
  }

  lemma PublishedStays(t: seq<Event>, t': seq<Event>, s: Member, k: nat, subscribed: set<NodeID>)
    requires t <= t' && PublishedTo(t, s, k, subscribed)
    ensures PublishedTo(t', s, k, subscribed)
  {
    var i :| 0 <= i < |t| && t[i].Publish? && IsPublication(t[i], s, k) && t[i].subscribed == subscribed;
    assert t'[i] == t[i];
  }

  ghost function StageOf(bus: Bus, schedule: seq<Action>, s: Member): Stage {
    LoopOf(Run(bus, schedule), s).stage
  }

  /** From every moment of every run, the command that s is running can be brought
      to its reply by steps of s alone; if the broker is open and the command is
      not published yet, it is published to all who are subscribed. */
  lemma {:induction false} EveryCommandCanFinish(bus: Bus, schedule: seq<Action>, s: Member) returns (more: seq<Action>)
    requires !LoopOf(Run(bus, schedule), s).stage.Idle?
    ensures OwnSteps(more, s)
    ensures var w, t := Run(bus, schedule), Run(bus, schedule + more).trace;
            && Reply(s, LoopOf(w, s).index) in t
            && (w.open && BeforePublication(LoopOf(w, s).stage) ==>
                  PublishedTo(t, s, LoopOf(w, s).index, w.subscribed))
    decreases Rank(StageOf(bus, schedule, s)), |Rest(StageOf(bus, schedule, s))|,
              StageOf(bus, schedule, s).Delivering?, |Todo(StageOf(bus, schedule, s))|
  {
    var w := Run(bus, schedule);
    var op := NextStep(bus, w, s);
    var a := OfLoop(s, op);
    var next := schedule + [a];
    OneMore(bus, schedule, a);
    var w' := Run(bus, next);
    assert w'.trace == w.trace + Advance(w, s, op).1 && LoopOf(w', s) == Advance(w, s, op).0;
    if op.SendReply? {
      more := [a];
      assert w'.trace[|w.trace|] == Reply(s, LoopOf(w, s).index);
    } else {
      var rest := EveryCommandCanFinish(bus, next, s);
      more := [a] + rest;
      assert schedule + more == next + rest;
      if op.PublishTo? {
        assert w'.trace[|w.trace|] == Advance(w, s, op).1[0];
        assert PublishedTo(w'.trace, s, LoopOf(w, s).index, w.subscribed);
        OwnStepsKeepSurroundings(bus, next, rest, s);
        PublishedStays(w'.trace, Run(bus, schedule + more).trace, s, LoopOf(w, s).index, w.subscribed);
      }
    }
  }

  // ---------- A command that nothing disturbs ----------

  /** The number of the next command has not been given away. */
  lemma NextCommandIsNew(bus: Bus, schedule: seq<Action>, s: Member, command: Command)
    requires LoopOf(Run(bus, schedule), s).stage.Idle?
    ensures Taken(s, LoopOf(Run(bus, schedule), s).index, command) !in Run(bus, schedule).trace
  {
    EveryScheduleKeepsInv(bus, schedule);
    var w := Run(bus, schedule);
    assert CommandsKnown(w.trace, LoopOf(w, s), s);
  }

  /** Every moment of a command that s takes after `schedule` and runs without
      interference shows the surroundings that it started in. */
  lemma MomentShowsStart(bus: Bus, schedule: seq<Action>, more: seq<Action>,
                         s: Member, k: nat, command: Command, p: nat)
    requires OwnSteps(more, s) && During(bus, schedule + more, p, s, k, command)
    requires Taken(s, k, command) !in Run(bus, schedule).trace
    ensures SameSurroundings(Run(bus, schedule), Run(bus, (schedule + more)[..p]))
  {
    if p <= |schedule| {
      assert (schedule + more)[..p] == schedule[..p];
      PrefixOfTrace(bus, schedule, p);
      assert false;
    }
    var own := more[..p - |schedule|];
    assert (schedule + more)[..p] == schedule + own;
    OwnStepsKeepSurroundings(bus, schedule, own, s);
  }

  lemma {:induction false} PrefixOfTrace(bus: Bus, schedule: seq<Action>, p: nat)
    requires p <= |schedule|
    ensures Run(bus, schedule[..p]).trace <= Run(bus, schedule).trace
  {
    var n := |schedule| - 1;
    if p <= n {
      PrefixOfTrace(bus, schedule[..n], p);
      assert schedule[..n][..p] == schedule[..p];
      StepShows(bus, Run(bus, schedule[..n]), schedule[n]);
    } else {
      assert schedule[..p] == schedule;
    }
  }

  /** In every reachable world of the memory broker, an idle session can run any
      command to its reply, by its own steps alone; then exactly one attempt was
      made to each session that the hubs of this world address, on the sender's
      node and on every node that listens, and none to anyone else. */
  lemma UndisturbedCommandDelivers(schedule: seq<Action>, s: Member, command: Command) returns (more: seq<Action>)
    requires s.home != "" && LoopOf(Run(Memory, schedule), s).stage.Idle?
    ensures OwnSteps(more, s)
    ensures var w, t := Run(Memory, schedule), Run(Memory, schedule + more).trace;
            var k := LoopOf(w, s).index;
            && Reply(s, k) in t
            && forall n, r :: Attempts(t, s, k, n, r) ==
                 if (n == s.home || n in Listening(w)) && Addressed(HubOf(w, n), command, s.user, r) then 1 else 0
  {
    var w, k := Run(Memory, schedule), LoopOf(Run(Memory, schedule), s).index;
    var take := OfLoop(s, Take(command));
    OneMore(Memory, schedule, take);
    var w' := Run(Memory, schedule + [take]);
    assert w'.trace[|w.trace|] == Taken(s, k, command);
    var rest := EveryCommandCanFinish(Memory, schedule + [take], s);
    more := [take] + rest;
    assert schedule + more == (schedule + [take]) + rest;
    OwnStepsKeepSurroundings(Memory, schedule + [take], rest, s);
    assert Taken(s, k, command) in Run(Memory, schedule + more).trace;
    NextCommandIsNew(Memory, schedule, s, command);
    DeliversFromStart(schedule, more, s, k, command);
  }

  lemma DeliversFromStart(schedule: seq<Action>, more: seq<Action>, s: Member, k: nat, command: Command)
    requires s.home != "" && OwnSteps(more, s) && Taken(s, k, command) !in Run(Memory, schedule).trace
    requires Reply(s, k) in Run(Memory, schedule + more).trace
    requires Taken(s, k, command) in Run(Memory, schedule + more).trace
    ensures var w, t := Run(Memory, schedule), Run(Memory, schedule + more).trace;
            forall n, r :: Attempts(t, s, k, n, r) ==
              if (n == s.home || n in Listening(w)) && Addressed(HubOf(w, n), command, s.user, r) then 1 else 0
  {
    var w, t, all := Run(Memory, schedule), Run(Memory, schedule + more).trace, schedule + more;
    var q := MemoryBrokerDeliversExactlyOnce(all, s, k, command);
    MomentShowsStart(Memory, schedule, more, s, k, command, q);
    forall n, r
      ensures Attempts(t, s, k, n, r) ==
              if (n == s.home || n in Listening(w)) && Addressed(HubOf(w, n), command, s.user, r) then 1 else 0
    {
      assert DeliveredDuring(all, q, s, k, command, n);
      var p: nat :| During(Memory, all, p, s, k, command) && DeliveredOnce(all, p, q, s, k, command, n);
      MomentShowsStart(Memory, schedule, more, s, k, command, p);
    }
  }

  /** The hubs, the subscriptions and the broker may be anything at any time, as
      long as sessions are in the hub of their own node. */
  lemma SurroundingsAreFree(bus: Bus, schedule: seq<Action>, hubs: map<NodeID, HubState<Member>>,
                            subscribed: set<NodeID>, open: bool)
    requires forall n :: n in hubs ==> AtHome(n, hubs[n])
    ensures var w, w' := Run(bus, schedule), Run(bus, schedule + [Elsewhere(hubs, subscribed, open)]);
            && w'.hubs == hubs && w'.subscribed == subscribed && w'.open == open
            && w'.loops == w.loops && w'.trace == w.trace
  {
    OneMore(bus, schedule, Elsewhere(hubs, subscribed, open));
  }

  /** A broadcast from one node reaches a member of the room on another, once. */
  lemma BroadcastCrossesNodes(room: string, s: Member, r: Member) returns (schedule: seq<Action>)
    requires s.home != "" && s.home != r.home && s.user != r.user
    ensures Attempts(Run(Memory, schedule).trace, s, 0, r.home, r) == 1
    ensures Reply(s, 0) in Run(Memory, schedule).trace
  {
    var hub := HubState(map[r.user := r], map[room := map[r.conn := r]], map[r.conn := {room}]);
    var setup := Elsewhere(map[r.home := hub], {s.home, r.home}, true);
    SurroundingsAreFree(Memory, [], setup.hubs, setup.subscribed, true);
    assert [] + [setup] == [setup];
    var more := UndisturbedCommandDelivers([setup], s, Broadcast(room));
    schedule := [setup] + more;
    assert Entry(hub, room, r.conn, r);
  }

  /** A private send from one node reaches the recipient's session on another. */
  lemma PrivateSendCrossesNodes(s: Member, r: Member) returns (schedule: seq<Action>)
    requires s.home != "" && s.home != r.home
    ensures Attempts(Run(Memory, schedule).trace, s, 0, r.home, r) == 1
    ensures Reply(s, 0) in Run(Memory, schedule).trace
  {
    var setup := Elsewhere(map[r.home := HubState(map[r.user := r], map[], map[])], {s.home, r.home}, true);
    SurroundingsAreFree(Memory, [], setup.hubs, setup.subscribed, true);
    assert [] + [setup] == [setup];
    var more := UndisturbedCommandDelivers([setup], s, Private(r.user));
    schedule := [setup] + more;
  }
}
