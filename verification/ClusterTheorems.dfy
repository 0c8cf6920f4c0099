/** Delivery across the cluster, in every schedule. */
module ClusterTheorems {
  import opened Common
  import opened RoomIndex
  import opened Cluster
  import opened ClusterProofs

  // ---------- Small facts about counts ----------

  lemma {:induction false} DistinctOccursOnce(ns: seq<NodeID>, n: NodeID)
    requires Distinct(ns)
    ensures Occurrences(ns, n) == if n in ns then 1 else 0
  {
    if ns != [] {
      DistinctOccursOnce(ns[1..], n);
      assert n in ns <==> n == ns[0] || n in ns[1..];
    }
  }

  lemma {:induction false} DeliveriesDistinct(t: seq<Event>, s: Member, k: nat)
    requires EventsSound(Memory, t)
    ensures Distinct(Deliveries(t, s, k))
    ensures (set n | n in Deliveries(t, s, k)) == SubscribersAt(t, s, k)
  {
    if t != [] {
      DeliveriesDistinct(t[..|t| - 1], s, k);
    }
  }

  lemma {:induction false} CoveringBelowSnapshots(t: seq<Event>, s: Member, k: nat, n: NodeID, r: Member)
    ensures Covering(t, s, k, n, r) <= Snapshots(t, s, k, n)
  {
    if t != [] {
      CoveringBelowSnapshots(t[..|t| - 1], s, k, n, r);
    }
  }

  lemma AddressedAtHome(h: HubState<Member>, n: NodeID, command: Command, user: string, r: Member)
    requires AtHome(n, h) && Addressed(h, command, user, r)
    ensures r.home == n
  {}

  lemma {:induction false} CoveredAtHome(bus: Bus, t: seq<Event>, s: Member, k: nat, n: NodeID, r: Member)
    requires EventsSound(bus, t) && Covering(t, s, k, n, r) > 0
    ensures r.home == n
  {
    var e := t[|t| - 1];
    if e.Snapshot? && e.sender == s && e.index == k && e.node == n && Addressed(e.hub, e.command, s.user, r) {
      AddressedAtHome(e.hub, n, e.command, s.user, r);
    } else {
      CoveredAtHome(bus, t[..|t| - 1], s, k, n, r);
    }
  }

  lemma {:induction false} AttemptCounts(t: seq<Event>, i: int)
    requires 0 <= i < |t| && t[i].Attempt?
    ensures Attempts(t, t[i].sender, t[i].index, t[i].node, t[i].recipient) >= 1
  {
    if i < |t| - 1 {
      AttemptCounts(t[..|t| - 1], i);
    }
  }

  lemma {:induction false} TwoAttemptsCount(t: seq<Event>, i: int, j: int)
    requires 0 <= i < j < |t| && t[i].Attempt? && t[j].Attempt?
    requires t[i].sender == t[j].sender && t[i].index == t[j].index
    requires t[i].node == t[j].node && t[i].recipient == t[j].recipient
    ensures Attempts(t, t[i].sender, t[i].index, t[i].node, t[i].recipient) >= 2
  {
    if j < |t| - 1 {
      TwoAttemptsCount(t[..|t| - 1], i, j);
    } else {
      AttemptCounts(t[..|t| - 1], i);
    }
  }

  // ---------- The moment of each event ----------

  /** What event `e` says about the world in which it was recorded, and about
      the step that recorded it. */
  ghost predicate Shows(bus: Bus, w: World, a: Action, e: Event) {
    && a.OfLoop? && a.s == e.sender && LoopOf(w, e.sender).index == e.index
    && match e
       case Taken(_, _, c) => a.op == Take(c)
       case Snapshot(s, _, n, h, c) => h == HubOf(w, n) && LoopOf(w, s).command == c
       case Attempt(_, _, _, r, accepted) => a.op == Deliver(r, accepted)
       case Publish(_, _, _, subscribed) => w.open && subscribed == w.subscribed
       case Unpublished(_, _) => !w.open || bus.Redelivering?
       case Reply(_, _) => a.op.SendReply?
  }

  lemma StepShows(bus: Bus, w: World, a: Action)
    ensures var t := Step(bus, w, a).trace;
            || t == w.trace
            || (|t| == |w.trace| + 1 && w.trace == t[..|w.trace|] && Shows(bus, w, a, t[|w.trace|]))
  {
    if a.OfLoop? && Enabled(bus, w, a.s, a.op) {
      AtMostOneEvent(w, a.s, a.op);
    }
  }

  /** Every event of a run was recorded at the end of some prefix of its
      schedule, and tells the truth about that moment. */
  lemma {:induction false} EventHasMoment(bus: Bus, schedule: seq<Action>, i: int) returns (p: nat)
    requires 0 <= i < |Run(bus, schedule).trace|
    ensures p < |schedule| && Run(bus, schedule[..p]).trace == Run(bus, schedule).trace[..i]
    ensures Shows(bus, Run(bus, schedule[..p]), schedule[p], Run(bus, schedule).trace[i])
  {
    var n := |schedule| - 1;
    var w := Run(bus, schedule[..n]);
    StepShows(bus, w, schedule[n]);
    if i < |w.trace| {
      p := EventHasMoment(bus, schedule[..n], i);
      assert schedule[..n][..p] == schedule[..p];
      assert w.trace[..i] == Run(bus, schedule).trace[..i];
    } else {
      p := n;
    }
  }

  /** The prefix of length p ends while s runs its command number k, which is
      `command`: it has been taken and not been replied to. */
  ghost predicate During(bus: Bus, schedule: seq<Action>, p: nat, s: Member, k: nat, command: Command) {
    && p <= |schedule|
    && Taken(s, k, command) in Run(bus, schedule[..p]).trace
    && Reply(s, k) !in Run(bus, schedule[..p]).trace
  }

  /** Whatever a command does, it does after it was taken and before its reply,
      and its snapshots are for the command that was taken. */
  lemma EventIsDuring(bus: Bus, schedule: seq<Action>, i: int, command: Command) returns (p: nat)
    requires 0 <= i < |Run(bus, schedule).trace| && !Run(bus, schedule).trace[i].Taken?
    requires var t := Run(bus, schedule).trace; Taken(t[i].sender, t[i].index, command) in t
    ensures var e := Run(bus, schedule).trace[i];
            && During(bus, schedule, p, e.sender, e.index, command) && p < |schedule|
            && Shows(bus, Run(bus, schedule[..p]), schedule[p], e)
            && (e.Snapshot? ==> e.command == command)
  {
    EveryScheduleKeepsInv(bus, schedule);
    var w := Run(bus, schedule);
    p := EventHasMoment(bus, schedule, i);
    EventWithinCommand(w.trace, LoopOf(w, w.trace[i].sender), i, command);
  }

  lemma EventWithinCommand(t: seq<Event>, l: Loop, i: int, command: Command)
    requires 0 <= i < |t| && !t[i].Taken? && Taken(t[i].sender, t[i].index, command) in t
    requires CommandsKnown(t, l, t[i].sender) && Ordered(t, l, t[i].sender)
    ensures Taken(t[i].sender, t[i].index, command) in t[..i] && Reply(t[i].sender, t[i].index) !in t[..i]
    ensures t[i].Snapshot? ==> t[i].command == command
  {
    assert TakenBefore(t, i);
    var j :| 0 <= j < i && t[j].Taken? && t[j].sender == t[i].sender && t[j].index == t[i].index
             && (t[i].Snapshot? ==> t[j].command == t[i].command);
    var k :| 0 <= k < |t| && t[k] == Taken(t[i].sender, t[i].index, command);
    assert SameCommand(t[j], t[k], t[i].sender);
    assert t[..i][j] == t[j];
  }

  // ---------- Exactly once ----------

  /** The snapshot events of command k of s, on any node. */
  predicate IsSnapshotOf(e: Event, s: Member, k: nat) {
    e.Snapshot? && e.sender == s && e.index == k
  }

  /** The hub that event `e` shows is the one that its node had at some moment
      of the command, and the event is for that command. */
  ghost predicate SeenDuring(bus: Bus, schedule: seq<Action>, e: Event, command: Command)
    requires e.Snapshot?
  {
    && e.command == command
    && exists p: nat :: During(bus, schedule, p, e.sender, e.index, command)
                     && e.hub == HubOf(Run(bus, schedule[..p]), e.node)
  }

  /** For a command that was replied to, on any broker: every session was
      attempted exactly as often as a snapshot of its node listed it, each of
      them a hub that the node had while the command ran; the origin took one
      snapshot however often it got its own event back, and every other node
      took one per time that the broker called it. An origin with an empty node
      ID does not recognise its echo and takes one more per echo. */
  lemma DeliveryCounts(bus: Bus, schedule: seq<Action>, s: Member, k: nat, command: Command, n: NodeID, r: Member)
    requires Reply(s, k) in Run(bus, schedule).trace && Taken(s, k, command) in Run(bus, schedule).trace
    ensures var t := Run(bus, schedule).trace;
            var calls := Occurrences(Deliveries(t, s, k), n);
            && Attempts(t, s, k, n, r) == Covering(t, s, k, n, r)
            && Snapshots(t, s, k, n) == (if n != s.home then calls else if s.home != "" then 1 else 1 + calls)
    ensures forall e :: e in Run(bus, schedule).trace && IsSnapshotOf(e, s, k) ==> SeenDuring(bus, schedule, e, command)
  {
    EveryScheduleKeepsInv(bus, schedule);
    var w := Run(bus, schedule);
    assert Ordered(w.trace, LoopOf(w, s), s);
    assert k < LoopOf(w, s).index;
    assert Balanced(w.trace, LoopOf(w, s), s, k, n, r);
    assert SnapshotsBalanced(w.trace, LoopOf(w, s), s, k, n);
    forall e | e in w.trace && IsSnapshotOf(e, s, k) ensures SeenDuring(bus, schedule, e, command) {
      var i :| 0 <= i < |w.trace| && w.trace[i] == e;
      var p := EventIsDuring(bus, schedule, i, command);
    }
  }

  lemma {:induction false} CoveringSnapshot(t: seq<Event>, s: Member, k: nat, n: NodeID, r: Member) returns (i: int)
    requires Covering(t, s, k, n, r) > 0
    ensures 0 <= i < |t| && IsSnapshotOf(t[i], s, k) && t[i].node == n && Addressed(t[i].hub, t[i].command, s.user, r)
  {
    var e := t[|t| - 1];
    if IsSnapshotOf(e, s, k) && e.node == n && Addressed(e.hub, e.command, s.user, r) {
      i := |t| - 1;
    } else {
      i := CoveringSnapshot(t[..|t| - 1], s, k, n, r);
    }
  }

  /** At every moment of every run, an attempt is to a session of that very node
      which the command taken addresses in the hub that the node had at some
      moment of the command. */
  lemma NoStrayAttempt(bus: Bus, schedule: seq<Action>, s: Member, k: nat, command: Command, n: NodeID, r: Member)
    requires Taken(s, k, command) in Run(bus, schedule).trace && Attempts(Run(bus, schedule).trace, s, k, n, r) > 0
    ensures n == r.home
    ensures exists p: nat :: During(bus, schedule, p, s, k, command)
                          && Addressed(HubOf(Run(bus, schedule[..p]), n), command, s.user, r)
  {
    AttemptsAreCovered(bus, schedule, s, k, n, r);
    var t := Run(bus, schedule).trace;
    var i := CoveringSnapshot(t, s, k, n, r);
    var p := EventIsDuring(bus, schedule, i, command);
  }

  lemma AttemptsAreCovered(bus: Bus, schedule: seq<Action>, s: Member, k: nat, n: NodeID, r: Member)
    ensures var t := Run(bus, schedule).trace;
            && Attempts(t, s, k, n, r) <= Covering(t, s, k, n, r)
            && (Attempts(t, s, k, n, r) > 0 ==> n == r.home)
  {
    EveryScheduleKeepsInv(bus, schedule);
    var w := Run(bus, schedule);
    assert Balanced(w.trace, LoopOf(w, s), s, k, n, r);
    if Covering(w.trace, s, k, n, r) > 0 {
      CoveredAtHome(bus, w.trace, s, k, n, r);
    }
  }

  /** Where a node took exactly one snapshot, that snapshot decides. */
  lemma {:induction false} SingleSnapshot(t: seq<Event>, s: Member, k: nat, n: NodeID) returns (i: int)
    requires Snapshots(t, s, k, n) == 1
    ensures 0 <= i < |t| && IsSnapshotOf(t[i], s, k) && t[i].node == n
    ensures forall r :: Covering(t, s, k, n, r) == if Addressed(t[i].hub, t[i].command, s.user, r) then 1 else 0
  {
    var e := t[|t| - 1];
    var before := t[..|t| - 1];
    if IsSnapshotOf(e, s, k) && e.node == n {
      i := |t| - 1;
      forall r ensures Covering(before, s, k, n, r) == 0 {
        CoveringBelowSnapshots(before, s, k, n, r);
      }
    } else {
      i := SingleSnapshot(before, s, k, n);
    }
  }

  /** The nodes that a publication reaches at one moment: none once the broker
      is closed. */
  function Listening(w: World): set<NodeID> {
    if w.open then w.subscribed else {}
  }

  /** The publication of a replied command has a moment, and found the nodes that
      were listening then. */
  lemma PublicationMoment(schedule: seq<Action>, s: Member, k: nat, command: Command) returns (q: nat)
    requires Reply(s, k) in Run(Memory, schedule).trace && Taken(s, k, command) in Run(Memory, schedule).trace
    ensures During(Memory, schedule, q, s, k, command)
    ensures SubscribersAt(Run(Memory, schedule).trace, s, k) == Listening(Run(Memory, schedule[..q]))
  {
    EveryScheduleKeepsInv(Memory, schedule);
    var w := Run(Memory, schedule);
    assert Ordered(w.trace, LoopOf(w, s), s) && PublicationKnown(w.trace, LoopOf(w, s), s, k);
    var i := LastPublication(w.trace, s, k);
    q := EventIsDuring(Memory, schedule, i, command);
  }

  lemma {:induction false} LastPublication(t: seq<Event>, s: Member, k: nat) returns (i: int)
    requires exists j :: 0 <= j < |t| && IsPublication(t[j], s, k)
    ensures 0 <= i < |t| && IsPublication(t[i], s, k)
    ensures SubscribersAt(t, s, k) == (if t[i].Publish? then t[i].subscribed else {})
  {
    var n := |t| - 1;
    if t[n].Publish? && IsPublication(t[n], s, k) {
      i := n;
    } else if j :| 0 <= j < n && IsPublication(t[j], s, k) {
      assert IsPublication(t[..n][j], s, k);
      i := LastPublication(t[..n], s, k);
    } else {
      NoPublication(t[..n], s, k);
      i := n;
    }
  }

  lemma {:induction false} NoPublication(t: seq<Event>, s: Member, k: nat)
    requires forall j :: 0 <= j < |t| ==> !IsPublication(t[j], s, k)
    ensures SubscribersAt(t, s, k) == {}
  {
    if t != [] {
      NoPublication(t[..|t| - 1], s, k);
    }
  }

  /** On node n there was one attempt to each session that the command addresses
      in the hub of prefix p, and none to anyone else; none at all unless n is
      the sender's node or was listening at prefix q. */
  ghost predicate DeliveredOnce(schedule: seq<Action>, p: nat, q: nat, s: Member, k: nat, command: Command, n: NodeID)
    requires p <= |schedule| && q <= |schedule|
  {
    var t, h := Run(Memory, schedule).trace, HubOf(Run(Memory, schedule[..p]), n);
    var reached := n == s.home || n in Listening(Run(Memory, schedule[..q]));
    forall r :: Attempts(t, s, k, n, r) == if reached && Addressed(h, command, s.user, r) then 1 else 0
  }

  ghost predicate DeliveredDuring(schedule: seq<Action>, q: nat, s: Member, k: nat, command: Command, n: NodeID)
    requires q <= |schedule|
  {
    exists p: nat :: During(Memory, schedule, p, s, k, command) && DeliveredOnce(schedule, p, q, s, k, command, n)
  }

  /** With the memory broker, a command that was taken and replied to made exactly
      one attempt to each session that it addresses, in the hub of its node at
      some moment between the two, on the sender's own node and on every node
      that was listening when it was published, and none to anyone else. */
  lemma MemoryBrokerDeliversExactlyOnce(schedule: seq<Action>, s: Member, k: nat, command: Command) returns (q: nat)
    requires s.home != ""
    requires Reply(s, k) in Run(Memory, schedule).trace && Taken(s, k, command) in Run(Memory, schedule).trace
    ensures During(Memory, schedule, q, s, k, command)
    ensures forall n :: DeliveredDuring(schedule, q, s, k, command, n)
  {
    q := PublicationMoment(schedule, s, k, command);
    forall n ensures DeliveredDuring(schedule, q, s, k, command, n) {
      var p := NodeDeliversOnce(schedule, q, s, k, command, n);
    }
  }

  lemma NodeDeliversOnce(schedule: seq<Action>, q: nat, s: Member, k: nat, command: Command, n: NodeID) returns (p: nat)
    requires s.home != "" && During(Memory, schedule, q, s, k, command)
    requires Reply(s, k) in Run(Memory, schedule).trace && Taken(s, k, command) in Run(Memory, schedule).trace
    requires SubscribersAt(Run(Memory, schedule).trace, s, k) == Listening(Run(Memory, schedule[..q]))
    ensures During(Memory, schedule, p, s, k, command) && DeliveredOnce(schedule, p, q, s, k, command, n)
  {
    var t := Run(Memory, schedule).trace;
    var once := SnapshotsPerNode(schedule, s, k, command, n);
    if once {
      var i := SingleSnapshot(t, s, k, n);
      p := EventIsDuring(Memory, schedule, i, command);
    } else {
      p := q;
      forall r ensures Attempts(t, s, k, n, r) == 0 {
        CoveringBelowSnapshots(t, s, k, n, r);
      }
    }
  }

  lemma SnapshotsPerNode(schedule: seq<Action>, s: Member, k: nat, command: Command, n: NodeID) returns (once: bool)
    requires s.home != ""
    requires Reply(s, k) in Run(Memory, schedule).trace && Taken(s, k, command) in Run(Memory, schedule).trace
    ensures var t := Run(Memory, schedule).trace;
            && once == (n == s.home || n in SubscribersAt(t, s, k))
            && Snapshots(t, s, k, n) == (if once then 1 else 0)
            && forall r :: Attempts(t, s, k, n, r) == Covering(t, s, k, n, r)
  {
    EveryScheduleKeepsInv(Memory, schedule);
    var t := Run(Memory, schedule).trace;
    DeliveriesDistinct(t, s, k);
    DistinctOccursOnce(Deliveries(t, s, k), n);
    forall r ensures Attempts(t, s, k, n, r) == Covering(t, s, k, n, r) {
      DeliveryCounts(Memory, schedule, s, k, command, n, r);
    }
    DeliveryCounts(Memory, schedule, s, k, command, n, s);
    assert n in Deliveries(t, s, k) <==> n in (set m | m in Deliveries(t, s, k));
    once := n == s.home || n in SubscribersAt(t, s, k);
  }

  // ---------- Order ----------

  /** With the memory broker no command is attempted twice at one session, at
      any moment of any run. */
  lemma AtMostOneAttempt(schedule: seq<Action>, s: Member, k: nat, n: NodeID, r: Member)
    requires s.home != ""
    ensures Attempts(Run(Memory, schedule).trace, s, k, n, r) <= 1
  {
    EveryScheduleKeepsInv(Memory, schedule);
    var w := Run(Memory, schedule);
    AttemptsAreCovered(Memory, schedule, s, k, n, r);
    CoveringBelowSnapshots(w.trace, s, k, n, r);
    DeliveriesDistinct(w.trace, s, k);
    DistinctOccursOnce(Deliveries(w.trace, s, k), n);
    assert SnapshotsBalanced(w.trace, LoopOf(w, s), s, k, n);
  }

  /** `e` took the command that `effect` belongs to. */
  predicate TakeOf(e: Event, effect: Event) {
    e.Taken? && e.sender == effect.sender && e.index == effect.index
  }

  /** For any two sessions anywhere in the cluster, the events of one reach the
      other's Send strictly in the order in which the sender's read loop took
      the commands. */
  lemma SenderOrderIsKept(schedule: seq<Action>, i: int, j: int)
    requires 0 <= i < j < |Run(Memory, schedule).trace|
    requires var t := Run(Memory, schedule).trace;
             t[i].Attempt? && t[j].Attempt? && t[i].sender == t[j].sender && t[i].recipient == t[j].recipient
             && t[i].sender.home != ""
    ensures var t := Run(Memory, schedule).trace;
            && t[i].index < t[j].index
            && (forall x, y :: 0 <= x < |t| && 0 <= y < |t| && TakeOf(t[x], t[i]) && TakeOf(t[y], t[j]) ==> x < y)
  {
    EveryScheduleKeepsInv(Memory, schedule);
    var w := Run(Memory, schedule);
    var t := w.trace;
    var a, b := t[i], t[j];
    assert Ordered(t, LoopOf(w, a.sender), a.sender);
    AttemptCounts(t, i);
    AttemptCounts(t, j);
    AttemptsAreCovered(Memory, schedule, a.sender, a.index, a.node, a.recipient);
    AttemptsAreCovered(Memory, schedule, b.sender, b.index, b.node, b.recipient);
    AtMostOneAttempt(schedule, a.sender, a.index, a.node, a.recipient);
    if a.index == b.index {
      TwoAttemptsCount(t, i, j);
    }
  }

  /** Everything that a command does precedes its reply. */
  lemma AttemptsPrecedeReply(bus: Bus, schedule: seq<Action>, i: int, j: int)
    requires 0 <= i < |Run(bus, schedule).trace| && 0 <= j < |Run(bus, schedule).trace|
    requires var t := Run(bus, schedule).trace;
             t[i].Reply? && t[j].sender == t[i].sender && t[j].index == t[i].index && j != i
    ensures j < i
  {
    EveryScheduleKeepsInv(bus, schedule);
    var w := Run(bus, schedule);
    assert Ordered(w.trace, LoopOf(w, w.trace[i].sender), w.trace[i].sender);
  }
}
