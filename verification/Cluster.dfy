/** N nodes that share one broker, as a step system. Each session's read loop
    runs one command at a time, on its own thread: a snapshot of the local
    recipients, one delivery attempt to each, a publication, and for every
    subscriber that the broker calls the same again on that node, then the
    reply. The hubs change arbitrarily between any two of these steps. */
module Cluster {
  import opened Common
  import opened RoomIndex

  type NodeID = string

  /** A session and the node that it is connected to. */
  datatype Member = Member(conn: string, user: string, home: NodeID)

  datatype Command = Broadcast(room: string) | Private(recipient: string)

  /** Whether the broker calls each subscriber once (the memory broker), or any
      number of times (a broker that may redeliver or lose). */
  datatype Bus = Memory | Redelivering

  datatype Stage =
    | Idle
    | Starting
    | Delivering(node: NodeID, todo: set<Member>, published: bool, rest: seq<NodeID>)
    | Publishing
    | Handling(rest: seq<NodeID>) // handler calls that Publish still has to make
    | Replying

  datatype Loop = Loop(index: nat, command: Command, stage: Stage)

  datatype Event =
    | Taken(sender: Member, index: nat, command: Command)
    | Snapshot(sender: Member, index: nat, node: NodeID, hub: HubState<Member>, command: Command)
    | Attempt(sender: Member, index: nat, node: NodeID, recipient: Member, accepted: bool)
    | Publish(sender: Member, index: nat, deliveries: seq<NodeID>, subscribed: set<NodeID>)
    | Unpublished(sender: Member, index: nat) // the broker refused the publication
    | Reply(sender: Member, index: nat)

  datatype World = World(
    hubs: map<NodeID, HubState<Member>>,
    subscribed: set<NodeID>,
    open: bool, // the broker is not closed
    loops: map<Member, Loop>,
    trace: seq<Event>
  )

  datatype Op =
    | Take(command: Command)
    | SnapshotHome
    | Deliver(recipient: Member, accepted: bool)
    | EndDelivery
    | PublishTo(deliveries: seq<NodeID>)
    | PublishFails
    | HandleNext
    | EndHandling
    | SendReply

  datatype Action =
    | OfLoop(s: Member, op: Op)
    | Elsewhere(hubs: map<NodeID, HubState<Member>>, subscribed: set<NodeID>, open: bool)

  // ---------- Steps ----------

  /** The recipients of a command in one hub: the members of the room whose user
      is not the sender, or the registered recipient. */
  function Targets(h: HubState<Member>, command: Command, senderID: string): set<Member> {
    match command
    case Broadcast(room) =>
      if room in h.rooms then
        set conn | conn in h.rooms[room] && h.rooms[room][conn].user != senderID :: h.rooms[room][conn]
      else {}
    case Private(recipient) =>
      if recipient in h.clients then {h.clients[recipient]} else {}
  }

  function HubOf(w: World, n: NodeID): HubState<Member> {
    if n in w.hubs then w.hubs[n] else EmptyHub()
  }

  function LoopOf(w: World, s: Member): Loop {
    if s in w.loops then w.loops[s] else Loop(0, Broadcast(""), Idle)
  }

  /** Sessions appear only in the hub of their own node. */
  ghost predicate AtHome(n: NodeID, h: HubState<Member>) {
    && (forall room, conn :: room in h.rooms && conn in h.rooms[room] ==> h.rooms[room][conn].home == n)
    && (forall user :: user in h.clients ==> h.clients[user].home == n)
  }

  /** The handler calls that one Publish may make. */
  predicate Possible(bus: Bus, subscribed: set<NodeID>, deliveries: seq<NodeID>) {
    bus.Memory? ==> Distinct(deliveries) && (set n | n in deliveries) == subscribed
  }

  /** A hub drops the events that carry its own, non-empty node ID. */
  predicate DropsEcho(origin: NodeID, n: NodeID) {
    n != "" && n == origin
  }

  predicate Enabled(bus: Bus, w: World, s: Member, op: Op) {
    var stage := LoopOf(w, s).stage;
    match op
    case Take(_) => stage.Idle?
    case SnapshotHome => stage.Starting?
    case Deliver(r, _) => stage.Delivering? && r in stage.todo
    case EndDelivery => stage.Delivering? && stage.todo == {}
    case PublishTo(deliveries) => stage.Publishing? && w.open && Possible(bus, w.subscribed, deliveries)
    case PublishFails => stage.Publishing? && (!w.open || bus.Redelivering?)
    case HandleNext => stage.Handling? && stage.rest != []
    case EndHandling => stage == Handling([])
    case SendReply => stage.Replying?
  }

  /** The loop's next stage and the event it records, if any. */
  function Advance(w: World, s: Member, op: Op): (Loop, seq<Event>)
    requires op.Deliver? || op.EndDelivery? ==> LoopOf(w, s).stage.Delivering?
    requires op.HandleNext? ==> LoopOf(w, s).stage.Handling? && LoopOf(w, s).stage.rest != []
  {
    var l := LoopOf(w, s);
    match op
    case Take(command) => (l.(command := command, stage := Starting), [Taken(s, l.index, command)])
    case SnapshotHome =>
      var h := HubOf(w, s.home);
      (l.(stage := Delivering(s.home, Targets(h, l.command, s.user), false, [])),
       [Snapshot(s, l.index, s.home, h, l.command)])
    case Deliver(r, accepted) =>
      (l.(stage := l.stage.(todo := l.stage.todo - {r})), [Attempt(s, l.index, l.stage.node, r, accepted)])
    case EndDelivery => (l.(stage := if l.stage.published then Handling(l.stage.rest) else Publishing), [])
    case PublishTo(deliveries) => (l.(stage := Handling(deliveries)), [Publish(s, l.index, deliveries, w.subscribed)])
    case PublishFails => (l.(stage := Replying), [Unpublished(s, l.index)])
    case HandleNext =>
      var n := l.stage.rest[0];
      var h := HubOf(w, n);
      if DropsEcho(s.home, n) then (l.(stage := Handling(l.stage.rest[1..])), [])
      else (l.(stage := Delivering(n, Targets(h, l.command, s.user), true, l.stage.rest[1..])),
            [Snapshot(s, l.index, n, h, l.command)])
    case EndHandling => (l.(stage := Replying), [])
    case SendReply => (l.(index := l.index + 1, stage := Idle), [Reply(s, l.index)])
  }

  ghost function Step(bus: Bus, w: World, a: Action): World {
    match a
    case OfLoop(s, op) =>
      if Enabled(bus, w, s, op) then
        var (l, events) := Advance(w, s, op);
        w.(loops := w.loops[s := l], trace := w.trace + events)
      else w
    case Elsewhere(hubs, subscribed, open) =>
      if forall n :: n in hubs ==> AtHome(n, hubs[n]) then
        w.(hubs := hubs, subscribed := subscribed, open := open)
      else w
  }

  function Start(): World {
    World(map[], {}, true, map[], [])
  }

  ghost function Run(bus: Bus, schedule: seq<Action>): World {
    if schedule == [] then Start()
    else Step(bus, Run(bus, schedule[..|schedule| - 1]), schedule[|schedule| - 1])
  }

  // ---------- Counting in a trace ----------

  /** Delivery attempts of command k of s to r on node n. */
  function Attempts(t: seq<Event>, s: Member, k: nat, n: NodeID, r: Member): nat {
    if t == [] then 0
    else
      var e := t[|t| - 1];
      Attempts(t[..|t| - 1], s, k, n, r)
        + if e.Attempt? && e.sender == s && e.index == k && e.node == n && e.recipient == r then 1 else 0
  }

  /** Snapshots of command k of s on node n. */
  function Snapshots(t: seq<Event>, s: Member, k: nat, n: NodeID): nat {
    if t == [] then 0
    else
      var e := t[|t| - 1];
      Snapshots(t[..|t| - 1], s, k, n)
        + if e.Snapshot? && e.sender == s && e.index == k && e.node == n then 1 else 0
  }

  /** Whom a command is meant for, according to one hub: a session in the room
      whose user is not the sender, or the recipient's registered session. */
  ghost predicate Addressed(h: HubState<Member>, command: Command, senderID: string, r: Member) {
    match command
    case Broadcast(room) => r.user != senderID && exists conn :: Entry(h, room, conn, r)
    case Private(recipient) => recipient in h.clients && h.clients[recipient] == r
  }

  /** Those of them in which r is addressed. */
  ghost function Covering(t: seq<Event>, s: Member, k: nat, n: NodeID, r: Member): nat {
    if t == [] then 0
    else
      var e := t[|t| - 1];
      Covering(t[..|t| - 1], s, k, n, r)
        + if e.Snapshot? && e.sender == s && e.index == k && e.node == n && Addressed(e.hub, e.command, s.user, r)
          then 1 else 0
  }

  /** The handler calls of command k of s; none if it was not published. */
  function Deliveries(t: seq<Event>, s: Member, k: nat): seq<NodeID> {
    if t == [] then []
    else
      var e := t[|t| - 1];
      if e.Publish? && e.sender == s && e.index == k then e.deliveries else Deliveries(t[..|t| - 1], s, k)
  }

  /** The subscribers that the publication of command k of s found. */
  function SubscribersAt(t: seq<Event>, s: Member, k: nat): set<NodeID> {
    if t == [] then {}
    else
      var e := t[|t| - 1];
      if e.Publish? && e.sender == s && e.index == k then e.subscribed else SubscribersAt(t[..|t| - 1], s, k)
  }

  function Occurrences(ns: seq<NodeID>, n: NodeID): nat {
    if ns == [] then 0 else (if ns[0] == n then 1 else 0) + Occurrences(ns[1..], n)
  }

  /** How often a list of handler calls makes node n look for recipients. */
  function Handled(origin: NodeID, ns: seq<NodeID>, n: NodeID): nat {
    if DropsEcho(origin, n) then 0 else Occurrences(ns, n)
  }

  /** How often a command makes node n look for recipients in all. */
  function Expected(origin: NodeID, deliveries: seq<NodeID>, n: NodeID): nat {
    (if n == origin then 1 else 0) + Handled(origin, deliveries, n)
  }

  // ---------- The invariant ----------

  /** Attempts already made plus attempts still due are the snapshots' targets. */
  ghost predicate Balanced(t: seq<Event>, l: Loop, s: Member, k: nat, n: NodeID, r: Member) {
    && (k > l.index ==> Covering(t, s, k, n, r) == 0)
    && Attempts(t, s, k, n, r)
         + (if k == l.index && l.stage.Delivering? && l.stage.node == n && r in l.stage.todo then 1 else 0)
       == Covering(t, s, k, n, r)
  }

  predicate BeforePublication(stage: Stage) {
    stage.Idle? || stage.Starting? || stage.Publishing? || (stage.Delivering? && !stage.published)
  }

  /** The handler calls still to come at a stage. */
  function Rest(stage: Stage): seq<NodeID> {
    match stage
    case Delivering(_, _, _, rest) => rest
    case Handling(rest) => rest
    case _ => []
  }

  /** Snapshots taken plus snapshots still due are those the deliveries call for. */
  predicate SnapshotsBalanced(t: seq<Event>, l: Loop, s: Member, k: nat, n: NodeID) {
    var d := Deliveries(t, s, k);
    && (BeforePublication(l.stage) ==> Rest(l.stage) == [])
    && (k > l.index || (k == l.index && BeforePublication(l.stage)) ==> d == [])
    && (k > l.index || (k == l.index && (l.stage.Idle? || l.stage.Starting?)) ==> Snapshots(t, s, k, n) == 0)
    && (k < l.index || (k == l.index && !l.stage.Idle? && !l.stage.Starting?) ==>
          Snapshots(t, s, k, n) + (if k == l.index then Handled(s.home, Rest(l.stage), n) else 0)
            == Expected(s.home, d, n))
  }

  /** The events of a loop come in command order, and its reply comes last. */
  ghost predicate Ordered(t: seq<Event>, l: Loop, s: Member) {
    && (forall i :: 0 <= i < |t| && t[i].sender == s ==> t[i].index <= l.index)
    && (forall i :: 0 <= i < |t| && t[i].sender == s && t[i].Reply? ==> t[i].index < l.index)
    && (forall i, j :: 0 <= i < j < |t| && t[i].sender == s && t[j].sender == s ==>
          t[i].index <= t[j].index && (t[i].Reply? ==> t[i].index < t[j].index))
  }

  ghost predicate EventsSound(bus: Bus, t: seq<Event>) {
    forall i :: 0 <= i < |t| ==>
      && (t[i].Snapshot? ==> AtHome(t[i].node, t[i].hub))
      && (t[i].Publish? ==> Possible(bus, t[i].subscribed, t[i].deliveries))
  }

  /** Every event of a loop belongs to a command that it had taken, every snapshot
      is for the command itself, and no number is given to two commands. */
  ghost predicate CommandsKnown(t: seq<Event>, l: Loop, s: Member) {
    && (forall i :: 0 <= i < |t| && t[i].sender == s && t[i].Taken? && t[i].index >= l.index ==>
          !l.stage.Idle? && t[i] == Taken(s, l.index, l.command))
    && (!l.stage.Idle? ==> Taken(s, l.index, l.command) in t)
    && (forall i, j :: 0 <= i < |t| && 0 <= j < |t| && SameCommand(t[i], t[j], s) ==> t[i] == t[j])
    && (forall i :: 0 <= i < |t| && t[i].sender == s && !t[i].Taken? ==> TakenBefore(t, i))
  }

  predicate SameCommand(a: Event, b: Event, s: Member) {
    a.Taken? && b.Taken? && a.sender == s && b.sender == s && a.index == b.index
  }

  ghost predicate TakenBefore(t: seq<Event>, i: int)
    requires 0 <= i < |t|
  {
    exists j :: 0 <= j < i && t[j].Taken? && t[j].sender == t[i].sender && t[j].index == t[i].index
             && (t[i].Snapshot? ==> t[j].command == t[i].command)
  }

  predicate IsPublication(e: Event, s: Member, k: nat) {
    (e.Publish? || e.Unpublished?) && e.sender == s && e.index == k
  }

  /** A command that is past its publication has a publication in the trace. */
  ghost predicate PublicationKnown(t: seq<Event>, l: Loop, s: Member, k: nat) {
    k < l.index || (k == l.index && !BeforePublication(l.stage)) ==>
      exists i :: 0 <= i < |t| && IsPublication(t[i], s, k)
  }

  ghost predicate CommandsSound(w: World) {
    && (forall s :: CommandsKnown(w.trace, LoopOf(w, s), s))
    && (forall s, k: nat :: PublicationKnown(w.trace, LoopOf(w, s), s, k))
  }

  ghost predicate HubsAtHome(w: World) {
    forall n :: n in w.hubs ==> AtHome(n, w.hubs[n])
  }

  ghost predicate Inv(bus: Bus, w: World) {
    && HubsAtHome(w)
    && EventsSound(bus, w.trace)
    && (forall s :: Ordered(w.trace, LoopOf(w, s), s))
    && CommandsSound(w)
    && (forall s, k: nat, n, r :: Balanced(w.trace, LoopOf(w, s), s, k, n, r))
    && (forall s, k: nat, n :: SnapshotsBalanced(w.trace, LoopOf(w, s), s, k, n))
  }
}
