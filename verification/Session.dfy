/** The hub and its client sessions, run without concurrent operations: every
    method below is one call of the service's code from start to finish,
    including the re-entry of Close into the hub. */
module Session {
  import opened Common
  import opened RoomIndex
  import opened Protocol
  import opened Subjects

  datatype Outbound =
    | Acknowledged(requestID: string, command: string)
    | Failed(requestID: string, code: ErrorCode)
    | RoomEvent(roomID: string, senderID: string, payload: RawPayload)
    | PrivateEvent(senderID: string, recipientID: string, payload: RawPayload)
    | ServerDraining

  /** The authorizer is a parameter of the hub. */
  datatype Authorizer = Authorizer(
    mayJoin: (string, string) -> bool,
    mayPublish: (string, string) -> bool,
    maySendPrivate: (string, string) -> bool
  )

  /** What the broker did with an event that the hub handed to it. */
  datatype Publication = NoBroker | Published | PublishFailed

  /** An event that another node, or this one, published. */
  datatype BrokerEvent = BrokerEvent(
    nodeID: string,
    kind: string,
    roomID: string,
    recipientID: string,
    senderID: string,
    payload: RawPayload
  )

  /** What a hub hands to the broker. */
  datatype Outgoing = Outgoing(subject: string, event: BrokerEvent)

  datatype SendError = RecipientIsOffline | RecipientIsOverloaded | BrokerError

  /** The entries of a hub's maps are filed under their own IDs, and their
      sessions belong to that hub. */
  ghost predicate Wired(h: HubState<Client>, hub: Hub) {
    && (forall user :: user in h.clients ==> h.clients[user].userID == user && h.clients[user].hub == hub)
    && (forall room, conn :: room in h.rooms && conn in h.rooms[room] ==>
          h.rooms[room][conn].connectionID == conn && h.rooms[room][conn].hub == hub)
  }

  ghost predicate Sound(h: HubState<Client>, hub: Hub, cap: int) {
    Consistent(h) && WithinCap(h, cap) && Wired(h, hub)
  }

  lemma JoinKeepsSound(h: HubState<Client>, hub: Hub, cap: int, c: Client, room: string)
    requires Sound(h, hub, cap) && c.hub == hub && !JoinRefused(h, c.connectionID, room, cap)
    ensures Sound(Joined(h, c.connectionID, c, room), hub, cap)
  {
    JoinRefinesInsert(h, c.connectionID, c, room, cap);
  }

  lemma LeaveKeepsSound(h: HubState<Client>, hub: Hub, cap: int, c: Client, room: string)
    requires Sound(h, hub, cap)
    ensures Sound(Left(h, c.connectionID, room), hub, cap)
  {
    LeaveRefinesDelete(h, c.connectionID, room, cap);
  }

  lemma UnregisterKeepsSound(h: HubState<Client>, hub: Hub, cap: int, c: Client)
    requires Sound(h, hub, cap)
    ensures Sound(Unregistered(h, c.connectionID, c.userID, c), hub, cap)
  {
    UnregisterRefinesPurge(h, c.connectionID, c.userID, c, cap);
    UnregisterAddsNothing(h, c.connectionID, c.userID, c);
  }

  /** Every session that a hub's maps lead to. */
  ghost function ReachableIn(h: HubState<Client>): set<Client> {
    h.clients.Values + (set room, conn | room in h.rooms && conn in h.rooms[room] :: h.rooms[room][conn])
  }

  lemma UnregisterReachesNobodyNew(h: HubState<Client>, c: Client)
    ensures ReachableIn(Unregistered(h, c.connectionID, c.userID, c)) <= ReachableIn(h)
  {}

  lemma RoomsReachOnlySelf(h: HubState<Client>, c: Client, room: string)
    ensures ReachableIn(Left(h, c.connectionID, room)) <= ReachableIn(h)
    ensures ReachableIn(Joined(h, c.connectionID, c, room)) <= ReachableIn(h) + {c}
  {}

  lemma EvictionReachesNobodyNew(h: HubState<Client>, gone: set<Client>)
    ensures ReachableIn(Evicted(h, gone, ConnectionsOf(gone))) <= ReachableIn(h)
  {}

  /** The recipients of a room event: the members whose user is not the sender. */
  ghost function RecipientsIn(h: HubState<Client>, senderID: string, room: string): set<Client> {
    if room in h.rooms then set c | c in h.rooms[room].Values && c.userID != senderID else {}
  }

  /** They are exactly the sessions that the room lists, whose user is another. */
  lemma RecipientsAreTheOthers(h: HubState<Client>, senderID: string, room: string, c: Client)
    ensures c in RecipientsIn(h, senderID, room) <==>
            c.userID != senderID && room in h.rooms && exists conn :: conn in h.rooms[room] && h.rooms[room][conn] == c
  {}

  lemma NobodyEvicted(h: HubState<Client>)
    requires Consistent(h)
    ensures Evicted(h, {}, ConnectionsOf({})) == h
  {
    assert ConnectionsOf({}) == {};
    EvictNone(h);
  }

  lemma OneEvicted(h: HubState<Client>, hub: Hub, c: Client)
    requires Consistent(h) && Wired(h, hub)
    ensures Evicted(h, {c}, ConnectionsOf({c})) == Unregistered(h, c.connectionID, c.userID, c)
  {
    EvictNone(h);
    EvictOneMore(h, {}, {}, c.connectionID, c.userID, c);
    assert {} + {c} == {c} && {} + {c.connectionID} == {c.connectionID} == ConnectionsOf({c});
  }

  /** Those of `sessions` that are open without space. */
  ghost function FullOf(sessions: set<Client>): (full: set<Client>)
    reads sessions
    ensures sessions == {} ==> full == {}
  {
    set c | c in sessions && c.Full()
  }

  /** Those of `sessions` that are open with space. */
  ghost function RoomyOf(sessions: set<Client>): set<Client>
    reads sessions
  {
    set c | c in sessions && !c.closed && |c.queue| < c.capacity
  }

  ghost function OpenOf(sessions: set<Client>): set<Client>
    reads sessions
  {
    set c | c in sessions && !c.closed
  }

  /** The command that a frame holds, if nothing stops it before the switch. */
  function CommandIn(frame: Frame, limited: bool): Option<InboundMessage> {
    if frame.Text? && !limited && DecodeInbound(frame.parse).1.None? then Some(DecodeInbound(frame.parse).0) else None
  }

  /** The reply to a frame that never reaches the switch. */
  function Refusal(frame: Frame, limited: bool): Outbound {
    match frame
    case Binary => Failed("", InvalidMessage)
    case Text(p) =>
      var (m, e) := DecodeInbound(p);
      Failed(if e.None? then m.requestID else e.value.requestID,
             if limited || e.None? then RateLimitExceeded else e.value.code)
  }

  /** The label under which a frame is counted. */
  function KindOf(frame: Frame): string {
    if frame.Text? && DecodeInbound(frame.parse).1.None? then DecodeInbound(frame.parse).0.kind else "unknown"
  }

  ghost function ConnectionsOf(sessions: set<Client>): set<string> {
    set c | c in sessions :: c.connectionID
  }

  class Client {
    const connectionID: string
    const userID: string
    const capacity: nat
    const hub: Hub
    const metrics: Metrics

    var queue: seq<Outbound>
    var closed: bool
    ghost var replies: seq<Outbound>  // every reply attempted by the read loop
    ghost var written: seq<Outbound>  // everything the writer has taken from the queue

    constructor (connectionID: string, userID: string, capacity: nat, hub: Hub, metrics: Metrics)
      ensures this.connectionID == connectionID && this.userID == userID && this.capacity == capacity
      ensures this.hub == hub && this.metrics == metrics
      ensures queue == [] && !closed && replies == [] && written == []
    {
      this.connectionID := connectionID;
      this.userID := userID;
      this.capacity := capacity;
      this.hub := hub;
      this.metrics := metrics;
      queue := [];
      closed := false;
      replies, written := [], [];
    }

    /** Every message that the session has accepted, in order. */
    ghost function Accepted(): seq<Outbound>
      reads this
    {
      written + queue
    }

    /** Open, but with no space left. */
    ghost predicate Full()
      reads this
    {
      !closed && |queue| >= capacity
    }

    /** The effect of one delivery: the event is queued if the session was open
        with space; otherwise the queue is as it was and the session is closed. */
    twostate predicate Served(event: Outbound)
      reads this
    {
      var accepts := !old(closed) && |old(queue)| < capacity;
      && closed == !accepts
      && queue == if accepts then old(queue) + [event] else old(queue)
    }

    /** Close takes effect once and re-enters the hub through OnClose. */
    method Close()
      requires hub.Valid()
      modifies this`closed, hub
      ensures closed && hub.Valid()
      ensures hub.State() ==
              if old(closed) then old(hub.State())
              else Unregistered(old(hub.State()), connectionID, userID, this)
    {
      if !closed {
        closed := true;
        var _ := hub.Unregister(this);
      }
    }

    /** Send accepts, or refuses a closed session, or closes a full one. */
    method Send(m: Outbound) returns (ok: bool)
      requires hub.Valid()
      modifies this`queue, this`closed, hub
      ensures hub.Valid()
      ensures ok <==> !old(closed) && |old(queue)| < capacity
      ensures queue == if ok then old(queue) + [m] else old(queue)
      ensures closed <==> !ok
      ensures hub.State() ==
              if ok || old(closed) then old(hub.State())
              else Unregistered(old(hub.State()), connectionID, userID, this)
    {
      if closed {
        return false;
      }
      if |queue| < capacity {
        queue := queue + [m];
        return true;
      }
      Close();
      return false;
    }

    /** The writer takes up to n messages from the queue of an open session. */
    method Drain(n: nat)
      modifies this`queue, this`written
      ensures Accepted() == old(Accepted())
      ensures |queue| == if closed then |old(queue)| else if n < |old(queue)| then |old(queue)| - n else 0
    {
      if !closed {
        var k := if n < |queue| then n else |queue|;
        written := written + queue[..k];
        queue := queue[k..];
      }
    }

    /** A hub as a reply leaves it: one that was not queued closed the session. */
    ghost function Settled(h: HubState<Client>, kept: bool): HubState<Client> {
      if kept then h else Unregistered(h, connectionID, userID, this)
    }

    /** One reply was attempted. It was queued, behind the session's `own` events,
        if the session was open with space, and the session stays open exactly then. */
    twostate predicate Replied(r: Outbound, enqueued: bool, own: seq<Outbound>)
      reads this
    {
      && replies == old(replies) + [r]
      && queue == old(queue) + own + (if enqueued then [r] else [])
      && (enqueued <==> !old(closed) && |old(queue)| + |own| < capacity)
      && closed == !enqueued
    }

    /** One reply attempt, which touches nothing but this session unless the
        reply does not fit. */
    method Respond(r: Outbound) returns (enqueued: bool)
      requires hub.Valid()
      modifies this`queue, this`closed, this`replies, hub
      ensures hub.Valid() && hub.Reachable() <= old(hub.Reachable())
      ensures Replied(r, enqueued, [])
      ensures hub.State() == Settled(old(hub.State()), enqueued || old(closed))
    {
      UnregisterReachesNobodyNew(hub.State(), this);
      replies := replies + [r];
      enqueued := Send(r);
    }

    // ---------- What a command deserves and does ----------

    predicate MayJoin(h: HubState<Client>, room: string) {
      hub.authorizer.mayJoin(userID, room) && !JoinRefused(h, connectionID, room, hub.maxRoomsPerClient)
    }

    predicate MayBroadcast(h: HubState<Client>, room: string) {
      InRoom(h, room, connectionID) || hub.authorizer.mayPublish(userID, room)
    }

    /** The reply to a valid command in hub state `h`; `accepts` says whether a
        registered recipient is open with space. */
    function CommandReply(h: HubState<Client>, m: InboundMessage, publication: Publication, accepts: bool): Outbound {
      if m.kind == ROOM_JOIN && !MayJoin(h, m.roomID) then Failed(m.requestID, Unauthorized)
      else if m.kind == ROOM_BROADCAST && !MayBroadcast(h, m.roomID) then Failed(m.requestID, Unauthorized)
      else if m.kind == PRIVATE_SEND && !hub.authorizer.maySendPrivate(userID, m.recipientID) then
        Failed(m.requestID, Unauthorized)
      else if m.kind == PRIVATE_SEND && !publication.Published? && m.recipientID !in h.clients then
        Failed(m.requestID, RecipientOffline)
      else if m.kind == PRIVATE_SEND && !publication.Published? && !accepts then
        Failed(m.requestID, RecipientOverloaded)
      else Acknowledged(m.requestID, m.kind)
    }

    /** The sessions that a command makes the hub send to: none if it is refused. */
    ghost function Addressed(h: HubState<Client>, m: InboundMessage): set<Client> {
      if m.kind == ROOM_BROADCAST && MayBroadcast(h, m.roomID) then RecipientsIn(h, userID, m.roomID)
      else if m.kind == PRIVATE_SEND && m.recipientID in h.clients
              && hub.authorizer.maySendPrivate(userID, m.recipientID) then
        {h.clients[m.recipientID]}
      else {}
    }

    function EventOf(m: InboundMessage): Outbound {
      if m.kind == ROOM_BROADCAST then RoomEvent(m.roomID, userID, m.payload)
      else PrivateEvent(userID, m.recipientID, m.payload)
    }

    /** What a command that is not refused announces to the other nodes. */
    function Announcement(m: InboundMessage): Option<Outgoing> {
      if m.kind == ROOM_BROADCAST then
        Some(Outgoing("blockforge.rooms." + m.roomID,
                      BrokerEvent(hub.nodeID, "room_broadcast", m.roomID, "", userID, m.payload)))
      else if m.kind == PRIVATE_SEND then
        Some(Outgoing("blockforge.users." + m.recipientID,
                      BrokerEvent(hub.nodeID, "private_send", "", m.recipientID, userID, m.payload)))
      else None
    }

    /** The hub after a command, before its reply, if `full` are the addressed
        sessions that were open without space. */
    ghost function CommandEffect(h: HubState<Client>, m: InboundMessage, full: set<Client>): HubState<Client> {
      if m.kind == ROOM_JOIN && MayJoin(h, m.roomID) then Joined(h, connectionID, this, m.roomID)
      else if m.kind == ROOM_LEAVE then Left(h, connectionID, m.roomID)
      else Evicted(h, full, ConnectionsOf(full))
    }

    /** The events that a session sends to itself and has space for. */
    ghost function OwnEvents(m: InboundMessage): seq<Outbound>
      reads this, hub
    {
      if this in Addressed(hub.State(), m) && !closed && |queue| < capacity then [EventOf(m)] else []
    }

    ghost predicate RecipientAccepts(user: string)
      reads hub, hub.clients.Values
    {
      user in hub.clients && !hub.clients[user].closed && |hub.clients[user].queue| < hub.clients[user].capacity
    }

    method OnJoin(m: InboundMessage) returns (enqueued: bool, r: Outbound)
      requires hub.Valid()
      modifies this`queue, this`closed, this`replies, hub
      ensures hub.Valid() && hub.Reachable() <= old(hub.Reachable()) + {this}
      ensures r == if MayJoin(old(hub.State()), m.roomID) then Acknowledged(m.requestID, m.kind)
                   else Failed(m.requestID, Unauthorized)
      ensures Replied(r, enqueued, [])
      ensures var h := old(hub.State());
              var joined := if r.Acknowledged? then Joined(h, connectionID, this, m.roomID) else h;
              hub.State() == Settled(joined, enqueued || old(closed))
    {
      RoomsReachOnlySelf(hub.State(), this, m.roomID);
      var ok := hub.Join(this, m.roomID);
      if !ok {
        r := Failed(m.requestID, Unauthorized);
        enqueued := Respond(r);
        return;
      }
      r := Acknowledged(m.requestID, m.kind);
      enqueued := Respond(r);
    }

    method OnLeave(m: InboundMessage) returns (enqueued: bool, r: Outbound)
      requires hub.Valid()
      modifies this`queue, this`closed, this`replies, hub
      ensures hub.Valid() && hub.Reachable() <= old(hub.Reachable()) + {this}
      ensures r == Acknowledged(m.requestID, m.kind) && Replied(r, enqueued, [])
      ensures hub.State() == Settled(Left(old(hub.State()), connectionID, m.roomID), enqueued || old(closed))
    {
      RoomsReachOnlySelf(hub.State(), this, m.roomID);
      hub.Leave(this, m.roomID);
      r := Acknowledged(m.requestID, m.kind);
      enqueued := Respond(r);
    }

    method OnBroadcast(m: InboundMessage, publication: Publication)
      returns (enqueued: bool, r: Outbound, out: Option<Outgoing>)
      requires hub.Valid() && m.kind == ROOM_BROADCAST
      modifies this`queue, this`closed, this`replies, hub
      modifies Addressed(hub.State(), m)`queue, Addressed(hub.State(), m)`closed
      ensures hub.Valid() && hub.Reachable() <= old(hub.Reachable()) + {this}
      ensures r == if MayBroadcast(old(hub.State()), m.roomID) then Acknowledged(m.requestID, m.kind)
                   else Failed(m.requestID, Unauthorized)
      ensures Replied(r, enqueued, [])
      ensures forall c :: c in Addressed(old(hub.State()), m) ==> c.Served(RoomEvent(m.roomID, userID, m.payload))
      ensures out == if r.Failed? || publication.NoBroker? then None else Announcement(m)
      ensures var full := old(FullOf(Addressed(hub.State(), m)));
              hub.State() == Settled(Evicted(old(hub.State()), full, ConnectionsOf(full)), enqueued || old(closed))
    {
      ghost var before := hub.State();
      ghost var addressed := Addressed(before, m);
      var ok := hub.AuthorizeBroadcast(this, m.roomID);
      if !ok {
        NobodyEvicted(before);
        r, out := Failed(m.requestID, Unauthorized), None;
        enqueued := Respond(r);
        return;
      }
      ghost var full: set<Client>;
      out, full := hub.Broadcast(userID, m.roomID, m.payload, !publication.NoBroker?);
      EvictionReachesNobodyNew(before, full);
      assert forall c :: c in addressed ==> c.Served(RoomEvent(m.roomID, userID, m.payload)) && c != this;
      r := Acknowledged(m.requestID, m.kind);
      enqueued := Respond(r);
    }

    /** Unregistering a session again changes nothing. */
    lemma SettledTwice(h: HubState<Client>)
      requires Sound(h, hub, hub.maxRoomsPerClient)
      ensures Settled(Evicted(h, {this}, {connectionID}), false) == Evicted(h, {this}, {connectionID})
    {
      EvictOneMore(h, {this}, {connectionID}, connectionID, userID, this);
      assert {this} + {this} == {this} && {connectionID} + {connectionID} == {connectionID};
    }

    /** The private send itself: the addressed session, if any, is served. */
    method RelayPrivate(m: InboundMessage, publication: Publication)
      returns (err: Option<SendError>, out: Option<Outgoing>)
      requires hub.Valid() && m.kind == PRIVATE_SEND && hub.authorizer.maySendPrivate(userID, m.recipientID)
      modifies hub, Addressed(hub.State(), m)`queue, Addressed(hub.State(), m)`closed
      ensures hub.Valid() && hub.Reachable() <= old(hub.Reachable())
      ensures err.None? <==> publication.Published? || old(RecipientAccepts(m.recipientID))
      ensures err == Some(RecipientIsOverloaded) <==> err.Some? && m.recipientID in old(hub.clients)
      ensures out == if publication.NoBroker? then None else Announcement(m)
      ensures forall c :: c in Addressed(old(hub.State()), m) ==>
                c.Served(PrivateEvent(userID, m.recipientID, m.payload))
      ensures var full := old(FullOf(Addressed(hub.State(), m)));
              hub.State() == Evicted(old(hub.State()), full, ConnectionsOf(full))
    {
      ghost var before := hub.State();
      ghost var addressed := Addressed(before, m);
      NobodyEvicted(before);
      if m.recipientID in hub.clients {
        ghost var c := hub.clients[m.recipientID];
        UnregisterReachesNobodyNew(before, c);
        OneEvicted(before, hub, c);
      }
      ghost var full := FullOf(addressed);
      assert m.recipientID in before.clients ==>
          full == if before.clients[m.recipientID].Full() then {before.clients[m.recipientID]} else {};
      err, out := hub.SendPrivate(userID, m.recipientID, m.payload, publication);
    }

    method OnPrivate(m: InboundMessage, publication: Publication)
      returns (enqueued: bool, r: Outbound, out: Option<Outgoing>)
      requires hub.Valid() && m.kind == PRIVATE_SEND
      modifies this`queue, this`closed, this`replies, hub
      modifies Addressed(hub.State(), m)`queue, Addressed(hub.State(), m)`closed
      ensures hub.Valid() && hub.Reachable() <= old(hub.Reachable()) + {this}
      ensures r == if !hub.authorizer.maySendPrivate(userID, m.recipientID) then Failed(m.requestID, Unauthorized)
                   else if publication.Published? || old(RecipientAccepts(m.recipientID)) then
                     Acknowledged(m.requestID, m.kind)
                   else if m.recipientID in old(hub.clients) then Failed(m.requestID, RecipientOverloaded)
                   else Failed(m.requestID, RecipientOffline)
      ensures Replied(r, enqueued, old(OwnEvents(m)))
      ensures out == if r == Failed(m.requestID, Unauthorized) || publication.NoBroker? then None else Announcement(m)
      ensures forall c :: c in Addressed(old(hub.State()), m) && c != this ==>
                c.Served(PrivateEvent(userID, m.recipientID, m.payload))
      ensures var full := old(FullOf(Addressed(hub.State(), m)));
              hub.State() == Settled(Evicted(old(hub.State()), full, ConnectionsOf(full)), enqueued || old(closed))
    {
      ghost var before := hub.State();
      ghost var addressed := Addressed(before, m);
      if !hub.authorizer.maySendPrivate(userID, m.recipientID) {
        NobodyEvicted(before);
        r, out := Failed(m.requestID, Unauthorized), None;
        enqueued := Respond(r);
        return;
      }
      ghost var full := FullOf(addressed);
      var err: Option<SendError>;
      err, out := RelayPrivate(m, publication);
      if this in full {
        assert full == {this} && ConnectionsOf(full) == {connectionID};
        SettledTwice(before);
      }
      r := match err
           case None => Acknowledged(m.requestID, m.kind)
           case Some(RecipientIsOverloaded) => Failed(m.requestID, RecipientOverloaded)
           case Some(_) => Failed(m.requestID, RecipientOffline);
      enqueued := Respond(r);
    }

    /** The switch over a command that passed validation: the reply that it
        deserves, its effect on the hub, its event to whom it addresses, and what
        it hands to the broker. */
    method OnCommand(m: InboundMessage, publication: Publication)
      returns (enqueued: bool, r: Outbound, out: Option<Outgoing>)
      requires hub.Valid() && Known(m.kind)
      modifies this`queue, this`closed, this`replies, hub
      modifies Addressed(hub.State(), m)`queue, Addressed(hub.State(), m)`closed
      ensures hub.Valid() && hub.Reachable() <= old(hub.Reachable()) + {this}
      ensures r == CommandReply(old(hub.State()), m, publication, old(RecipientAccepts(m.recipientID)))
      ensures out == if publication.NoBroker? || r == Failed(m.requestID, Unauthorized) then None else Announcement(m)
      ensures Replied(r, enqueued, old(OwnEvents(m)))
      ensures forall c :: c in Addressed(old(hub.State()), m) && c != this ==> c.Served(EventOf(m))
      ensures var full := old(FullOf(Addressed(hub.State(), m)));
              hub.State() == Settled(CommandEffect(old(hub.State()), m, full), enqueued || old(closed))
    {
      ghost var before := hub.State();
      ghost var addressed := Addressed(before, m);
      if m.kind == ROOM_JOIN {
        NobodyEvicted(before);
        enqueued, r := OnJoin(m);
        out := None;
      } else if m.kind == ROOM_LEAVE {
        enqueued, r := OnLeave(m);
        out := None;
      } else if m.kind == ROOM_BROADCAST {
        enqueued, r, out := OnBroadcast(m, publication);
      } else {
        enqueued, r, out := OnPrivate(m, publication);
      }
    }

    // ---------- What a frame deserves and does ----------

    /** The reply that a frame deserves in hub state `h`. */
    function FrameReply(h: HubState<Client>, frame: Frame, limited: bool, publication: Publication, accepts: bool)
      : Outbound
    {
      match CommandIn(frame, limited)
      case Some(m) => CommandReply(h, m, publication, accepts)
      case None => Refusal(frame, limited)
    }

    ghost function FrameAddressed(h: HubState<Client>, frame: Frame, limited: bool): set<Client> {
      match CommandIn(frame, limited)
      case Some(m) => Addressed(h, m)
      case None => {}
    }

    ghost function FrameEffect(h: HubState<Client>, frame: Frame, limited: bool, full: set<Client>): HubState<Client> {
      match CommandIn(frame, limited)
      case Some(m) => CommandEffect(h, m, full)
      case None => h
    }

    /** Every reply carries the peer's request ID and is of the kind that the
        frame asks for, whatever the hub holds. */
    lemma FrameReplyAnswers(h: HubState<Client>, frame: Frame, limited: bool, publication: Publication, accepts: bool)
      ensures Answers(FrameReply(h, frame, limited, publication, accepts), frame, limited)
    {
      if frame.Text? {
        DecodeKeepsRequestID(frame.parse);
        DecodedIsWellFormed(frame.parse);
        RefusalNamesFirstFault(frame.parse);
      }
    }

    /** The frame got the reply that it deserves, whoever it addresses was
        served, and the hub shows its effect and that of the reply. */
    twostate predicate Handled(frame: Frame, limited: bool, publication: Publication, r: Outbound, enqueued: bool)
      reads *
    {
      var m, h := CommandIn(frame, limited), old(hub.State());
      && r == FrameReply(h, frame, limited, publication, m.Some? && old(RecipientAccepts(m.value.recipientID)))
      && Replied(r, enqueued, if m.Some? then old(OwnEvents(m.value)) else [])
      && (forall c :: c in FrameAddressed(h, frame, limited) && c != this ==> c.Served(EventOf(m.value)))
      && var full := old(FullOf(FrameAddressed(hub.State(), frame, limited)));
         hub.State() == Settled(FrameEffect(h, frame, limited, full), enqueued || old(closed))
    }

    /** A frame that never reaches the switch only gets its reply. */
    method Decline(r: Outbound, ghost frame: Frame, ghost limited: bool, ghost publication: Publication)
      returns (enqueued: bool)
      requires hub.Valid() && CommandIn(frame, limited).None? && r == Refusal(frame, limited)
      modifies this`queue, this`closed, this`replies, hub
      ensures hub.Valid() && hub.Reachable() <= old(hub.Reachable())
      ensures Handled(frame, limited, publication, r, enqueued)
    {
      enqueued := Respond(r);
    }

    /** Decides what a frame is worth before the switch sees it. */
    method AnswerFrame(frame: Frame, limited: bool, publication: Publication)
      returns (enqueued: bool, r: Outbound, kind: string)
      requires hub.Valid()
      modifies this`queue, this`closed, this`replies, hub
      modifies FrameAddressed(hub.State(), frame, limited)`queue, FrameAddressed(hub.State(), frame, limited)`closed
      ensures hub.Valid() && hub.Reachable() <= old(hub.Reachable()) + {this}
      ensures kind == KindOf(frame)
      ensures Handled(frame, limited, publication, r, enqueued)
    {
      kind := "unknown";
      if frame.Binary? {
        r := Failed("", InvalidMessage);
        enqueued := Decline(r, frame, limited, publication);
        return;
      }
      DecodedIsWellFormed(frame.parse);
      var (message, e) := DecodeInbound(frame.parse);
      if message.kind != "" {
        kind := message.kind;
      }
      if limited {
        r := Failed(if e.None? then message.requestID else e.value.requestID, RateLimitExceeded);
        enqueued := Decline(r, frame, limited, publication);
      } else if e.Some? {
        r := Failed(e.value.requestID, e.value.code);
        enqueued := Decline(r, frame, limited, publication);
      } else {
        var out: Option<Outgoing>;
        enqueued, r, out := OnCommand(message, publication);
      }
    }

    /** One frame, whatever it holds, gets exactly one reply attempt: the reply
        that it deserves. A frame that is refused as malformed, rate limited or
        unauthorized addresses nobody and leaves the hub as it was when its
        reply fits. */
    method ProcessFrame(frame: Frame, limited: bool, publication: Publication) returns (enqueued: bool, r: Outbound)
      requires hub.Valid()
      modifies this`queue, this`closed, this`replies, hub, metrics
      modifies FrameAddressed(hub.State(), frame, limited)`queue, FrameAddressed(hub.State(), frame, limited)`closed
      ensures hub.Valid() && hub.Reachable() <= old(hub.Reachable()) + {this}
      ensures Handled(frame, limited, publication, r, enqueued)
      ensures metrics.Recorded(KindOf(frame), r.Acknowledged?)
    {
      var kind: string;
      enqueued, r, kind := AnswerFrame(frame, limited, publication);
      metrics.RecordInbound(kind, r.Acknowledged?);
    }

    /** A line of the transcript fits its frame: the reply is the one that the
        frame deserves in the hub that it found, given which of the sessions that
        it addresses had space, and the hub changed by its effect and, if the
        reply closed the session, by the cleanup of that. */
    ghost predicate Fits(l: Line, frame: Frame, limited: bool, publication: Publication) {
      var m := CommandIn(frame, limited);
      var clients, addressed := l.before.clients, FrameAddressed(l.before, frame, limited);
      var accepts := m.Some? && m.value.recipientID in clients && clients[m.value.recipientID] in l.roomy;
      && l.roomy <= addressed && l.full <= addressed - l.roomy
      && l.reply == FrameReply(l.before, frame, limited, publication, accepts)
      && l.after == Settled(FrameEffect(l.before, frame, limited, l.full), l.queued || !l.wasOpen)
    }

    /** Judges line n of a transcript by frame n. */
    ghost function Answering(frames: seq<Frame>, limited: seq<bool>, publications: seq<Publication>): Judge {
      (n: nat, l: Line) =>
        && n < |frames| && n < |limited| && n < |publications|
        && Answers(l.reply, frames[n], limited[n])
        && Fits(l, frames[n], limited[n], publications[n])
    }

    /** Whether the recipient of a private send accepts it is what its session's
        space says. */
    lemma AcceptsIfRoomy(h: HubState<Client>, frame: Frame, limited: bool, publication: Publication, a: bool, b: bool)
      requires var m := CommandIn(frame, limited);
               m.Some? && m.value.kind == PRIVATE_SEND && Addressed(h, m.value) != {} ==> a == b
      ensures FrameReply(h, frame, limited, publication, a) == FrameReply(h, frame, limited, publication, b)
    {}

    lemma PassesJudge(l: Line, accepts: bool,
                      frames: seq<Frame>, limited: seq<bool>, publications: seq<Publication>, n: nat)
      requires n < |frames| == |limited| == |publications|
      requires l.reply == FrameReply(l.before, frames[n], limited[n], publications[n], accepts)
      requires var addressed := FrameAddressed(l.before, frames[n], limited[n]);
               l.roomy <= addressed && l.full <= addressed - l.roomy
      requires l.after == Settled(FrameEffect(l.before, frames[n], limited[n], l.full), l.queued || !l.wasOpen)
      requires var m, clients := CommandIn(frames[n], limited[n]), l.before.clients;
               m.Some? && m.value.recipientID in clients
                 && clients[m.value.recipientID] in Addressed(l.before, m.value) ==>
                 (accepts <==> clients[m.value.recipientID] in l.roomy)
      ensures Answering(frames, limited, publications)(n, l)
    {
      FrameReplyAnswers(l.before, frames[n], limited[n], publications[n], accepts);
      var m, clients := CommandIn(frames[n], limited[n]), l.before.clients;
      AcceptsIfRoomy(l.before, frames[n], limited[n], publications[n], accepts,
                     m.Some? && m.value.recipientID in clients && clients[m.value.recipientID] in l.roomy);
    }

    /** The read loop over the frames that arrive, each with the limiter's
        verdict, the broker's, and how much the writer drains before it. It
        answers frame by frame, in order, goes on exactly as long as its replies
        are queued, and they enter the queue in that order. It stops only at a
        reply that does not fit, or if the session was closed from the start. */
    method ReadLoop(frames: seq<Frame>, limited: seq<bool>, publications: seq<Publication>, drains: seq<nat>)
      returns (handled: nat, stopped: bool, ghost t: Transcript)
      requires hub.Valid() && |frames| == |limited| == |publications| == |drains|
      modifies this, hub, metrics, hub.Reachable()`queue, hub.Reachable()`closed
      ensures hub.Valid()
      ensures t.Tells(Accepted(), Answering(frames, limited, publications))
      ensures t.Origin() == Start(old(replies), |old(Accepted())| - 1, old(hub.State()), !old(closed))
      ensures t.Hub() == hub.State()
      ensures handled == t.Length() && replies == t.Replies()
      ensures stopped <==> t.Stopped()
      ensures stopped ==> old(closed) || |queue| >= capacity
      ensures !stopped ==> handled == |frames|
      ensures handled > 0 ==> closed == stopped
      ensures old(Accepted()) <= Accepted()
      ensures metrics.TypeTotal() - old(metrics.TypeTotal()) == handled
      ensures metrics.ResultTotal() - old(metrics.ResultTotal()) == handled
    {
      handled, stopped, t := 0, false, Start(replies, |Accepted()| - 1, hub.State(), !closed);
      while handled < |frames| && !stopped
        invariant hub.Valid() && hub.Reachable() <= old(hub.Reachable()) + {this}
        invariant t.Tells(Accepted(), Answering(frames, limited, publications))
        invariant t.Origin() == Start(old(replies), |old(Accepted())| - 1, old(hub.State()), !old(closed))
        invariant t.Hub() == hub.State()
        invariant handled == t.Length() && replies == t.Replies() && t.Open() == !closed
        invariant stopped <==> t.Stopped()
        invariant closed ==> old(closed) || |queue| >= capacity
        invariant handled > 0 ==> closed == stopped
        invariant old(Accepted()) <= Accepted()
        invariant metrics.TypeTotal() - old(metrics.TypeTotal()) == handled
        invariant metrics.ResultTotal() - old(metrics.ResultTotal()) == handled
        decreases |frames| - handled
      {
        var queued: bool;
        queued, t := Turn(drains[handled], frames, limited, publications, handled, t);
        handled, stopped := handled + 1, !queued;
      }
    }

    /** One turn of the read loop: the writer drains some of the queue, and one
        frame is answered and adds one line to the transcript. */
    method Turn(drained: nat, frames: seq<Frame>, limited: seq<bool>, publications: seq<Publication>, n: nat,
                ghost t: Transcript)
      returns (queued: bool, ghost t': Transcript)
      requires hub.Valid() && n < |frames| == |limited| == |publications|
      requires t.Tells(Accepted(), Answering(frames, limited, publications))
      requires t.Length() == n && t.Replies() == replies && t.Hub() == hub.State()
      requires t.Open() == !closed && !t.Stopped()
      modifies this, hub, metrics, hub.Reachable()`queue, hub.Reachable()`closed
      ensures hub.Valid() && hub.Reachable() <= old(hub.Reachable()) + {this}
      ensures t'.Tells(Accepted(), Answering(frames, limited, publications)) && old(Accepted()) <= Accepted()
      ensures t'.Origin() == t.Origin() && t'.Length() == n + 1 && t'.Replies() == replies && t'.Hub() == hub.State()
      ensures t'.Then? && t'.Stopped() == closed == !queued
      ensures closed ==> old(closed) || |queue| >= capacity
      ensures metrics.TypeTotal() == old(metrics.TypeTotal()) + 1
      ensures metrics.ResultTotal() == old(metrics.ResultTotal()) + 1
    {
      ghost var acc := Accepted();
      Drain(drained);
      ghost var l: Line;
      queued, l := TakeFrame(frames, limited, publications, n);
      t' := t.OneMoreLine(acc, Accepted(), Answering(frames, limited, publications), l);
    }

    /** Takes frame n and answers it. The line records what the frame found. */
    method TakeFrame(frames: seq<Frame>, limited: seq<bool>, publications: seq<Publication>, n: nat)
      returns (enqueued: bool, ghost l: Line)
      requires hub.Valid() && n < |frames| == |limited| == |publications|
      modifies this`queue, this`closed, this`replies, hub, metrics, hub.Reachable()`queue, hub.Reachable()`closed
      ensures hub.Valid() && hub.Reachable() <= old(hub.Reachable()) + {this}
      ensures l.before == old(hub.State()) && l.after == hub.State() && l.wasOpen == !old(closed)
      ensures l.roomy == old(RoomyOf(FrameAddressed(hub.State(), frames[n], limited[n])))
      ensures l.full == old(FullOf(FrameAddressed(hub.State(), frames[n], limited[n])))
      ensures replies == old(replies) + [l.reply] && l.queued == enqueued
      ensures Answering(frames, limited, publications)(n, l)
      ensures closed == !enqueued && (closed ==> old(closed) || |queue| >= capacity)
      ensures old(Accepted()) <= Accepted()
      ensures enqueued ==> |Accepted()| > |old(Accepted())| && Accepted()[|Accepted()| - 1] == l.reply
      ensures metrics.TypeTotal() == old(metrics.TypeTotal()) + 1
      ensures metrics.ResultTotal() == old(metrics.ResultTotal()) + 1
    {
      ghost var h := hub.State();
      FrameAddressedReachable(frames[n], limited[n]);
      ghost var m := CommandIn(frames[n], limited[n]);
      ghost var accepts := m.Some? && RecipientAccepts(m.value.recipientID);
      ghost var roomy := RoomyOf(FrameAddressed(h, frames[n], limited[n]));
      ghost var full := FullOf(FrameAddressed(h, frames[n], limited[n]));
      ghost var own := if m.Some? then OwnEvents(m.value) else [];
      var r: Outbound;
      enqueued, r := ProcessFrame(frames[n], limited[n], publications[n]);
      l := Line(h, !old(closed), roomy, full, r, enqueued, hub.State());
      PassesJudge(l, accepts, frames, limited, publications, n);
      QueueGrows(old(written), old(queue), own, if enqueued then [r] else []);
    }

    lemma FrameAddressedReachable(frame: Frame, limited: bool)
      ensures FrameAddressed(hub.State(), frame, limited) <= hub.Reachable()
    {}
  }

  /** `r` answers `frame`: it carries the frame's ID, it says that the rate was
      exceeded exactly if it was, it names the first rule that the frame breaks
      exactly if it breaks one, and it acknowledges the frame's own command. */
  predicate Answers(r: Outbound, frame: Frame, limited: bool) {
    && (r.Acknowledged? || r.Failed?)
    && Trim(r.requestID) == Trim(SentID(frame))
    && (r.Failed? && r.code == RateLimitExceeded <==> limited && frame.Text?)
    && (r.Failed? && r.code == InvalidJSON <==> frame.Text? && !limited && !frame.parse.Single?)
    && (r.Failed? && r.code == UnsupportedVersion <==>
          frame.Text? && !limited && frame.parse.Single? && !Supported(frame.parse.message))
    && (r.Failed? && r.code == UnknownMessageType <==>
          && frame.Text? && !limited && frame.parse.Single?
          && Supported(frame.parse.message) && Identified(frame.parse.message) && !Known(frame.parse.message.kind))
    && (r.Failed? && r.code == InvalidMessage <==>
          || frame.Binary?
          || (!limited && frame.parse.Single? && Supported(frame.parse.message)
              && (|| !Identified(frame.parse.message)
                  || (Known(frame.parse.message.kind)
                      && !(Addressable(frame.parse.message) && Routable(frame.parse.message))))))
    && (r.Acknowledged? ==>
          frame.Text? && !limited && frame.parse.Single? && r.command == frame.parse.message.kind)
  }

  /** A frame is counted under its own type if it is one valid command, and as
      unknown otherwise, whether or not the rate was exceeded. */
  lemma KindOfFrame(frame: Frame)
    ensures KindOf(frame) ==
            if frame.Text? && frame.parse.Single? && Supported(frame.parse.message) && Identified(frame.parse.message)
               && Addressable(frame.parse.message) && Routable(frame.parse.message)
            then frame.parse.message.kind else "unknown"
  {
    if frame.Text? {
      DecodedIsWellFormed(frame.parse);
    }
  }

  lemma QueueGrows(written: seq<Outbound>, queue: seq<Outbound>, own: seq<Outbound>, last: seq<Outbound>)
    ensures written + queue <= written + (queue + own + last)
    ensures |last| == 1 ==> (written + (queue + own + last))[|written| + |queue| + |own|] == last[0]
  {}

  /** One frame: the hub that it found, whether the session was open, which of
      the sessions that it addressed had space and which were full, the reply,
      whether that was queued, and the hub that it left behind. */
  datatype Line = Line(
    before: HubState<Client>,
    wasOpen: bool,
    roomy: set<Client>,
    full: set<Client>,
    reply: Outbound,
    queued: bool,
    after: HubState<Client>
  )

  type Judge = (nat, Line) -> bool

  /** What a read loop did, frame by frame. `place` is the number of the reply
      among the accepted messages. */
  datatype Transcript =
    | Start(earlier: seq<Outbound>, place: int, hub: HubState<Client>, open: bool)
    | Then(prior: Transcript, line: Line, place: int)
  {
    function Hub(): HubState<Client> {
      if Start? then hub else line.after
    }

    predicate Open() {
      if Start? then open else line.queued
    }

    function Length(): nat {
      if Start? then 0 else prior.Length() + 1
    }

    function Replies(): seq<Outbound> {
      if Start? then earlier else prior.Replies() + [line.reply]
    }

    function Origin(): Transcript {
      if Start? then this else prior.Origin()
    }

    /** The last reply was not queued. */
    predicate Stopped() {
      Then? && !line.queued
    }

    /** Every frame was taken only after the reply to the one before had been
        queued, found what that one left behind, and passes the judge; the replies
        that were queued are among the accepted messages `acc`, in the order of
        their frames. */
    ghost predicate Tells(acc: seq<Outbound>, judge: Judge) {
      match this
      case Start(_, place, _, _) => -1 <= place < |acc|
      case Then(prior, l, place) =>
        && prior.Tells(acc, judge) && !prior.Stopped()
        && l.before == prior.Hub() && l.wasOpen == prior.Open()
        && judge(prior.Length(), l)
        && (l.queued ==> 0 <= place && prior.place < place < |acc| && acc[place] == l.reply)
    }

    lemma {:induction false} PlacesStay(acc: seq<Outbound>, acc': seq<Outbound>, judge: Judge)
      requires Tells(acc, judge) && acc <= acc'
      ensures Tells(acc', judge)
      ensures !Stopped() ==> -1 <= place < |acc|
    {
      if Then? {
        prior.PlacesStay(acc, acc', judge);
      }
    }

    lemma OneMoreLine(acc: seq<Outbound>, acc': seq<Outbound>, judge: Judge, l: Line) returns (t: Transcript)
      requires Tells(acc, judge) && acc <= acc' && !Stopped()
      requires l.before == Hub() && l.wasOpen == Open() && judge(Length(), l)
      requires l.queued ==> |acc'| > |acc| && acc'[|acc'| - 1] == l.reply
      ensures t.Then? && t.prior == this && t.line == l
      ensures t.Tells(acc', judge)
      ensures t.Origin() == Origin() && t.Length() == Length() + 1 && t.Replies() == Replies() + [l.reply]
    {
      PlacesStay(acc, acc', judge);
      t := Then(this, l, |acc'| - 1);
    }

    /** The transcript up to and including frame i. */
    function Upto(i: nat): (t: Transcript)
      requires i < Length()
      ensures t.Then? && t.Length() == i + 1
    {
      if i == Length() - 1 then this else prior.Upto(i)
    }

    lemma {:induction false} PrefixTells(acc: seq<Outbound>, judge: Judge, i: nat)
      requires Tells(acc, judge) && i < Length()
      ensures Upto(i).Tells(acc, judge)
      ensures i < Length() - 1 ==> Upto(i).line.queued && (line.queued ==> Upto(i).place < place)
    {
      if i < Length() - 1 {
        prior.PrefixTells(acc, judge, i);
      }
    }

    /** Frame by frame: every line passes the judge, every reply but the last was
        queued, and queued replies are accepted messages in frame order. */
    lemma RepliesComeInFrameOrder(acc: seq<Outbound>, judge: Judge, i: nat, j: nat)
      requires Tells(acc, judge) && i < j < Length()
      ensures Upto(i).line.queued && judge(i, Upto(i).line) && judge(j, Upto(j).line)
      ensures Upto(j).line.queued ==>
                && 0 <= Upto(i).place < Upto(j).place < |acc|
                && acc[Upto(i).place] == Upto(i).line.reply && acc[Upto(j).place] == Upto(j).line.reply
    {
      PrefixTells(acc, judge, i);
      PrefixTells(acc, judge, j);
      Upto(j).PrefixTells(acc, judge, i);
      UptoTwice(i, j);
    }

    lemma {:induction false} UptoTwice(i: nat, j: nat)
      requires i < j < Length()
      ensures Upto(j).Upto(i) == Upto(i)
    {
      if j < Length() - 1 {
        prior.UptoTwice(i, j);
      }
    }
  }

  class Hub {
    const maxRoomsPerClient: int
    const authorizer: Authorizer
    const nodeID: string

    var clients: map<string, Client>
    var rooms: map<string, map<string, Client>>
    var clientRooms: map<string, set<string>>

    ghost function State(): HubState<Client>
      reads this
    {
      HubState(clients, rooms, clientRooms)
    }

    ghost predicate Valid()
      reads this
    {
      Sound(State(), this, maxRoomsPerClient)
    }

    ghost function Reachable(): set<Client>
      reads this
    {
      ReachableIn(State())
    }

    constructor (maxRoomsPerClient: int, authorizer: Authorizer, nodeID: string)
      ensures this.maxRoomsPerClient == maxRoomsPerClient && this.authorizer == authorizer && this.nodeID == nodeID
      ensures Valid() && State() == EmptyHub()
    {
      this.maxRoomsPerClient := maxRoomsPerClient;
      this.authorizer := authorizer;
      this.nodeID := nodeID;
      clients, rooms, clientRooms := map[], map[], map[];
    }

    /** The new session wins; the session it replaces is closed, and its
        cleanup cannot touch the new entry. */
    method Register(client: Client)
      requires Valid() && client.hub == this
      modifies this
      modifies (if client.userID in clients then {clients[client.userID]} else {})`closed
      ensures Valid()
      ensures clients == old(clients)[client.userID := client]
      ensures client.userID in old(clients) && old(clients[client.userID]) != client ==>
                var replaced := old(clients[client.userID]);
                && replaced.closed
                && (!old(replaced.closed) ==>
                      && rooms == ScanAllRooms(old(rooms), replaced.connectionID)
                      && clientRooms == old(clientRooms) - {replaced.connectionID})
      ensures (client.userID in old(clients) ==>
                 old(clients[client.userID]) == client || old(clients[client.userID].closed)) ==>
                rooms == old(rooms) && clientRooms == old(clientRooms)
    {
      var replaced := if client.userID in clients then Some(clients[client.userID]) else None;
      RegisterKeepsRelation(State(), client.userID, client);
      ghost var next := Registered(State(), client.userID, client);
      clients := clients[client.userID := client];
      assert State() == next;
      if replaced.Some? && replaced.value != client {
        UnregisterEqualsScan(State(), replaced.value.connectionID, replaced.value.userID, replaced.value);
        replaced.value.Close();
      }
    }

    /** Walks the rooms listed for the session and deletes it from each. */
    method Unregister(client: Client) returns (removed: bool)
      requires Valid() && client.hub == this
      modifies this
      ensures Valid()
      ensures State() == Unregistered(old(State()), client.connectionID, client.userID, client)
      ensures removed <==> client.userID in old(clients) && old(clients[client.userID]) == client
    {
      var conn := client.connectionID;
      ghost var before := State();
      ghost var after := Unregistered(before, conn, client.userID, client);
      UnregisterKeepsSound(before, this, maxRoomsPerClient, client);
      if conn in clientRooms {
        var held := clientRooms[conn];
        var pending := held;
        while pending != {}
          invariant pending <= held
          invariant clients == before.clients && clientRooms == before.clientRooms
          invariant rooms == DropFrom(before.rooms, held - pending, conn)
        {
          var room :| room in pending;
          DropOneMore(before.rooms, held - pending, room, conn);
          assert held - (pending - {room}) == (held - pending) + {room};
          pending := pending - {room};
          rooms := DropMember(rooms, room, conn);
        }
        assert held - pending == held;
        clientRooms := clientRooms - {conn};
      }
      removed := client.userID in clients && clients[client.userID] == client;
      if removed {
        clients := clients - {client.userID};
      }
      assert State() == after;
    }

    method Join(client: Client, room: string) returns (ok: bool)
      requires Valid() && client.hub == this
      modifies this
      ensures Valid() && clients == old(clients)
      ensures ok <==> && authorizer.mayJoin(client.userID, room)
                      && !JoinRefused(old(State()), client.connectionID, room, maxRoomsPerClient)
      ensures State() == if ok then Joined(old(State()), client.connectionID, client, room) else old(State())
    {
      var conn := client.connectionID;
      if !authorizer.mayJoin(client.userID, room) {
        return false;
      }
      if conn in clientRooms && room !in clientRooms[conn]
         && maxRoomsPerClient > 0 && |clientRooms[conn]| >= maxRoomsPerClient {
        return false;
      }
      ghost var after := Joined(State(), conn, client, room);
      JoinKeepsSound(State(), this, maxRoomsPerClient, client, room);
      var members: map<string, Client> := if room in rooms then rooms[room] else map[];
      rooms := rooms[room := members[conn := client]];
      var held: set<string> := if conn in clientRooms then clientRooms[conn] else {};
      clientRooms := clientRooms[conn := held + {room}];
      assert State() == after;
      return true;
    }

    method Leave(client: Client, room: string)
      requires Valid() && client.hub == this
      modifies this
      ensures Valid() && State() == Left(old(State()), client.connectionID, room)
    {
      var conn := client.connectionID;
      ghost var after := Left(State(), conn, room);
      LeaveKeepsSound(State(), this, maxRoomsPerClient, client, room);
      if conn in clientRooms {
        var held := clientRooms[conn] - {room};
        clientRooms := if held == {} then clientRooms - {conn} else clientRooms[conn := held];
      }
      rooms := DropMember(rooms, room, conn);
      assert State() == after;
    }

    method AuthorizeBroadcast(client: Client, room: string) returns (ok: bool)
      ensures ok <==> InRoom(State(), room, client.connectionID) || authorizer.mayPublish(client.userID, room)
    {
      if room in rooms && client.connectionID in rooms[room] {
        return true;
      }
      return authorizer.mayPublish(client.userID, room);
    }

    ghost function Recipients(senderID: string, room: string): set<Client>
      reads this
    {
      RecipientsIn(State(), senderID, room)
    }

    /** Collects the recipients in whatever order the map yields them. */
    method SnapshotRoom(senderID: string, room: string) returns (recipients: seq<Client>)
      requires Valid()
      ensures forall c :: c in recipients <==> c in Recipients(senderID, room)
      ensures forall c :: c in recipients <==>
                c.userID != senderID && room in rooms && exists conn :: conn in rooms[room] && rooms[room][conn] == c
      ensures forall i, j :: 0 <= i < j < |recipients| ==> recipients[i] != recipients[j]
      ensures forall i :: 0 <= i < |recipients| ==> !fresh(recipients[i])
    {
      recipients := [];
      if room in rooms {
        var members := rooms[room];
        var pending := members.Keys;
        while pending != {}
          invariant pending <= members.Keys
          invariant forall c :: c in recipients <==>
                      exists conn :: conn in members && conn !in pending && members[conn] == c && c.userID != senderID
          invariant forall i, j :: 0 <= i < j < |recipients| ==> recipients[i] != recipients[j]
        {
          var conn :| conn in pending;
          pending := pending - {conn};
          if members[conn].userID != senderID {
            recipients := recipients + [members[conn]];
          }
        }
      }
    }

    /** Sends one event to each recipient. A full recipient is closed on the
        spot, which rewrites the hub's maps in the middle of the loop. */
    method Deliver(recipients: seq<Client>, event: Outbound)
      requires Valid()
      requires forall c :: c in recipients ==> c.hub == this
      requires forall i, j :: 0 <= i < j < |recipients| ==> recipients[i] != recipients[j]
      modifies this, (set c | c in recipients)`queue, (set c | c in recipients)`closed
      ensures Valid()
      ensures forall c :: c in recipients ==> c.Served(event)
      ensures var full := old(FullOf(set c | c in recipients));
              State() == Evicted(old(State()), full, ConnectionsOf(full))
    {
      ghost var gone: set<Client> := {};
      assert ConnectionsOf(gone) == {};
      EvictNone(State());
      for i := 0 to |recipients|
        invariant Valid()
        invariant forall c :: c in gone <==> c in recipients[..i] && old(c.Full())
        invariant State() == Evicted(old(State()), gone, ConnectionsOf(gone))
        invariant forall j :: i <= j < |recipients| ==>
                    recipients[j].queue == old(recipients[j].queue) && recipients[j].closed == old(recipients[j].closed)
        invariant forall j :: 0 <= j < i ==> recipients[j].Served(event)
      {
        var c := recipients[i];
        assert recipients[..i + 1] == recipients[..i] + [c];
        EvictOneMore(old(State()), gone, ConnectionsOf(gone), c.connectionID, c.userID, c);
        assert ConnectionsOf(gone + {c}) == ConnectionsOf(gone) + {c.connectionID};
        label sending:
        var _ := c.Send(event);
        forall j | 0 <= j < |recipients| && j != i
          ensures recipients[j].queue == old@sending(recipients[j].queue)
          ensures recipients[j].closed == old@sending(recipients[j].closed)
        {
          assert recipients[j] != c;
        }
        assert c.Served(event);
        if old(c.Full()) {
          gone := gone + {c};
        }
      }
      assert recipients[..|recipients|] == recipients;
      assert gone == old(FullOf(set c | c in recipients));
    }

    /** A local broadcast has one outcome whatever the iteration order of the
        room map: recipients with space gain the event, full ones are closed
        and vanish from registry and rooms, all others are unchanged. */
    method LocalBroadcast(senderID: string, room: string, payload: RawPayload) returns (ghost full: set<Client>)
      requires Valid()
      modifies this, Recipients(senderID, room)`queue, Recipients(senderID, room)`closed
      ensures Valid()
      ensures forall c :: c in old(Recipients(senderID, room)) ==> c.Served(RoomEvent(room, senderID, payload))
      ensures full == old(FullOf(Recipients(senderID, room)))
      ensures State() == Evicted(old(State()), full, ConnectionsOf(full))
    {
      var recipients := SnapshotRoom(senderID, room);
      ghost var targets := Recipients(senderID, room);
      assert targets == set c | c in recipients;
      full := FullOf(targets);
      Deliver(recipients, RoomEvent(room, senderID, payload));
    }

    /** A local broadcast, and the event for the other nodes if there is a broker;
        whether the broker takes it does not matter to the caller. */
    method Broadcast(senderID: string, room: string, payload: RawPayload, hasBroker: bool)
      returns (out: Option<Outgoing>, ghost full: set<Client>)
      requires Valid()
      modifies this, Recipients(senderID, room)`queue, Recipients(senderID, room)`closed
      ensures Valid()
      ensures forall c :: c in old(Recipients(senderID, room)) ==> c.Served(RoomEvent(room, senderID, payload))
      ensures full == old(FullOf(Recipients(senderID, room)))
      ensures State() == Evicted(old(State()), full, ConnectionsOf(full))
      ensures out == if !hasBroker then None
                     else Some(Outgoing("blockforge.rooms." + room,
                                        BrokerEvent(nodeID, "room_broadcast", room, "", senderID, payload)))
    {
      full := LocalBroadcast(senderID, room, payload);
      out := None;
      if hasBroker {
        out := Some(Outgoing(RoomSubject(room), BrokerEvent(nodeID, "room_broadcast", room, "", senderID, payload)));
      }
    }

    /** After a successful publication the caller hears no error, whatever
        happened locally; otherwise a registered recipient decides. */
    method SendPrivate(senderID: string, recipientID: string, payload: RawPayload, publication: Publication)
      returns (err: Option<SendError>, out: Option<Outgoing>)
      requires Valid()
      modifies this
      modifies (if recipientID in clients then {clients[recipientID]} else {})`queue
      modifies (if recipientID in clients then {clients[recipientID]} else {})`closed
      ensures Valid()
      ensures recipientID in old(clients) ==>
                var r := old(clients[recipientID]);
                && r.Served(PrivateEvent(senderID, recipientID, payload))
                && State() == if old(r.Full()) then Unregistered(old(State()), r.connectionID, r.userID, r)
                              else old(State())
      ensures recipientID !in old(clients) ==> State() == old(State())
      ensures err == if publication.Published? then None
                     else if recipientID in old(clients) then
                       (if old(clients[recipientID]).closed then Some(RecipientIsOverloaded) else None)
                     else Some(if publication.NoBroker? then RecipientIsOffline else BrokerError)
      ensures out == if publication.NoBroker? then None
                     else Some(Outgoing("blockforge.users." + recipientID,
                                        BrokerEvent(nodeID, "private_send", "", recipientID, senderID, payload)))
    {
      var registered := recipientID in clients;
      var localErr: Option<SendError> := None;
      out := None;
      if registered {
        var ok := clients[recipientID].Send(PrivateEvent(senderID, recipientID, payload));
        if !ok {
          localErr := Some(RecipientIsOverloaded);
        }
      }
      if !publication.NoBroker? {
        out := Some(Outgoing(UserSubject(recipientID),
                             BrokerEvent(nodeID, "private_send", "", recipientID, senderID, payload)));
        if publication.PublishFailed? {
          err := if registered then localErr else Some(BrokerError);
          return;
        }
        err := None;
        return;
      }
      err := if registered then localErr else Some(RecipientIsOffline);
    }

    /** The delivery of a private event that came from another node. */
    method LocalSendPrivate(senderID: string, recipientID: string, payload: RawPayload)
      requires Valid()
      modifies this
      modifies (if recipientID in clients then {clients[recipientID]} else {})`queue
      modifies (if recipientID in clients then {clients[recipientID]} else {})`closed
      ensures Valid()
      ensures recipientID in old(clients) ==>
                var r := old(clients[recipientID]);
                && r.Served(PrivateEvent(senderID, recipientID, payload))
                && State() == if old(r.Full()) then Unregistered(old(State()), r.connectionID, r.userID, r)
                              else old(State())
      ensures recipientID !in old(clients) ==> State() == old(State())
    {
      if recipientID in clients {
        var _ := clients[recipientID].Send(PrivateEvent(senderID, recipientID, payload));
      }
    }

    /** Whom an event from the broker is for: nobody if this hub published it. */
    ghost function Addressees(e: BrokerEvent): set<Client>
      reads this
    {
      if nodeID != "" && e.nodeID == nodeID then {}
      else if e.kind == "room_broadcast" then Recipients(e.senderID, e.roomID)
      else if e.kind == "private_send" && e.recipientID in clients then {clients[e.recipientID]}
      else {}
    }

    /** Drops its own echo and unknown kinds; otherwise serves the local
        addressees once, with the message that the event carries. */
    method HandleBrokerEvent(e: BrokerEvent)
      requires Valid()
      modifies this, Addressees(e)`queue, Addressees(e)`closed
      ensures Valid()
      ensures nodeID != "" && e.nodeID == nodeID ==> State() == old(State())
      ensures (nodeID == "" || e.nodeID != nodeID) && e.kind == "room_broadcast" ==>
                forall c :: c in old(Recipients(e.senderID, e.roomID)) ==>
                  c.Served(RoomEvent(e.roomID, e.senderID, e.payload))
      ensures (nodeID == "" || e.nodeID != nodeID) && e.kind == "private_send" && e.recipientID in old(clients) ==>
                old(clients[e.recipientID]).Served(PrivateEvent(e.senderID, e.recipientID, e.payload))
      ensures var full := old(FullOf(Addressees(e)));
              State() == Evicted(old(State()), full, ConnectionsOf(full))
    {
      ghost var full := FullOf(Addressees(e));
      NobodyEvicted(State());
      if nodeID != "" && e.nodeID == nodeID {
        return;
      }
      if e.kind == "room_broadcast" {
        ghost var gone := LocalBroadcast(e.senderID, e.roomID, e.payload);
      } else if e.kind == "private_send" {
        if e.recipientID in clients {
          OneEvicted(State(), this, clients[e.recipientID]);
          assert full == if clients[e.recipientID].Full() then {clients[e.recipientID]} else {};
        }
        LocalSendPrivate(e.senderID, e.recipientID, e.payload);
      }
    }

    /** At any other node, the event that a broadcast or a private send announces
        is for the members of the room whose user is not the sender, or for the
        recipient's session there; at the node that announced it, for nobody. */
    lemma AnnouncementIsUnderstood(sender: Client, m: InboundMessage)
      requires m.kind == ROOM_BROADCAST || m.kind == PRIVATE_SEND
      ensures sender.Announcement(m).Some?
      ensures var e := sender.Announcement(m).value.event;
              Addressees(e) ==
                if nodeID != "" && sender.hub.nodeID == nodeID then {}
                else if m.kind == ROOM_BROADCAST then Recipients(sender.userID, m.roomID)
                else if m.recipientID in clients then {clients[m.recipientID]} else {}
    {}

    /** The registered sessions, each once, in whatever order the map yields. */
    method Snapshot() returns (sessions: seq<Client>)
      requires Valid()
      ensures forall c :: c in sessions <==> c in clients.Values
      ensures forall i, j :: 0 <= i < j < |sessions| ==> sessions[i] != sessions[j]
      ensures forall i :: 0 <= i < |sessions| ==> !fresh(sessions[i])
    {
      sessions := [];
      var pending := clients.Keys;
      while pending != {}
        invariant pending <= clients.Keys
        invariant forall c :: c in sessions <==>
                    exists user :: user in clients && user !in pending && clients[user] == c
        invariant forall i, j :: 0 <= i < j < |sessions| ==> sessions[i] != sessions[j]
      {
        var user :| user in pending;
        assert forall u :: u in clients && clients[u] == clients[user] ==> u == user;
        assert clients[user] !in sessions;
        pending := pending - {user};
        sessions := sessions + [clients[user]];
      }
    }

    method BroadcastDraining()
      requires Valid()
      modifies this, clients.Values`queue, clients.Values`closed
      ensures Valid()
      ensures forall c :: c in old(clients.Values) ==> c.Served(ServerDraining)
      ensures var full := old(FullOf(clients.Values));
              State() == Evicted(old(State()), full, ConnectionsOf(full))
    {
      ghost var registered := clients.Values;
      var sessions := Snapshot();
      assert registered == set c | c in sessions;
      Deliver(sessions, ServerDraining);
    }

    /** Closes one session after the other, each of which rewrites the maps. */
    method CloseEach(sessions: seq<Client>)
      requires Valid()
      requires forall c :: c in sessions ==> c.hub == this
      requires forall i, j :: 0 <= i < j < |sessions| ==> sessions[i] != sessions[j]
      modifies this, (set c | c in sessions)`closed
      ensures Valid()
      ensures forall c :: c in sessions ==> c.closed
      ensures var open := old(OpenOf(set c | c in sessions));
              State() == Evicted(old(State()), open, ConnectionsOf(open))
    {
      ghost var gone: set<Client> := {};
      assert ConnectionsOf(gone) == {};
      EvictNone(State());
      for i := 0 to |sessions|
        invariant Valid()
        invariant forall c :: c in gone <==> c in sessions[..i] && !old(c.closed)
        invariant State() == Evicted(old(State()), gone, ConnectionsOf(gone))
        invariant forall j :: i <= j < |sessions| ==> sessions[j].closed == old(sessions[j].closed)
        invariant forall j :: 0 <= j < i ==> sessions[j].closed
      {
        var c := sessions[i];
        assert sessions[..i + 1] == sessions[..i] + [c];
        EvictOneMore(old(State()), gone, ConnectionsOf(gone), c.connectionID, c.userID, c);
        assert ConnectionsOf(gone + {c}) == ConnectionsOf(gone) + {c.connectionID};
        c.Close();
        if !old(c.closed) {
          gone := gone + {c};
        }
      }
      assert sessions[..|sessions|] == sessions;
      assert gone == old(OpenOf(set c | c in sessions));
    }

    /** Closes every registered session; the registry keeps only those that had
        been closed before without being unregistered. */
    method CloseAll()
      requires Valid()
      modifies this, clients.Values`closed
      ensures Valid()
      ensures forall c :: c in old(clients.Values) ==> c.closed
      ensures var open := old(OpenOf(clients.Values));
              State() == Evicted(old(State()), open, ConnectionsOf(open))
    {
      ghost var registered := clients.Values;
      var sessions := Snapshot();
      assert registered == set c | c in sessions;
      CloseEach(sessions);
    }
  }

  class Metrics {
    var join: nat
    var leave: nat
    var broadcast: nat
    var private: nat
    var unknown: nat
    var success: nat
    var error: nat

    constructor ()
      ensures TypeTotal() == 0 && ResultTotal() == 0
    {
      join, leave, broadcast, private, unknown := 0, 0, 0, 0, 0;
      success, error := 0, 0;
    }

    /** Exactly one type counter grew by one: the one for `kind`. */
    twostate predicate TypeCounted(kind: string)
      reads this
    {
      && join == old(join) + (if kind == ROOM_JOIN then 1 else 0)
      && leave == old(leave) + (if kind == ROOM_LEAVE then 1 else 0)
      && broadcast == old(broadcast) + (if kind == ROOM_BROADCAST then 1 else 0)
      && private == old(private) + (if kind == PRIVATE_SEND then 1 else 0)
      && unknown == old(unknown) + (if Known(kind) then 0 else 1)
    }

    twostate predicate ResultCounted(ok: bool)
      reads this
    {
      success == old(success) + (if ok then 1 else 0) && error == old(error) + (if ok then 0 else 1)
    }

    twostate predicate Recorded(kind: string, ok: bool)
      reads this
    {
      && TypeCounted(kind) && ResultCounted(ok)
      && TypeTotal() == old(TypeTotal()) + 1 && ResultTotal() == old(ResultTotal()) + 1
    }

    method IncrementInboundType(kind: string)
      modifies this
      ensures TypeCounted(kind) && success == old(success) && error == old(error)
    {
      if kind == ROOM_JOIN {
        join := join + 1;
      } else if kind == ROOM_LEAVE {
        leave := leave + 1;
      } else if kind == ROOM_BROADCAST {
        broadcast := broadcast + 1;
      } else if kind == PRIVATE_SEND {
        private := private + 1;
      } else {
        unknown := unknown + 1;
      }
    }

    method IncrementInboundResult(ok: bool)
      modifies this`success, this`error
      ensures ResultCounted(ok)
    {
      if ok {
        success := success + 1;
      } else {
        error := error + 1;
      }
    }

    /** What is recorded when a frame has been answered. */
    method RecordInbound(kind: string, ok: bool)
      modifies this
      ensures Recorded(kind, ok)
    {
      IncrementInboundType(kind);
      IncrementInboundResult(ok);
    }

    ghost function TypeTotal(): nat
      reads this
    {
      join + leave + broadcast + private + unknown
    }

    ghost function ResultTotal(): nat
      reads this
    {
      success + error
    }
  }
}
