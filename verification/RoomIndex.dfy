/** The state that the hub's mutex protects, and the effect of each of its
    critical sections. `C` is whatever stands for a session: an object in the
    sequential model, a plain value in the step systems. */
module RoomIndex {

  datatype HubState<C> = HubState(
    clients: map<string, C>,             // user -> active session
    rooms: map<string, map<string, C>>,  // room -> connection -> session
    clientRooms: map<string, set<string>> // connection -> rooms
  )

  function EmptyHub<C>(): HubState<C> {
    HubState(map[], map[], map[])
  }

  // ---------- The relation the two room maps stand for ----------

  predicate InRoom<C>(h: HubState<C>, room: string, conn: string) {
    room in h.rooms && conn in h.rooms[room]
  }

  predicate InIndex<C>(h: HubState<C>, room: string, conn: string) {
    conn in h.clientRooms && room in h.clientRooms[conn]
  }

  function Relation<C>(h: HubState<C>): set<(string, string)> {
    set room, conn | room in h.rooms && conn in h.rooms[room] :: (room, conn)
  }

  /** Both maps hold one relation, and neither holds an empty inner map. */
  ghost predicate Consistent<C>(h: HubState<C>) {
    && (forall room, conn :: InRoom(h, room, conn) <==> InIndex(h, room, conn))
    && (forall room :: room in h.rooms ==> h.rooms[room] != map[])
    && (forall conn :: conn in h.clientRooms ==> h.clientRooms[conn] != {})
  }

  /** No connection holds more than `cap` rooms; a cap of zero or less is no cap. */
  ghost predicate WithinCap<C>(h: HubState<C>, cap: int) {
    cap > 0 ==> forall conn :: conn in h.clientRooms ==> |h.clientRooms[conn]| <= cap
  }

  // ---------- Critical sections ----------

  function Registered<C>(h: HubState<C>, user: string, c: C): HubState<C> {
    h.(clients := h.clients[user := c])
  }

  predicate JoinRefused<C>(h: HubState<C>, conn: string, room: string, cap: int) {
    conn in h.clientRooms && room !in h.clientRooms[conn] && cap > 0 && |h.clientRooms[conn]| >= cap
  }

  function Joined<C>(h: HubState<C>, conn: string, c: C, room: string): HubState<C> {
    var members := if room in h.rooms then h.rooms[room] else map[];
    var held := if conn in h.clientRooms then h.clientRooms[conn] else {};
    h.(rooms := h.rooms[room := members[conn := c]],
       clientRooms := h.clientRooms[conn := held + {room}])
  }

  /** Deleting the last entry of an inner map deletes the inner map. */
  function DropMember<C>(rooms: map<string, map<string, C>>, room: string, conn: string): map<string, map<string, C>> {
    if room !in rooms then rooms
    else if rooms[room] - {conn} == map[] then rooms - {room}
    else rooms[room := rooms[room] - {conn}]
  }

  function Left<C>(h: HubState<C>, conn: string, room: string): HubState<C> {
    h.(rooms := DropMember(h.rooms, room, conn),
       clientRooms :=
         if conn !in h.clientRooms then h.clientRooms
         else if h.clientRooms[conn] - {room} == {} then h.clientRooms - {conn}
         else h.clientRooms[conn := h.clientRooms[conn] - {room}])
  }

  /** The rooms map after deleting `conn` from every room in `held`. */
  function DropFrom<C>(rooms: map<string, map<string, C>>, held: set<string>, conn: string)
    : map<string, map<string, C>>
  {
    map room | room in rooms && !(room in held && rooms[room] - {conn} == map[]) ::
      if room in held then rooms[room] - {conn} else rooms[room]
  }

  /** Unregister walks only the rooms that the index lists for `conn`. */
  function Unregistered<C(==)>(h: HubState<C>, conn: string, user: string, c: C): HubState<C> {
    HubState(
      if user in h.clients && h.clients[user] == c then h.clients - {user} else h.clients,
      if conn in h.clientRooms then DropFrom(h.rooms, h.clientRooms[conn], conn) else h.rooms,
      h.clientRooms - {conn})
  }

  /** The same cleanup done without an index, by scanning every room. */
  function ScanAllRooms<C>(rooms: map<string, map<string, C>>, conn: string): map<string, map<string, C>> {
    map room | room in rooms && rooms[room] - {conn} != map[] :: rooms[room] - {conn}
  }

  // ---------- Every critical section refines a plain set operation ----------

  lemma JoinRefinesInsert<C>(h: HubState<C>, conn: string, c: C, room: string, cap: int)
    requires Consistent(h)
    ensures Consistent(Joined(h, conn, c, room))
    ensures Relation(Joined(h, conn, c, room)) == Relation(h) + {(room, conn)}
    ensures WithinCap(h, cap) && !JoinRefused(h, conn, room, cap) ==> WithinCap(Joined(h, conn, c, room), cap)
    ensures InRoom(h, room, conn) ==> !JoinRefused(h, conn, room, cap)
  {
    var h' := Joined(h, conn, c, room);
    assert conn in h'.rooms[room] && room in h'.clientRooms[conn];
    forall r, k ensures InRoom(h', r, k) <==> InIndex(h', r, k) {
      assert InRoom(h, r, k) <==> InIndex(h, r, k);
    }
    forall r, k ensures InRoom(h', r, k) <==> InRoom(h, r, k) || (r, k) == (room, conn) {}
    assert InRoom(h, room, conn) <==> InIndex(h, room, conn);
  }

  /** The rooms that list `conn`, found without the index. */
  function RoomsListing<C>(h: HubState<C>, conn: string): set<string> {
    set room | room in h.rooms && conn in h.rooms[room]
  }

  /** A join is refused exactly if the connection is not in the room yet and is
      already in as many rooms as a positive cap allows. */
  lemma JoinRefusedAtCap<C>(h: HubState<C>, conn: string, room: string, cap: int)
    requires Consistent(h)
    ensures JoinRefused(h, conn, room, cap) <==>
            !InRoom(h, room, conn) && cap > 0 && |RoomsListing(h, conn)| >= cap
  {
    var held := if conn in h.clientRooms then h.clientRooms[conn] else {};
    forall r ensures r in held <==> r in RoomsListing(h, conn) {
      assert InRoom(h, r, conn) <==> InIndex(h, r, conn);
    }
    assert held == RoomsListing(h, conn);
    assert InRoom(h, room, conn) <==> InIndex(h, room, conn);
  }

  lemma LeaveRefinesDelete<C>(h: HubState<C>, conn: string, room: string, cap: int)
    requires Consistent(h)
    ensures Consistent(Left(h, conn, room))
    ensures Relation(Left(h, conn, room)) == Relation(h) - {(room, conn)}
    ensures WithinCap(h, cap) ==> WithinCap(Left(h, conn, room), cap)
  {
    var h' := Left(h, conn, room);
    forall r, k ensures InRoom(h', r, k) <==> InRoom(h, r, k) && (r, k) != (room, conn) {
      if InRoom(h, room, k) && k != conn {
        assert k in h.rooms[room] - {conn};
      }
    }
    forall r, k ensures InIndex(h', r, k) <==> InIndex(h, r, k) && (r, k) != (room, conn) {
      if InIndex(h, r, conn) && r != room {
        assert r in h.clientRooms[conn] - {room};
      }
    }
    if conn in h.clientRooms {
      SubsetSize(h.clientRooms[conn] - {room}, h.clientRooms[conn]);
    }
  }

  lemma UnregisterRefinesPurge<C>(h: HubState<C>, conn: string, user: string, c: C, cap: int)
    requires Consistent(h)
    ensures Consistent(Unregistered(h, conn, user, c))
    ensures Relation(Unregistered(h, conn, user, c)) == set p | p in Relation(h) && p.1 != conn
    ensures WithinCap(h, cap) ==> WithinCap(Unregistered(h, conn, user, c), cap)
    ensures Unregistered(h, conn, user, c).rooms == ScanAllRooms(h.rooms, conn)
  {
    UnregisterEqualsScan(h, conn, user, c);
    var h' := Unregistered(h, conn, user, c);
    forall r, k ensures InRoom(h', r, k) <==> InRoom(h, r, k) && k != conn {
      if InRoom(h, r, k) && k != conn {
        assert k in h.rooms[r] - {conn};
      }
    }
    forall r, k ensures InIndex(h', r, k) <==> InIndex(h, r, k) && k != conn {}
    forall p: (string, string) ensures p in Relation(h') <==> p in Relation(h) && p.1 != conn {
      assert p == (p.0, p.1);
      assert p in Relation(h') <==> InRoom(h', p.0, p.1);
      assert p in Relation(h) <==> InRoom(h, p.0, p.1);
    }
  }

  lemma UnregisterEqualsScan<C>(h: HubState<C>, conn: string, user: string, c: C)
    requires Consistent(h)
    ensures Unregistered(h, conn, user, c).rooms == ScanAllRooms(h.rooms, conn)
  {
    var held := if conn in h.clientRooms then h.clientRooms[conn] else {};
    forall room | room in h.rooms
      ensures room in held <==> conn in h.rooms[room]
      ensures room !in held ==> h.rooms[room] - {conn} == h.rooms[room]
    {
      assert InRoom(h, room, conn) <==> InIndex(h, room, conn);
    }
  }

  lemma RegisterKeepsRelation<C>(h: HubState<C>, user: string, c: C)
    requires Consistent(h)
    ensures Consistent(Registered(h, user, c))
    ensures Relation(Registered(h, user, c)) == Relation(h)
  {
    var h' := Registered(h, user, c);
    forall r, k
      ensures InRoom(h', r, k) <==> InRoom(h, r, k)
      ensures InIndex(h', r, k) <==> InIndex(h, r, k)
    {}
  }

  /** Deleting room by room, in any order, reaches the state that deletes all. */
  lemma DropOneMore<C>(rooms: map<string, map<string, C>>, done: set<string>, room: string, conn: string)
    requires room !in done
    ensures DropMember(DropFrom(rooms, done, conn), room, conn) == DropFrom(rooms, done + {room}, conn)
  {}

  /** Every entry of `g`'s rooms is an entry of `h`'s. */
  ghost predicate EntriesFrom<C>(g: HubState<C>, h: HubState<C>) {
    forall room, conn :: room in g.rooms && conn in g.rooms[room] ==>
      room in h.rooms && conn in h.rooms[room] && g.rooms[room][conn] == h.rooms[room][conn]
  }

  lemma UnregisterAddsNothing<C>(h: HubState<C>, conn: string, user: string, c: C)
    ensures EntriesFrom(Unregistered(h, conn, user, c), h)
  {}

  /** The reverse index is a function of the relation: two consistent hubs with
      one relation have the same index and the same rooms. */
  lemma RelationDeterminesIndex<C>(g: HubState<C>, h: HubState<C>)
    requires Consistent(g) && Consistent(h)
    requires Relation(g) == Relation(h)
    ensures g.clientRooms == h.clientRooms
    ensures g.rooms.Keys == h.rooms.Keys
    ensures forall room :: room in g.rooms ==> g.rooms[room].Keys == h.rooms[room].Keys
  {
    forall r, k ensures InRoom(g, r, k) <==> InRoom(h, r, k) {
      assert InRoom(g, r, k) <==> (r, k) in Relation(g);
      assert InRoom(h, r, k) <==> (r, k) in Relation(h);
    }
    SameDomain(g, h);
    SameDomain(h, g);
    forall conn | conn in g.clientRooms ensures g.clientRooms[conn] == h.clientRooms[conn] {
      forall r ensures r in g.clientRooms[conn] <==> r in h.clientRooms[conn] {
        assert InIndex(g, r, conn) <==> InRoom(g, r, conn);
        assert InIndex(h, r, conn) <==> InRoom(h, r, conn);
      }
    }
    forall room | room in g.rooms ensures g.rooms[room].Keys == h.rooms[room].Keys {
      forall k ensures k in g.rooms[room] <==> k in h.rooms[room] {
        assert InRoom(g, room, k) <==> InRoom(h, room, k);
      }
    }
  }

  lemma SameDomain<C>(g: HubState<C>, h: HubState<C>)
    requires Consistent(g) && Consistent(h)
    requires forall r, k :: InRoom(g, r, k) <==> InRoom(h, r, k)
    ensures g.clientRooms.Keys <= h.clientRooms.Keys
    ensures g.rooms.Keys <= h.rooms.Keys
  {
    forall conn | conn in g.clientRooms ensures conn in h.clientRooms {
      var r :| r in g.clientRooms[conn];
      assert InIndex(g, r, conn) && InRoom(g, r, conn) && InRoom(h, r, conn);
    }
    forall room | room in g.rooms ensures room in h.rooms {
      var k :| k in g.rooms[room];
      assert InRoom(g, room, k);
    }
  }

  lemma SubsetSize<T>(a: set<T>, b: set<T>)
    requires a <= b
    ensures |a| <= |b|
  {
    assert b == a + (b - a);
  }

  // ---------- What each section does to one entry ----------

  predicate Entry<C(==)>(h: HubState<C>, room: string, conn: string, c: C) {
    InRoom(h, room, conn) && h.rooms[room][conn] == c
  }

  lemma JoinEntry<C>(h: HubState<C>, conn: string, c: C, room: string, r: string, k: string, x: C)
    ensures Entry(Joined(h, conn, c, room), r, k, x) <==> if (r, k) == (room, conn) then x == c else Entry(h, r, k, x)
  {}

  lemma LeaveEntry<C>(h: HubState<C>, conn: string, room: string, r: string, k: string, x: C)
    ensures Entry(Left(h, conn, room), r, k, x) <==> Entry(h, r, k, x) && (r, k) != (room, conn)
  {
    if Entry(h, room, k, x) && k != conn {
      assert k in h.rooms[room] - {conn};
    }
  }

  lemma UnregisterEntry<C>(h: HubState<C>, conn: string, user: string, c: C, r: string, k: string, x: C)
    requires Consistent(h)
    ensures Entry(Unregistered(h, conn, user, c), r, k, x) <==> Entry(h, r, k, x) && k != conn
  {
    UnregisterEqualsScan(h, conn, user, c);
    if Entry(h, r, k, x) && k != conn {
      assert k in h.rooms[r] - {conn};
    }
  }

  // ---------- Closing many sessions at once ----------

  /** The hub without the sessions in `gone`, whose connections are `conns`. */
  function Evicted<C(==)>(h: HubState<C>, gone: set<C>, conns: set<string>): HubState<C> {
    HubState(
      map user | user in h.clients && h.clients[user] !in gone :: h.clients[user],
      map room | room in h.rooms && h.rooms[room] - conns != map[] :: h.rooms[room] - conns,
      h.clientRooms - conns)
  }

  lemma EvictNone<C>(h: HubState<C>)
    requires Consistent(h)
    ensures Evicted(h, {}, {}) == h
  {
    forall room | room in h.rooms ensures h.rooms[room] - {} == h.rooms[room] {}
    assert Evicted(h, {}, {}).rooms == h.rooms;
  }

  /** One more Unregister is one more element of the evicted set, so the order
      in which a set of sessions unregisters cannot matter. */
  lemma EvictOneMore<C>(h: HubState<C>, gone: set<C>, conns: set<string>, conn: string, user: string, c: C)
    requires Consistent(h)
    requires forall u :: u in h.clients && h.clients[u] == c ==> u == user
    ensures Consistent(Evicted(h, gone, conns))
    ensures Unregistered(Evicted(h, gone, conns), conn, user, c) == Evicted(h, gone + {c}, conns + {conn})
  {
    var e := Evicted(h, gone, conns);
    EvictConsistent(h, gone, conns);
    UnregisterEqualsScan(e, conn, user, c);
    ScanAfterEvict(h, gone, conns, conn);
    var all := Evicted(h, gone + {c}, conns + {conn});
    assert Unregistered(e, conn, user, c).clientRooms == all.clientRooms;
    assert Unregistered(e, conn, user, c).clients == all.clients;
  }

  lemma ScanAfterEvict<C>(h: HubState<C>, gone: set<C>, conns: set<string>, conn: string)
    ensures ScanAllRooms(Evicted(h, gone, conns).rooms, conn) == Evicted(h, gone, conns + {conn}).rooms
  {
    forall room | room in h.rooms
      ensures h.rooms[room] - (conns + {conn}) == (h.rooms[room] - conns) - {conn}
      ensures h.rooms[room] - conns == map[] ==> h.rooms[room] - (conns + {conn}) == map[]
    {
      MapMinusTwice(h.rooms[room], conns, conn);
    }
  }

  lemma MapMinusTwice<C>(m: map<string, C>, conns: set<string>, conn: string)
    ensures m - (conns + {conn}) == (m - conns) - {conn}
    ensures m - conns == map[] ==> m - (conns + {conn}) == map[]
  {
    assert (m - conns).Keys - {conn} == (m - (conns + {conn})).Keys;
  }

  lemma EvictConsistent<C>(h: HubState<C>, gone: set<C>, conns: set<string>)
    requires Consistent(h)
    ensures Consistent(Evicted(h, gone, conns))
  {
    var e := Evicted(h, gone, conns);
    forall r, k ensures InRoom(e, r, k) <==> InRoom(h, r, k) && k !in conns {
      if InRoom(h, r, k) && k !in conns {
        assert k in h.rooms[r] - conns;
      }
    }
  }
}
