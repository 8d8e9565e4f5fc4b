/**
 * The room registry that socket.io keeps for the server and that the service
 * drives through `socket.join` and `io.to(room).emit`: named rooms holding
 * connection ids, the packets each connection has been sent, and the list of
 * connected sockets that `io.fetchSockets()` reports.
 */
module Rooms {
  import opened Js

  type ConnId = string

  type RoomMap = map<string, set<ConnId>>

  /** One emitted message: an event name and its payload. */
  datatype Packet = Packet(event: Json, data: Json)

  /** What `fetchSockets()` exposes of a connected socket. */
  datatype SocketInfo = SocketInfo(id: ConnId, userId: Json, isGuest: bool)

  /** The members of a room; a room nobody joined has none. */
  function Members(rooms: RoomMap, room: string): set<ConnId>
  {
    if room in rooms then rooms[room] else {}
  }

  /** The rooms `c` is a member of. */
  function RoomsOf(rooms: RoomMap, c: ConnId): set<string>
  {
    set q | q in rooms && c in rooms[q]
  }

  /** The registry after `c` joins `room`: a set insertion. */
  function WithMember(rooms: RoomMap, room: string, c: ConnId): (r: RoomMap)
    ensures r.Keys == rooms.Keys + {room}
  {
    rooms[room := Members(rooms, room) + {c}]
  }

  /** The registry after `c` joins each of `names` in turn. */
  function JoinAll(rooms: RoomMap, c: ConnId, names: seq<string>): (r: RoomMap)
    ensures r.Keys == rooms.Keys + set n | n in names
    decreases |names|
  {
    if |names| == 0 then rooms
    else
      assert (set n | n in names) == {names[0]} + set n | n in names[1..];
      JoinAll(WithMember(rooms, names[0], c), c, names[1..])
  }

  /** Joining a room one is already in changes nothing. */
  lemma JoinIdempotent(rooms: RoomMap, room: string, c: ConnId)
    ensures WithMember(WithMember(rooms, room, c), room, c) == WithMember(rooms, room, c)
  {
  }

  /** A join makes `c` a member of `room` and changes no other membership. */
  lemma JoinMembership(rooms: RoomMap, room: string, c: ConnId, d: ConnId, q: string)
    ensures d in Members(WithMember(rooms, room, c), q) <==> (d == c && q == room) || d in Members(rooms, q)
  {
  }

  /**
   * After a sequence of joins, `c` belongs to its old rooms plus exactly the
   * rooms named, and every other connection's rooms are unchanged.
   */
  lemma {:induction false} JoinAllRooms(rooms: RoomMap, c: ConnId, names: seq<string>)
    ensures RoomsOf(JoinAll(rooms, c, names), c) == RoomsOf(rooms, c) + set n | n in names
    ensures forall d :: d != c ==> RoomsOf(JoinAll(rooms, c, names), d) == RoomsOf(rooms, d)
    decreases |names|
  {
    if |names| > 0 {
      var next := WithMember(rooms, names[0], c);
      JoinAllRooms(next, c, names[1..]);
      JoinAddsRoom(rooms, names[0], c);
      assert (set n | n in names) == {names[0]} + set n | n in names[1..];
      forall d | d != c
        ensures RoomsOf(next, d) == RoomsOf(rooms, d)
      {
        JoinKeepsOthers(rooms, names[0], c, d);
      }
    }
  }

  /** One join adds exactly `room` to the rooms of `c`. */
  lemma JoinAddsRoom(rooms: RoomMap, room: string, c: ConnId)
    ensures RoomsOf(WithMember(rooms, room, c), c) == RoomsOf(rooms, c) + {room}
  {
  }

  /** One join by `c` leaves the rooms of every other connection as they were. */
  lemma JoinKeepsOthers(rooms: RoomMap, room: string, c: ConnId, d: ConnId)
    requires d != c
    ensures RoomsOf(WithMember(rooms, room, c), d) == RoomsOf(rooms, d)
  {
  }

  /** Repeating the same joins leaves the registry as the first time left it. */
  lemma {:induction false} JoinAllIdempotent(rooms: RoomMap, c: ConnId, names: seq<string>)
    ensures JoinAll(JoinAll(rooms, c, names), c, names) == JoinAll(rooms, c, names)
  {
    var once := JoinAll(rooms, c, names);
    JoinAllRooms(rooms, c, names);
    JoinAllKeepsMembers(rooms, c, names);
    JoinAllRejoin(once, c, names);
  }

  /** Joins only add: every existing membership survives them. */
  lemma {:induction false} JoinAllKeepsMembers(rooms: RoomMap, c: ConnId, names: seq<string>)
    ensures forall q :: q in rooms ==> q in JoinAll(rooms, c, names) && rooms[q] <= JoinAll(rooms, c, names)[q]
    ensures JoinAll(rooms, c, names).Keys == rooms.Keys + set n | n in names
    ensures forall q :: q in names ==> c in JoinAll(rooms, c, names)[q]
    decreases |names|
  {
    if |names| > 0 {
      var next := WithMember(rooms, names[0], c);
      JoinAllKeepsMembers(next, c, names[1..]);
      assert (set n | n in names) == {names[0]} + set n | n in names[1..];
    }
  }

  /** Joining rooms `c` is already a member of changes nothing. */
  lemma {:induction false} JoinAllRejoin(rooms: RoomMap, c: ConnId, names: seq<string>)
    requires forall q :: q in names ==> q in rooms && c in rooms[q]
    ensures JoinAll(rooms, c, names) == rooms
    decreases |names|
  {
    if |names| > 0 {
      var q := names[0];
      assert Members(rooms, q) + {c} == rooms[q];
      assert WithMember(rooms, q, c) == rooms;
      JoinAllRejoin(rooms, c, names[1..]);
    }
  }

  /** The outboxes after `p` is sent to every connection in `to`. */
  function Deliver(outbox: map<ConnId, seq<Packet>>, to: set<ConnId>, p: Packet): (r: map<ConnId, seq<Packet>>)
    ensures r.Keys == outbox.Keys
  {
    map c | c in outbox :: if c in to then outbox[c] + [p] else outbox[c]
  }

  /** The connections whose outbox grew between `before` and `after`. */
  function Recipients(before: map<ConnId, seq<Packet>>, after: map<ConnId, seq<Packet>>): set<ConnId>
  {
    set c | c in before && c in after && |after[c]| > |before[c]|
  }

  /**
   * A delivery reaches exactly the addressed connections that have an outbox,
   * appends exactly `p` to each of them and keeps every earlier packet.
   */
  lemma DeliverExactly(outbox: map<ConnId, seq<Packet>>, to: set<ConnId>, p: Packet)
    ensures Recipients(outbox, Deliver(outbox, to, p)) == to * outbox.Keys
    ensures forall c :: c in outbox ==> Deliver(outbox, to, p)[c][..|outbox[c]|] == outbox[c]
    ensures forall c :: c in outbox && c in to ==> Deliver(outbox, to, p)[c] == outbox[c] + [p]
    ensures forall c :: c in outbox && c !in to ==> Deliver(outbox, to, p)[c] == outbox[c]
  {
    var r := Deliver(outbox, to, p);
    forall c | c in outbox
      ensures r[c][..|outbox[c]|] == outbox[c]
    {
      if c in to {
        assert r[c][..|outbox[c]|] == (outbox[c] + [p])[..|outbox[c]|];
      }
    }
  }

  /** socket.io's server-side state for one namespace. */
  class Registry {
    var rooms: RoomMap
    var outbox: map<ConnId, seq<Packet>>
    var connected: seq<SocketInfo>

    /** Every room member is a connection with an outbox. */
    ghost predicate Valid()
      reads this
    {
      forall q :: q in rooms ==> rooms[q] <= outbox.Keys
    }

    /** A server with no connections and no rooms. */
    constructor ()
      ensures Valid()
      ensures rooms == map[] && outbox == map[] && connected == []
    {
      rooms := map[];
      outbox := map[];
      connected := [];
    }

    /** The library registers an admitted socket before its `connection` handler runs. */
    method Register(info: SocketInfo)
      requires Valid()
      modifies this
      ensures Valid()
      ensures connected == old(connected) + [info]
      ensures outbox == if info.id in old(outbox) then old(outbox) else old(outbox)[info.id := []]
      ensures rooms == old(rooms)
    {
      connected := connected + [info];
      if info.id !in outbox {
        outbox := outbox[info.id := []];
      }
    }

    /** `socket.join(room)` for the socket `c`. */
    method Join(c: ConnId, room: string)
      requires Valid()
      requires c in outbox
      modifies this
      ensures Valid()
      ensures rooms == WithMember(old(rooms), room, c)
      ensures outbox == old(outbox) && connected == old(connected)
    {
      rooms := WithMember(rooms, room, c);
    }

    /** `io.to(room).emit(event, data)`: one packet to each current member of `room`. */
    method Emit(room: string, p: Packet)
      requires Valid()
      modifies this
      ensures Valid()
      ensures outbox == Deliver(old(outbox), Members(old(rooms), room), p)
      ensures rooms == old(rooms) && connected == old(connected)
    {
      outbox := Deliver(outbox, Members(rooms, room), p);
    }
  }
}
