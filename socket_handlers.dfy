/**
 * Emission helpers and connection statistics (src/socket/handlers.js): the
 * nine event tags the relay knows, emission to the broadcast, per-user and
 * per-role rooms, and the counts reported by `getConnectedClients`.
 */
module SocketHandlers {
  import opened Js
  import opened Rooms

  const ProductCreated: string := "product:created"
  const ProductUpdated: string := "product:updated"
  const ProductDeleted: string := "product:deleted"
  const StockUpdated: string := "stock:updated"
  const OrderCreated: string := "order:created"
  const OrderUpdated: string := "order:updated"
  const CategoryCreated: string := "category:created"
  const CategoryUpdated: string := "category:updated"
  const CategoryDeleted: string := "category:deleted"

  /** `Object.values(SYNC_EVENTS)`, in declaration order. */
  const SyncEvents: seq<string> := [
    ProductCreated, ProductUpdated, ProductDeleted, StockUpdated,
    OrderCreated, OrderUpdated,
    CategoryCreated, CategoryUpdated, CategoryDeleted
  ]

  const BroadcastRoom: string := "broadcast"

  /** The nine tags are pairwise distinct. */
  lemma SyncEventsDistinct()
    ensures |SyncEvents| == 9
    ensures forall i, j :: 0 <= i < j < |SyncEvents| ==> SyncEvents[i] != SyncEvents[j]
  {
  }

  function UserRoom(userId: Json): string
  {
    "user:" + Display(userId)
  }

  function RoleRoom(role: Json): string
  {
    "role:" + Display(role)
  }

  /** The client count `broadcastEvent` logs: the size of room `broadcast`, 0 if it does not exist. */
  function ClientCount(rooms: RoomMap): nat
  {
    if BroadcastRoom in rooms then |rooms[BroadcastRoom]| else 0
  }

  /** The logged count is the number of connections a broadcast then reaches. */
  lemma ClientCountIsRecipients(rooms: RoomMap, outbox: map<ConnId, seq<Packet>>, p: Packet)
    requires forall q :: q in rooms ==> rooms[q] <= outbox.Keys
    ensures ClientCount(rooms) == |Recipients(outbox, Deliver(outbox, Members(rooms, BroadcastRoom), p))|
  {
    DeliverExactly(outbox, Members(rooms, BroadcastRoom), p);
    assert Members(rooms, BroadcastRoom) * outbox.Keys == Members(rooms, BroadcastRoom);
  }

  /**
   * `broadcastEvent(io, event, data)`: sends to every member of `broadcast`.
   * The source returns nothing; `clientCount` exposes the count it logs.
   */
  method BroadcastEvent(io: Registry, event: Json, data: Json) returns (clientCount: nat)
    requires io.Valid()
    modifies io
    ensures io.Valid()
    ensures clientCount == ClientCount(old(io.rooms))
    ensures io.outbox == Deliver(old(io.outbox), Members(old(io.rooms), BroadcastRoom), Packet(event, data))
    ensures io.rooms == old(io.rooms) && io.connected == old(io.connected)
  {
    clientCount := ClientCount(io.rooms);
    io.Emit(BroadcastRoom, Packet(event, data));
  }

  /** `sendToUser(io, userId, event, data)`: sends to the members of `user:<userId>`. */
  method SendToUser(io: Registry, userId: Json, event: Json, data: Json)
    requires io.Valid()
    modifies io
    ensures io.Valid()
    ensures io.outbox == Deliver(old(io.outbox), Members(old(io.rooms), UserRoom(userId)), Packet(event, data))
    ensures io.rooms == old(io.rooms) && io.connected == old(io.connected)
  {
    io.Emit(UserRoom(userId), Packet(event, data));
  }

  /** `sendToRole(io, role, event, data)`: sends to the members of `role:<role>`. */
  method SendToRole(io: Registry, role: Json, event: Json, data: Json)
    requires io.Valid()
    modifies io
    ensures io.Valid()
    ensures io.outbox == Deliver(old(io.outbox), Members(old(io.rooms), RoleRoom(role)), Packet(event, data))
    ensures io.rooms == old(io.rooms) && io.connected == old(io.connected)
  {
    io.Emit(RoleRoom(role), Packet(event, data));
  }

  predicate NoDuplicates(xs: seq<Json>)
  {
    forall i, j :: 0 <= i < j < |xs| ==> xs[i] != xs[j]
  }

  /** `[...new Set(xs)]`: each value once, in the order of its first occurrence. */
  function Dedup(xs: seq<Json>): (r: seq<Json>)
    ensures forall x :: x in r <==> x in xs
    ensures NoDuplicates(r)
    ensures |r| <= |xs|
  {
    if |xs| == 0 then []
    else
      var kept := Dedup(xs[..|xs| - 1]);
      var x := xs[|xs| - 1];
      assert forall y :: y in xs <==> y in xs[..|xs| - 1] || y == x by {
        assert xs == xs[..|xs| - 1] + [x];
      }
      if x in kept then kept else kept + [x]
  }

  /** The index of the first occurrence of `x` in `xs`. */
  function FirstIndex(xs: seq<Json>, x: Json): (k: nat)
    requires x in xs
    ensures k < |xs| && xs[k] == x
    ensures forall i :: 0 <= i < k ==> xs[i] != x
  {
    if xs[0] == x then 0 else 1 + FirstIndex(xs[1..], x)
  }

  lemma FirstIndexOfPrefix(xs: seq<Json>, n: nat, x: Json)
    requires n <= |xs|
    requires x in xs[..n]
    ensures x in xs && FirstIndex(xs, x) == FirstIndex(xs[..n], x)
  {
    var k := FirstIndex(xs[..n], x);
    var k' := FirstIndex(xs, x);
    assert xs[k] == x;
  }

  /** The deduplicated values keep the order of their first occurrences. */
  lemma {:induction false} DedupFirstOccurrenceOrder(xs: seq<Json>)
    ensures forall i, j :: 0 <= i < j < |Dedup(xs)| ==> FirstIndex(xs, Dedup(xs)[i]) < FirstIndex(xs, Dedup(xs)[j])
  {
    if |xs| > 0 {
      var n := |xs| - 1;
      var init := xs[..n];
      var kept := Dedup(init);
      var r := Dedup(xs);
      DedupFirstOccurrenceOrder(init);
      forall i, j | 0 <= i < j < |r|
        ensures FirstIndex(xs, r[i]) < FirstIndex(xs, r[j])
      {
        FirstIndexOfPrefix(xs, n, r[i]);
        if j < |kept| {
          FirstIndexOfPrefix(xs, n, r[j]);
        } else {
          assert r[j] == xs[n] && r[j] !in init;
          assert FirstIndex(xs, r[j]) == n;
        }
      }
    }
  }

  /** The result of `getConnectedClients`. */
  datatype ClientStats = ClientStats(total: nat, users: seq<Json>)

  function UserIds(sockets: seq<SocketInfo>): (ids: seq<Json>)
    ensures |ids| == |sockets|
  {
    seq(|sockets|, i requires 0 <= i < |sockets| => sockets[i].userId)
  }

  /**
   * `getConnectedClients` over the sockets `fetchSockets` returned: one count
   * per socket, and each user id once, however many sockets it holds.
   */
  function GetConnectedClients(sockets: seq<SocketInfo>): (r: ClientStats)
    ensures r.total == |sockets|
    ensures forall u :: u in r.users <==> exists s :: s in sockets && s.userId == u
    ensures NoDuplicates(r.users)
    ensures |r.users| <= r.total
  {
    var ids := UserIds(sockets);
    assert forall u :: u in ids <==> exists s :: s in sockets && s.userId == u by {
      forall u | u in ids ensures exists s :: s in sockets && s.userId == u {
        var i :| 0 <= i < |ids| && ids[i] == u;
        assert sockets[i] in sockets;
      }
      forall u | exists s :: s in sockets && s.userId == u ensures u in ids {
        var s :| s in sockets && s.userId == u;
        var i :| 0 <= i < |sockets| && sockets[i] == s;
        assert ids[i] == u;
      }
    }
    ClientStats(|sockets|, Dedup(ids))
  }

  /** A sequence without duplicates is as long as the set of its elements. */
  lemma {:induction false} DistinctLength(xs: seq<Json>)
    requires NoDuplicates(xs)
    ensures |set x | x in xs| == |xs|
  {
    if |xs| > 0 {
      var init := xs[..|xs| - 1];
      DistinctLength(init);
      assert (set x | x in xs) == (set x | x in init) + {xs[|xs| - 1]};
      assert xs[|xs| - 1] !in init;
    }
  }

  /**
   * The count of unique users is the number of distinct user ids among the
   * connected sockets.
   */
  lemma UniqueUsersCount(sockets: seq<SocketInfo>)
    ensures |GetConnectedClients(sockets).users| == |set s | s in sockets :: s.userId|
  {
    var users := GetConnectedClients(sockets).users;
    DistinctLength(users);
    assert (set x | x in users) == (set s | s in sockets :: s.userId);
  }
}
