/**
 * Connection admission (src/socket/auth.js): the handshake either admits a
 * guest, is refused for lacking a token, or has its token checked against
 * the backend's `/auth/me` endpoint. An admitted socket then joins its user
 * room, the broadcast room and, when it has one, its role room.
 */
module SocketAuth {
  import opened Wrappers
  import opened Js
  import opened Rooms
  import SocketHandlers

  /** `socket.handshake.auth.token` and `socket.handshake.auth.guest`. */
  datatype Handshake = Handshake(token: Json, guest: Json)

  /**
   * What the `fetch` of `/auth/me` produced: a non-2xx status, a parsed JSON
   * body, or an exception (network failure, malformed JSON).
   */
  datatype FetchOutcome = NotOk(status: int) | Ok(body: Json) | Threw(message: string)

  /**
   * `validateTokenWithLaravel`: `data.user || data` for a successful response,
   * `null` otherwise. Reading `.user` of a `null` body throws, and the catch
   * turns that into `null` too.
   */
  function ValidateToken(outcome: FetchOutcome): (user: Json)
    ensures !outcome.Ok? ==> user == Null
    ensures Truthy(user) ==> outcome.Ok? && (user == Get(outcome.body, "user") || user == outcome.body)
    ensures outcome.Ok? && Truthy(outcome.body) ==> Truthy(user)
    ensures outcome.Ok? && Nullish(outcome.body) ==> user == Null
    ensures outcome.Ok? && !Nullish(outcome.body) ==> user == Or(Get(outcome.body, "user"), outcome.body)
  {
    match outcome
    case NotOk(_) => Null
    case Threw(_) => Null
    case Ok(data) =>
      match Read(data, "user")
      case None => Null
      case Some(user) => Or(user, data)
  }

  /** The identity fields `authenticateSocket` attaches to an admitted socket. */
  datatype Identity = Identity(userId: Json, role: Json, email: Json, name: Json, isGuest: bool)

  /** The middleware's verdict: `next()` with an identity, or `next(new Error(reason))`. */
  datatype Admission = Admitted(who: Identity) | Refused(reason: string)

  const TokenRequired: string := "Authentication token required"
  const InvalidToken: string := "Invalid or expired token"

  /**
   * The decision `authenticateSocket` takes for the socket `socketId`; the
   * backend is reached through `fetchMe`, and only when the token is truthy.
   */
  function AuthenticateSocket(socketId: string, hs: Handshake, fetchMe: Json -> FetchOutcome): (r: Admission)
    ensures r.Admitted? <==> (!Truthy(hs.token) && hs.guest == Bool(true))
                             || (Truthy(hs.token) && Truthy(ValidateToken(fetchMe(hs.token))))
    ensures r.Admitted? ==> (r.who.isGuest <==> !Truthy(hs.token))
    ensures r.Refused? ==> r.reason == if Truthy(hs.token) then InvalidToken else TokenRequired
  {
    var isGuest := hs.guest == Bool(true);
    if !Truthy(hs.token) && isGuest then
      Admitted(Identity(Str("guest_" + socketId), Str("guest"), Undefined, Undefined, true))
    else if !Truthy(hs.token) then
      Refused(TokenRequired)
    else
      var user := ValidateToken(fetchMe(hs.token));
      if !Truthy(user) then Refused(InvalidToken)
      else Admitted(Identity(Get(user, "id"), Or(Get(user, "role"), Get(user, "user_type")),
                             Get(user, "email"), Get(user, "name"), false))
  }

  /**
   * No token and `guest === true`: a guest named after the socket, and the
   * backend plays no part in the decision.
   */
  lemma GuestAdmission(socketId: string, hs: Handshake, f: Json -> FetchOutcome, g: Json -> FetchOutcome)
    requires !Truthy(hs.token) && hs.guest == Bool(true)
    ensures AuthenticateSocket(socketId, hs, f) == AuthenticateSocket(socketId, hs, g)
    ensures AuthenticateSocket(socketId, hs, f).Admitted?
    ensures AuthenticateSocket(socketId, hs, f).who.userId == Str("guest_" + socketId)
    ensures AuthenticateSocket(socketId, hs, f).who.role == Str("guest")
    ensures AuthenticateSocket(socketId, hs, f).who.isGuest
  {
  }

  /**
   * Only the boolean `true` asks for guest mode: with no token, any other
   * value (the string "true", `1`, a missing flag) is refused for lacking a token.
   */
  lemma NoTokenNoGuestRefused(socketId: string, hs: Handshake, f: Json -> FetchOutcome)
    requires !Truthy(hs.token) && hs.guest != Bool(true)
    ensures AuthenticateSocket(socketId, hs, f) == Refused(TokenRequired)
  {
  }

  /**
   * A truthy token always goes to the backend: the verdict is determined by
   * what the backend answers for that token, whatever the guest flag says.
   */
  lemma TokenGoesToBackend(socketId: string, hs: Handshake, guest: Json, f: Json -> FetchOutcome, g: Json -> FetchOutcome)
    requires Truthy(hs.token)
    requires f(hs.token) == g(hs.token)
    ensures AuthenticateSocket(socketId, hs, f) == AuthenticateSocket(socketId, Handshake(hs.token, guest), g)
  {
  }

  /**
   * Every failure of the backend check (an error status, an exception, a
   * `null` body, a falsy user) yields the one message "Invalid or expired token".
   */
  lemma BackendFailuresLookAlike(socketId: string, hs: Handshake, f: Json -> FetchOutcome)
    requires Truthy(hs.token)
    requires f(hs.token).NotOk? || f(hs.token).Threw? || (f(hs.token).Ok? && Nullish(f(hs.token).body))
             || !Truthy(ValidateToken(f(hs.token)))
    ensures AuthenticateSocket(socketId, hs, f) == Refused(InvalidToken)
  {
  }

  /**
   * A successful check admits `data.user || data` with its `id`, with
   * `role || user_type` as role, never as a guest.
   */
  lemma BackendSuccess(socketId: string, hs: Handshake, f: Json -> FetchOutcome, data: Json)
    requires Truthy(hs.token) && f(hs.token) == Ok(data)
    requires Truthy(data)
    ensures var user := if Truthy(Get(data, "user")) then Get(data, "user") else data;
            AuthenticateSocket(socketId, hs, f)
            == Admitted(Identity(Get(user, "id"), Or(Get(user, "role"), Get(user, "user_type")),
                                 Get(user, "email"), Get(user, "name"), false))
  {
  }

  /** The rooms the `connection` handler joins, in order. */
  function ConnectionRooms(userId: Json, role: Json): (names: seq<string>)
    ensures forall q :: q in names <==>
              q == SocketHandlers.UserRoom(userId) || q == SocketHandlers.BroadcastRoom
              || (Truthy(role) && q == SocketHandlers.RoleRoom(role))
  {
    [SocketHandlers.UserRoom(userId), SocketHandlers.BroadcastRoom]
    + (if Truthy(role) then [SocketHandlers.RoleRoom(role)] else [])
  }

  /** The three kinds of room name never coincide, so a connection is in two or three rooms. */
  lemma ConnectionRoomCount(userId: Json, role: Json)
    ensures |set q | q in ConnectionRooms(userId, role)| == if Truthy(role) then 3 else 2
  {
    var u, b, r := SocketHandlers.UserRoom(userId), SocketHandlers.BroadcastRoom, SocketHandlers.RoleRoom(role);
    assert u[0] == 'u' && b[0] == 'b' && r[0] == 'r';
    if Truthy(role) {
      assert (set q | q in ConnectionRooms(userId, role)) == {u, b, r};
    } else {
      assert (set q | q in ConnectionRooms(userId, role)) == {u, b};
    }
  }

  /**
   * A connection that was in no room is, after the handler's joins, in its
   * user room, in `broadcast`, in its role room exactly when its role is
   * truthy, and in no other room.
   */
  lemma AdmittedRooms(rooms: RoomMap, c: ConnId, userId: Json, role: Json)
    requires RoomsOf(rooms, c) == {}
    ensures RoomsOf(JoinAll(rooms, c, ConnectionRooms(userId, role)), c)
            == {SocketHandlers.UserRoom(userId), SocketHandlers.BroadcastRoom}
               + (if Truthy(role) then {SocketHandlers.RoleRoom(role)} else {})
  {
    JoinAllRooms(rooms, c, ConnectionRooms(userId, role));
  }

  /** Guests join `role:guest` as well, since their role is the truthy string "guest". */
  lemma GuestRooms(socketId: string, hs: Handshake, f: Json -> FetchOutcome)
    requires !Truthy(hs.token) && hs.guest == Bool(true)
    ensures var who := AuthenticateSocket(socketId, hs, f).who;
            ConnectionRooms(who.userId, who.role) == ["user:guest_" + socketId, "broadcast", "role:guest"]
  {
    var who := AuthenticateSocket(socketId, hs, f).who;
    assert Display(who.userId) == "guest_" + socketId;
    assert SocketHandlers.UserRoom(who.userId) == "user:guest_" + socketId;
    assert Truthy(who.role);
    assert SocketHandlers.RoleRoom(who.role) == "role:guest";
  }

  /** A socket; the middleware fills in its identity fields. */
  class Socket {
    const id: string
    const handshake: Handshake
    var userId: Json
    var userRole: Json
    var userEmail: Json
    var userName: Json
    var isGuest: Json

    /** A socket before authentication: every identity field `undefined`. */
    constructor (id: string, handshake: Handshake)
      ensures this.id == id && this.handshake == handshake
      ensures userId == Undefined && userRole == Undefined && isGuest == Undefined
      ensures userEmail == Undefined && userName == Undefined
    {
      this.id := id;
      this.handshake := handshake;
      userId, userRole, isGuest := Undefined, Undefined, Undefined;
      userEmail, userName := Undefined, Undefined;
    }

    /**
     * `authenticateSocket(socket, next)`: returns the error passed to `next`,
     * `None` for a plain `next()`. On admission the fields hold the identity;
     * on refusal they are untouched.
     */
    method Authenticate(fetchMe: Json -> FetchOutcome) returns (err: Option<string>)
      modifies this
      ensures var verdict := AuthenticateSocket(id, handshake, fetchMe);
              match verdict
              case Refused(reason) =>
                err == Some(reason)
                && userId == old(userId) && userRole == old(userRole) && isGuest == old(isGuest)
                && userEmail == old(userEmail) && userName == old(userName)
              case Admitted(who) =>
                err == None
                && userId == who.userId && userRole == who.role && isGuest == Bool(who.isGuest)
                && (who.isGuest ==> userEmail == old(userEmail) && userName == old(userName))
                && (!who.isGuest ==> userEmail == who.email && userName == who.name)
    {
      var token := handshake.token;
      var guest := handshake.guest == Bool(true);
      if !Truthy(token) && guest {
        userId := Str("guest_" + id);
        userRole := Str("guest");
        isGuest := Bool(true);
        return None;
      }
      if !Truthy(token) {
        return Some(TokenRequired);
      }
      var user := ValidateToken(fetchMe(token));
      if !Truthy(user) {
        return Some(InvalidToken);
      }
      userId := Get(user, "id");
      userRole := Or(Get(user, "role"), Get(user, "user_type"));
      userEmail := Get(user, "email");
      userName := Get(user, "name");
      isGuest := Bool(false);
      return None;
    }
  }

  /**
   * The `connection` handler's joins for an admitted, registered socket:
   * `user:<userId>`, then `broadcast`, then `role:<role>` if the role is truthy.
   */
  method OnConnection(io: Registry, s: Socket)
    requires io.Valid()
    requires s.id in io.outbox
    modifies io
    ensures io.Valid()
    ensures io.rooms == JoinAll(old(io.rooms), s.id, ConnectionRooms(s.userId, s.userRole))
    ensures io.outbox == old(io.outbox) && io.connected == old(io.connected)
  {
    ghost var names := ConnectionRooms(s.userId, s.userRole);
    ghost var r0 := io.rooms;
    io.Join(s.id, SocketHandlers.UserRoom(s.userId));
    io.Join(s.id, SocketHandlers.BroadcastRoom);
    ghost var r2 := io.rooms;
    assert JoinAll(r0, s.id, names) == JoinAll(r2, s.id, names[2..]);
    if Truthy(s.userRole) {
      io.Join(s.id, SocketHandlers.RoleRoom(s.userRole));
      assert JoinAll(r2, s.id, names[2..]) == JoinAll(io.rooms, s.id, names[3..]);
    }
  }
}
