/** The connection layer of `server/src/websocket/socketServer.ts`: the
    handshake that admits a socket, and the session and room state its
    event handlers change. Rooms are sets of session ids; every emit is a
    delivery appended to an outbox. */
module SocketServer {
  import opened Common
  import opened Text
  import opened Events

  type SessionId = nat

  /** The room of a book. A JavaScript number has one decimal text, so
      keying rooms by the book id partitions sessions exactly as the
      `book:<id>` names do. */
  datatype RoomKey = BookRoom(bookId: real)

  /** The room name for an integral book id. */
  function RoomName(bookId: int): string {
    "book:" + IntToString(bookId)
  }

  /** Different books never share a room name. */
  lemma RoomNameInjective(a: int, b: int)
    requires RoomName(a) == RoomName(b)
    ensures a == b
  {
    assert RoomName(a)[5..] == IntToString(a);
    assert RoomName(b)[5..] == IntToString(b);
    IntToStringInjective(a, b);
  }

  /** One emit: the sessions that receive it, and the event. */
  datatype Delivery = Delivery(recipients: set<SessionId>, event: ServerEvent)

  /** A row of the users table, as far as the socket layer reads it. */
  datatype UserRecord = UserRecord(id: int, username: string, moodSensitivity: Option<real>)

  function FindUser(users: seq<UserRecord>, id: int): (r: Option<UserRecord>)
    ensures r.Some? ==> r.value in users && r.value.id == id
    ensures r.None? <==> forall i :: 0 <= i < |users| ==> users[i].id != id
  {
    if users == [] then None
    else if users[0].id == id then Some(users[0])
    else FindUser(users[1..], id)
  }

  datatype Handshake = Accepted(data: SessionData) | Rejected(reason: string)

  /** The authentication middleware. `token` is `handshake.auth.token`;
      `verified` is the user id of the token's payload, `None` when
      verification throws. */
  function Authenticate(token: Option<string>, verified: Option<int>, users: seq<UserRecord>, now: int): (r: Handshake)
    ensures token.None? || token.value == "" <==> r == Rejected("Authentication token required")
    ensures token.Some? && token.value != "" && verified.None? ==> r == Rejected("Invalid authentication token")
    ensures token.Some? && token.value != "" && verified.Some? && FindUser(users, verified.value).None? ==>
      r == Rejected("User not found")
    ensures r.Accepted? <==> token.Some? && token.value != "" && verified.Some? && FindUser(users, verified.value).Some?
    ensures r.Accepted? ==>
      r.data == SessionData(verified.value, FindUser(users, verified.value).value.username, None, None, now)
  {
    if token.None? || token.value == "" then Rejected("Authentication token required")
    else if verified.None? then Rejected("Invalid authentication token")
    else
      match FindUser(users, verified.value)
      case None => Rejected("User not found")
      case Some(u) => Accepted(SessionData(u.id, u.username, None, None, now))
  }

  /** The session after `room:join`: both current fields overwritten. */
  function Joined(d: SessionData, req: JoinRequest): (r: SessionData)
    ensures r.currentBookId == Some(req.bookId) && r.currentPresetId == Some(req.presetId)
    ensures r.userId == d.userId && r.username == d.username && r.joinedAt == d.joinedAt
  {
    d.(currentBookId := Some(req.bookId), currentPresetId := Some(req.presetId))
  }

  /** The session after `room:leave`: both current fields cleared,
      whichever book was left. */
  function Left(d: SessionData): (r: SessionData)
    ensures r.currentBookId.None? && r.currentPresetId.None?
    ensures r.userId == d.userId && r.username == d.username && r.joinedAt == d.joinedAt
  {
    d.(currentBookId := None, currentPresetId := None)
  }

  /** Joining again replaces the earlier book and preset; leaving undoes
      any sequence of joins, so the session is back to its state after the
      handshake. */
  lemma JoinLeaveRoundTrip(d: SessionData, first: JoinRequest, second: JoinRequest)
    ensures Joined(Joined(d, first), second) == Joined(d, second)
    ensures Left(Joined(d, first)) == Left(d)
    ensures d.currentBookId.None? && d.currentPresetId.None? ==> Left(Joined(d, first)) == d
  {
  }

  /** `book:<id>` is notified on disconnect only for a truthy book id. */
  predicate NotifiesOnDisconnect(d: SessionData) {
    d.currentBookId.Some? && d.currentBookId.value != 0.0
  }

  class Server {
    var sessions: map<SessionId, SessionData>
    var rooms: map<RoomKey, set<SessionId>>
    var outbox: seq<Delivery>

    /** Only connected sessions are members of a room. */
    ghost predicate Valid()
      reads this
    {
      forall room :: room in rooms ==> rooms[room] <= sessions.Keys
    }

    function Members(room: RoomKey): set<SessionId>
      reads this
    {
      if room in rooms then rooms[room] else {}
    }

    constructor()
      ensures Valid()
      ensures sessions == map[] && rooms == map[] && outbox == []
    {
      sessions := map[];
      rooms := map[];
      outbox := [];
    }

    /** A socket admitted by the handshake connects. The connection audit
      write is awaited first; `auditOk` is its outcome. When it succeeds the
      session is recorded and it alone is told it is connected. When it
      throws, the handler stops before it sends anything or records the
      session; the rejection is not caught, and the process's
      `unhandledRejection` listener then exits, which this model does not
      follow (it keeps serving the other sessions). */
    method Connect(id: SessionId, data: SessionData, now: int, auditOk: bool)
      requires Valid() && id !in sessions
      modifies this
      ensures Valid()
      ensures rooms == old(rooms)
      ensures auditOk ==> sessions == old(sessions)[id := data]
      ensures auditOk ==>
        outbox == old(outbox) + [Delivery({id}, SyncStatusEvent(Connected, "Connected to Book Sphere", now))]
      ensures !auditOk ==> sessions == old(sessions) && outbox == old(outbox)
    {
      if !auditOk {
        return;
      }
      sessions := sessions[id := data];
      outbox := outbox + [Delivery({id}, SyncStatusEvent(Connected, "Connected to Book Sphere", now))];
    }

    /** `ping`: `pong` to the sender only. */
    method Ping(id: SessionId)
      requires id in sessions
      modifies this
      ensures sessions == old(sessions) && rooms == old(rooms)
      ensures outbox == old(outbox) + [Delivery({id}, Pong)]
    {
      outbox := outbox + [Delivery({id}, Pong)];
    }

    /** `room:join`: the session joins the book's room (staying in any
      room it was in), records the book and preset, and the other members
      are told. */
    method Join(id: SessionId, req: JoinRequest, now: int)
      requires Valid() && id in sessions
      modifies this
      ensures Valid()
      ensures rooms == old(rooms)[BookRoom(req.bookId) := old(Members(BookRoom(req.bookId))) + {id}]
      ensures sessions == old(sessions)[id := Joined(old(sessions[id]), req)]
      ensures outbox == old(outbox) +
        [Delivery(old(Members(BookRoom(req.bookId))) - {id},
                  UserJoined(old(sessions[id]).userId, old(sessions[id]).username, now))]
      ensures id in Members(BookRoom(req.bookId))
      ensures forall room :: room in old(rooms) ==> old(rooms[room]) <= Members(room)
    {
      var room := BookRoom(req.bookId);
      var before := Members(room);
      var d := sessions[id];
      rooms := rooms[room := before + {id}];
      sessions := sessions[id := Joined(d, req)];
      outbox := outbox + [Delivery(before - {id}, UserJoined(d.userId, d.username, now))];
    }

    /** `room:leave`: the session leaves the named room, the remaining
      members are told, and both current fields are cleared. */
    method Leave(id: SessionId, req: LeaveRequest, now: int)
      requires Valid() && id in sessions
      modifies this
      ensures Valid()
      ensures rooms == old(rooms)[BookRoom(req.bookId) := old(Members(BookRoom(req.bookId))) - {id}]
      ensures sessions == old(sessions)[id := Left(old(sessions[id]))]
      ensures outbox == old(outbox) +
        [Delivery(old(Members(BookRoom(req.bookId))) - {id},
                  UserLeft(old(sessions[id]).userId, old(sessions[id]).username, now))]
      ensures id !in Members(BookRoom(req.bookId))
    {
      var room := BookRoom(req.bookId);
      var rest := Members(room) - {id};
      var d := sessions[id];
      rooms := rooms[room := rest];
      outbox := outbox + [Delivery(rest, UserLeft(d.userId, d.username, now))];
      sessions := sessions[id := Left(d)];
    }

    /** `settings:update`: the payload is only written to the audit log;
      when that write fails the sender gets an error. */
    method UpdateSettings(id: SessionId, auditOk: bool)
      requires id in sessions
      modifies this
      ensures sessions == old(sessions) && rooms == old(rooms)
      ensures auditOk ==> outbox == old(outbox)
      ensures !auditOk ==> outbox == old(outbox) + [Delivery({id}, ErrorEvent("Failed to update settings", None))]
    {
      if !auditOk {
        outbox := outbox + [Delivery({id}, ErrorEvent("Failed to update settings", None))];
      }
    }

    /** `disconnect`: the socket has already left every room when the
      handler runs. The disconnection audit write is awaited first, with
      outcome `auditOk`; only when it succeeds is the room of a truthy
      current book told. A failing write is not caught, and the process
      exits on it; the model keeps serving the other sessions. */
    method Disconnect(id: SessionId, now: int, auditOk: bool)
      requires Valid() && id in sessions
      modifies this
      ensures Valid()
      ensures sessions == old(sessions) - {id}
      ensures rooms == map room | room in old(rooms) :: old(rooms[room]) - {id}
      ensures forall room :: id !in Members(room)
      ensures auditOk && NotifiesOnDisconnect(old(sessions[id])) ==>
        outbox == old(outbox) +
          [Delivery(old(Members(BookRoom(sessions[id].currentBookId.value))) - {id},
                    UserLeft(old(sessions[id]).userId, old(sessions[id]).username, now))]
      ensures !auditOk || !NotifiesOnDisconnect(old(sessions[id])) ==> outbox == old(outbox)
    {
      var d := sessions[id];
      var before := if NotifiesOnDisconnect(d) then Members(BookRoom(d.currentBookId.value)) else {};
      rooms := map room | room in rooms :: rooms[room] - {id};
      sessions := sessions - {id};
      if auditOk && NotifiesOnDisconnect(d) {
        var room := BookRoom(d.currentBookId.value);
        assert Members(room) == before - {id};
        outbox := outbox + [Delivery(Members(room), UserLeft(d.userId, d.username, now))];
      }
    }
  }
}
