/**
 * The server's mutable state and its handlers: the REST handlers that create
 * and read rooms, and the socket handlers for join-room, code-change,
 * language-change, cursor-update and disconnect. Each socket handler returns
 * the emissions it makes; recipients are computed from the room's `users`.
 */
module Server {
  import opened Rooms
  import opened Events
  import opened Cleanup

  /**
   * The two copies of the handlers: the server itself, and the inline copy
   * the integration tests run, which seeds a shorter default code, registers
   * no cursor-update handler and never arms a cleanup timer.
   */
  datatype Deployment = Production | TestHarness

  const WelcomeLine := "// Welcome to the coding interview!\n"

  /** The code a new room starts with, line by line; both copies open with the welcome line. */
  function DefaultCode(d: Deployment): (r: string)
    ensures WelcomeLine <= r
    ensures d == Production ==> |r| > |WelcomeLine|
  {
    match d
    case Production =>
      WelcomeLine + "// Start writing your code here...\n" + "\n"
      + "function solution() {\n" + "  // Your code here\n" + "}\n"
    case TestHarness => WelcomeLine
  }

  /** The reply of `GET /api/rooms/:roomId`. */
  datatype RoomInfo = RoomInfo(id: RoomId, code: string, language: string, userCount: nat)

  datatype Lookup = Found(info: RoomInfo) | NotFound(error: string)

  class Server {
    const deployment: Deployment
    /** The code a new room starts with. */
    const defaultCode: string
    /** The `rooms` map. */
    var rooms: map<RoomId, Room>
    /** The bound connections: their `currentRoom` and `username`; an unbound connection is absent. */
    var bound: map<ConnId, Session>
    /** The armed cleanup timers, in arming order; all share one delay, so they fire in this order. */
    var pending: seq<RoomId>

    ghost predicate Valid()
      reads this
    {
      Consistent(rooms, bound)
    }

    constructor (d: Deployment)
      ensures deployment == d && defaultCode == DefaultCode(d)
      ensures rooms == map[] && bound == map[] && pending == []
      ensures Valid()
    {
      deployment := d;
      defaultCode := DefaultCode(d);
      rooms := map[];
      bound := map[];
      pending := [];
    }

    /** `POST /api/rooms`, with the fresh eight-character id supplied by the caller. */
    method CreateRoom(roomId: RoomId)
      requires roomId !in rooms && |roomId| == IdLength
      modifies this
      ensures rooms == old(rooms)[roomId := NewRoom(roomId, defaultCode)]
      ensures roomId in rooms && rooms[roomId].users == [] && rooms[roomId].language == DefaultLanguage
      ensures |rooms| == |old(rooms)| + 1
      ensures forall k :: k in old(rooms) ==> k in rooms && rooms[k] == old(rooms)[k]
      ensures bound == old(bound) && pending == old(pending)
      ensures old(Valid()) ==> Valid()
    {
      if Valid() {
        CreateKeepsConsistent(rooms, bound, roomId, defaultCode);
      }
      rooms := rooms[roomId := NewRoom(roomId, defaultCode)];
    }

    /** `GET /api/rooms/:roomId`: read-only. */
    function GetRoom(roomId: RoomId): (r: Lookup)
      reads this
      ensures r.Found? <==> roomId in rooms
      ensures r.Found? ==> r.info == RoomInfo(rooms[roomId].id, rooms[roomId].code, rooms[roomId].language, |rooms[roomId].users|)
      ensures r.Found? && Valid() ==> r.info.id == roomId
      ensures r.NotFound? ==> r.error == NotFoundMessage
    {
      if roomId in rooms then
        var room := rooms[roomId];
        Found(RoomInfo(room.id, room.code, room.language, |room.users|))
      else NotFound(NotFoundMessage)
    }

    /** `GET /api/health`: the number of live rooms. */
    function Health(): (n: nat)
      reads this
      ensures n == |rooms.Keys|
    {
      |rooms|
    }

    /**
     * 'join-room'. An unknown id is answered with an error to the joiner
     * alone. Otherwise the joiner is appended to `users` and bound to the
     * room; it receives the room's state and every other member receives
     * 'user-joined'. A connection that is already bound is not refused: it
     * is appended again and rebound, and keeps its entry in its old room.
     */
    method JoinRoom(conn: ConnId, roomId: RoomId, userName: string) returns (out: seq<Emission>)
      modifies this
      ensures roomId !in old(rooms) ==>
        && out == [Emission(conn, Error(NotFoundMessage))]
        && rooms == old(rooms) && bound == old(bound)
      ensures roomId in old(rooms) ==>
        var name := DisplayName(userName, conn);
        var users := old(rooms)[roomId].users + [Member(conn, name)];
        && rooms == old(rooms)[roomId := old(rooms)[roomId].(users := users)]
        && bound == old(bound)[conn := Session(roomId, name)]
        && out == [Emission(conn, RoomState(old(rooms)[roomId].code, old(rooms)[roomId].language, users))]
                  + Broadcast(Others(users, conn), UserJoined(conn, name, users))
      ensures old(Valid()) && conn !in old(bound) && roomId in old(rooms) ==>
        out[1..] == Broadcast(Ids(old(rooms)[roomId].users),
                              UserJoined(conn, DisplayName(userName, conn), rooms[roomId].users))
      ensures pending == old(pending)
      ensures old(Valid()) && conn !in old(bound) ==> Valid()
    {
      if roomId !in rooms {
        out := [Emission(conn, Error(NotFoundMessage))];
        return;
      }
      var name := DisplayName(userName, conn);
      var room := Joined(rooms[roomId], Member(conn, name));
      if Valid() && conn !in bound {
        JoinKeepsConsistent(rooms, bound, roomId, Member(conn, name));
        if conn in Ids(rooms[roomId].users) {
          BoundListedOnlyInOwnRoom(rooms, bound, conn, roomId);
        }
        OthersOfNewcomer(rooms[roomId].users, Member(conn, name));
      }
      rooms := rooms[roomId := room];
      bound := bound[conn := Session(roomId, name)];
      out := [Emission(conn, RoomState(room.code, room.language, room.users))]
             + Broadcast(Others(room.users, conn), UserJoined(conn, name, room.users));
    }

    /**
     * 'code-change': from a bound connection whose room exists, the code is
     * replaced wholesale and every other member receives it with the
     * sender's id; otherwise nothing happens.
     */
    method CodeChange(conn: ConnId, code: string) returns (out: seq<Emission>)
      modifies this
      ensures conn in old(bound) && old(bound)[conn].room in old(rooms) ==>
        var k := old(bound)[conn].room;
        && rooms == old(rooms)[k := old(rooms)[k].(code := code)]
        && out == Broadcast(Others(old(rooms)[k].users, conn), CodeUpdate(code, conn))
      ensures !(conn in old(bound) && old(bound)[conn].room in old(rooms)) ==> rooms == old(rooms) && out == []
      ensures bound == old(bound) && pending == old(pending)
      ensures old(Valid()) ==> Valid()
    {
      out := [];
      if conn in bound {
        var k := bound[conn].room;
        if k in rooms {
          if Valid() {
            EditKeepsConsistent(rooms, bound, k, code, rooms[k].language);
          }
          rooms := rooms[k := rooms[k].(code := code)];
          out := Broadcast(Others(rooms[k].users, conn), CodeUpdate(code, conn));
        }
      }
    }

    /**
     * 'language-change': from a bound connection whose room exists, the
     * language is replaced and every member, the sender included, receives
     * it; otherwise nothing happens.
     */
    method LanguageChange(conn: ConnId, language: string) returns (out: seq<Emission>)
      modifies this
      ensures conn in old(bound) && old(bound)[conn].room in old(rooms) ==>
        var k := old(bound)[conn].room;
        && rooms == old(rooms)[k := old(rooms)[k].(language := language)]
        && out == Broadcast(Ids(old(rooms)[k].users), LanguageUpdate(language))
      ensures !(conn in old(bound) && old(bound)[conn].room in old(rooms)) ==> rooms == old(rooms) && out == []
      ensures bound == old(bound) && pending == old(pending)
      ensures old(Valid()) ==> Valid()
    {
      out := [];
      if conn in bound {
        var k := bound[conn].room;
        if k in rooms {
          if Valid() {
            EditKeepsConsistent(rooms, bound, k, rooms[k].code, language);
          }
          rooms := rooms[k := rooms[k].(language := language)];
          out := Broadcast(Ids(rooms[k].users), LanguageUpdate(language));
        }
      }
    }

    /**
     * 'cursor-update': changes no state. From a bound connection every other
     * member of its room receives the sender's id, name, position and
     * selection. The test copy registers no handler, so there it is ignored.
     */
    method CursorUpdate(conn: ConnId, position: string, selection: string) returns (out: seq<Emission>)
      ensures deployment == Production && conn in bound && bound[conn].room in rooms ==>
        out == Broadcast(Others(rooms[bound[conn].room].users, conn),
                         CursorMove(conn, bound[conn].name, position, selection))
      ensures conn !in bound || deployment == TestHarness ==> out == []
      ensures Valid() && out != [] ==>
        conn in bound && forall e :: e in out ==> e.to != conn && e.to in bound && bound[e.to].room == bound[conn].room
    {
      out := [];
      if deployment == Production && conn in bound {
        var k := bound[conn].room;
        if k in rooms {
          out := Broadcast(Others(rooms[k].users, conn), CursorMove(conn, bound[conn].name, position, selection));
          if Valid() {
            forall e | e in out ensures e.to != conn && e.to in bound && bound[e.to].room == k {
              BoundListedOnlyInOwnRoom(rooms, bound, e.to, k);
            }
          }
        }
      }
    }

    /**
     * 'disconnect': a bound connection is removed from its room's `users`
     * and the remaining members receive 'user-left' with the new list; if
     * the list is now empty, the server arms a cleanup timer for the room.
     * The connection is gone afterwards, so it is no longer bound.
     */
    method Disconnect(conn: ConnId) returns (out: seq<Emission>)
      modifies this
      ensures conn in old(bound) && old(bound)[conn].room in old(rooms) ==>
        var k := old(bound)[conn].room;
        var users := Without(old(rooms)[k].users, conn);
        && rooms == old(rooms)[k := old(rooms)[k].(users := users)]
        && out == Broadcast(Others(users, conn), UserLeft(conn, old(bound)[conn].name, users))
        && out == Broadcast(Ids(users), UserLeft(conn, old(bound)[conn].name, users))
        && pending == (if users == [] && deployment == Production then old(pending) + [k] else old(pending))
      ensures !(conn in old(bound) && old(bound)[conn].room in old(rooms)) ==>
        rooms == old(rooms) && out == [] && pending == old(pending)
      ensures bound == old(bound) - {conn}
      ensures old(Valid()) ==> Valid()
    {
      out := [];
      if conn in bound {
        var k := bound[conn].room;
        if k in rooms {
          var session := bound[conn];
          if Valid() {
            LeaveKeepsConsistent(rooms, bound, conn);
          }
          rooms := rooms[k := Left(rooms[k], conn)];
          OthersOfNonMember(rooms[k].users, conn);
          out := Broadcast(Others(rooms[k].users, conn), UserLeft(conn, session.name, rooms[k].users));
          if rooms[k].users == [] && deployment == Production {
            pending := pending + [k];
          }
        } else if Valid() {
          assert false;
        }
      } else if Valid() {
        UnbindKeepsConsistent(rooms, bound, conn);
      }
      bound := bound - {conn};
    }

    /** The oldest armed cleanup timer fires: see Reap. */
    method FireCleanup()
      requires pending != []
      modifies this
      ensures rooms == Reap(old(rooms), old(pending)[0])
      ensures pending == old(pending)[1..] && bound == old(bound)
      ensures old(Valid()) ==> Valid()
    {
      if Valid() {
        ReapKeepsConsistent(rooms, bound, pending[0]);
      }
      rooms := Reap(rooms, pending[0]);
      pending := pending[1..];
    }
  }
}
