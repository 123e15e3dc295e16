/**
 * The integration tests' sessions, replayed against the model: each method
 * builds a fresh server (the tests clear `rooms` before each case), drives
 * the handlers, and promises what the test expects to observe. The last few
 * sessions exercise the cleanup timer, which only the server itself arms,
 * and the unguarded second join.
 */
module Scenarios {
  import opened Rooms
  import opened Events
  import opened Server

  /** A created room is found with its own id, the default language and no users. */
  method CreateThenGet(roomId: RoomId) returns (info: Lookup)
    requires |roomId| == IdLength
    ensures info == Found(RoomInfo(roomId, DefaultCode(TestHarness), "javascript", 0))
  {
    var s := Start(TestHarness);
    s.CreateRoom(roomId);
    info := s.GetRoom(roomId);
  }

  /**
   * An unknown id is not found; health counts the live rooms. A variant of
   * the two lookup tests rather than a replay: those run on an empty
   * registry, so there health reports zero, while here one room is created
   * first and health reports one.
   */
  method GetUnknown(roomId: RoomId, unknown: RoomId) returns (info: Lookup, rooms: nat)
    requires |roomId| == IdLength && unknown != roomId
    ensures info == NotFound("Room not found")
    ensures rooms == 1
  {
    var s := Start(TestHarness);
    s.CreateRoom(roomId);
    info := s.GetRoom(unknown);
    rooms := s.Health();
  }

  /** The first joiner receives the room's state listing itself alone, and nobody else is told. */
  method JoinFirst(roomId: RoomId, conn: ConnId) returns (out: seq<Emission>)
    requires |roomId| == IdLength
    ensures out == [Emission(conn, RoomState(DefaultCode(TestHarness), "javascript", [Member(conn, "TestUser")]))]
  {
    var s := Start(TestHarness);
    s.CreateRoom(roomId);
    out := s.JoinRoom(conn, roomId, "TestUser");
    assert DisplayName("TestUser", conn) == "TestUser";
    assert [] + [Member(conn, "TestUser")] == [Member(conn, "TestUser")];
    assert Others([Member(conn, "TestUser")], conn) == [];
  }

  /** Joining an id that names no room answers the joiner with an error. */
  method JoinUnknown(roomId: RoomId, conn: ConnId) returns (out: seq<Emission>, bound: bool)
    requires |roomId| == IdLength && roomId != "badroom1"
    ensures out == [Emission(conn, Error("Room not found"))]
    ensures !bound
  {
    var s := Start(TestHarness);
    s.CreateRoom(roomId);
    out := s.JoinRoom(conn, "badroom1", "TestUser");
    bound := conn in s.bound;
  }

  /** Fan-out and filtering over a room of one member. */
  lemma Alone(c: ConnId, n: string)
    ensures Others([Member(c, n)], c) == [] && Ids([Member(c, n)]) == [c] && Without([Member(c, n)], c) == []
  {
    assert [Member(c, n)][1..] == [];
  }

  /** Fan-out and filtering over a room of two members. */
  lemma Pair(c1: ConnId, n1: string, c2: ConnId, n2: string)
    requires c1 != c2
    ensures var users := [Member(c1, n1), Member(c2, n2)];
      && Others(users, c1) == [c2] && Others(users, c2) == [c1] && Ids(users) == [c1, c2]
      && Without(users, c2) == [Member(c1, n1)] && Without(users, c1) == [Member(c2, n2)]
  {
    var users := [Member(c1, n1), Member(c2, n2)];
    assert users[1..] == [Member(c2, n2)] && users[1..][1..] == [];
  }

  /** A fresh server of the given copy. */
  method Start(d: Deployment) returns (s: Server)
    ensures fresh(s) && s.deployment == d
    ensures s.rooms == map[] && s.bound == map[] && s.pending == []
    ensures s.defaultCode == DefaultCode(d)
  {
    s := new Server(d);
  }

  /** Two connections join an existing room as "User1" and "User2". */
  method TwoJoin(s: Server, roomId: RoomId, c1: ConnId, c2: ConnId)
    requires roomId in s.rooms && s.rooms[roomId].users == [] && c1 != c2
    modifies s
    ensures s.rooms == old(s.rooms)[roomId := old(s.rooms)[roomId].(users := [Member(c1, "User1"), Member(c2, "User2")])]
    ensures s.bound == old(s.bound)[c1 := Session(roomId, "User1")][c2 := Session(roomId, "User2")]
  {
    var _ := s.JoinRoom(c1, roomId, "User1");
    assert DisplayName("User1", c1) == "User1";
    assert s.rooms[roomId].users == [Member(c1, "User1")];
    var _ := s.JoinRoom(c2, roomId, "User2");
    assert DisplayName("User2", c2) == "User2";
    assert [Member(c1, "User1")] + [Member(c2, "User2")] == [Member(c1, "User1"), Member(c2, "User2")];
  }

  /** After two joins, an edit from the first reaches the second, and only the second. */
  method CodeChangeReachesOthers(roomId: RoomId, c1: ConnId, c2: ConnId) returns (out: seq<Emission>)
    requires |roomId| == IdLength && c1 != c2
    ensures out == [Emission(c2, CodeUpdate("const x = 42;", c1))]
  {
    var s := Start(TestHarness);
    s.CreateRoom(roomId);
    TwoJoin(s, roomId, c1, c2);
    Pair(c1, "User1", c2, "User2");
    out := s.CodeChange(c1, "const x = 42;");
  }

  /** After two joins, a language change reaches both members, the sender included. */
  method LanguageChangeReachesAll(roomId: RoomId, c1: ConnId, c2: ConnId) returns (out: seq<Emission>)
    requires |roomId| == IdLength && c1 != c2
    ensures out == [Emission(c1, LanguageUpdate("python")), Emission(c2, LanguageUpdate("python"))]
  {
    var s := Start(TestHarness);
    s.CreateRoom(roomId);
    TwoJoin(s, roomId, c1, c2);
    Pair(c1, "User1", c2, "User2");
    out := s.LanguageChange(c1, "python");
  }

  /** The first member hears the second join (two users) and leave (one user). */
  method JoinThenLeave(roomId: RoomId, c1: ConnId, c2: ConnId) returns (joined: seq<Emission>, left: seq<Emission>)
    requires |roomId| == IdLength && c1 != c2
    ensures |joined| == 2 && joined[1] == Emission(c1, UserJoined(c2, "User2", [Member(c1, "User1"), Member(c2, "User2")]))
    ensures left == [Emission(c1, UserLeft(c2, "User2", [Member(c1, "User1")]))]
  {
    var s := Start(TestHarness);
    s.CreateRoom(roomId);
    var _ := s.JoinRoom(c1, roomId, "User1");
    assert DisplayName("User1", c1) == "User1" && DisplayName("User2", c2) == "User2";
    assert s.rooms[roomId].users == [Member(c1, "User1")];
    joined := s.JoinRoom(c2, roomId, "User2");
    assert s.rooms[roomId].users == [Member(c1, "User1"), Member(c2, "User2")];
    Pair(c1, "User1", c2, "User2");
    left := s.Disconnect(c2);
    assert Others([Member(c1, "User1")], c2) == [c1];
  }

  /** Two joins and an edit: the interviewer sees the code and the room counts two users. */
  method InterviewSession(roomId: RoomId, interviewer: ConnId, candidate: ConnId)
    returns (update: seq<Emission>, info: Lookup)
    requires |roomId| == IdLength && interviewer != candidate
    ensures update == [Emission(interviewer, CodeUpdate("function solution() { return 42; }", candidate))]
    ensures info.Found? && info.info.id == roomId && info.info.userCount == 2
  {
    var s := Start(TestHarness);
    s.CreateRoom(roomId);
    var _ := s.JoinRoom(interviewer, roomId, "Interviewer");
    assert DisplayName("Interviewer", interviewer) == "Interviewer";
    var _ := s.JoinRoom(candidate, roomId, "Candidate");
    assert DisplayName("Candidate", candidate) == "Candidate";
    var users := [Member(interviewer, "Interviewer"), Member(candidate, "Candidate")];
    assert s.rooms[roomId].users == users;
    Pair(interviewer, "Interviewer", candidate, "Candidate");
    update := s.CodeChange(candidate, "function solution() { return 42; }");
    info := s.GetRoom(roomId);
  }

  lemma SampleFallback()
    ensures DisplayName("", "Xk9zQ2") == "User-Xk9z"
  {
    assert "Xk9zQ2"[..Prefix("Xk9zQ2")] == "Xk9z";
  }

  /** A connection that joins without a name is called after the first four characters of its id. */
  method JoinWithoutName(roomId: RoomId) returns (out: seq<Emission>)
    requires |roomId| == IdLength
    ensures |out| == 1 && out[0].event.RoomState? && out[0].event.users == [Member("Xk9zQ2", "User-Xk9z")]
  {
    var s := Start(Production);
    s.CreateRoom(roomId);
    SampleFallback();
    Alone("Xk9zQ2", "User-Xk9z");
    out := s.JoinRoom("Xk9zQ2", roomId, "");
    assert [] + [Member("Xk9zQ2", "User-Xk9z")] == [Member("Xk9zQ2", "User-Xk9z")];
  }

  /** Edits from a connection that never joined are ignored. */
  method UnboundEditsIgnored(roomId: RoomId, conn: ConnId) returns (out: seq<Emission>, info: Lookup)
    requires |roomId| == IdLength
    ensures out == []
    ensures info.Found? && info.info.language == "javascript" && info.info.userCount == 0
    ensures info.info.code == DefaultCode(Production)
  {
    var s := Start(Production);
    s.CreateRoom(roomId);
    var a := s.CodeChange(conn, "x");
    var b := s.LanguageChange(conn, "python");
    var c := s.CursorUpdate(conn, "1:1", "");
    out := a + b + c;
    info := s.GetRoom(roomId);
  }

  /** Cursor moves reach the other member on the server, and nobody in the test copy. */
  method CursorMoves(roomId: RoomId, c1: ConnId, c2: ConnId) returns (server: seq<Emission>, harness: seq<Emission>)
    requires |roomId| == IdLength && c1 != c2
    ensures server == [Emission(c2, CursorMove(c1, "User1", "3:7", "3:7-3:9"))]
    ensures harness == []
  {
    var s := Start(Production);
    s.CreateRoom(roomId);
    TwoJoin(s, roomId, c1, c2);
    Pair(c1, "User1", c2, "User2");
    server := s.CursorUpdate(c1, "3:7", "3:7-3:9");
    var t := Start(TestHarness);
    t.CreateRoom(roomId);
    TwoJoin(t, roomId, c1, c2);
    harness := t.CursorUpdate(c1, "3:7", "3:7-3:9");
  }

  /** An unbound connection joins an empty room under a non-empty name. */
  method JoinEmpty(s: Server, roomId: RoomId, c: ConnId, n: string)
    requires roomId in s.rooms && s.rooms[roomId].users == [] && c !in s.bound && n != ""
    modifies s
    ensures s.rooms == old(s.rooms)[roomId := old(s.rooms)[roomId].(users := [Member(c, n)])]
    ensures s.bound == old(s.bound)[c := Session(roomId, n)]
    ensures s.pending == old(s.pending)
  {
    var _ := s.JoinRoom(c, roomId, n);
    assert [] + [Member(c, n)] == [Member(c, n)];
  }

  /** The only member of a room disconnects, and the server arms the room's cleanup. */
  method LeaveAlone(s: Server, roomId: RoomId, c: ConnId, n: string)
    requires roomId in s.rooms && s.rooms[roomId].users == [Member(c, n)]
    requires c in s.bound && s.bound[c].room == roomId && s.deployment == Production
    modifies s
    ensures s.rooms == old(s.rooms)[roomId := old(s.rooms)[roomId].(users := [])]
    ensures s.bound == old(s.bound) - {c}
    ensures s.pending == old(s.pending) + [roomId]
  {
    Alone(c, n);
    var _ := s.Disconnect(c);
  }

  /** A room left empty is deleted when its timer fires. */
  method EmptyRoomReaped(roomId: RoomId, conn: ConnId) returns (info: Lookup, rooms: nat)
    requires |roomId| == IdLength
    ensures info == NotFound("Room not found")
    ensures rooms == 0
  {
    var s := Start(Production);
    s.CreateRoom(roomId);
    JoinEmpty(s, roomId, conn, "Alice");
    LeaveAlone(s, roomId, conn, "Alice");
    s.FireCleanup();
    info := s.GetRoom(roomId);
    rooms := s.Health();
  }

  /** A room rejoined before its timer fires survives the timer with its new member. */
  method RejoinedRoomSurvives(roomId: RoomId, c1: ConnId, c2: ConnId) returns (info: Lookup)
    requires |roomId| == IdLength && c1 != c2
    ensures info.Found? && info.info.userCount == 1
  {
    var s := Start(Production);
    s.CreateRoom(roomId);
    JoinEmpty(s, roomId, c1, "Alice");
    LeaveAlone(s, roomId, c1, "Alice");
    JoinEmpty(s, roomId, c2, "Bob");
    s.FireCleanup();
    info := s.GetRoom(roomId);
  }

  /**
   * A stale timer that finds its room occupied leaves the timer armed later
   * in place: when the room empties again, that later timer deletes it.
   */
  method LaterTimerStillFires(roomId: RoomId, c1: ConnId, c2: ConnId) returns (first: Lookup, second: Lookup)
    requires |roomId| == IdLength && c1 != c2
    ensures first.Found? && second.NotFound?
  {
    var s := Start(Production);
    s.CreateRoom(roomId);
    JoinEmpty(s, roomId, c1, "Alice");
    LeaveAlone(s, roomId, c1, "Alice");
    JoinEmpty(s, roomId, c2, "Bob");
    s.FireCleanup();
    first := s.GetRoom(roomId);
    LeaveAlone(s, roomId, c2, "Bob");
    s.FireCleanup();
    second := s.GetRoom(roomId);
  }

  /**
   * The unguarded second join into the same room: the connection is listed
   * twice, so the no-duplicates part of the invariant is broken and the room
   * counts two users. Recipients computed from `users` then name the
   * connection twice, so a language change is sent to it twice here, where
   * socket.io, whose channel holds the socket once, delivers it once.
   */
  method RejoinSameRoom(roomId: RoomId, conn: ConnId) returns (users: seq<Member>, info: Lookup, out: seq<Emission>)
    requires |roomId| == IdLength
    ensures users == [Member(conn, "Alice"), Member(conn, "Alice")] && !DistinctIds(users)
    ensures info.Found? && info.info.userCount == 2
    ensures out == [Emission(conn, LanguageUpdate("python")), Emission(conn, LanguageUpdate("python"))]
  {
    var s := Start(TestHarness);
    s.CreateRoom(roomId);
    JoinEmpty(s, roomId, conn, "Alice");
    var _ := s.JoinRoom(conn, roomId, "Alice");
    assert DisplayName("Alice", conn) == "Alice";
    assert [Member(conn, "Alice")] + [Member(conn, "Alice")] == [Member(conn, "Alice"), Member(conn, "Alice")];
    users := s.rooms[roomId].users;
    assert users[0].id == users[1].id;
    info := s.GetRoom(roomId);
    var twice := [Member(conn, "Alice"), Member(conn, "Alice")];
    assert twice[1..] == [Member(conn, "Alice")] && twice[1..][1..] == [];
    out := s.LanguageChange(conn, "python");
  }

  /**
   * The unguarded second join: a connection that joins a second room keeps
   * its entry in the first, and disconnecting removes it only from the
   * second, so the first room still counts it and is never armed for cleanup.
   */
  method RejoinLeavesOrphan(r1: RoomId, r2: RoomId, conn: ConnId) returns (first: Lookup, second: Lookup, armed: seq<RoomId>)
    requires |r1| == IdLength && |r2| == IdLength && r1 != r2
    ensures first.Found? && first.info.userCount == 1
    ensures second.Found? && second.info.userCount == 0
    ensures armed == [r2]
  {
    var s := Start(Production);
    s.CreateRoom(r1);
    s.CreateRoom(r2);
    JoinEmpty(s, r1, conn, "Alice");
    var _ := s.JoinRoom(conn, r2, "Alice");
    assert DisplayName("Alice", conn) == "Alice";
    assert s.rooms[r2].users == [Member(conn, "Alice")];
    LeaveAlone(s, r2, conn, "Alice");
    first := s.GetRoom(r1);
    second := s.GetRoom(r2);
    armed := s.pending;
  }
}
