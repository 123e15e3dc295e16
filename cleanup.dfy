/**
 * Deferred deletion of empty rooms: the step a cleanup timer performs when
 * it fires, as the server evidently intends it (Reap) and as the callback
 * is actually written (CleanupAsWritten).
 */
module Cleanup {
  import opened Rooms

  /**
   * A firing timer armed for `id`: it re-reads the registry and deletes the
   * room only if it is still there and still has no members. Deleting an id
   * that is already gone is a no-op.
   */
  function Reap(rooms: map<RoomId, Room>, id: RoomId): (r: map<RoomId, Room>)
    ensures r.Keys == if id in rooms && rooms[id].users == [] then rooms.Keys - {id} else rooms.Keys
    ensures forall k :: k in r ==> r[k] == rooms[k]
    ensures forall k :: k in rooms && rooms[k].users != [] ==> k in r
  {
    if id in rooms && rooms[id].users == [] then rooms - {id} else rooms
  }

  /** Firing a second timer for the same id changes nothing more. */
  lemma ReapIdempotent(rooms: map<RoomId, Room>, id: RoomId)
    ensures Reap(Reap(rooms, id), id) == Reap(rooms, id)
  {
  }

  /** A room that was rejoined before the timer fired survives it unchanged. */
  lemma ReapSparesOccupied(rooms: map<RoomId, Room>, id: RoomId)
    requires id in rooms && rooms[id].users != []
    ensures Reap(rooms, id) == rooms
  {
  }

  /** Deleting an empty room keeps the registry invariant: no connection is bound to it. */
  lemma ReapKeepsConsistent(rooms: map<RoomId, Room>, bound: map<ConnId, Session>, id: RoomId)
    requires Consistent(rooms, bound)
    ensures Consistent(Reap(rooms, id), bound)
  {
    var r := Reap(rooms, id);
    forall c | c in bound ensures bound[c].room in r && Member(c, bound[c].name) in r[bound[c].room].users {
      assert Member(c, bound[c].name) in rooms[bound[c].room].users;
    }
  }

  /** What a JavaScript binding holds while the callback runs. */
  datatype Binding = Uninitialized | Holds(roomId: RoomId)

  /** How the timer callback ends. */
  datatype TimerOutcome = Threw(error: string) | Completed(rooms: map<RoomId, Room>)

  /**
   * The server process after a timer callback: still serving its registry,
   * or gone. No handler for uncaught exceptions is installed, so an
   * exception thrown by a timer callback ends the process, and the whole
   * in-memory registry with it.
   */
  datatype Process = Running(rooms: map<RoomId, Room>) | Terminated(error: string)

  /** Name resolution: the innermost scope that declares `name` decides. */
  function Resolve(scopes: seq<map<string, Binding>>, name: string): Binding
  {
    if scopes == [] then Uninitialized
    else if name in scopes[0] then scopes[0][name]
    else Resolve(scopes[1..], name)
  }

  /**
   * The callback as written. Its block declares `const currentRoom`, so the
   * `currentRoom` read in that declaration's own initializer resolves to the
   * inner binding, which is not initialized yet: the read throws a
   * ReferenceError before the registry is consulted. Had the read reached
   * the armed id, `rooms.delete` would still be handed the room object, not
   * its id, and would delete nothing.
   */
  function CleanupAsWritten(rooms: map<RoomId, Room>, armed: RoomId): (r: TimerOutcome)
    ensures r.Threw? ==> r.error == "ReferenceError"
    ensures r.Completed? ==> r.rooms == rooms
  {
    var scopes := [map["currentRoom" := Uninitialized], map["currentRoom" := Holds(armed)]];
    match Resolve(scopes, "currentRoom")
    case Uninitialized => Threw("ReferenceError")
    case Holds(id) => Completed(rooms)
  }

  /** What becomes of the process once a timer callback has run. */
  function Settle(o: TimerOutcome): (p: Process)
    ensures p.Terminated? <==> o.Threw?
    ensures p.Running? ==> p.rooms == o.rooms
  {
    match o
    case Threw(e) => Terminated(e)
    case Completed(rooms) => Running(rooms)
  }

  /**
   * The as-written callback throws a ReferenceError for every registry and
   * every armed id, before it reaches the registry.
   */
  lemma AsWrittenAlwaysThrows(rooms: map<RoomId, Room>, armed: RoomId)
    ensures CleanupAsWritten(rooms, armed) == Threw("ReferenceError")
  {
  }

  /**
   * The input that shows it: a room whose last member has left. When its
   * timer fires, the as-written callback throws, the exception is uncaught
   * and the process terminates, losing every room and connection. The
   * intended step removes the empty room and the server keeps running.
   */
  lemma AsWrittenTerminatesOnEmptiedRoom()
    ensures var rooms := map["a1b2c3d4" := NewRoom("a1b2c3d4", "")];
      && Settle(CleanupAsWritten(rooms, "a1b2c3d4")) == Terminated("ReferenceError")
      && Settle(Completed(Reap(rooms, "a1b2c3d4"))) == Running(map[])
  {
    var rooms := map["a1b2c3d4" := NewRoom("a1b2c3d4", "")];
    AsWrittenAlwaysThrows(rooms, "a1b2c3d4");
    assert Reap(rooms, "a1b2c3d4").Keys == {};
  }
}
