/**
 * The room registry's values: rooms, their member lists, the per-connection
 * binding, and the invariant that ties members to bound connections.
 */
module Rooms {

  type RoomId = string
  type ConnId = string

  /** Room ids are the first eight characters of a random UUID. */
  const IdLength := 8
  const DefaultLanguage := "javascript"
  const NotFoundMessage := "Room not found"
  /** A connection that joins without a name is called "User-" and the first four characters of its id. */
  const FallbackPrefix := "User-"
  const FallbackIdChars := 4

  /** One entry of a room's `users` list. */
  datatype Member = Member(id: ConnId, name: string)

  /** A live room; `createdAt` is informational and not modelled. */
  datatype Room = Room(id: RoomId, code: string, language: string, users: seq<Member>)

  /** What a bound connection remembers: its `currentRoom` and its `username`. */
  datatype Session = Session(room: RoomId, name: string)

  /** The record `POST /api/rooms` stores: the given id and code, the default language, nobody in it. */
  function NewRoom(id: RoomId, code: string): (r: Room)
    ensures r.id == id && r.code == code && r.language == DefaultLanguage
    ensures r.users == [] && Ids(r.users) == []
  {
    Room(id, code, DefaultLanguage, [])
  }

  /**
   * The room after `users.push(m)`: the newcomer is listed last, everyone
   * before keeps their place, and nothing but the list changes.
   */
  function Joined(room: Room, m: Member): (r: Room)
    ensures r.id == room.id && r.code == room.code && r.language == room.language
    ensures Ids(r.users) == Ids(room.users) + [m.id]
    ensures m in r.users && forall x :: x in room.users ==> x in r.users
  {
    var users := room.users + [m];
    assert forall i :: 0 <= i < |users| ==> Ids(users)[i] == (Ids(room.users) + [m.id])[i];
    room.(users := users)
  }

  /**
   * The room after `users = users.filter(u => u.id !== id)`: the leaving
   * connection is no longer listed, every other member still is, and a
   * connection that was not listed changes nothing.
   */
  function Left(room: Room, id: ConnId): (r: Room)
    ensures r.id == room.id && r.code == room.code && r.language == room.language
    ensures id !in Ids(r.users)
    ensures forall x :: x in r.users <==> x in room.users && x.id != id
    ensures id !in Ids(room.users) ==> r == room
  {
    var users := Without(room.users, id);
    assert forall i :: 0 <= i < |users| ==> Ids(users)[i] != id by {
      forall i | 0 <= i < |users| ensures Ids(users)[i] != id {
        assert users[i] in users;
      }
    }
    assert id !in Ids(room.users) ==> users == room.users by {
      if id !in Ids(room.users) {
        WithoutAbsent(room.users, id);
      }
    }
    room.(users := users)
  }

  /** The connection ids of a member list, in list order. */
  function Ids(users: seq<Member>): (r: seq<ConnId>)
    ensures |r| == |users|
    ensures forall i :: 0 <= i < |users| ==> r[i] == users[i].id
  {
    if users == [] then [] else [users[0].id] + Ids(users[1..])
  }

  /** The members whose id differs from `id`, in their original order. */
  function Without(users: seq<Member>, id: ConnId): (r: seq<Member>)
    ensures forall m :: m in r <==> m in users && m.id != id
    ensures |r| <= |users|
  {
    if users == [] then []
    else if users[0].id == id then Without(users[1..], id)
    else [users[0]] + Without(users[1..], id)
  }

  predicate DistinctIds(users: seq<Member>)
  {
    forall i, j :: 0 <= i < j < |users| ==> users[i].id != users[j].id
  }

  /** Filtering distributes over concatenation, so the survivors keep their relative order. */
  lemma {:induction false} WithoutConcat(a: seq<Member>, b: seq<Member>, id: ConnId)
    ensures Without(a + b, id) == Without(a, id) + Without(b, id)
  {
    if a != [] {
      assert (a + b)[0] == a[0] && (a + b)[1..] == a[1..] + b;
      WithoutConcat(a[1..], b, id);
      if a[0].id != id {
        assert Without(a + b, id) == [a[0]] + (Without(a[1..], id) + Without(b, id));
      }
    } else {
      assert a + b == b;
    }
  }

  /** Removing an id that is not listed changes nothing (leaving while never joined). */
  lemma {:induction false} WithoutAbsent(users: seq<Member>, id: ConnId)
    requires id !in Ids(users)
    ensures Without(users, id) == users
  {
    if users != [] {
      assert Ids(users)[0] == users[0].id;
      assert forall k :: 0 <= k < |users| - 1 ==> Ids(users[1..])[k] == Ids(users)[k + 1];
      WithoutAbsent(users[1..], id);
    }
  }

  /** Filtering keeps ids distinct. */
  lemma {:induction false} WithoutDistinct(users: seq<Member>, id: ConnId)
    requires DistinctIds(users)
    ensures DistinctIds(Without(users, id))
  {
    if users != [] {
      var tail := users[1..];
      DistinctTail(users);
      WithoutDistinct(tail, id);
      if users[0].id != id {
        var w := Without(tail, id);
        forall m | m in w ensures m.id != users[0].id {
          var k :| 0 <= k < |tail| && tail[k] == m;
          assert users[k + 1] == m;
        }
        DistinctCons(users[0], w);
      }
    }
  }

  lemma DistinctTail(users: seq<Member>)
    requires users != [] && DistinctIds(users)
    ensures DistinctIds(users[1..])
  {
    var tail := users[1..];
    forall i, j | 0 <= i < j < |tail| ensures tail[i].id != tail[j].id {
      assert tail[i] == users[i + 1] && tail[j] == users[j + 1];
    }
  }

  lemma DistinctCons(m: Member, w: seq<Member>)
    requires DistinctIds(w) && forall x :: x in w ==> x.id != m.id
    ensures DistinctIds([m] + w)
  {
    var r := [m] + w;
    forall i, j | 0 <= i < j < |r| ensures r[i].id != r[j].id {
      if i == 0 {
        assert r[j] == w[j - 1] && w[j - 1] in w;
      } else {
        assert r[i] == w[i - 1] && r[j] == w[j - 1];
      }
    }
  }

  /** The display name a join resolves: the supplied name unless it is empty. */
  function DisplayName(userName: string, conn: ConnId): (r: string)
    ensures r != []
    ensures userName != "" ==> r == userName
    ensures userName == "" ==> r == FallbackName(conn)
  {
    if userName != "" then userName else FallbackName(conn)
  }

  /** `User-${id.slice(0, 4)}`: the slice takes the whole id when it is shorter. */
  function FallbackName(conn: ConnId): string
  {
    FallbackPrefix + conn[..Prefix(conn)]
  }

  function Prefix(conn: ConnId): nat
  {
    if |conn| < FallbackIdChars then |conn| else FallbackIdChars
  }

  /**
   * Two connections get the same fallback name exactly when their ids agree
   * on the first four characters: generated names are distinct only for ids
   * that differ within that prefix.
   */
  lemma FallbackNamesEqualIff(a: ConnId, b: ConnId)
    ensures FallbackName(a) == FallbackName(b) <==> a[..Prefix(a)] == b[..Prefix(b)]
  {
    if FallbackName(a) == FallbackName(b) {
      var n := |FallbackPrefix|;
      assert FallbackName(a)[n..] == a[..Prefix(a)];
      assert FallbackName(b)[n..] == b[..Prefix(b)];
    }
  }

  /**
   * The registry invariant: each room is stored under its own id, which has
   * eight characters, and lists each connection at most once; every bound
   * connection is listed, under its name, in the room it is bound to; and
   * every listed member is a connection bound to that room under that name.
   */
  predicate Consistent(rooms: map<RoomId, Room>, bound: map<ConnId, Session>)
    ensures Consistent(rooms, bound) ==> forall c :: c in bound ==> bound[c].room in rooms && rooms[bound[c].room].users != []
  {
    WellKeyed(rooms) && BoundAreListed(rooms, bound) && ListedAreBound(rooms, bound)
  }

  predicate WellKeyed(rooms: map<RoomId, Room>)
  {
    forall k :: k in rooms ==> rooms[k].id == k && |k| == IdLength && DistinctIds(rooms[k].users)
  }

  predicate BoundAreListed(rooms: map<RoomId, Room>, bound: map<ConnId, Session>)
  {
    forall c :: c in bound ==> bound[c].room in rooms && Member(c, bound[c].name) in rooms[bound[c].room].users
  }

  predicate ListedAreBound(rooms: map<RoomId, Room>, bound: map<ConnId, Session>)
  {
    forall k, m :: k in rooms && m in rooms[k].users ==> m.id in bound && bound[m.id] == Session(k, m.name)
  }

  /** Under the invariant a bound connection is listed in no room but its own. */
  lemma BoundListedOnlyInOwnRoom(rooms: map<RoomId, Room>, bound: map<ConnId, Session>, c: ConnId, k: RoomId)
    requires Consistent(rooms, bound)
    requires k in rooms && c in Ids(rooms[k].users)
    ensures c in bound && bound[c].room == k
  {
    var i :| 0 <= i < |rooms[k].users| && Ids(rooms[k].users)[i] == c;
    assert rooms[k].users[i] in rooms[k].users;
  }

  /** Inserting a fresh, empty room keeps the invariant. */
  lemma CreateKeepsConsistent(rooms: map<RoomId, Room>, bound: map<ConnId, Session>, id: RoomId, code: string)
    requires Consistent(rooms, bound)
    requires id !in rooms && |id| == IdLength
    ensures Consistent(rooms[id := NewRoom(id, code)], bound)
  {
  }

  /** A join from an unbound connection keeps the invariant. */
  lemma JoinKeepsConsistent(rooms: map<RoomId, Room>, bound: map<ConnId, Session>, k: RoomId, m: Member)
    requires Consistent(rooms, bound)
    requires k in rooms && m.id !in bound
    ensures Consistent(rooms[k := Joined(rooms[k], m)], bound[m.id := Session(k, m.name)])
  {
    JoinKeepsKeyed(rooms, bound, k, m);
    JoinKeepsBound(rooms, bound, k, m);
    JoinKeepsMembers(rooms, bound, k, m);
  }

  lemma JoinKeepsKeyed(rooms: map<RoomId, Room>, bound: map<ConnId, Session>, k: RoomId, m: Member)
    requires Consistent(rooms, bound)
    requires k in rooms && m.id !in bound
    ensures WellKeyed(rooms[k := Joined(rooms[k], m)])
  {
    var users := rooms[k].users;
    var users' := users + [m];
    forall i, j | 0 <= i < j < |users'| ensures users'[i].id != users'[j].id {
      if j == |users| {
        assert users[i] in users;
      }
    }
    assert rooms[k := Joined(rooms[k], m)][k].users == users';
  }

  lemma JoinKeepsBound(rooms: map<RoomId, Room>, bound: map<ConnId, Session>, k: RoomId, m: Member)
    requires Consistent(rooms, bound)
    requires k in rooms && m.id !in bound
    ensures BoundAreListed(rooms[k := Joined(rooms[k], m)], bound[m.id := Session(k, m.name)])
  {
    var rooms' := rooms[k := Joined(rooms[k], m)];
    var bound' := bound[m.id := Session(k, m.name)];
    forall c | c in bound' ensures bound'[c].room in rooms' && Member(c, bound'[c].name) in rooms'[bound'[c].room].users {
      if c != m.id && bound[c].room == k {
        assert Member(c, bound[c].name) in rooms[k].users;
      }
    }
  }

  lemma JoinKeepsMembers(rooms: map<RoomId, Room>, bound: map<ConnId, Session>, k: RoomId, m: Member)
    requires Consistent(rooms, bound)
    requires k in rooms && m.id !in bound
    ensures ListedAreBound(rooms[k := Joined(rooms[k], m)], bound[m.id := Session(k, m.name)])
  {
    var rooms' := rooms[k := Joined(rooms[k], m)];
    var bound' := bound[m.id := Session(k, m.name)];
    forall j, x | j in rooms' && x in rooms'[j].users ensures x.id in bound' && bound'[x.id] == Session(j, x.name) {
      if x != m || j != k {
        assert x in rooms[j].users;
      }
    }
  }

  /** Replacing the code or the language of a room keeps the invariant. */
  lemma EditKeepsConsistent(rooms: map<RoomId, Room>, bound: map<ConnId, Session>, k: RoomId, code: string, language: string)
    requires Consistent(rooms, bound)
    requires k in rooms
    ensures Consistent(rooms[k := rooms[k].(code := code, language := language)], bound)
  {
    var rooms' := rooms[k := rooms[k].(code := code, language := language)];
    forall c | c in bound ensures bound[c].room in rooms' && Member(c, bound[c].name) in rooms'[bound[c].room].users {
    }
  }

  /** Removing a bound connection from its room and unbinding it keeps the invariant. */
  lemma LeaveKeepsConsistent(rooms: map<RoomId, Room>, bound: map<ConnId, Session>, c: ConnId)
    requires Consistent(rooms, bound)
    requires c in bound
    ensures Consistent(rooms[bound[c].room := Left(rooms[bound[c].room], c)], bound - {c})
  {
    var k := bound[c].room;
    var rooms' := rooms[k := Left(rooms[k], c)];
    var bound' := bound - {c};
    WithoutDistinct(rooms[k].users, c);
    assert WellKeyed(rooms');
    LeaveKeepsBound(rooms, bound, c);
    LeaveKeepsMembers(rooms, bound, c);
  }

  lemma LeaveKeepsBound(rooms: map<RoomId, Room>, bound: map<ConnId, Session>, c: ConnId)
    requires Consistent(rooms, bound)
    requires c in bound
    ensures BoundAreListed(rooms[bound[c].room := Left(rooms[bound[c].room], c)], bound - {c})
  {
    var k := bound[c].room;
    var rooms', bound' := rooms[k := Left(rooms[k], c)], bound - {c};
    forall d | d in bound' ensures bound'[d].room in rooms' && Member(d, bound'[d].name) in rooms'[bound'[d].room].users {
      assert Member(d, bound[d].name) in rooms[bound[d].room].users;
    }
  }

  lemma LeaveKeepsMembers(rooms: map<RoomId, Room>, bound: map<ConnId, Session>, c: ConnId)
    requires Consistent(rooms, bound)
    requires c in bound
    ensures ListedAreBound(rooms[bound[c].room := Left(rooms[bound[c].room], c)], bound - {c})
  {
    var k := bound[c].room;
    var rooms', bound' := rooms[k := Left(rooms[k], c)], bound - {c};
    forall j, m | j in rooms' && m in rooms'[j].users ensures m.id in bound' && bound'[m.id] == Session(j, m.name) {
      assert m in rooms[j].users;
    }
  }

  /** Unbinding a connection whose room is already gone keeps the invariant. */
  lemma UnbindKeepsConsistent(rooms: map<RoomId, Room>, bound: map<ConnId, Session>, c: ConnId)
    requires Consistent(rooms, bound)
    requires c !in bound
    ensures Consistent(rooms, bound - {c})
  {
    assert bound - {c} == bound;
  }
}
