/**
 * The outbound events and the fan-out that addresses them: to one
 * connection, to every member of a room but the sender, or to every member.
 */
module Events {
  import opened Rooms

  /** The payloads the server emits, one constructor per event name. */
  datatype Event =
    | RoomState(code: string, language: string, users: seq<Member>)    // 'room-state'
    | Error(message: string)                                           // 'error'
    | UserJoined(id: ConnId, name: string, users: seq<Member>)         // 'user-joined'
    | CodeUpdate(code: string, userId: ConnId)                         // 'code-update'
    | LanguageUpdate(language: string)                                 // 'language-update'
    | CursorMove(userId: ConnId, userName: string, position: string, selection: string)  // 'cursor-move'
    | UserLeft(id: ConnId, name: string, users: seq<Member>)           // 'user-left'

  /** One delivery: the event and the connection it is addressed to. */
  datatype Emission = Emission(to: ConnId, event: Event)

  /** `socket.to(room)`: the members of the room other than the sender, in list order. */
  function Others(users: seq<Member>, sender: ConnId): (r: seq<ConnId>)
    ensures forall c :: c in r <==> c in Ids(users) && c != sender
    ensures |r| <= |users|
  {
    if users == [] then []
    else if users[0].id == sender then Others(users[1..], sender)
    else [users[0].id] + Others(users[1..], sender)
  }

  /**
   * "Everyone but the sender" is the `users` filter that a disconnect
   * applies, read as ids: the same concept, not a second one.
   */
  lemma {:induction false} OthersAreWithout(users: seq<Member>, sender: ConnId)
    ensures Others(users, sender) == Ids(Without(users, sender))
  {
    if users != [] {
      OthersAreWithout(users[1..], sender);
      if users[0].id != sender {
        var w := Without(users[1..], sender);
        assert Without(users, sender) == [users[0]] + w;
        assert Ids([users[0]] + w) == [users[0].id] + Ids(w);
      }
    }
  }

  /** The same event addressed to each of `ids`, in order. */
  function Broadcast(ids: seq<ConnId>, ev: Event): (r: seq<Emission>)
    ensures |r| == |ids|
    ensures forall i :: 0 <= i < |ids| ==> r[i] == Emission(ids[i], ev)
  {
    if ids == [] then [] else [Emission(ids[0], ev)] + Broadcast(ids[1..], ev)
  }

  /** When the sender is not listed, "everyone but the sender" is everyone. */
  lemma {:induction false} OthersOfNonMember(users: seq<Member>, sender: ConnId)
    requires sender !in Ids(users)
    ensures Others(users, sender) == Ids(users)
  {
    if users != [] {
      assert Ids(users)[0] == users[0].id;
      assert Ids(users[1..]) == Ids(users)[1..];
      OthersOfNonMember(users[1..], sender);
    }
  }

  /**
   * A newly appended member's "everyone but me" is exactly the members that
   * were there before, in join order.
   */
  lemma {:induction false} OthersOfNewcomer(users: seq<Member>, m: Member)
    requires m.id !in Ids(users)
    ensures Others(users + [m], m.id) == Ids(users)
  {
    if users == [] {
      assert [m][1..] == [];
    } else {
      assert (users + [m])[0] == users[0] && (users + [m])[1..] == users[1..] + [m];
      assert Ids(users)[0] == users[0].id;
      assert Ids(users[1..]) == Ids(users)[1..];
      OthersOfNewcomer(users[1..], m);
    }
  }
}
