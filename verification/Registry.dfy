/**
 The mailboxes' messages, the router's three tables and what each handler does to them, for any
 representation `C` of a session's channel and `H` of a room actor's mailbox handle.
 */
module Registry {
  import opened Types
  import opened Sequences

  datatype Router<C, H> = Router(users: map<UserId, C>, online: seq<UserId>, rooms: map<RoomId, H>)

  /** What sessions put into the router's mailbox. */
  datatype RouterMail<C> =
    | RegisterUser(user: UserId, chan: C)
    | UnregisterUser(user: UserId, origin: C)
    | SendDirectMessage(id: MsgId, conv: string, from: UserId, to: UserId, content: string)
    | SendRoomMessage(id: MsgId, room: RoomId, from: UserId, content: string)
    | JoinRoom(user: UserId, room: RoomId, chan: C)
    | LeaveRoom(user: UserId, room: RoomId)

  /** What the router puts into a room's mailbox. */
  datatype RoomMail<C> =
    | AddMember(user: UserId, chan: C)
    | RemoveMember(user: UserId)
    | SendMessage(id: MsgId, from: UserId, content: string)

  function Without(us: seq<UserId>, u: UserId): seq<UserId> {
    if us == [] then [] else (if us[0] == u then [] else [us[0]]) + Without(us[1..], u)
  }

  lemma {:induction false} WithoutHolds(us: seq<UserId>, u: UserId)
    ensures forall v :: v in Without(us, u) <==> v in us && v != u
  {
    if us != [] {
      WithoutHolds(us[1..], u);
      assert us == [us[0]] + us[1..];
    }
  }

  lemma {:induction false} WithoutKeepsDistinct(us: seq<UserId>, u: UserId)
    requires NoDup(us)
    ensures NoDup(Without(us, u))
  {
    if us != [] {
      NoDupTail(us[1..], us[0]) by { assert [us[0]] + us[1..] == us; }
      WithoutKeepsDistinct(us[1..], u);
      WithoutHolds(us[1..], u);
    }
  }

  /** A user who is already online keeps the entry; the newcomer is refused. */
  function Register<C, H>(r: Router<C, H>, u: UserId, c: C): Router<C, H> {
    if u in r.users then r else r.(users := r.users[u := c], online := r.online + [u])
  }

  function Unregister<C, H>(r: Router<C, H>, u: UserId): Router<C, H> {
    if u in r.users then r.(users := r.users - {u}, online := Without(r.online, u)) else r
  }

  /** A room keeps the entry it has: a second AddMember of the same user is refused. */
  function AddMemberTo<C>(members: map<UserId, C>, u: UserId, c: C): map<UserId, C> {
    if u in members then members else members[u := c]
  }

  /** `online` lists each registered user exactly once, and nobody else. */
  ghost predicate ListsOnline<C>(online: seq<UserId>, users: map<UserId, C>) {
    NoDup(online) && (forall u :: u in online <==> u in users)
  }

  ghost predicate Agrees<C, H>(r: Router<C, H>) {
    ListsOnline(r.online, r.users)
  }

  lemma RegisterAgrees<C, H>(r: Router<C, H>, u: UserId, c: C)
    requires Agrees(r)
    ensures Agrees(Register(r, u, c))
  {
    if u !in r.users {
      NoDupAppend(r.online, u);
    }
  }

  lemma UnregisterAgrees<C, H>(r: Router<C, H>, u: UserId)
    requires Agrees(r)
    ensures Agrees(Unregister(r, u))
  {
    WithoutKeepsDistinct(r.online, u);
    WithoutHolds(r.online, u);
  }
}
