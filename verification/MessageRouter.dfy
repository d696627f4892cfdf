/** The router as the object it is: its tables, and the loop that drains its mailbox. */
module MessageRouters {
  import opened Types
  import opened Sequences
  import opened Channels
  import opened Registry
  import opened Store
  import opened RouterViews

  type RoomBox = Mailbox<RoomMail<Channel>>

  ghost predicate BoxesApart(rooms: map<RoomId, RoomBox>) {
    forall r, q :: r in rooms && q in rooms && r != q ==> rooms[r] != rooms[q]
  }

  /** The channel a message asks the router to register. */
  function Offered<C>(m: RouterMail<C>): set<C> {
    if m.RegisterUser? then {m.chan} else {}
  }

  class MessageRouter {
    var users: map<UserId, Channel>
    var online: seq<UserId>
    var rooms: map<RoomId, RoomBox>
    var spawned: seq<Write>

    constructor ()
      ensures View() == Router(map[], [], map[]) && spawned == [] && Valid()
    {
      users, online, rooms, spawned := map[], [], map[], [];
    }

    ghost function View(): View<Channel>
      reads this, rooms.Values
    {
      Router(users, online, map r | r in rooms :: rooms[r].queue)
    }

    /** `online` lists the registered users once each, and every room has a mailbox of its own. */
    ghost predicate Valid()
      reads this
    {
      ListsOnline(online, users) && BoxesApart(rooms)
    }

    method HandleRegisterUser(u: UserId, c: Channel) returns (ok: bool)
      requires Valid()
      modifies this`users, this`online
      ensures Valid() && ok == (u !in old(users)) && View() == Register(old(View()), u, c)
      ensures if ok then users == old(users)[u := c] && online == old(online) + [u]
              else users == old(users) && online == old(online)
    {
      RegisterAgrees(View(), u, c);
      if u in users {
        return false;
      }
      users := users[u := c];
      online := online + [u];
      return true;
    }

    method HandleUnregisterUser(u: UserId)
      requires Valid()
      modifies this`users, this`online
      ensures Valid() && View() == Unregister(old(View()), u)
      ensures users == old(users) - {u} && Subsequence(online, old(online))
      ensures forall v :: v in online <==> v in old(online) && v != u
    {
      UnregisterAgrees(View(), u);
      assert u !in users ==> users - {u} == users;
      WithoutHolds(online, u);
      WithoutIsSubsequence(online, u);
      if u !in users {
        WithoutAbsent(online, u);
      }
      if u in users {
        users := users - {u};
        var kept := [];
        for i := 0 to |online|
          invariant online == old(online) && users == old(users) - {u}
          invariant kept == Without(online[..i], u)
        {
          WithoutConcat(online[..i], [online[i]], u);
          assert online[..i + 1] == online[..i] + [online[i]];
          if online[i] != u {
            kept := kept + [online[i]];
          }
        }
        assert online[..|online|] == online;
        online := kept;
      }
    }

    /** The write is spawned whoever is online; the recipient's channel is tried once. */
    method HandleDirectMessage(id: MsgId, conv: string, from: UserId, to: UserId, content: string, at: int)
      modifies this`spawned, (if to in users then {users[to]} else {})`queue
      ensures spawned == old(spawned) + [DmWrite(from.project, conv, id, from.user, to.user, content, at)]
      ensures to in users ==> users[to].View() == Offer(old(users[to].View()), DirectMessage(from, content, id))
    {
      spawned := spawned + [DmBody(id, conv, from, to, content, at)];
      if to in users {
        var _ := users[to].TrySend(DirectMessage(from, content, id));
      }
    }

    /** The room is opened by its first join; it keeps its mailbox for good. */
    method HandleJoinRoom(u: UserId, room: RoomId, c: Channel)
      requires Valid()
      modifies this`rooms, (if room in rooms then {rooms[room]} else {})
      ensures Valid() && View() == Join(old(View()), room, AddMember(u, c))
      ensures Grown(old(rooms)) && fresh(rooms.Values - old(rooms.Values))
    {
      if room !in rooms {
        var box := new Mailbox();
        rooms := rooms[room := box];
      }
      rooms[room].Send(AddMember(u, c));
    }

    method HandleLeaveRoom(u: UserId, room: RoomId)
      requires Valid()
      modifies if room in rooms then {rooms[room]} else {}
      ensures Valid() && View() == Forward(old(View()), room, RemoveMember(u))
    {
      if room in rooms {
        rooms[room].Send(RemoveMember(u));
      }
    }

    /** A room nobody ever joined answers at once that the message failed. */
    method HandleRoomMessage(id: MsgId, room: RoomId, from: UserId, content: string) returns (answer: Option<Status>)
      requires Valid()
      modifies if room in rooms then {rooms[room]} else {}
      ensures Valid() && View() == Forward(old(View()), room, SendMessage(id, from, content))
      ensures answer == if room in rooms then None else Some(Failed)
    {
      if room in rooms {
        rooms[room].Send(SendMessage(id, from, content));
        return None;
      }
      return Some(Failed);
    }

    /** Every room of `was` still has the same mailbox. */
    ghost predicate Grown(was: map<RoomId, RoomBox>)
      reads this
    {
      forall r :: r in was ==> r in rooms && rooms[r] == was[r]
    }

    /** Everything but a direct message touches no session's channel. */
    method HandleOther(m: RouterMail<Channel>)
      requires Valid() && !m.SendDirectMessage?
      modifies this`users, this`online, this`rooms, rooms.Values
      ensures Valid() && View() == Next(old(View()), m)
      ensures Grown(old(rooms)) && fresh(rooms.Values - old(rooms.Values))
      ensures users.Values <= old(users.Values) + Offered(m)
    {
      match m
      case RegisterUser(u, c) =>
        var _ := HandleRegisterUser(u, c);
      case UnregisterUser(u, _) =>
        HandleUnregisterUser(u);
      case SendRoomMessage(id, room, from, content) =>
        var _ := HandleRoomMessage(id, room, from, content);
      case JoinRoom(u, room, c) =>
        HandleJoinRoom(u, room, c);
      case LeaveRoom(u, room) =>
        HandleLeaveRoom(u, room);
    }

    method Deliver(m: RouterMail<Channel>, at: int, ghost reach: set<Channel>)
      requires m.SendDirectMessage? && users.Values <= reach
      modifies this`spawned, reach`queue
      ensures spawned == old(spawned) + Spawns(m, at)
      ensures ViewOf(reach) == NextChannels(old(View()), m, old(ViewOf(reach)))
    {
      ghost var view, chans := View(), ViewOf(reach);
      HandleDirectMessage(m.id, m.conv, m.from, m.to, m.content, at);
      forall c | c in reach
        ensures c.View() == NextChannel(view, m, c, chans[c])
      {
      }
    }

    method HandleQuietly(m: RouterMail<Channel>, ghost reach: set<Channel>)
      requires Valid() && !m.SendDirectMessage?
      modifies this`users, this`online, this`rooms, rooms.Values
      ensures Valid() && View() == Next(old(View()), m)
      ensures Grown(old(rooms)) && fresh(rooms.Values - old(rooms.Values))
      ensures users.Values <= old(users.Values) + Offered(m)
      ensures ViewOf(reach) == NextChannels(old(View()), m, old(ViewOf(reach)))
    {
      ghost var view, chans := View(), ViewOf(reach);
      HandleOther(m);
      assert ViewOf(reach) == chans;
      assert NextChannels(view, m, chans) == chans;
    }

    method Handle(m: RouterMail<Channel>, at: int, ghost reach: set<Channel>)
      requires Valid() && users.Values <= reach
      modifies this, reach`queue, rooms.Values
      ensures Valid() && View() == Next(old(View()), m) && spawned == old(spawned) + Spawns(m, at)
      ensures Grown(old(rooms)) && fresh(rooms.Values - old(rooms.Values))
      ensures users.Values <= old(users.Values) + Offered(m)
      ensures ViewOf(reach) == NextChannels(old(View()), m, old(ViewOf(reach)))
    {
      if m.SendDirectMessage? {
        ghost var view := View();
        Deliver(m, at, reach);
        assert View() == view;
      } else {
        HandleQuietly(m, reach);
      }
    }

    /**
     Drain the mailbox in order; `clock(i)` is the time when message `i` is handled, and `reach`
     holds the channels the router is or will be given.
     */
    method Run(ms: seq<RouterMail<Channel>>, clock: nat -> int, ghost reach: set<Channel>)
      requires Valid() && users.Values <= reach && forall i :: 0 <= i < |ms| ==> Offered(ms[i]) <= reach
      modifies this, reach`queue, rooms.Values
      ensures Valid() && View() == ViewAfter(old(View()), ms) && spawned == old(spawned) + SpawnedBy(ms, clock)
      ensures Grown(old(rooms)) && fresh(rooms.Values - old(rooms.Values)) && users.Values <= reach
      ensures ViewOf(reach) == ChannelsAfter(old(View()), ms, old(ViewOf(reach)))
    {
      ghost var view, done, boxes, chans := View(), spawned, rooms.Values, ViewOf(reach);
      for i := 0 to |ms|
        invariant Valid() && View() == ViewAfter(view, ms[..i]) && spawned == done + SpawnedBy(ms[..i], clock)
        invariant Grown(old(rooms)) && fresh(rooms.Values - boxes)
        invariant users.Values <= reach
        invariant ViewOf(reach) == ChannelsAfter(view, ms[..i], chans)
      {
        assert ms[..i + 1][..i] == ms[..i];
        Handle(ms[i], clock(i), reach);
      }
      assert ms[..|ms|] == ms;
    }
  }
}
