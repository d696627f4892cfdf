/**
 What the router's handlers do to its tables, to the rooms' mailboxes and to the recipients' channels,
 message by message, and what a whole list of messages leaves behind.
 */
module RouterViews {
  import opened Types
  import opened Sequences
  import opened Channels
  import opened Registry
  import opened Store

  /** The router with each room's mailbox shown by what is queued in it. */
  type View<C> = Router<C, seq<RoomMail<C>>>

  /** A message for a room that nobody has joined yet goes nowhere. */
  function Forward<C>(v: View<C>, room: RoomId, m: RoomMail<C>): View<C> {
    if room in v.rooms then v.(rooms := v.rooms[room := v.rooms[room] + [m]]) else v
  }

  function Join<C>(v: View<C>, room: RoomId, m: RoomMail<C>): View<C> {
    Forward(if room in v.rooms then v else v.(rooms := v.rooms[room := []]), room, m)
  }

  function Next<C>(v: View<C>, m: RouterMail<C>): View<C> {
    match m
    case RegisterUser(u, c) => Register(v, u, c)
    case UnregisterUser(u, _) => Unregister(v, u)
    case SendDirectMessage(_, _, _, _, _) => v
    case SendRoomMessage(id, room, from, content) => Forward(v, room, SendMessage(id, from, content))
    case JoinRoom(u, room, c) => Join(v, room, AddMember(u, c))
    case LeaveRoom(u, room) => Forward(v, room, RemoveMember(u))
  }

  function ViewAfter<C>(v: View<C>, ms: seq<RouterMail<C>>): View<C> {
    if ms == [] then v else Next(ViewAfter(v, ms[..|ms| - 1]), ms[|ms| - 1])
  }

  /** The persistence call a message spawns. */
  function Spawns<C>(m: RouterMail<C>, at: int): seq<Write> {
    match m
    case SendDirectMessage(id, conv, from, to, content) => [DmBody(id, conv, from, to, content, at)]
    case _ => []
  }

  function SpawnedBy<C>(ms: seq<RouterMail<C>>, clock: nat -> int): seq<Write> {
    if ms == [] then [] else SpawnedBy(ms[..|ms| - 1], clock) + Spawns(ms[|ms| - 1], clock(|ms| - 1))
  }

  /** A direct message is offered to the channel its recipient has at that moment; no other channel changes. */
  ghost function NextChannel<C>(v: View<C>, m: RouterMail<C>, c: C, q: Chan<ChatMessage>): Chan<ChatMessage> {
    if m.SendDirectMessage? && m.to in v.users && v.users[m.to] == c
    then Offer(q, DirectMessage(m.from, m.content, m.id)) else q
  }

  ghost function NextChannels<C>(v: View<C>, m: RouterMail<C>, qs: map<C,
                                 Chan<ChatMessage>>): map<C, Chan<ChatMessage>> {
    map c | c in qs :: NextChannel(v, m, c, qs[c])
  }

  ghost function ChannelsAfter<C>(v: View<C>, ms: seq<RouterMail<C>>, qs: map<C,
                                  Chan<ChatMessage>>): map<C, Chan<ChatMessage>> {
    if ms == [] then qs else
      var init := ms[..|ms| - 1];
      NextChannels(ViewAfter(v, init), ms[|ms| - 1], ChannelsAfter(v, init, qs))
  }

  // ---- What a list of messages leaves behind, without reference to the handlers ----

  function Directs<C>(ms: seq<RouterMail<C>>): nat {
    if ms == [] then 0 else Directs(ms[..|ms| - 1]) + if ms[|ms| - 1].SendDirectMessage? then 1 else 0
  }

  /** `w` asks for the row of the direct message `m`, under its sender's project, as of `at`. */
  predicate Records<C>(w: Write, m: RouterMail<C>, at: int) {
    && m.SendDirectMessage? && w.DmWrite?
    && w.project == m.from.project && w.conv == m.conv && w.id == m.id
    && w.sender == m.from.user && w.recipient == m.to.user && w.text == m.content && w.at == at
  }

  /** The writes are the direct messages, one for one and in order, each with the time when it was handled. */
  ghost predicate RecordsAll<C>(ws: seq<Write>, ms: seq<RouterMail<C>>, clock: nat -> int) {
    && |ws| == Directs(ms)
    && (forall i :: 0 <= i < |ms| && ms[i].SendDirectMessage? ==>
          Directs(ms[..i]) < |ws| && Records(ws[Directs(ms[..i])], ms[i], clock(i)))
  }

  lemma OneMoreRecorded<C>(ws: seq<Write>, more: seq<Write>, ms: seq<RouterMail<C>>, clock: nat -> int)
    requires ms != [] && RecordsAll(ws, ms[..|ms| - 1], clock)
    requires var n := |ms| - 1;
             if ms[n].SendDirectMessage? then |more| == 1 && Records(more[0], ms[n], clock(n)) else more == []
    ensures RecordsAll(ws + more, ms, clock)
  {
    var init := ms[..|ms| - 1];
    forall i | 0 <= i < |ms| && ms[i].SendDirectMessage?
      ensures Directs(ms[..i]) < |ws + more| && Records((ws + more)[Directs(ms[..i])], ms[i], clock(i))
    {
      if i < |init| {
        assert ms[i] == init[i] && ms[..i] == init[..i];
      }
    }
  }

  lemma {:induction false} DirectsAreRecorded<C>(ms: seq<RouterMail<C>>, clock: nat -> int)
    ensures RecordsAll(SpawnedBy(ms, clock), ms, clock)
    decreases |ms|
  {
    if ms != [] {
      var n := |ms| - 1;
      DirectsAreRecorded(ms[..n], clock);
      OneMoreRecorded(SpawnedBy(ms[..n], clock), Spawns(ms[n], clock(n)), ms, clock);
    }
  }

  lemma {:induction false} AfterConcat<C>(v: View<C>, a: seq<RouterMail<C>>, b: seq<RouterMail<C>>)
    ensures ViewAfter(v, a + b) == ViewAfter(ViewAfter(v, a), b)
    decreases |b|
  {
    if b == [] {
      assert a + b == a;
    } else {
      AfterConcat(v, a, b[..|b| - 1]);
      assert (a + b)[..|a + b| - 1] == a + b[..|b| - 1];
    }
  }

  lemma {:induction false} AfterAgrees<C>(v: View<C>, ms: seq<RouterMail<C>>)
    requires Agrees(v)
    ensures Agrees(ViewAfter(v, ms))
    decreases |ms|
  {
    if ms != [] {
      var w, m := ViewAfter(v, ms[..|ms| - 1]), ms[|ms| - 1];
      AfterAgrees(v, ms[..|ms| - 1]);
      if m.RegisterUser? {
        RegisterAgrees(w, m.user, m.chan);
      } else if m.UnregisterUser? {
        UnregisterAgrees(w, m.user);
      }
    }
  }

  predicate Unregisters<C>(m: RouterMail<C>, u: UserId) {
    m.UnregisterUser? && m.user == u
  }

  /** `u` was registered with channel `c` before message `k` and not unregistered since. */
  ghost predicate OnlineSince<C>(v: View<C>, ms: seq<RouterMail<C>>, u: UserId, c: C, k: nat) {
    && k <= |ms|
    && (if k == 0 then u in v.users && v.users[u] == c
        else ms[k - 1] == RegisterUser(u, c) && u !in ViewAfter(v, ms[..k - 1]).users)
    && (forall j :: k <= j < |ms| ==> !Unregisters(ms[j], u))
  }

  lemma SinceGoesOn<C>(v: View<C>, ms: seq<RouterMail<C>>, m: RouterMail<C>, u: UserId, c: C, k: nat)
    requires k <= |ms|
    ensures OnlineSince(v, ms + [m], u, c, k) <==> OnlineSince(v, ms, u, c, k) && !Unregisters(m, u)
  {
    var all := ms + [m];
    assert all[|ms|] == m;
    assert forall j :: 0 <= j < |ms| ==> all[j] == ms[j];
    assert k > 0 ==> all[..k - 1] == ms[..k - 1];
  }

  lemma UserNext<C>(v: View<C>, m: RouterMail<C>, u: UserId, c: C)
    ensures var us := Next(v, m).users;
            u in us && us[u] == c <==>
              if u in v.users then v.users[u] == c && !Unregisters(m, u) else m == RegisterUser(u, c)
  {
  }

  /** A user is registered with `c` iff that registration was accepted and not undone since. */
  lemma {:induction false} OnlineIff<C>(v: View<C>, ms: seq<RouterMail<C>>, u: UserId, c: C)
    ensures var us := ViewAfter(v, ms).users;
            u in us && us[u] == c <==> exists k :: OnlineSince(v, ms, u, c, k)
    decreases |ms|
  {
    if ms == [] {
      if u in v.users && v.users[u] == c {
        assert OnlineSince(v, ms, u, c, 0);
      }
    } else {
      var init, m := ms[..|ms| - 1], ms[|ms| - 1];
      var w := ViewAfter(v, init);
      assert ms == init + [m];
      OnlineIff(v, init, u, c);
      UserNext(w, m, u, c);
      if u in w.users {
        if w.users[u] == c && !Unregisters(m, u) {
          var k :| OnlineSince(v, init, u, c, k);
          SinceGoesOn(v, init, m, u, c, k);
        }
      } else if m == RegisterUser(u, c) {
        assert OnlineSince(v, ms, u, c, |ms|);
      }
      forall k: nat | OnlineSince(v, ms, u, c, k)
        ensures var us := ViewAfter(v, ms).users; u in us && us[u] == c
      {
        if k <= |init| {
          SinceGoesOn(v, init, m, u, c, k);
        }
      }
    }
  }

  /** The mail a message means for `room`. */
  function MailOf<C>(m: RouterMail<C>, room: RoomId): seq<RoomMail<C>> {
    match m
    case JoinRoom(u, r, c) => if r == room then [AddMember(u, c)] else []
    case LeaveRoom(u, r) => if r == room then [RemoveMember(u)] else []
    case SendRoomMessage(id, r, from, content) => if r == room then [SendMessage(id, from, content)] else []
    case _ => []
  }

  function MailTo<C>(ms: seq<RouterMail<C>>, room: RoomId): seq<RoomMail<C>> {
    if ms == [] then [] else MailTo(ms[..|ms| - 1], room) + MailOf(ms[|ms| - 1], room)
  }

  predicate Joins<C>(m: RouterMail<C>, room: RoomId) {
    m.JoinRoom? && m.room == room
  }

  lemma OpenRoomNext<C>(v: View<C>, m: RouterMail<C>, room: RoomId)
    requires room in v.rooms
    ensures room in Next(v, m).rooms && Next(v, m).rooms[room] == v.rooms[room] + MailOf(m, room)
  {
  }

  lemma {:induction false} OpenRoomAfter<C>(v: View<C>, ms: seq<RouterMail<C>>, room: RoomId)
    requires room in v.rooms
    ensures room in ViewAfter(v, ms).rooms && ViewAfter(v, ms).rooms[room] == v.rooms[room] + MailTo(ms, room)
    decreases |ms|
  {
    if ms != [] {
      var init, m := ms[..|ms| - 1], ms[|ms| - 1];
      OpenRoomAfter(v, init, room);
      OpenRoomNext(ViewAfter(v, init), m, room);
      assert (v.rooms[room] + MailTo(init, room)) + MailOf(m, room) == v.rooms[room] + MailTo(ms, room);
    }
  }

  lemma {:induction false} ClosedRoomAfter<C>(v: View<C>, ms: seq<RouterMail<C>>, room: RoomId)
    requires room !in v.rooms && forall i :: 0 <= i < |ms| ==> !Joins(ms[i], room)
    ensures room !in ViewAfter(v, ms).rooms
    decreases |ms|
  {
    if ms != [] {
      ClosedRoomAfter(v, ms[..|ms| - 1], room);
    }
  }

  /**
   What is queued for a room: all the mail meant for it if the room existed, and otherwise the mail
   from its first join on; a room that nobody joined does not exist.
   */
  lemma RoomMailAfter<C>(v: View<C>, ms: seq<RouterMail<C>>, room: RoomId, k: nat)
    requires k <= |ms| && forall i :: 0 <= i < k ==> !Joins(ms[i], room)
    requires k < |ms| ==> Joins(ms[k], room)
    ensures room in ViewAfter(v, ms).rooms <==> room in v.rooms || k < |ms|
    ensures room in v.rooms ==> ViewAfter(v, ms).rooms[room] == v.rooms[room] + MailTo(ms, room)
    ensures room !in v.rooms && k < |ms| ==> ViewAfter(v, ms).rooms[room] == MailTo(ms[k..], room)
  {
    if room in v.rooms {
      OpenRoomAfter(v, ms, room);
    } else {
      ClosedRoomAfter(v, ms[..k], room);
      AfterConcat(v, ms[..k], ms[k..]);
      assert ms == ms[..k] + ms[k..];
      if k < |ms| {
        JoinedRoomAfter(ViewAfter(v, ms[..k]), ms[k..], room);
      }
    }
  }

  lemma JoinedRoomAfter<C>(v: View<C>, ms: seq<RouterMail<C>>, room: RoomId)
    requires ms != [] && Joins(ms[0], room) && room !in v.rooms
    ensures room in ViewAfter(v, ms).rooms && ViewAfter(v, ms).rooms[room] == MailTo(ms, room)
  {
    var ajar := v.(rooms := v.rooms[room := []]);
    SameOnceOpened(v, ajar, ms, room);
    OpenRoomAfter(ajar, ms, room);
  }

  /** Opening a room just before its first join makes no difference. */
  lemma {:induction false} SameOnceOpened<C>(v: View<C>, ajar: View<C>, ms: seq<RouterMail<C>>, room: RoomId)
    requires ms != [] && Joins(ms[0], room) && room !in v.rooms && ajar == v.(rooms := v.rooms[room := []])
    ensures ViewAfter(v, ms) == ViewAfter(ajar, ms)
    decreases |ms|
  {
    if |ms| == 1 {
      var init := ms[..|ms| - 1];
      assert init == [];
      assert ViewAfter(v, init) == v && ViewAfter(ajar, init) == ajar;
      assert ViewAfter(v, ms) == Next(v, ms[0]);
      assert ViewAfter(ajar, ms) == Next(ajar, ms[0]);
    } else {
      SameOnceOpened(v, ajar, ms[..|ms| - 1], room);
    }
  }

  /** The direct messages offered to `c`, in order: those whose recipient had it when they were handled. */
  ghost function DirectTo<C>(v: View<C>, ms: seq<RouterMail<C>>, c: C): seq<ChatMessage> {
    if ms == [] then [] else
      var init, m := ms[..|ms| - 1], ms[|ms| - 1];
      var w := ViewAfter(v, init);
      DirectTo(v, init, c) +
        if m.SendDirectMessage? && m.to in w.users && w.users[m.to] == c
        then [DirectMessage(m.from, m.content, m.id)] else []
  }

  /** A channel that nobody else touches holds, after what it held, exactly those that fit. */
  lemma {:induction false} ChannelHolds<C>(v: View<C>, ms: seq<RouterMail<C>>, c: C, qs: map<C, Chan<ChatMessage>>)
    requires c in qs
    ensures c in ChannelsAfter(v, ms, qs) && ChannelsAfter(v, ms, qs)[c] == Filled(qs[c], DirectTo(v, ms, c))
    decreases |ms|
  {
    if ms == [] {
      assert Filled(qs[c], []).queue == qs[c].queue;
    } else {
      var init, m := ms[..|ms| - 1], ms[|ms| - 1];
      ChannelHolds(v, init, c, qs);
      if m.SendDirectMessage? {
        FilledOffer(qs[c], DirectTo(v, init, c), DirectMessage(m.from, m.content, m.id));
      }
    }
  }

  lemma {:induction false} WithoutConcat(a: seq<UserId>, b: seq<UserId>, u: UserId)
    ensures Without(a + b, u) == Without(a, u) + Without(b, u)
  {
    if a == [] {
      assert a + b == b;
    } else {
      WithoutConcat(a[1..], b, u);
      var first := if a[0] == u then [] else [a[0]];
      assert Without(a + b, u) == first + Without(a[1..] + b, u) by { assert (a + b)[1..] == a[1..] + b; }
      assert first + (Without(a[1..], u) + Without(b, u)) == (first + Without(a[1..], u)) + Without(b, u);
    }
  }

  lemma {:induction false} WithoutAbsent(us: seq<UserId>, u: UserId)
    requires u !in us
    ensures Without(us, u) == us
  {
    if us != [] {
      WithoutAbsent(us[1..], u);
    }
  }

  /** The others keep their order. */
  lemma {:induction false} WithoutIsSubsequence(us: seq<UserId>, u: UserId)
    ensures Subsequence(Without(us, u), us)
    decreases |us|
  {
    if us == [] {
      SubsequenceEmpty(us);
    } else {
      var init, last := us[..|us| - 1], us[|us| - 1];
      assert us == init + [last];
      WithoutIsSubsequence(init, u);
      WithoutConcat(init, [last], u);
      if last == u {
        assert Without(us, u) == Without(init, u);
        SubsequenceGrow(Without(init, u), init, last);
      } else {
        assert Without(us, u) == Without(init, u) + [last];
        SubsequenceBoth(Without(init, u), init, last);
      }
    }
  }

  /** A connection that comes and goes leaves the tables as they were. */
  lemma UnregisterUndoesRegister<C, H>(r: Router<C, H>, u: UserId, c: C)
    requires Agrees(r) && u !in r.users
    ensures Unregister(Register(r, u, c), u) == r
  {
    WithoutConcat(r.online, [u], u);
    WithoutAbsent(r.online, u);
    assert r.users[u := c] - {u} == r.users;
  }
}
