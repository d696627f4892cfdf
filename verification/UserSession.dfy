/** One connection as a sequence of effects: the handshake, the receive loop, the farewell. */
module UserSessions {
  import opened Types
  import opened Channels
  import opened Registry
  import opened RouterViews
  import opened MessageRouters

  type RouterBox = Mailbox<RouterMail<Channel>>

  /** A parsed client frame; `Ignored` is anything a session does not act on. */
  datatype Frame =
    | DirectFrame(client: ClientId, conv: string, to: UserId, content: string)
    | RoomFrame(client: ClientId, room: RoomId, from: UserId, content: string)
    | JoinFrame(room: RoomId)
    | Ignored

  /** The server id a frame was given, and the client id its ack will carry. */
  datatype Asked = Asked(id: MsgId, client: ClientId)

  /** A message can only speak for, or join as, this user on this channel. */
  predicate SpeaksFor(m: RouterMail<Channel>, user: UserId, chan: Channel) {
    match m
    case SendDirectMessage(_, _, from, _, _) => from == user
    case SendRoomMessage(_, _, from, _) => from == user
    case JoinRoom(u, _, c) => u == user && c == chan
    case _ => false
  }

  /** The message a frame turns into: a room frame under another name is refused, the rest is ignored. */
  function Mailed(user: UserId, chan: Channel, f: Frame, id: MsgId): (r: seq<RouterMail<Channel>>)
    ensures forall m :: m in r ==> SpeaksFor(m, user, chan)
  {
    match f
    case DirectFrame(_, conv, to, content) => [SendDirectMessage(id, conv, user, to, content)]
    case RoomFrame(_, room, from, content) => if from == user then [SendRoomMessage(id, room, from, content)] else []
    case JoinFrame(room) => [JoinRoom(user, room, chan)]
    case Ignored => []
  }

  /** An ack will come for exactly the frames that became a direct or room message. */
  function AsksFor(user: UserId, f: Frame, id: MsgId): seq<Asked> {
    if f.DirectFrame? || (f.RoomFrame? && f.from == user) then [Asked(id, f.client)] else []
  }

  function AllMailed(user: UserId, chan: Channel, fs: seq<Frame>, ids: nat -> MsgId): (r: seq<RouterMail<Channel>>)
    ensures forall m :: m in r ==> SpeaksFor(m, user, chan)
  {
    if fs == [] then []
    else AllMailed(user, chan, fs[..|fs| - 1], ids) + Mailed(user, chan, fs[|fs| - 1], ids(|fs| - 1))
  }

  function AllAsked(user: UserId, fs: seq<Frame>, ids: nat -> MsgId): seq<Asked> {
    if fs == [] then [] else AllAsked(user, fs[..|fs| - 1], ids) + AsksFor(user, fs[|fs| - 1], ids(|fs| - 1))
  }

  // ---- What a list of frames comes to, field by field ----

  /** The frame is acted on. */
  predicate Passes(user: UserId, f: Frame) {
    f.DirectFrame? || f.JoinFrame? || (f.RoomFrame? && f.from == user)
  }

  /** And answered with an ack. */
  predicate Asks(user: UserId, f: Frame) {
    f.DirectFrame? || (f.RoomFrame? && f.from == user)
  }

  function Passed(user: UserId, fs: seq<Frame>): nat {
    if fs == [] then 0 else Passed(user, fs[..|fs| - 1]) + if Passes(user, fs[|fs| - 1]) then 1 else 0
  }

  function Asking(user: UserId, fs: seq<Frame>): nat {
    if fs == [] then 0 else Asking(user, fs[..|fs| - 1]) + if Asks(user, fs[|fs| - 1]) then 1 else 0
  }

  /** `m` says what frame `f` says, under the session's own name and channel and the minted id. */
  predicate Carries<C(==)>(m: RouterMail<C>, f: Frame, user: UserId, chan: C, id: MsgId) {
    match f
    case DirectFrame(_, conv, to, content) =>
      m.SendDirectMessage? && m.id == id && m.conv == conv && m.from == user && m.to == to && m.content == content
    case RoomFrame(_, room, from, content) =>
      m.SendRoomMessage? && m.id == id && m.room == room && m.from == from && m.content == content
    case JoinFrame(room) => m.JoinRoom? && m.user == user && m.room == room && m.chan == chan
    case Ignored => false
  }

  /** The messages are the frames acted on, one for one and in order. */
  ghost predicate CarriesAll(ms: seq<RouterMail<Channel>>, user: UserId, chan: Channel, fs: seq<Frame>,
                             ids: nat -> MsgId) {
    && |ms| == Passed(user, fs)
    && (forall i :: 0 <= i < |fs| && Passes(user, fs[i]) ==>
          Passed(user, fs[..i]) < |ms| && Carries(ms[Passed(user, fs[..i])], fs[i], user, chan, ids(i)))
  }

  /** Each frame that asks for an ack is remembered once, in order, under its own client id. */
  ghost predicate RemembersAll(asked: seq<Asked>, user: UserId, fs: seq<Frame>, ids: nat -> MsgId) {
    && |asked| == Asking(user, fs)
    && (forall i :: 0 <= i < |fs| && Asks(user, fs[i]) ==>
          var n := Asking(user, fs[..i]); n < |asked| && asked[n].id == ids(i) && asked[n].client == fs[i].client)
  }

  lemma OneMoreMailed(ms: seq<RouterMail<Channel>>, more: seq<RouterMail<Channel>>, user: UserId, chan: Channel,
                      fs: seq<Frame>, ids: nat -> MsgId)
    requires fs != [] && CarriesAll(ms, user, chan, fs[..|fs| - 1], ids)
    requires var f := fs[|fs| - 1];
             if Passes(user, f) then |more| == 1 && Carries(more[0], f, user, chan, ids(|fs| - 1)) else more == []
    ensures CarriesAll(ms + more, user, chan, fs, ids)
  {
    var init := fs[..|fs| - 1];
    forall i | 0 <= i < |fs| && Passes(user, fs[i])
      ensures var n := Passed(user, fs[..i]); n < |ms + more| && Carries((ms + more)[n], fs[i], user, chan, ids(i))
    {
      if i < |init| {
        assert fs[i] == init[i] && fs[..i] == init[..i];
      }
    }
  }

  lemma {:induction false} FramesAreMailed(user: UserId, chan: Channel, fs: seq<Frame>, ids: nat -> MsgId)
    ensures CarriesAll(AllMailed(user, chan, fs, ids), user, chan, fs, ids)
    decreases |fs|
  {
    if fs != [] {
      var init, n := fs[..|fs| - 1], |fs| - 1;
      FramesAreMailed(user, chan, init, ids);
      OneMoreMailed(AllMailed(user, chan, init, ids), Mailed(user, chan, fs[n], ids(n)), user, chan, fs, ids);
    }
  }

  lemma {:induction false} FramesAreRemembered(user: UserId, fs: seq<Frame>, ids: nat -> MsgId)
    ensures RemembersAll(AllAsked(user, fs, ids), user, fs, ids)
    decreases |fs|
  {
    if fs != [] {
      var init := fs[..|fs| - 1];
      FramesAreRemembered(user, init, ids);
      assert forall i :: 0 <= i < |init| ==> fs[i] == init[i] && fs[..i] == init[..i];
    }
  }

  /** The rooms a client asks to join. */
  function Wanted(fs: seq<Frame>): set<RoomId> {
    set f | f in fs && f.JoinFrame? :: f.room
  }

  ghost function JoinedBy<C>(ms: seq<RouterMail<C>>): set<RoomId> {
    set m | m in ms && m.JoinRoom? :: m.room
  }

  lemma {:induction false} WantedIsMailed(user: UserId, chan: Channel, fs: seq<Frame>, ids: nat -> MsgId)
    ensures JoinedBy(AllMailed(user, chan, fs, ids)) == Wanted(fs)
    decreases |fs|
  {
    if fs != [] {
      var init, f := fs[..|fs| - 1], fs[|fs| - 1];
      WantedIsMailed(user, chan, init, ids);
      var before, more := AllMailed(user, chan, init, ids), Mailed(user, chan, f, ids(|fs| - 1));
      assert fs == init + [f];
      assert Wanted(fs) == Wanted(init) + if f.JoinFrame? then {f.room} else {};
      assert JoinedBy(more) == if f.JoinFrame? then {f.room} else {} by {
        if f.JoinFrame? {
          assert more[0] in more;
        }
      }
      assert JoinedBy(before + more) == JoinedBy(before) + JoinedBy(more);
    }
  }

  /** Messages that only speak and join leave the registrations alone and open exactly the rooms they join. */
  lemma {:induction false} SpeakingKeepsTables<C>(v: View<C>, ms: seq<RouterMail<C>>)
    requires forall i :: 0 <= i < |ms| ==> !ms[i].RegisterUser? && !ms[i].UnregisterUser?
    ensures var w := ViewAfter(v, ms);
            w.users == v.users && w.online == v.online && w.rooms.Keys == v.rooms.Keys + JoinedBy(ms)
    decreases |ms|
  {
    if ms != [] {
      var init, m := ms[..|ms| - 1], ms[|ms| - 1];
      SpeakingKeepsTables(v, init);
      assert ms == init + [m];
      assert JoinedBy(ms) == JoinedBy(init) + if m.JoinRoom? then {m.room} else {};
    }
  }

  /** All that a connection says, from its first message to its last. */
  function Conversation(user: UserId, chan: Channel, mailed: seq<RouterMail<Channel>>): seq<RouterMail<Channel>> {
    [RegisterUser(user, chan)] + mailed + [UnregisterUser(user, chan)]
  }

  /** When a connection is over both registration tables are as they were; the rooms it joined first are new. */
  lemma ConnectionRestores(v: View<Channel>, user: UserId, chan: Channel, mailed: seq<RouterMail<Channel>>)
    requires Agrees(v) && user !in v.users && forall m :: m in mailed ==> SpeaksFor(m, user, chan)
    ensures var w := ViewAfter(v, Conversation(user, chan, mailed));
            w.users == v.users && w.online == v.online && w.rooms.Keys == v.rooms.Keys + JoinedBy(mailed)
  {
    var first, last := [RegisterUser(user, chan)], [UnregisterUser(user, chan)];
    var v1 := Register(v, user, chan);
    var v2 := ViewAfter(v1, mailed);
    assert first[..0] == [] && last[..0] == [];
    assert ViewAfter(v, first) == v1;
    AfterConcat(v, first, mailed);
    AfterConcat(v, first + mailed, last);
    assert forall i :: 0 <= i < |mailed| ==> mailed[i] in mailed && SpeaksFor(mailed[i], user, chan);
    SpeakingKeepsTables(v1, mailed);
    assert ViewAfter(v2, last) == Unregister(v2, user);
    UnregisterUndoesRegister(v, user, chan);
    assert Unregister(v2, user).users == Unregister(v1, user).users;
  }

  /** What the send task writes to the socket. */
  datatype Written = Chat(message: ChatMessage) | Acked(ack: Ack)

  function Chats(ws: seq<Written>): seq<ChatMessage> {
    if ws == [] then [] else Chats(ws[..|ws| - 1]) + match ws[|ws| - 1] { case Chat(m) => [m] case Acked(_) => [] }
  }

  function Acks(ws: seq<Written>): seq<Ack> {
    if ws == [] then [] else Acks(ws[..|ws| - 1]) + match ws[|ws| - 1] { case Chat(_) => [] case Acked(k) => [k] }
  }

  /** One turn of the send task: which receiver it takes from, and whether the socket accepts the write. */
  datatype Turn = Turn(chat: bool, ok: bool)

  /** How many of the turns take from this receiver. */
  function Turns(turns: seq<Turn>, chat: bool): nat {
    if turns == [] then 0 else Turns(turns[..|turns| - 1], chat) + if turns[|turns| - 1].chat == chat then 1 else 0
  }

  /** Turn `i` finds something to take, of `chats` and `acks` at first, and the socket does not accept it. */
  predicate Fails(turns: seq<Turn>, i: nat, chats: nat, acks: nat)
    requires i < |turns|
  {
    !turns[i].ok && Turns(turns[..i], turns[i].chat) < if turns[i].chat then chats else acks
  }

  ghost predicate FirstFailure(turns: seq<Turn>, i: nat, chats: nat, acks: nat) {
    i < |turns| && Fails(turns, i, chats, acks) && forall j :: 0 <= j < i ==> !Fails(turns, j, chats, acks)
  }

  /** The first `n` of a queue, or all of it. */
  function First<T>(q: seq<T>, n: nat): seq<T> {
    if n <= |q| then q[..n] else q
  }

  /** The next of a queue is written, if there is one. */
  predicate Step<T(==)>(written: seq<T>, queue: seq<T>, now: seq<T>, left: seq<T>) {
    if queue == [] then now == written && left == [] else now == written + [queue[0]] && left == queue[1..]
  }

  /** The first `n` of a queue are written behind what was, and the rest still waits. */
  predicate Taken<T(==)>(written: seq<T>, queue: seq<T>, now: seq<T>, left: seq<T>, n: nat) {
    now == written + First(queue, n) && left == queue[|First(queue, n)|..]
  }

  lemma OneMoreTaken<T>(written: seq<T>, queue: seq<T>, now: seq<T>, left: seq<T>, now': seq<T>, rest: seq<T>, n: nat)
    requires Taken(written, queue, now, left, n) && Step(now, left, now', rest)
    ensures Taken(written, queue, now', rest, n + 1)
  {
    if n < |queue| {
      assert First(queue, n + 1) == First(queue, n) + [queue[n]];
      assert left[0] == queue[n];
    }
  }

  class UserSession {
    const user: UserId
    const chan: Channel
    const acks: BoundedChannel<Ack>
    const router: RouterBox
    var asked: seq<Asked>
    var socket: seq<Written>

    constructor (user: UserId, chan: Channel, acks: BoundedChannel<Ack>, router: RouterBox)
      ensures this.user == user && this.chan == chan && this.acks == acks && this.router == router
      ensures asked == [] && socket == []
    {
      this.user, this.chan, this.acks, this.router := user, chan, acks, router;
      asked, socket := [], [];
    }

    method HandleDirectMessage(client: ClientId, conv: string, to: UserId, content: string, id: MsgId)
      modifies this`asked, router
      ensures router.queue == old(router.queue) + [SendDirectMessage(id, conv, user, to, content)]
      ensures asked == old(asked) + [Asked(id, client)]
    {
      router.Send(SendDirectMessage(id, conv, user, to, content));
      asked := asked + [Asked(id, client)];
    }

    method HandleRoomMessage(client: ClientId, room: RoomId, from: UserId, content: string,
                             id: MsgId) returns (ok: bool)
      modifies this`asked, router
      ensures ok == (from == user)
      ensures router.queue == old(router.queue) + if ok then [SendRoomMessage(id, room, user, content)] else []
      ensures asked == old(asked) + if ok then [Asked(id, client)] else []
    {
      if from != user {
        return false;
      }
      router.Send(SendRoomMessage(id, room, from, content));
      asked := asked + [Asked(id, client)];
      return true;
    }

    method HandleFrame(f: Frame, id: MsgId)
      modifies this`asked, router
      ensures router.queue == old(router.queue) + Mailed(user, chan, f, id)
      ensures asked == old(asked) + AsksFor(user, f, id)
    {
      match f
      case DirectFrame(client, conv, to, content) =>
        HandleDirectMessage(client, conv, to, content, id);
      case RoomFrame(client, room, from, content) =>
        var _ := HandleRoomMessage(client, room, from, content, id);
      case JoinFrame(room) =>
        router.Send(JoinRoom(user, room, chan));
      case Ignored =>
    }

    /** The receive task, frame by frame; `ids(i)` is the id minted while handling frame `i`. */
    method Receive(fs: seq<Frame>, ids: nat -> MsgId)
      modifies this`asked, router
      ensures router.queue == old(router.queue) + AllMailed(user, chan, fs, ids)
      ensures asked == old(asked) + AllAsked(user, fs, ids)
    {
      for i := 0 to |fs|
        invariant router.queue == old(router.queue) + AllMailed(user, chan, fs[..i], ids)
        invariant asked == old(asked) + AllAsked(user, fs[..i], ids)
      {
        assert fs[..i + 1][..i] == fs[..i];
        HandleFrame(fs[i], ids(i));
      }
      assert fs[..|fs|] == fs;
    }

    method TakeChat()
      requires chan.queue != []
      modifies this`socket, chan`queue
      ensures Chats(socket) == old(Chats(socket)) + [old(chan.queue)[0]] && chan.queue == old(chan.queue)[1..]
      ensures Acks(socket) == old(Acks(socket))
    {
      var m := chan.Receive();
      socket := socket + [Chat(m)];
      assert socket[..|socket| - 1] == old(socket);
      assert Chats(socket) == old(Chats(socket)) + [m];
    }

    method TakeAck()
      requires acks.queue != []
      modifies this`socket, acks`queue
      ensures Acks(socket) == old(Acks(socket)) + [old(acks.queue)[0]] && acks.queue == old(acks.queue)[1..]
      ensures Chats(socket) == old(Chats(socket))
    {
      var k := acks.Receive();
      socket := socket + [Acked(k)];
      assert socket[..|socket| - 1] == old(socket);
      assert Acks(socket) == old(Acks(socket)) + [k];
    }

    /** One turn: nothing to take, one message written, or the end. */
    method TakeTurn(turn: Turn) returns (alive: bool)
      modifies this`socket, chan, acks
      ensures alive <==> turn.ok || if turn.chat then old(chan.queue) == [] else old(acks.queue) == []
      ensures alive ==> chan.open == old(chan.open) && acks.open == old(acks.open)
      ensures alive && turn.chat ==>
                && Step(old(Chats(socket)), old(chan.queue), Chats(socket), chan.queue)
                && Acks(socket) == old(Acks(socket)) && acks.queue == old(acks.queue)
      ensures alive && !turn.chat ==>
                && Step(old(Acks(socket)), old(acks.queue), Acks(socket), acks.queue)
                && Chats(socket) == old(Chats(socket)) && chan.queue == old(chan.queue)
      ensures !alive ==> chan.View() == Chan([], false) && acks.View() == Chan([], false) && socket == old(socket)
    {
      var waits := if turn.chat then chan.queue == [] else acks.queue == [];
      if waits {
        return true;
      }
      if !turn.ok {
        chan.Close();
        acks.Close();
        return false;
      }
      if turn.chat {
        TakeChat();
      } else {
        TakeAck();
      }
      return true;
    }

    /** The turns up to the end, or up to the one that fails. */
    method TakeTurns(turns: seq<Turn>) returns (n: nat)
      modifies this`socket, chan, acks
      ensures n <= |turns| && forall j: nat :: j < n ==> !Fails(turns, j, |old(chan.queue)|, |old(acks.queue)|)
      ensures n < |turns| ==> Fails(turns, n, |old(chan.queue)|, |old(acks.queue)|)
      ensures n == |turns| ==> chan.open == old(chan.open) && acks.open == old(acks.open)
      ensures n == |turns| ==>
                && Taken(old(Chats(socket)), old(chan.queue), Chats(socket), chan.queue, Turns(turns, true))
                && Taken(old(Acks(socket)), old(acks.queue), Acks(socket), acks.queue, Turns(turns, false))
      ensures n < |turns| ==>
                && chan.View() == Chan([], false) && acks.View() == Chan([], false)
                && Chats(socket) == old(Chats(socket)) + First(old(chan.queue), Turns(turns[..n], true))
                && Acks(socket) == old(Acks(socket)) + First(old(acks.queue), Turns(turns[..n], false))
    {
      ghost var chats, acked, queue, ackQueue := Chats(socket), Acks(socket), chan.queue, acks.queue;
      n := 0;
      while n < |turns|
        invariant n <= |turns| && chan.open == old(chan.open) && acks.open == old(acks.open)
        invariant Taken(chats, queue, Chats(socket), chan.queue, Turns(turns[..n], true))
        invariant Taken(acked, ackQueue, Acks(socket), acks.queue, Turns(turns[..n], false))
        invariant forall j: nat :: j < n ==> !Fails(turns, j, |queue|, |ackQueue|)
      {
        ghost var written, left, shown, waiting := Chats(socket), chan.queue, Acks(socket), acks.queue;
        assert turns[..n + 1][..n] == turns[..n];
        var alive := TakeTurn(turns[n]);
        if !alive {
          return n;
        }
        if turns[n].chat {
          OneMoreTaken(chats, queue, written, left, Chats(socket), chan.queue, Turns(turns[..n], true));
        } else {
          OneMoreTaken(acked, ackQueue, shown, waiting, Acks(socket), acks.queue, Turns(turns[..n], false));
        }
        n := n + 1;
      }
      assert turns[..|turns|] == turns;
    }

    /**
     The send task.  Every turn writes the next message of its receiver, if there is one, until the
     socket does not accept a write; then that message is lost and both receivers are dropped with what
     they hold.
     */
    method Send(turns: seq<Turn>) returns (alive: bool)
      modifies this`socket, chan, acks
      ensures alive <==> forall i: nat :: i < |turns| ==> !Fails(turns, i, |old(chan.queue)|, |old(acks.queue)|)
      ensures alive ==> chan.open == old(chan.open) && acks.open == old(acks.open)
      ensures alive ==>
                && Taken(old(Chats(socket)), old(chan.queue), Chats(socket), chan.queue, Turns(turns, true))
                && Taken(old(Acks(socket)), old(acks.queue), Acks(socket), acks.queue, Turns(turns, false))
      ensures !alive ==> chan.View() == Chan([], false) && acks.View() == Chan([], false)
      ensures !alive ==>
                exists i: nat ::
                  && FirstFailure(turns, i, |old(chan.queue)|, |old(acks.queue)|)
                  && Chats(socket) == old(Chats(socket)) + First(old(chan.queue), Turns(turns[..i], true))
                  && Acks(socket) == old(Acks(socket)) + First(old(acks.queue), Turns(turns[..i], false))
    {
      var n := TakeTurns(turns);
      assert n < |turns| ==> FirstFailure(turns, n, |old(chan.queue)|, |old(acks.queue)|);
      return n == |turns|;
    }
  }

  /** Hand everything queued to the router. */
  method Drain(r: MessageRouter, box: RouterBox, clock: nat -> int, ghost reach: set<Channel>)
    requires r.Valid() && r.users.Values <= reach && forall i :: 0 <= i < |box.queue| ==> Offered(box.queue[i]) <= reach
    modifies r, box, reach`queue, r.rooms.Values
    ensures r.Valid() && r.View() == ViewAfter(old(r.View()), old(box.queue)) && box.queue == []
    ensures r.Grown(old(r.rooms)) && fresh(r.rooms.Values - old(r.rooms.Values)) && r.users.Values <= reach
  {
    var ms := box.TakeAll();
    assert r.View() == old(r.View()) && r.Valid();
    r.Run(ms, clock, reach);
    assert box.queue == [];
  }

  /** Queue one message and let the router handle it. */
  method Tell(r: MessageRouter, box: RouterBox, m: RouterMail<Channel>, clock: nat -> int, ghost reach: set<Channel>)
    requires r.Valid() && box.queue == [] && r.users.Values <= reach && Offered(m) <= reach
    modifies r, box, reach`queue, r.rooms.Values
    ensures r.Valid() && r.View() == ViewAfter(old(r.View()), [m]) && box.queue == []
    ensures r.Grown(old(r.rooms)) && fresh(r.rooms.Values - old(r.rooms.Values)) && r.users.Values <= reach
  {
    box.Send(m);
    assert box.queue == [m] && (forall i :: 0 <= i < |box.queue| ==> Offered(box.queue[i]) <= reach);
    assert r.View() == old(r.View()) && r.Valid();
    Drain(r, box, clock, reach);
  }

  /** All that an accepted session says, up to its Unregister. */
  method SayAll(session: UserSession, fs: seq<Frame>, ids: nat -> MsgId)
    requires session.router.queue == []
    modifies session, session.router
    ensures session.router.queue == AllMailed(session.user, session.chan, fs, ids)
                                    + [UnregisterUser(session.user, session.chan)]
    ensures forall i :: 0 <= i < |session.router.queue| ==> Offered(session.router.queue[i]) == {}
  {
    ghost var mailed := AllMailed(session.user, session.chan, fs, ids);
    session.Receive(fs, ids);
    session.router.Send(UnregisterUser(session.user, session.chan));
    assert forall i :: 0 <= i < |mailed| ==> mailed[i] in mailed;
  }

  /** The life of an accepted session: what it says goes through the router's mailbox, and its receivers are dropped. */
  method RunSession(session: UserSession, r: MessageRouter, fs: seq<Frame>, ids: nat -> MsgId, clock: nat -> int,
                    ghost reach: set<Channel>)
    requires r.Valid() && session.router.queue == [] && r.users.Values <= reach && session.chan in reach
    modifies session, session.router, session.chan, session.acks, r, reach`queue, r.rooms.Values
    ensures r.Valid() && session.router.queue == []
    ensures r.View() == ViewAfter(old(r.View()), AllMailed(session.user, session.chan, fs, ids)
                                                 + [UnregisterUser(session.user, session.chan)])
    ensures r.Grown(old(r.rooms)) && session.chan.View() == Chan([], false)
  {
    SayAll(session, fs, ids);
    assert r.View() == old(r.View()) && r.Valid();
    Drain(r, session.router, clock, reach);
    ghost var view := r.View();
    session.chan.Close();
    session.acks.Close();
    assert r.View() == view && r.Valid();
  }

  /** `UserSession::new`: the handshake through the router's mailbox, behind whatever was queued before. */
  method Open(r: MessageRouter, box: RouterBox, user: UserId, clock: nat -> int, ghost reach: set<Channel>)
      returns (accepted: bool, chan: Channel)
    requires r.Valid() && r.users.Values <= reach && forall i :: 0 <= i < |box.queue| ==> Offered(box.queue[i]) <= reach
    modifies r, box, reach`queue, r.rooms.Values
    ensures r.Valid() && box.queue == [] && fresh(chan) && r.users.Values <= reach + {chan}
    ensures r.Grown(old(r.rooms)) && fresh(r.rooms.Values - old(r.rooms.Values))
    ensures var was := ViewAfter(old(r.View()), old(box.queue));
            Agrees(was) && accepted == (user !in was.users) && r.View() == Register(was, user, chan)
  {
    Drain(r, box, clock, reach);
    ghost var was := r.View();
    chan := new BoundedChannel();
    assert r.View() == was && r.Valid() && chan !in reach;
    Tell(r, box, RegisterUser(user, chan), clock, reach + {chan});
    ghost var register := RegisterUser(user, chan);
    assert [register][..0] == [];
    // the oneshot says yes exactly when the router now holds this channel
    accepted := user in r.users && r.users[user] == chan;
  }

  /**
   A connection, with nobody else at work meanwhile.  The router first handles what was queued
   before.  A refused connection changes nothing and never unregisters.  An accepted one restores both
   registration tables and leaves behind exactly the rooms it was the first to join; every room that
   existed keeps its mailbox.
   */
  method HandleConnection(r: MessageRouter, box: RouterBox, user: UserId, fs: seq<Frame>, ids: nat -> MsgId,
                          clock: nat -> int, ghost reach: set<Channel>)
      returns (accepted: bool, chan: Channel)
    requires r.Valid() && r.users.Values <= reach && forall i :: 0 <= i < |box.queue| ==> Offered(box.queue[i]) <= reach
    modifies r, box, reach`queue, r.rooms.Values
    ensures r.Valid() && box.queue == [] && fresh(chan) && chan.View() == Chan([], false) && r.Grown(old(r.rooms))
    ensures var was := ViewAfter(old(r.View()), old(box.queue));
            && accepted == (user !in was.users)
            && r.View().users == was.users && r.View().online == was.online
            && r.View().rooms.Keys == was.rooms.Keys + (if accepted then Wanted(fs) else {})
            && r.View() == if !accepted then was
                           else ViewAfter(was, Conversation(user, chan, AllMailed(user, chan, fs, ids)))
  {
    ghost var was := ViewAfter(r.View(), box.queue);
    accepted, chan := Open(r, box, user, clock, reach);
    ghost var view := r.View();
    if accepted {
      var acks := new BoundedChannel<Ack>();
      var session := new UserSession(user, chan, acks, box);
      assert r.View() == view && r.Valid();
      RunSession(session, r, fs, ids, clock, reach + {chan});
      ConnectionOver(was, user, chan, fs, ids);
    } else {
      chan.Close();
      assert r.View() == view && r.Valid();
    }
  }

  lemma ConnectionOver(was: View<Channel>, user: UserId, chan: Channel, fs: seq<Frame>, ids: nat -> MsgId)
    requires Agrees(was) && user !in was.users
    ensures var mailed := AllMailed(user, chan, fs, ids);
            var w := ViewAfter(was, Conversation(user, chan, mailed));
            && w == ViewAfter(Register(was, user, chan), mailed + [UnregisterUser(user, chan)])
            && w.users == was.users && w.online == was.online && w.rooms.Keys == was.rooms.Keys + Wanted(fs)
  {
    var first := [RegisterUser(user, chan)];
    var mailed := AllMailed(user, chan, fs, ids);
    assert first[..0] == [];
    assert ViewAfter(was, first) == Register(was, user, chan);
    AfterConcat(was, first, mailed + [UnregisterUser(user, chan)]);
    assert first + (mailed + [UnregisterUser(user, chan)]) == Conversation(user, chan, mailed);
    ConnectionRestores(was, user, chan, mailed);
    WantedIsMailed(user, chan, fs, ids);
  }
}
