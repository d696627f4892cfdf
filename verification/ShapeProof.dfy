/** Handles, ownership, rooms and payloads together: every kind of change keeps `Shape`. */
module ShapeProof {
  import opened Types
  import opened Registry
  import opened Store
  import opened Protocol
  import opened Invariants
  import opened RangeProof
  import opened OwnerProof
  import opened PayloadProof

  lemma RoomsOpen(s: State, room: RoomId)
    requires RoomsInv(s.router.rooms, s.actors)
    ensures var t := OpenRoom(s, room); RoomsInv(t.router.rooms, t.actors)
  {
  }

  lemma RoomsSet(rooms: map<RoomId, ActorId>, actors: seq<Actor>, a: ActorId, x: Actor)
    requires RoomsInv(rooms, actors) && a < |actors| && x.room == actors[a].room && x.alive
    ensures RoomsInv(rooms, actors[a := x])
  {
  }

  /** Steps that concern only channels, acks, tasks or the store. */
  lemma ShapeFrame(s: State, t: State)
    requires Shape(s) && InRange(t) && t.router == s.router && t.inbox == s.inbox && t.sessions == s.sessions
    requires t.actors == s.actors && t.reqs == s.reqs && t.hand == s.hand && t.h.entered == s.h.entered
    ensures Shape(t)
  {
  }

  lemma ShapeConnect(s: State, u: UserId)
    requires Shape(s)
    ensures Shape(DoConnect(s, u))
  {
    var t := DoConnect(s, u);
    RangeConnect(s, u);
    OwnerConnect(s.router, s.inbox, s.sessions, u);
    PayloadLater(s.sessions, t.sessions, s.reqs, s.inbox, s.actors);
    InboxAppend(t.sessions, t.reqs, s.inbox, RegisterUser(u, |s.sessions|));
    EnteredConnect(s.sessions, Session(u, Registering, false), s.reqs, s.h.entered);
  }

  lemma ShapeStart(s: State, sid: SessionId)
    requires Shape(s) && sid < |s.sessions| && s.sessions[sid].phase.Accepted?
    ensures Shape(DoStart(s, sid))
  {
    OwnerStart(s.router, s.inbox, s.sessions, sid);
    PayloadPhase(s, DoStart(s, sid));
  }

  lemma ShapeMint(s: State, id: MsgId, q: Request, m: RouterMsg)
    requires Shape(s) && id !in s.reqs && Was(s.sessions, q.origin, q.from)
    requires RouterMsgOk(s.sessions, s.reqs[id := q], m) && Neutral(m) && !m.JoinRoom?
    ensures Shape(Mint(s, id, q, m))
  {
    RangeMint(s, id, q, m);
    OwnerAppend(s.router, s.inbox, s.sessions, m);
    PayloadMint(s, id, q, m);
  }

  lemma ShapeAppend(s: State, m: RouterMsg)
    requires Shape(s) && Neutral(m) && RouterMsgInRange(m, |s.sessions|) && RouterMsgOk(s.sessions, s.reqs, m)
    ensures Shape(s.(inbox := s.inbox + [m]))
  {
    OwnerAppend(s.router, s.inbox, s.sessions, m);
    InboxAppend(s.sessions, s.reqs, s.inbox, m);
  }

  lemma ShapeReceiveEnds(s: State, sid: SessionId)
    requires Shape(s) && sid < |s.sessions|
    ensures Shape(s.(sessions := s.sessions[sid := s.sessions[sid].(receiving := false)]))
  {
    OwnerReceiveEnds(s.router, s.inbox, s.sessions, sid);
    PayloadPhase(s, s.(sessions := s.sessions[sid := s.sessions[sid].(receiving := false)]));
  }

  lemma ShapeSendUnregister(s: State, sid: SessionId)
    requires Shape(s) && sid < |s.sessions| && s.sessions[sid].phase.Running?
    ensures Shape(DoSendUnregister(s, sid))
  {
    var ss := SetPhase(s.sessions, sid, Leaving);
    OwnerSendUnregister(s.router, s.inbox, s.sessions, sid);
    PayloadPhase(s, s.(sessions := ss));
    InboxAppend(ss, s.reqs, s.inbox, UnregisterUser(s.sessions[sid].user, sid));
  }

  lemma ShapePop(s: State)
    requires Shape(s) && s.inbox != [] && Neutral(s.inbox[0])
    ensures Shape(PopInbox(s)) && RouterMsgOk(s.sessions, s.reqs, s.inbox[0])
    ensures RouterMsgInRange(s.inbox[0], |s.sessions|)
  {
    InboxPop(s.sessions, s.reqs, s.inbox);
    OwnerPop(s.router, s.inbox, s.sessions);
  }

  lemma ShapeRegister(s: State, u: UserId, c: SessionId)
    requires Shape(s) && s.inbox != [] && s.inbox[0] == RegisterUser(u, c) && c < |s.sessions|
    ensures Shape(HandleRegister(PopInbox(s), u, c))
  {
    var p, t := PopInbox(s), HandleRegister(PopInbox(s), u, c);
    OwnerRegister(s.router, s.inbox, s.sessions, u, c);
    InboxPop(s.sessions, s.reqs, s.inbox);
    assert c in Tags(s.inbox, Registers);
    PayloadPhase(p, t);
  }

  lemma ShapeUnregister(s: State, u: UserId, c: SessionId)
    requires Shape(s) && s.inbox != [] && s.inbox[0] == UnregisterUser(u, c) && c < |s.sessions|
    ensures Shape(HandleUnregister(PopInbox(s), u, c))
  {
    OwnerUnregister(s.router, s.inbox, s.sessions, u, c);
    InboxPop(s.sessions, s.reqs, s.inbox);
    PayloadPhase(PopInbox(s), HandleUnregister(PopInbox(s), u, c));
  }

  lemma ShapeDirect(s: State, m: RouterMsg, at: int)
    requires Shape(s) && m.SendDirectMessage? && RouterMsgOk(s.sessions, s.reqs, m)
    ensures Shape(HandleDirect(s, m, at))
  {
    RangeDirect(s, m, at);
  }

  lemma ShapeNoRoom(s: State, m: RouterMsg)
    requires Shape(s) && m.SendRoomMessage? && m.room !in s.router.rooms && RouterMsgOk(s.sessions, s.reqs, m)
    ensures Shape(HandleRoom(s, m))
  {
    RangeRoom(s, m);
  }

  lemma ShapePush(s: State, a: ActorId, m: RoomMsg)
    requires Shape(s) && a < |s.actors| && RoomMsgOk(s.sessions, s.reqs, s.actors[a].room, m)
    ensures Shape(s.(actors := PushRoom(s.actors, a, m)))
  {
    RangePush(s.actors, a, m, |s.sessions|);
    RoomsSet(s.router.rooms, s.actors, a, s.actors[a].(mailbox := s.actors[a].mailbox + [m]));
    ActorsPush(s.sessions, s.reqs, s.actors, a, m);
  }

  lemma ShapeRoom(s: State, m: RouterMsg, a: ActorId)
    requires Shape(s) && m.SendRoomMessage? && RouterMsgOk(s.sessions, s.reqs, m)
    requires m.room in s.router.rooms && a == s.router.rooms[m.room]
    ensures Shape(HandleRoom(s, m))
  {
    var msg := SendMessage(m.id, m.from, m.content);
    ShapePush(s, a, msg);
    RangeRoom(s, m);
    ShapeFrame(s.(actors := PushRoom(s.actors, a, msg)), HandleRoom(s, m));
  }

  lemma PayloadOpen(s: State, room: RoomId)
    requires PayloadInv(s)
    ensures PayloadInv(OpenRoom(s, room))
  {
    assert ActorOk(s.sessions, s.reqs, Actor(room, [], map[], Idle, true));
  }

  lemma ShapeOpen(s: State, room: RoomId)
    requires Shape(s)
    ensures Shape(OpenRoom(s, room))
  {
    var t := OpenRoom(s, room);
    RangeOpen(s, room);
    RoomsOpen(s, room);
    OwnerOpenRoom(s.router, t.router, s.inbox, s.sessions);
    PayloadOpen(s, room);
  }

  lemma ShapePushed(s: State, c: SessionId, m: ChatMessage)
    requires Shape(s) && c < |s.sessions| && Genuine(s.reqs, s.sessions[c].user, m)
    requires m.RoomMessage? ==> m.room in s.router.rooms
    ensures Shape(Push(s, c, m))
  {
    EnteredPush(s, c, m);
  }

  lemma ShapeHand(s: State, hand: Option<Delivery>)
    requires Shape(s) && HandOk(s.reqs, hand)
    ensures Shape(s.(hand := hand))
  {
  }

  lemma ShapeDeliver(s: State)
    requires Shape(s) && s.hand.Some?
    ensures Shape(DoDeliver(s))
  {
    var d := s.hand.value;
    if d.to in s.router.users {
      ShapePushed(s, s.router.users[d.to], d.msg);
      ShapeHand(Push(s, s.router.users[d.to], d.msg), None);
    } else {
      ShapeHand(s, None);
    }
  }

  lemma ShapeSet(s: State, a: ActorId, x: Actor)
    requires Shape(s) && a < |s.actors| && x.room == s.actors[a].room && x.alive
    requires ActorInRange(x, |s.sessions|) && ActorOk(s.sessions, s.reqs, x)
    ensures Shape(SetActor(s, a, x))
  {
    RangeSetActor(s, a, x);
    RoomsSet(s.router.rooms, s.actors, a, x);
    ActorsSet(s.sessions, s.reqs, s.actors, a, x);
  }

  lemma ShapeCast(s: State, a: ActorId, u: UserId)
    requires Shape(s) && a < |s.actors| && s.actors[a].activity.Casting? && u in s.actors[a].members
    ensures Shape(DoCast(s, a, u))
  {
    var x := s.actors[a];
    var x' := x.(activity := Casting(x.activity.msg, x.activity.pending - {u}));
    assert ActorOk(s.sessions, s.reqs, x) && ActorInRange(x, |s.sessions|);
    EnteredPush(s, x.members[u], x.activity.msg);
    ShapePushed(s, x.members[u], x.activity.msg);
    ShapeSet(Push(s, x.members[u], x.activity.msg), a, x');
  }

  lemma ShapeSpawn(s: State, id: MsgId, w: Write)
    requires Shape(s)
    ensures Shape(Spawn(s, id, w))
  {
  }

  lemma ShapeSend(s: State, a: ActorId, x: Actor, id: MsgId, from: UserId, content: string, at: int)
    requires Shape(s) && a < |s.actors| && x.room == s.actors[a].room && x.alive
    requires ActorInRange(x, |s.sessions|) && ActorOk(s.sessions, s.reqs, x)
    requires Carries(s.reqs, id, from, ToRoom(x.room), content)
    ensures Shape(HandleSend(s, a, x, id, from, content, at))
  {
    var x' := x.(activity := Casting(RoomMessage(x.room, from, content, id), x.members.Keys));
    ShapeSet(s, a, x');
    ShapeSpawn(SetActor(s, a, x'), id, RoomBody(id, x.room, from, content, at));
    var t := SetActor(s, a, x');
    ShapeFrame(Spawn(t, id, RoomBody(id, x.room, from, content, at)), HandleSend(s, a, x, id, from, content, at));
  }
}
