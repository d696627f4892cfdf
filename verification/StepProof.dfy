/** Every step keeps the whole invariant. */
module StepProof {
  import opened Types
  import opened Channels
  import opened Registry
  import opened Store
  import opened Protocol
  import opened Invariants
  import opened RangeProof
  import opened PayloadProof
  import opened ShapeProof
  import opened PlaceProof
  import opened OrderProof
  import opened PipeProof
  import opened DurableProof
  import opened FifoProof

  // ---- What the branching steps leave alone ----

  ghost predicate SameLedger(s: State, t: State) {
    && t.inbox == s.inbox && t.shots == s.shots && t.acks == s.acks && t.h.handed == s.h.handed
    && t.reqs == s.reqs && t.h.stage == s.h.stage && t.writes == s.writes && t.h.sent == s.h.sent
    && t.h.logs == s.h.logs
    && t.router == s.router && t.sessions == s.sessions
  }

  lemma DeliverFrame(s: State)
    requires InRange(s) && s.hand.Some?
    ensures var t := DoDeliver(s); SameLedger(s, t) && t.actors == s.actors && t.tasks == s.tasks && t.db == s.db
  {
  }

  lemma CastFrame(s: State, a: ActorId, u: UserId)
    requires Sized(s) && a < |s.actors| && s.actors[a].activity.Casting? && u in s.actors[a].members
    requires s.actors[a].members[u] < |s.sessions|
    ensures var t, x := DoCast(s, a, u), s.actors[a];
            && SameLedger(s, t) && t.tasks == s.tasks && t.db == s.db
            && t.actors == s.actors[a := x.(activity := Casting(x.activity.msg, x.activity.pending - {u}))]
  {
  }

  lemma ExecuteFrame(s: State, id: MsgId, ok: bool)
    requires id in s.tasks && id in s.writes
    ensures var t := DoExecute(s, id, ok);
            && SameLedger(s, t) && t.actors == s.actors && t.hand == s.hand && t.chans == s.chans
            && t.h == s.h && t.tasks.Keys == s.tasks.Keys
  {
  }

  lemma SetTaskFrame(s: State, id: MsgId, k: Task)
    requires id in s.tasks
    ensures SetTask(s, id, k).tasks.Keys == s.tasks.Keys
  {
  }

  lemma AckPushFrame(s: State, id: MsgId)
    requires id in s.shots && id in s.reqs && s.reqs[id].origin < |s.acks|
    ensures var t := DoAckPush(s, id);
            && t.router == s.router && t.inbox == s.inbox && t.sessions == s.sessions && t.actors == s.actors
            && t.reqs == s.reqs
            && t.hand == s.hand && t.h.entered == s.h.entered && t.h.sent == s.h.sent && t.h.logs == s.h.logs
  {
  }

  /** Everything but the shape. */
  ghost predicate Ledgers(s: State) {
    PlaceInv(s) && OrderInv(s) && PipeInv(s) && DurableInv(s) && FifoInv(s)
  }

  /** A message that carries no request is queued; sessions may change with it. */
  lemma LedgersAppend(s: State, m: RouterMsg, ss: seq<Session>)
    requires Ledgers(s) && !m.SendDirectMessage? && !m.SendRoomMessage?
    ensures Ledgers(s.(inbox := s.inbox + [m], sessions := ss))
  {
    var p, t := s.(inbox := s.inbox + [m]), s.(inbox := s.inbox + [m], sessions := ss);
    PlaceAppend(s, m);
    PlaceFrame(p, t);
    OrderFrame(s, t);
    PipeAppend(s, m);
    PipeFrame(p, t);
    DurableFrame(s, t);
    FifoFrame(s, t);
  }

  /** Such a message is taken; sessions and registrations may change with it. */
  lemma LedgersPop(s: State, r: Router<SessionId, ActorId>, ss: seq<Session>)
    requires Ledgers(s) && s.inbox != [] && !s.inbox[0].SendDirectMessage? && !s.inbox[0].SendRoomMessage?
    requires r.rooms == s.router.rooms
    ensures Ledgers(s.(inbox := s.inbox[1..], router := r, sessions := ss))
  {
    var p, t := PopInbox(s), s.(inbox := s.inbox[1..], router := r, sessions := ss);
    PlacePop(s);
    PlaceFrame(p, t);
    OrderFrame(s, t);
    PipePop(s);
    PipeFrame(p, t);
    DurableFrame(s, t);
    FifoFrame(s, t);
  }

  // ---- Sessions ----

  lemma KeepConnect(s: State, u: UserId)
    requires Inv(s)
    ensures Inv(DoConnect(s, u))
  {
    ShapeConnect(s, u);
    PlaceConnect(s, u);
    OrderConnect(s, u);
    PipeConnect(s, u);
    DurableConnect(s, u);
    FifoConnect(s, u);
  }

  lemma KeepStart(s: State, sid: SessionId)
    requires Inv(s) && sid < |s.sessions| && s.sessions[sid].phase.Accepted?
    ensures Inv(DoStart(s, sid))
  {
    var t := DoStart(s, sid);
    ShapeStart(s, sid);
    PlaceStart(s, sid);
    OrderFrame(s, t);
    PipeFrame(s, t);
    DurableStart(s, sid);
    FifoStart(s, sid);
  }

  lemma KeepMint(s: State, id: MsgId, q: Request, m: RouterMsg)
    requires Inv(s) && id !in s.reqs && Was(s.sessions, q.origin, q.from)
    requires match q.kind
             case Direct(conv, to) => m == SendDirectMessage(id, conv, q.from, to, q.content)
             case ToRoom(room) => m == SendRoomMessage(id, room, q.from, q.content)
    ensures Inv(Mint(s, id, q, m))
  {
    ShapeMint(s, id, q, m);
    PlaceMint(s, id, q, m);
    OrderMint(s, id, q, m);
    PipeMint(s, id, q, m);
    DurableMint(s, id, q, m);
    FifoFrame(s, Mint(s, id, q, m));
  }

  /** Queueing a join, or a leave from outside. */
  lemma KeepAppend(s: State, m: RouterMsg)
    requires Inv(s) && (m.JoinRoom? || m.LeaveRoom?) && RouterMsgInRange(m, |s.sessions|)
    requires RouterMsgOk(s.sessions, s.reqs, m)
    ensures Inv(s.(inbox := s.inbox + [m]))
  {
    ShapeAppend(s, m);
    LedgersAppend(s, m, s.sessions);
  }

  lemma KeepReceiveEnds(s: State, sid: SessionId)
    requires Inv(s) && sid < |s.sessions|
    ensures Inv(s.(sessions := s.sessions[sid := s.sessions[sid].(receiving := false)]))
  {
    var t := s.(sessions := s.sessions[sid := s.sessions[sid].(receiving := false)]);
    ShapeReceiveEnds(s, sid);
    PlaceFrame(s, t);
    OrderFrame(s, t);
    PipeFrame(s, t);
    DurableFrame(s, t);
    FifoFrame(s, t);
  }

  lemma KeepClose(s: State, sid: SessionId)
    requires Inv(s) && sid < |s.sessions|
    ensures Inv(CloseSend(s, sid))
  {
    var t := CloseSend(s, sid);
    RangeClose(s, sid);
    ShapeFrame(s, t);
    PlaceClose(s, sid);
    OrderClose(s, sid);
    PipeFrame(s, t);
    DurableClose(s, sid);
    FifoClose(s, sid);
  }

  lemma KeepSendUnregister(s: State, sid: SessionId)
    requires Inv(s) && sid < |s.sessions| && s.sessions[sid].phase.Running?
    ensures Inv(DoSendUnregister(s, sid))
  {
    ShapeSendUnregister(s, sid);
    LedgersAppend(s, UnregisterUser(s.sessions[sid].user, sid), SetPhase(s.sessions, sid, Leaving));
  }

  lemma KeepPopChat(s: State, sid: SessionId)
    requires Inv(s) && sid < |s.sessions| && s.chans[sid].open && s.chans[sid].queue != []
    ensures Inv(PopChat(s, sid, true))
  {
    var t := PopChat(s, sid, true);
    ShapeFrame(s, t);
    PlaceFrame(s, t);
    OrderFrame(s, t);
    PipeFrame(s, t);
    DurableFrame(s, t);
    FifoPopChat(s, sid);
  }

  lemma FailedWriteCloses(s: State, sid: SessionId)
    requires Sized(s) && sid < |s.sessions| && s.chans[sid].queue != []
    ensures DoWriteChat(s, sid, false) == CloseSend(s, sid)
  {
    assert PopChat(s, sid, false).chans[sid := Chan([], false)] == s.chans[sid := Chan([], false)];
  }

  lemma KeepPopAck(s: State, sid: SessionId)
    requires Inv(s) && sid < |s.sessions| && s.acks[sid].queue != []
    ensures Inv(PopAck(s, sid))
  {
    var t := PopAck(s, sid);
    RangePopAck(s, sid);
    ShapeFrame(s, t);
    AcksHoldPop(s, sid);
    PlacePopAck(s, sid);
    OrderMove(s, t, s.acks[sid].queue[0].id, Handed);
    PipeFrame(s, t);
    DurablePopAck(s, sid);
    FifoPopAck(s, sid);
  }

  // ---- The router ----

  lemma KeepRegister(s: State, u: UserId, c: SessionId)
    requires Inv(s) && s.inbox != [] && s.inbox[0] == RegisterUser(u, c) && c < |s.sessions|
    ensures Inv(HandleRegister(PopInbox(s), u, c))
  {
    var t := HandleRegister(PopInbox(s), u, c);
    ShapeRegister(s, u, c);
    LedgersPop(s, t.router, t.sessions);
  }

  lemma KeepUnregister(s: State, u: UserId, c: SessionId)
    requires Inv(s) && s.inbox != [] && s.inbox[0] == UnregisterUser(u, c) && c < |s.sessions|
    ensures Inv(HandleUnregister(PopInbox(s), u, c))
  {
    var t := HandleUnregister(PopInbox(s), u, c);
    ShapeUnregister(s, u, c);
    LedgersPop(s, t.router, t.sessions);
  }

  lemma DurableDirect(s: State, m: RouterMsg, at: int)
    requires DurableInv(s) && m.SendDirectMessage? && m.id !in s.writes && RouterMsgOk(s.sessions, s.reqs, m)
    ensures DurableInv(HandleDirect(s, m, at))
  {
    var w := DmBody(m.id, m.conv, m.from, m.to, m.content, at);
    DurableSpawn(s, m.id, w);
    DurableFrame(Spawn(s, m.id, w), HandleDirect(s, m, at));
  }

  lemma KeepDirect(s: State, at: int)
    requires Inv(s) && s.hand.None? && s.inbox != [] && s.inbox[0].SendDirectMessage?
    ensures Inv(HandleDirect(PopInbox(s), s.inbox[0], at))
  {
    var p, m, t := PopInbox(s), s.inbox[0], HandleDirect(PopInbox(s), s.inbox[0], at);
    ShapePop(s);
    ShapeDirect(p, m, at);
    PlaceTake(s, m.id, AtTask);
    PlaceDirect(s, at);
    OrderFrame(s, p);
    OrderDirect(p, m, at);
    PipePop(s);
    PipeFrame(p, t);
    DurableFrame(s, p);
    DurableDirect(p, m, at);
    FifoFrame(s, t);
  }

  lemma DurableNoRoom(s: State, m: RouterMsg)
    requires DurableInv(s) && m.SendRoomMessage? && m.room !in s.router.rooms
    ensures DurableInv(HandleRoom(s, m))
  {
  }

  lemma KeepNoRoom(s: State)
    requires Inv(s) && s.inbox != [] && s.inbox[0].SendRoomMessage? && s.inbox[0].room !in s.router.rooms
    ensures Inv(HandleRoom(PopInbox(s), s.inbox[0]))
  {
    var p, m, t := PopInbox(s), s.inbox[0], HandleRoom(PopInbox(s), s.inbox[0]);
    ShapePop(s);
    ShapeNoRoom(p, m);
    PlaceTake(s, m.id, AtShot);
    PlaceNoRoom(s);
    OrderMove(s, t, m.id, AtShot);
    PipeNoRoom(s);
    DurableFrame(s, p);
    DurableNoRoom(p, m);
    FifoFrame(s, t);
  }

  lemma RoomFrame(s: State, m: RouterMsg)
    requires m.SendRoomMessage? && m.room in s.router.rooms && s.router.rooms[m.room] < |s.actors|
    ensures var t := HandleRoom(s, m);
            && t.reqs == s.reqs && t.writes == s.writes && t.tasks == s.tasks && t.shots == s.shots && t.acks == s.acks
            && t.h.handed == s.h.handed && t.db == s.db && t.chans == s.chans && t.h.entered == s.h.entered
            && t.h.shown == s.h.shown
  {
  }

  lemma KeepRoom(s: State, a: ActorId)
    requires Inv(s) && s.inbox != [] && s.inbox[0].SendRoomMessage?
    requires s.inbox[0].room in s.router.rooms && a == s.router.rooms[s.inbox[0].room]
    ensures Inv(HandleRoom(PopInbox(s), s.inbox[0]))
  {
    var p, m, t := PopInbox(s), s.inbox[0], HandleRoom(PopInbox(s), s.inbox[0]);
    RoomFrame(p, m);
    ShapePop(s);
    ShapeRoom(p, m, a);
    PlaceTake(s, m.id, AtRoom(a));
    PlaceRoom(s);
    OrderFrame(s, p);
    OrderRoom(p, m, a);
    PipeRoom(s, a);
    DurableFrame(s, t);
    FifoFrame(s, t);
  }

  lemma KeepPop(s: State)
    requires Inv(s) && s.inbox != [] && (s.inbox[0].JoinRoom? || s.inbox[0].LeaveRoom?)
    ensures Inv(PopInbox(s)) && RouterMsgOk(s.sessions, s.reqs, s.inbox[0])
  {
    ShapePop(s);
    LedgersPop(s, s.router, s.sessions);
  }

  lemma PlacePush(s: State, a: ActorId, m: RoomMsg)
    requires PlaceInv(s) && a < |s.actors| && SendTag(m) == []
    ensures PlaceInv(s.(actors := PushRoom(s.actors, a, m)))
  {
    RoomsHoldPush(s.actors, s.h.stage, a, m);
  }

  /** The mailbox of an existing room takes a membership message. */
  lemma KeepPushRoom(s: State, a: ActorId, m: RoomMsg)
    requires Inv(s) && a < |s.actors| && !m.SendMessage? && RoomMsgOk(s.sessions, s.reqs, s.actors[a].room, m)
    ensures Inv(s.(actors := PushRoom(s.actors, a, m)))
  {
    var t := s.(actors := PushRoom(s.actors, a, m));
    ShapePush(s, a, m);
    PlacePush(s, a, m);
    OrderPushRoom(s, a, m);
    PipePush(s, a, m);
    DurableFrame(s, t);
    FifoFrame(s, t);
  }

  lemma PlaceOpen(s: State, room: RoomId)
    requires PlaceInv(s)
    ensures PlaceInv(OpenRoom(s, room))
  {
    RoomsHoldOpen(s.actors, s.h.stage, room);
  }

  lemma KeepOpen(s: State, room: RoomId)
    requires Inv(s)
    ensures Inv(OpenRoom(s, room))
  {
    if room !in s.router.rooms {
      var t := OpenRoom(s, room);
      ShapeOpen(s, room);
      PlaceOpen(s, room);
      OrderOpen(s, room);
      PipeOpen(s, room);
      DurableFrame(s, t);
      FifoFrame(s, t);
    }
  }

  lemma FifoDeliver(s: State)
    requires InRange(s) && FifoInv(s) && s.hand.Some?
    ensures FifoInv(DoDeliver(s))
  {
    var d := s.hand.value;
    if d.to in s.router.users {
      FifoPush(s, s.router.users[d.to], d.msg);
    }
  }

  lemma KeepDeliver(s: State)
    requires Inv(s) && s.hand.Some?
    ensures Inv(DoDeliver(s))
  {
    var t := DoDeliver(s);
    DeliverFrame(s);
    ShapeDeliver(s);
    PlaceFrame(s, t);
    OrderDeliver(s);
    PipeFrame(s, t);
    DurableFrame(s, t);
    FifoDeliver(s);
  }

  // ---- Rooms ----

  lemma PlaceSet(s: State, a: ActorId, x: Actor)
    requires PlaceInv(s) && a < |s.actors| && SendIds(x.mailbox) == SendIds(s.actors[a].mailbox)
    ensures PlaceInv(SetActor(s, a, x))
  {
    RoomsHoldSet(s.actors, s.h.stage, a, x);
  }

  /** The actor changes its members or its activity, and starts no broadcast. */
  lemma KeepSet(s: State, a: ActorId, x: Actor)
    requires Inv(s) && a < |s.actors| && x.room == s.actors[a].room && x.alive && !x.activity.Casting?
    requires ActorInRange(x, |s.sessions|) && ActorOk(s.sessions, s.reqs, x)
    requires SendIds(x.mailbox) == SendIds(s.actors[a].mailbox)
    ensures Inv(SetActor(s, a, x))
  {
    var t := SetActor(s, a, x);
    ShapeSet(s, a, x);
    PlaceSet(s, a, x);
    OrderSet(s, a, x);
    PipeSet(s, a, x);
    DurableFrame(s, t);
    FifoFrame(s, t);
  }

  lemma DurableSend(s: State, a: ActorId, x: Actor, id: MsgId, from: UserId, content: string, at: int)
    requires DurableInv(s) && a < |s.actors| && a < |s.h.logs| && id !in s.writes
    requires Carries(s.reqs, id, from, ToRoom(x.room), content)
    ensures DurableInv(HandleSend(s, a, x, id, from, content, at))
  {
    var w := RoomBody(id, x.room, from, content, at);
    DurableSpawn(s, id, w);
    DurableFrame(Spawn(s, id, w), HandleSend(s, a, x, id, from, content, at));
  }

  lemma KeepSend(s: State, a: ActorId, x: Actor, id: MsgId, from: UserId, content: string, at: int)
    requires Inv(s) && a < |s.actors| && x.room == s.actors[a].room && x.alive
    requires ActorInRange(x, |s.sessions|) && ActorOk(s.sessions, s.reqs, x)
    requires Carries(s.reqs, id, from, ToRoom(x.room), content)
    requires SendIds(s.actors[a].mailbox) == [id] + SendIds(x.mailbox)
    ensures Inv(HandleSend(s, a, x, id, from, content, at))
  {
    ShapeSend(s, a, x, id, from, content, at);
    PlaceRoomSend(s, a, x, id, from, content, at);
    OrderSend(s, a, x, id, from, content, at);
    PipeSend(s, a, x, id, from, content, at);
    DurableSend(s, a, x, id, from, content, at);
    FifoFrame(s, HandleSend(s, a, x, id, from, content, at));
  }

  lemma FifoCast(s: State, a: ActorId, u: UserId)
    requires Sized(s) && FifoInv(s) && a < |s.actors| && s.actors[a].activity.Casting? && u in s.actors[a].members
    requires s.actors[a].members[u] < |s.sessions|
    ensures FifoInv(DoCast(s, a, u))
  {
    var x := s.actors[a];
    var p := Push(s, x.members[u], x.activity.msg);
    FifoPush(s, x.members[u], x.activity.msg);
    FifoFrame(p, DoCast(s, a, u));
  }

  lemma KeepCast(s: State, a: ActorId, u: UserId)
    requires Inv(s) && a < |s.actors| && s.actors[a].activity.Casting? && u in s.actors[a].activity.pending
    requires u in s.actors[a].members
    requires s.actors[a].members[u] < |s.sessions|
    ensures Inv(DoCast(s, a, u))
  {
    var x, t := s.actors[a], DoCast(s, a, u);
    var x' := x.(activity := Casting(x.activity.msg, x.activity.pending - {u}));
    CastFrame(s, a, u);
    ShapeCast(s, a, u);
    PlaceSet(s, a, x');
    PlaceFrame(SetActor(s, a, x'), t);
    OrderCast(s, a, u);
    PipeSet(s, a, x');
    PipeFrame(SetActor(s, a, x'), t);
    DurableFrame(s, t);
    FifoCast(s, a, u);
  }

  // ---- Persistence ----

  lemma KeepSetTask(s: State, id: MsgId, k: Task)
    requires Inv(s) && id in s.tasks && k.failures <= MAX_RETRIES && !k.phase.Replied?
    ensures Inv(SetTask(s, id, k))
  {
    var t := SetTask(s, id, k);
    SetTaskFrame(s, id, k);
    RangeSetTask(s, id, k);
    ShapeFrame(s, t);
    PlaceTasks(s, t);
    OrderFrame(s, t);
    PipeFrame(s, t);
    DurableSetTask(s, id, k);
    FifoFrame(s, t);
  }

  lemma KeepOrphan(s: State, id: MsgId)
    requires Inv(s) && id in s.writes
    ensures Inv(s.(orphans := s.orphans + {id}))
  {
    var t := s.(orphans := s.orphans + {id});
    RangeOrphan(s, id);
    ShapeFrame(s, t);
    PlaceFrame(s, t);
    OrderFrame(s, t);
    PipeFrame(s, t);
    DurableFrame(s, t);
    FifoFrame(s, t);
  }

  lemma KeepExecute(s: State, id: MsgId, ok: bool)
    requires Inv(s) && id in s.tasks && id in s.writes
    ensures Inv(DoExecute(s, id, ok))
  {
    var t := DoExecute(s, id, ok);
    ExecuteFrame(s, id, ok);
    RangeExecute(s, id, ok);
    ShapeFrame(s, t);
    PlaceTasks(s, t);
    OrderFrame(s, t);
    PipeFrame(s, t);
    DurableExecute(s, id, ok);
    FifoFrame(s, t);
  }

  lemma KeepCommit(s: State, id: MsgId)
    requires Inv(s) && id in s.writes
    ensures Inv(s.(db := Execute(s.db, s.writes[id])))
  {
    var t := s.(db := Execute(s.db, s.writes[id]));
    ShapeFrame(s, t);
    PlaceFrame(s, t);
    OrderFrame(s, t);
    PipeFrame(s, t);
    DurableCommit(s, id);
    FifoFrame(s, t);
  }

  lemma KeepResolve(s: State, id: MsgId, r: Status)
    requires Inv(s) && id in s.tasks && (r.Persisted? ==> Stored(s.writes, s.db, id))
    ensures Inv(Resolve(s, id, r))
  {
    var t := Resolve(s, id, r);
    assert id in s.h.stage && s.h.stage[id].AtTask? && id in s.reqs;
    RangeResolve(s, id, r);
    ShapeFrame(s, t);
    PlaceResolve(s, id, r);
    OrderMove(s, t, id, AtShot);
    PipeFrame(s, t);
    DurableResolve(s, id, r);
    FifoFrame(s, t);
  }

  lemma KeepAckPush(s: State, id: MsgId)
    requires Inv(s) && id in s.shots && (var c := s.acks[s.reqs[id].origin]; !c.open || |c.queue| < CAPACITY)
    ensures Inv(DoAckPush(s, id))
  {
    var t := DoAckPush(s, id);
    assert s.h.stage[id].AtShot?;
    AckPushFrame(s, id);
    RangeAckPush(s, id);
    ShapeFrame(s, t);
    PlaceAckPush(s, id);
    OrderAckPush(s, id);
    PipeFrame(s, t);
    DurableAckPush(s, id);
    FifoAckPush(s, id);
  }

  // ---- All steps ----

  lemma KeepDispatch(s: State, at: int)
    requires Inv(s) && s.hand.None? && s.inbox != []
    ensures Inv(Dispatch(PopInbox(s), s.inbox[0], at))
  {
    var p := PopInbox(s);
    match s.inbox[0]
    case RegisterUser(u, c) => KeepRegister(s, u, c);
    case UnregisterUser(u, c) => KeepUnregister(s, u, c);
    case SendDirectMessage(_, _, _, _, _) => KeepDirect(s, at);
    case SendRoomMessage(_, room, _, _) =>
      if room in s.router.rooms {
        KeepRoom(s, s.router.rooms[room]);
      } else {
        KeepNoRoom(s);
      }
    case JoinRoom(u, room, c) =>
      KeepPop(s);
      KeepJoin(p, u, room, c);
    case LeaveRoom(u, room) =>
      KeepPop(s);
      if room in s.router.rooms {
        KeepPushRoom(p, s.router.rooms[room], RemoveMember(u));
      }
  }

  lemma KeepJoin(s: State, u: UserId, room: RoomId, c: SessionId)
    requires Inv(s) && Was(s.sessions, c, u)
    ensures Inv(HandleJoin(s, u, room, c))
  {
    KeepOpen(s, room);
    var t := OpenRoom(s, room);
    KeepPushRoom(t, t.router.rooms[room], AddMember(u, c));
  }

  lemma MemberAdded(ss: seq<Session>, reqs: map<MsgId, Request>, x: Actor, u: UserId, c: SessionId)
    requires ActorInRange(x, |ss|) && ActorOk(ss, reqs, x) && x.activity.Idle? && Was(ss, c, u)
    ensures ActorInRange(x.(members := AddMemberTo(x.members, u, c)), |ss|)
    ensures ActorOk(ss, reqs, x.(members := AddMemberTo(x.members, u, c)))
  {
  }

  lemma MemberRemoved(ss: seq<Session>, reqs: map<MsgId, Request>, x: Actor, u: UserId)
    requires ActorInRange(x, |ss|) && ActorOk(ss, reqs, x) && x.activity.Idle?
    ensures ActorInRange(x.(members := x.members - {u}), |ss|)
    ensures ActorOk(ss, reqs, x.(members := x.members - {u}))
  {
  }

  lemma KeepRoomStep(s: State, a: ActorId, at: int)
    requires Inv(s) && a < |s.actors| && s.actors[a].alive && s.actors[a].mailbox != []
    requires ActorInRange(s.actors[a], |s.sessions|) && ActorOk(s.sessions, s.reqs, s.actors[a])
    ensures Inv(DoRoomStep(s, a, at))
  {
    var x := PopMail(s.actors[a]);
    ActorPop(s.sessions, s.reqs, s.actors[a]);
    RangePopMail(s.actors[a], |s.sessions|);
    var m := s.actors[a].mailbox[0];
    assert SendIds(s.actors[a].mailbox) == SendTag(m) + SendIds(x.mailbox);
    if m.AddMember? {
      MemberAdded(s.sessions, s.reqs, x, m.user, m.chan);
      KeepSet(s, a, x.(members := AddMemberTo(x.members, m.user, m.chan)));
    } else if m.RemoveMember? {
      MemberRemoved(s.sessions, s.reqs, x, m.user);
      KeepSet(s, a, x.(members := x.members - {m.user}));
    } else {
      KeepSend(s, a, x, m.id, m.from, m.content, at);
    }
  }

  lemma KeepTick(s: State, a: ActorId)
    requires Inv(s) && a < |s.actors| && AtRest(s.actors[a])
    ensures Inv(DoTick(s, a))
  {
    var x := s.actors[a];
    assert ActorInRange(x, |s.sessions|) && ActorOk(s.sessions, s.reqs, x);
    KeepSet(s, a, x.(activity := Sweeping(x.members.Keys)));
  }

  lemma KeepSweep(s: State, a: ActorId, u: UserId)
    requires Inv(s) && a < |s.actors| && s.actors[a].activity.Sweeping? && u in s.actors[a].members
    requires s.actors[a].members[u] < |s.sessions|
    ensures Inv(DoSweep(s, a, u))
  {
    var x := s.actors[a];
    assert ActorInRange(x, |s.sessions|) && ActorOk(s.sessions, s.reqs, x);
    KeepSet(s, a, x.(members := if s.chans[x.members[u]].open then x.members else x.members - {u},
                     activity := Sweeping(x.activity.pending - {u})));
  }

  lemma KeepAbandon(s: State, id: MsgId)
    requires Inv(s) && id in s.tasks && id in s.writes
    ensures Inv(Abandon(s, id)) && Abandon(s, id).tasks == s.tasks
  {
    if Abandon(s, id) != s {
      KeepOrphan(s, id);
    }
  }

  lemma KeepRetry(s: State, id: MsgId)
    requires Inv(s) && id in s.tasks
    ensures Inv(Retry(s, id))
  {
    var t := Again(s.tasks[id]);
    if t.failures <= MAX_RETRIES {
      KeepSetTask(s, id, t);
    } else {
      KeepResolve(s, id, Failed);
    }
  }

  lemma KeepTransportFails(s: State, id: MsgId)
    requires Inv(s) && id in s.tasks && id in s.writes
    ensures Inv(Retry(Abandon(s, id), id))
  {
    KeepAbandon(s, id);
    KeepRetry(Abandon(s, id), id);
  }

  lemma KeepSessionStep(s: State, step: Step)
    requires Inv(s) && Enabled(s, step) && (step.Connect? || step.Start? || step.FrameJoin? || step.ReceiveEnds?)
    ensures Inv(Apply(s, step))
  {
    match step {
      case Connect(u) => KeepConnect(s, u);
      case Start(sid) => KeepStart(s, sid);
      case FrameJoin(sid, room) => KeepAppend(s, JoinRoom(s.sessions[sid].user, room, sid));
      case ReceiveEnds(sid) => KeepReceiveEnds(s, sid);
    }
  }

  lemma KeepFrameStep(s: State, step: Step)
    requires Inv(s) && Enabled(s, step) && (step.FrameDirect? || step.FrameRoom?)
    ensures Inv(Apply(s, step))
  {
    match step {
      case FrameDirect(sid, id, client, conv, to, content) =>
        var u := s.sessions[sid].user;
        KeepMint(s, id, Request(sid, client, u, Direct(conv, to), content),
            SendDirectMessage(id, conv, u, to, content));
      case FrameRoom(sid, id, client, room, from, content) =>
        if from == s.sessions[sid].user {
          KeepMint(s, id, Request(sid, client, from, ToRoom(room), content), SendRoomMessage(id, room, from, content));
        }
    }
  }

  lemma KeepEndStep(s: State, step: Step)
    requires Inv(s) && Enabled(s, step) && (step.SendEnds? || step.SendUnregister?)
    ensures Inv(Apply(s, step))
  {
    match step {
      case SendEnds(sid) => KeepClose(s, sid);
      case SendUnregister(sid) => KeepSendUnregister(s, sid);
    }
  }

  lemma KeepWriteStep(s: State, step: Step)
    requires Inv(s) && Enabled(s, step) && (step.WriteChat? || step.WriteAck?)
    ensures Inv(Apply(s, step))
  {
    match step {
      case WriteChat(sid, ok) =>
        if ok {
          KeepPopChat(s, sid);
        } else {
          FailedWriteCloses(s, sid);
          KeepClose(s, sid);
        }
      case WriteAck(sid, ok) => if ok { KeepPopAck(s, sid); } else { KeepClose(s, sid); }
    }
  }

  lemma KeepRouterStep(s: State, step: Step)
    requires Inv(s) && Enabled(s, step) && (step.RouterStep? || step.RouterDeliver? || step.ExternalLeave?)
    ensures Inv(Apply(s, step))
  {
    match step {
      case RouterStep(at) => KeepDispatch(s, at);
      case RouterDeliver => KeepDeliver(s);
      case ExternalLeave(u, room) => KeepAppend(s, LeaveRoom(u, room));
    }
  }

  lemma KeepActorStep(s: State, step: Step)
    requires Inv(s) && Enabled(s, step) && (step.RoomStep? || step.RoomStops?)
    ensures Inv(Apply(s, step))
  {
    match step {
      case RoomStep(a, at) =>
        assert ActorInRange(s.actors[a], |s.sessions|) && ActorOk(s.sessions, s.reqs, s.actors[a]);
        KeepRoomStep(s, a, at);
      case RoomStops(a) => NeverStops(s.router.rooms, s.actors, a);
    }
  }

  lemma KeepCastStep(s: State, step: Step)
    requires Inv(s) && Enabled(s, step) && step.RoomCast?
    ensures Inv(Apply(s, step))
  {
    assert ActorInRange(s.actors[step.actor], |s.sessions|);
    KeepCast(s, step.actor, step.user);
  }

  lemma KeepCleanupStep(s: State, step: Step)
    requires Inv(s) && Enabled(s, step) && (step.RoomTick? || step.RoomSweep?)
    ensures Inv(Apply(s, step))
  {
    assert ActorInRange(s.actors[step.actor], |s.sessions|);
    if step.RoomTick? {
      KeepTick(s, step.actor);
    } else {
      KeepSweep(s, step.actor, step.user);
    }
  }

  /** The router holds a handle of every room actor, so none ever stops. */
  lemma NeverStops(rooms: map<RoomId, ActorId>, actors: seq<Actor>, a: ActorId)
    requires RoomsInv(rooms, actors) && a < |actors|
    ensures actors[a].alive && a in rooms.Values
  {
    assert rooms[actors[a].room] == a;
  }

  lemma KeepCallStep(s: State, step: Step)
    requires Inv(s) && Enabled(s, step) && (step.TaskSend? || step.ServerExecutes?)
    ensures Inv(Apply(s, step))
  {
    if step.TaskSend? {
      KeepSetTask(s, step.id, s.tasks[step.id].(phase := InFlight));
    } else {
      KeepExecute(s, step.id, step.ok);
    }
  }

  lemma KeepLossStep(s: State, step: Step)
    requires Inv(s) && Enabled(s, step) && (step.TransportFails? || step.OrphanCommits?)
    ensures Inv(Apply(s, step))
  {
    if step.TransportFails? {
      KeepTransportFails(s, step.id);
    } else {
      KeepCommit(s, step.id);
    }
  }

  lemma KeepAckStep(s: State, step: Step)
    requires Inv(s) && Enabled(s, step) && (step.TaskResolves? || step.AckPush?)
    ensures Inv(Apply(s, step))
  {
    if step.TaskResolves? {
      KeepResolve(s, step.id, if s.tasks[step.id].phase.success then Persisted else Failed);
    } else {
      KeepAckPush(s, step.id);
    }
  }

  predicate OfSession(step: Step) {
    || step.Connect? || step.Start? || step.FrameJoin? || step.ReceiveEnds? || step.FrameDirect? || step.FrameRoom?
    || step.SendEnds? || step.SendUnregister? || step.WriteChat? || step.WriteAck?
  }

  predicate OfTask(step: Step) {
    || step.TaskSend? || step.ServerExecutes? || step.TransportFails? || step.OrphanCommits?
    || step.TaskResolves? || step.AckPush?
  }

  lemma SessionKeeps(s: State, step: Step)
    requires Inv(s) && Enabled(s, step) && OfSession(step)
    ensures Inv(Apply(s, step))
  {
    if
    case step.Connect? || step.Start? || step.FrameJoin? || step.ReceiveEnds? => KeepSessionStep(s, step);
    case step.FrameDirect? || step.FrameRoom? => KeepFrameStep(s, step);
    case step.SendEnds? || step.SendUnregister? => KeepEndStep(s, step);
    case step.WriteChat? || step.WriteAck? => KeepWriteStep(s, step);
  }

  lemma TaskKeeps(s: State, step: Step)
    requires Inv(s) && Enabled(s, step) && OfTask(step)
    ensures Inv(Apply(s, step))
  {
    if
    case step.TaskSend? || step.ServerExecutes? => KeepCallStep(s, step);
    case step.TransportFails? || step.OrphanCommits? => KeepLossStep(s, step);
    case step.TaskResolves? || step.AckPush? => KeepAckStep(s, step);
  }

  lemma ActorKeeps(s: State, step: Step)
    requires Inv(s) && Enabled(s, step) && !OfSession(step) && !OfTask(step)
    ensures Inv(Apply(s, step))
  {
    if
    case step.RouterStep? || step.RouterDeliver? || step.ExternalLeave? => KeepRouterStep(s, step);
    case step.RoomStep? || step.RoomStops? => KeepActorStep(s, step);
    case step.RoomCast? => KeepCastStep(s, step);
    case step.RoomTick? || step.RoomSweep? => KeepCleanupStep(s, step);
  }

  /** The invariant is inductive. */
  lemma InvStep(s: State, step: Step)
    requires Inv(s) && Enabled(s, step)
    ensures Inv(Apply(s, step))
  {
    if OfSession(step) {
      SessionKeeps(s, step);
    } else if OfTask(step) {
      TaskKeeps(s, step);
    } else {
      ActorKeeps(s, step);
    }
  }
}
