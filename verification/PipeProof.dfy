/** Send order into a room: how `PipeInv` survives each change. */
module PipeProof {
  import opened Types
  import opened Sequences
  import opened Registry
  import opened Protocol
  import opened Invariants

  lemma {:induction false} KeepConcat(reqs: map<MsgId, Request>, x: seq<MsgId>, y: seq<MsgId>, p: Pick)
    ensures Keep(reqs, x + y, p) == Keep(reqs, x, p) + Keep(reqs, y, p)
  {
    if x == [] {
      assert x + y == y;
    } else {
      assert (x + y)[1..] == x[1..] + y;
      KeepConcat(reqs, x[1..], y, p);
    }
  }

  lemma {:induction false} KeepFresh(reqs: map<MsgId, Request>, id: MsgId, q: Request, x: seq<MsgId>, p: Pick)
    requires Known(reqs, x) && id !in reqs
    ensures Keep(reqs[id := q], x, p) == Keep(reqs, x, p)
  {
    if x != [] {
      assert x[0] in reqs;
      KeepFresh(reqs, id, q, x[1..], p);
    }
  }

  lemma {:induction false} KeepNone(reqs: map<MsgId, Request>, x: seq<MsgId>, sid: SessionId)
    requires forall id :: id in reqs ==> reqs[id].origin != sid
    ensures Keep(reqs, x, BySession(sid)) == []
  {
    if x != [] {
      KeepNone(reqs, x[1..], sid);
    }
  }

  lemma PipeSame(s: State, t: State)
    requires PipeInv(s) && t.reqs == s.reqs && t.h.sent == s.h.sent
    requires forall room: RoomId :: PipeOf(t, room) == PipeOf(s, room)
    ensures PipeInv(t)
  {
  }

  /** Steps that touch neither rooms nor the router's inbox. */
  lemma PipeFrame(s: State, t: State)
    requires PipeInv(s) && t.reqs == s.reqs && t.h.sent == s.h.sent
    requires t.router.rooms == s.router.rooms && t.actors == s.actors && t.h.logs == s.h.logs && t.inbox == s.inbox
    ensures PipeInv(t)
  {
    PipeSame(s, t);
  }

  /** Queueing or handling something other than a room message. */
  lemma PipeInbox(s: State, m: RouterMsg)
    requires !m.SendRoomMessage?
    ensures forall room: RoomId :: Tags(s.inbox + [m], SendsTo(room)) == Tags(s.inbox, SendsTo(room))
    ensures s.inbox != [] && s.inbox[0] == m ==>
        forall room: RoomId :: Tags(s.inbox[1..], SendsTo(room)) == Tags(s.inbox, SendsTo(room))
  {
    forall room: RoomId
      ensures Tags(s.inbox + [m], SendsTo(room)) == Tags(s.inbox, SendsTo(room))
    {
      TagsAppend(s.inbox, m, SendsTo(room));
    }
  }

  lemma PipeAppend(s: State, m: RouterMsg)
    requires PipeInv(s) && !m.SendRoomMessage?
    ensures PipeInv(s.(inbox := s.inbox + [m]))
  {
    PipeInbox(s, m);
    PipeSame(s, s.(inbox := s.inbox + [m]));
  }

  lemma PipePop(s: State)
    requires PipeInv(s) && s.inbox != [] && !s.inbox[0].SendRoomMessage?
    ensures PipeInv(PopInbox(s))
  {
    PipeInbox(s, s.inbox[0]);
    PipeSame(s, PopInbox(s));
  }

  lemma PipeConnect(s: State, u: UserId)
    requires PipeInv(s) && |s.h.sent| == |s.sessions| && forall id :: id in s.reqs ==> s.reqs[id].origin < |s.sessions|
    ensures PipeInv(DoConnect(s, u))
  {
    var t, n := DoConnect(s, u), |s.sessions|;
    PipeInbox(s, RegisterUser(u, n));
    assert forall room: RoomId :: PipeOf(t, room) == PipeOf(s, room);
    forall room: RoomId, sid | 0 <= sid < |t.h.sent|
      ensures PipeOk(t.reqs, PipeOf(t, room), t.h.sent[sid], room, sid)
    {
      if sid == n {
        KeepNone(s.reqs, PipeOf(s, room), n);
      } else {
        assert PipeOk(s.reqs, PipeOf(s, room), s.h.sent[sid], room, sid);
      }
    }
  }

  /** The new id goes to the end of its sender's sends, and of one room's pipe if it is for a room. */
  lemma PipeOkMint(reqs: map<MsgId, Request>, id: MsgId, q: Request, pipe: seq<MsgId>, sent: seq<MsgId>, room: RoomId,
                   sid: SessionId)
    requires id !in reqs && Known(reqs, pipe) && Known(reqs, sent) && PipeOk(reqs, pipe, sent, room, sid)
    ensures q.kind == ToRoom(room) && q.origin == sid ==> PipeOk(reqs[id := q], pipe + [id], sent + [id], room, sid)
    ensures q.kind == ToRoom(room) && q.origin != sid ==> PipeOk(reqs[id := q], pipe + [id], sent, room, sid)
    ensures q.kind != ToRoom(room) ==> PipeOk(reqs[id := q], pipe, sent + [id], room, sid)
    ensures q.kind != ToRoom(room) ==> PipeOk(reqs[id := q], pipe, sent, room, sid)
  {
    var reqs' := reqs[id := q];
    KeepFresh(reqs, id, q, pipe, BySession(sid));
    KeepFresh(reqs, id, q, sent, ByRoom(room));
    KeepConcat(reqs', pipe, [id], BySession(sid));
    KeepConcat(reqs', sent, [id], ByRoom(room));
    var k, l := Keep(reqs, pipe, BySession(sid)), Keep(reqs, sent, ByRoom(room));
    assert Keep(reqs', [id], BySession(sid)) == if q.origin == sid then [id] else [];
    assert Keep(reqs', [id], ByRoom(room)) == if q.kind == ToRoom(room) then [id] else [];
    SuffixAppend(k, l, [id]);
    assert k + [] == k && l + [] == l;
  }

  predicate Announces(m: RouterMsg, id: MsgId, kind: Kind) {
    match kind
    case Direct(_, _) => m.SendDirectMessage?
    case ToRoom(room) => m.SendRoomMessage? && m.id == id && m.room == room
  }

  lemma PipeOfMint(s: State, id: MsgId, q: Request, m: RouterMsg, room: RoomId)
    requires q.origin < |s.h.sent| && Announces(m, id, q.kind)
    ensures PipeOf(Mint(s, id, q, m), room) == PipeOf(s, room) + (if q.kind == ToRoom(room) then [id] else [])
  {
    TagsAppend(s.inbox, m, SendsTo(room));
  }

  lemma KnownMint(s: State, id: MsgId, q: Request, m: RouterMsg)
    requires PipeInv(s) && id !in s.reqs && q.origin < |s.h.sent| && Announces(m, id, q.kind)
    ensures var t := Mint(s, id, q, m);
            && (forall sid :: 0 <= sid < |t.h.sent| ==> Known(t.reqs, t.h.sent[sid]))
            && (forall room: RoomId :: Known(t.reqs, PipeOf(t, room)))
  {
    var t := Mint(s, id, q, m);
    forall room: RoomId
      ensures Known(t.reqs, PipeOf(t, room))
    {
      PipeOfMint(s, id, q, m, room);
      assert Known(s.reqs, PipeOf(s, room));
    }
    forall sid | 0 <= sid < |t.h.sent|
      ensures Known(t.reqs, t.h.sent[sid])
    {
      assert Known(s.reqs, s.h.sent[sid]);
    }
  }

  lemma PipeMint(s: State, id: MsgId, q: Request, m: RouterMsg)
    requires PipeInv(s) && id !in s.reqs && q.origin < |s.h.sent| && Announces(m, id, q.kind)
    ensures PipeInv(Mint(s, id, q, m))
  {
    var t := Mint(s, id, q, m);
    KnownMint(s, id, q, m);
    forall room: RoomId, sid | 0 <= sid < |t.h.sent|
      ensures PipeOk(t.reqs, PipeOf(t, room), t.h.sent[sid], room, sid)
    {
      PipeOfMint(s, id, q, m, room);
      var pipe := PipeOf(s, room);
      assert PipeOk(s.reqs, pipe, s.h.sent[sid], room, sid);
      assert pipe + [] == pipe;
      PipeOkMint(s.reqs, id, q, pipe, s.h.sent[sid], room, sid);
    }
  }

  lemma PipeOkDrop(reqs: map<MsgId, Request>, front: seq<MsgId>, pipe: seq<MsgId>, sent: seq<MsgId>, room: RoomId,
                   sid: SessionId)
    requires PipeOk(reqs, front + pipe, sent, room, sid)
    ensures PipeOk(reqs, pipe, sent, room, sid)
  {
    KeepConcat(reqs, front, pipe, BySession(sid));
    SuffixDrop(Keep(reqs, front, BySession(sid)), Keep(reqs, pipe, BySession(sid)), Keep(reqs, sent, ByRoom(room)));
  }

  lemma KnownDrop(reqs: map<MsgId, Request>, front: seq<MsgId>, pipe: seq<MsgId>)
    requires Known(reqs, front + pipe)
    ensures Known(reqs, pipe)
  {
    assert forall i :: 0 <= i < |pipe| ==> pipe[i] == (front + pipe)[|front| + i];
  }

  lemma PipeOfNoRoom(s: State, room: RoomId)
    requires s.inbox != [] && s.inbox[0].SendRoomMessage? && s.inbox[0].room !in s.router.rooms
    ensures PipeOf(s, room) == Tag(s.inbox[0], SendsTo(room)) + PipeOf(HandleRoom(PopInbox(s), s.inbox[0]), room)
  {
    var m := s.inbox[0];
    assert Tags(s.inbox, SendsTo(room)) == Tag(m, SendsTo(room)) + Tags(s.inbox[1..], SendsTo(room));
  }

  /** A message for a room that nobody has joined leaves the pipe at its front. */
  lemma PipeNoRoom(s: State)
    requires PipeInv(s) && s.inbox != [] && s.inbox[0].SendRoomMessage? && s.inbox[0].room !in s.router.rooms
    ensures PipeInv(HandleRoom(PopInbox(s), s.inbox[0]))
  {
    var t, m := HandleRoom(PopInbox(s), s.inbox[0]), s.inbox[0];
    forall room: RoomId
      ensures Known(t.reqs, PipeOf(t, room))
    {
      PipeOfNoRoom(s, room);
      assert Known(s.reqs, PipeOf(s, room));
      KnownDrop(s.reqs, Tag(m, SendsTo(room)), PipeOf(t, room));
    }
    forall room: RoomId, sid | 0 <= sid < |t.h.sent|
      ensures PipeOk(t.reqs, PipeOf(t, room), t.h.sent[sid], room, sid)
    {
      PipeOfNoRoom(s, room);
      assert PipeOk(s.reqs, PipeOf(s, room), s.h.sent[sid], room, sid);
      PipeOkDrop(s.reqs, Tag(m, SendsTo(room)), PipeOf(t, room), s.h.sent[sid], room, sid);
    }
  }

  /** Whatever room message is forwarded, the pipe of any other room is the same. */
  lemma PipeOfOther(s: State, a: ActorId, room: RoomId)
    requires s.inbox != [] && s.inbox[0].SendRoomMessage? && s.inbox[0].room in s.router.rooms
    requires room != s.inbox[0].room
    requires |s.h.logs| == |s.actors| && RoomsInv(s.router.rooms, s.actors) && a == s.router.rooms[s.inbox[0].room]
    ensures PipeOf(HandleRoom(PopInbox(s), s.inbox[0]), room) == PipeOf(s, room)
  {
    var t := HandleRoom(PopInbox(s), s.inbox[0]);
    assert Tags(s.inbox, SendsTo(room)) == Tags(t.inbox, SendsTo(room));
    if room in s.router.rooms {
      assert t.actors[s.router.rooms[room]] == s.actors[s.router.rooms[room]];
    }
  }

  lemma ForwardedTo(s: State, m: RouterMsg, a: ActorId)
    requires m.SendRoomMessage? && m.room in s.router.rooms && a == s.router.rooms[m.room] < |s.actors|
    requires s.actors[a].alive
    ensures var t := HandleRoom(s, m);
            && t.router == s.router && t.h.logs == s.h.logs && t.inbox == s.inbox && |t.actors| == |s.actors|
            && SendIds(t.actors[a].mailbox) == SendIds(s.actors[a].mailbox) + [m.id]
  {
    SendIdsAppend(s.actors[a].mailbox, SendMessage(m.id, m.from, m.content));
  }

  /** A message moves from the router's inbox to the end of its room's mailbox: the pipe is the same. */
  lemma PipeOfRoom(s: State, a: ActorId, room: RoomId)
    requires s.inbox != [] && s.inbox[0].SendRoomMessage? && s.inbox[0].room in s.router.rooms
    requires |s.h.logs| == |s.actors| && RoomsInv(s.router.rooms, s.actors) && a == s.router.rooms[s.inbox[0].room]
    ensures PipeOf(HandleRoom(PopInbox(s), s.inbox[0]), room) == PipeOf(s, room)
  {
    var m := s.inbox[0];
    if room != m.room {
      PipeOfOther(s, a, room);
    } else {
      ForwardedTo(PopInbox(s), m, a);
      var log, ids, tail := s.h.logs[a], SendIds(s.actors[a].mailbox), Tags(s.inbox[1..], SendsTo(room));
      assert Tags(s.inbox, SendsTo(room)) == [m.id] + tail;
      assert (log + ids) + ([m.id] + tail) == (log + (ids + [m.id])) + tail;
    }
  }

  lemma PipeRoom(s: State, a: ActorId)
    requires PipeInv(s) && s.inbox != [] && s.inbox[0].SendRoomMessage? && s.inbox[0].room in s.router.rooms
    requires |s.h.logs| == |s.actors| && RoomsInv(s.router.rooms, s.actors) && a == s.router.rooms[s.inbox[0].room]
    ensures PipeInv(HandleRoom(PopInbox(s), s.inbox[0]))
  {
    var t := HandleRoom(PopInbox(s), s.inbox[0]);
    forall room: RoomId
      ensures PipeOf(t, room) == PipeOf(s, room)
    {
      PipeOfRoom(s, a, room);
    }
    PipeSame(s, t);
  }

  lemma PipeOpen(s: State, room: RoomId)
    requires PipeInv(s) && |s.h.logs| == |s.actors| && RoomsInv(s.router.rooms, s.actors)
    ensures PipeInv(OpenRoom(s, room))
  {
    var t := OpenRoom(s, room);
    forall r: RoomId
      ensures PipeOf(t, r) == PipeOf(s, r)
    {
    }
    PipeSame(s, t);
  }

  lemma PipePush(s: State, a: ActorId, m: RoomMsg)
    requires PipeInv(s) && a < |s.actors| && SendTag(m) == []
    ensures PipeInv(s.(actors := PushRoom(s.actors, a, m)))
  {
    var t := s.(actors := PushRoom(s.actors, a, m));
    SendIdsAppend(s.actors[a].mailbox, m);
    forall r: RoomId
      ensures PipeOf(t, r) == PipeOf(s, r)
    {
    }
    PipeSame(s, t);
  }

  lemma PipeSet(s: State, a: ActorId, x: Actor)
    requires PipeInv(s) && a < |s.actors| && SendIds(x.mailbox) == SendIds(s.actors[a].mailbox)
    ensures PipeInv(SetActor(s, a, x))
  {
    var t := SetActor(s, a, x);
    forall r: RoomId
      ensures PipeOf(t, r) == PipeOf(s, r)
    {
    }
    PipeSame(s, t);
  }

  lemma PipeSend(s: State, a: ActorId, x: Actor, id: MsgId, from: UserId, content: string, at: int)
    requires PipeInv(s) && a < |s.actors| && |s.h.logs| == |s.actors|
    requires SendIds(s.actors[a].mailbox) == [id] + SendIds(x.mailbox)
    ensures PipeInv(HandleSend(s, a, x, id, from, content, at))
  {
    var t := HandleSend(s, a, x, id, from, content, at);
    forall r: RoomId
      ensures PipeOf(t, r) == PipeOf(s, r)
    {
      assert s.h.logs[a] + ([id] + SendIds(x.mailbox)) == (s.h.logs[a] + [id]) + SendIds(x.mailbox);
    }
    PipeSame(s, t);
  }
}
