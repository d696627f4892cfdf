/** Per-room total order and at-most-once delivery: how `OrderInv` survives each change. */
module OrderProof {
  import opened Types
  import opened Sequences
  import opened Channels
  import opened Registry
  import opened Protocol
  import opened Invariants

  predicate InMailbox(st: Stage) {
    st.AtRouter? || st.AtRoom?
  }

  /** No request returns to the router or to a mailbox. */
  ghost predicate Onward(stage: map<MsgId, Stage>, stage': map<MsgId, Stage>) {
    forall id :: id in stage ==>
      && id in stage'
      && (!stage[id].AtRouter? ==> !stage'[id].AtRouter?)
      && (!InMailbox(stage[id]) ==> !InMailbox(stage'[id]))
  }

  lemma LogOnward(logs: seq<seq<MsgId>>, actors: seq<Actor>, reqs: map<MsgId, Request>, stage: map<MsgId, Stage>,
                  stage': map<MsgId, Stage>)
    requires LogInv(logs, actors, reqs, stage) && Onward(stage, stage')
    ensures LogInv(logs, actors, reqs, stage')
  {
  }

  lemma OnceOnward(entered: seq<seq<ChatMessage>>, hand: Option<Delivery>, stage: map<MsgId, Stage>,
                   stage': map<MsgId, Stage>)
    requires OnceInv(entered, hand, stage) && Onward(stage, stage')
    ensures OnceInv(entered, hand, stage')
  {
  }

  lemma OrderOnward(s: State, t: State)
    requires OrderInv(s) && Onward(s.h.stage, t.h.stage)
    requires t.actors == s.actors && t.reqs == s.reqs && t.h.logs == s.h.logs && t.h.entered == s.h.entered
    requires t.hand == s.hand
    ensures OrderInv(t)
  {
    LogOnward(s.h.logs, s.actors, s.reqs, s.h.stage, t.h.stage);
    OnceOnward(s.h.entered, s.hand, s.h.stage, t.h.stage);
  }

  lemma OrderFrame(s: State, t: State)
    requires OrderInv(s) && t.h.stage == s.h.stage
    requires t.actors == s.actors && t.reqs == s.reqs && t.h.logs == s.h.logs && t.h.entered == s.h.entered
    requires t.hand == s.hand
    ensures OrderInv(t)
  {
  }

  /** One request moves on to a place outside the mailboxes. */
  lemma OrderMove(s: State, t: State, id: MsgId, next: Stage)
    requires OrderInv(s) && id in s.h.stage && !InMailbox(next) && t.h.stage == s.h.stage[id := next]
    requires t.actors == s.actors && t.reqs == s.reqs && t.h.logs == s.h.logs && t.h.entered == s.h.entered
    requires t.hand == s.hand
    ensures OrderInv(t)
  {
    OrderOnward(s, t);
  }

  lemma OrderClose(s: State, sid: SessionId)
    requires OrderInv(s) && sid < |s.chans| && sid < |s.acks|
    ensures OrderInv(CloseSend(s, sid))
  {
    OrderOnward(s, CloseSend(s, sid));
  }

  lemma OrderAckPush(s: State, id: MsgId)
    requires OrderInv(s) && id in s.shots && id in s.reqs && s.reqs[id].origin < |s.acks| && id in s.h.stage
    ensures OrderInv(DoAckPush(s, id))
  {
    var t := DoAckPush(s, id);
    OrderMove(s, t, id, t.h.stage[id]);
  }

  lemma OrderMint(s: State, id: MsgId, q: Request, m: RouterMsg)
    requires OrderInv(s) && id !in s.reqs && id !in s.h.stage && q.origin < |s.h.sent|
    ensures OrderInv(Mint(s, id, q, m))
  {
    var t := Mint(s, id, q, m);
    assert LogInv(t.h.logs, t.actors, t.reqs, t.h.stage);
    assert OnceInv(t.h.entered, t.hand, t.h.stage);
  }

  lemma CastConnect(x: Actor, log: seq<MsgId>, entered: seq<seq<ChatMessage>>)
    requires CastInv(x, log, entered)
    requires forall u :: u in x.members ==> x.members[u] < |entered|
    ensures CastInv(x, log, entered + [[]])
  {
    SubsequenceEmpty(log);
    assert RoomIds([], x.room) == [];
  }

  lemma OrderConnect(s: State, u: UserId)
    requires InRange(s) && OrderInv(s)
    ensures OrderInv(DoConnect(s, u))
  {
    forall a | 0 <= a < |s.actors|
      ensures CastInv(s.actors[a], s.h.logs[a], s.h.entered + [[]])
    {
      assert ActorInRange(s.actors[a], |s.sessions|);
      CastConnect(s.actors[a], s.h.logs[a], s.h.entered);
    }
  }

  /** The router accepts a direct message: it is in nobody's channel yet. */
  lemma OnceDirect(s: State, id: MsgId, d: Delivery)
    requires OnceInv(s.h.entered, None, s.h.stage) && id in s.h.stage && s.h.stage[id].AtRouter? && d.msg.id == id
    ensures OnceInv(s.h.entered, Some(d), s.h.stage[id := AtTask])
  {
  }

  lemma OrderDirect(s: State, m: RouterMsg, at: int)
    requires OrderInv(s) && s.hand.None? && m.SendDirectMessage? && m.id in s.h.stage && s.h.stage[m.id].AtRouter?
    ensures OrderInv(HandleDirect(s, m, at))
  {
    LogOnward(s.h.logs, s.actors, s.reqs, s.h.stage, s.h.stage[m.id := AtTask]);
    OnceDirect(s, m.id, Delivery(m.to, DirectMessage(m.from, m.content, m.id)));
  }

  /** Replacing an actor by one that keeps its room and casts nothing new. */
  lemma OrderSet(s: State, a: ActorId, x: Actor)
    requires OrderInv(s) && a < |s.actors| && x.room == s.actors[a].room && !x.activity.Casting?
    ensures OrderInv(SetActor(s, a, x))
  {
    assert CastInv(s.actors[a], s.h.logs[a], s.h.entered);
  }

  lemma OrderPushRoom(s: State, a: ActorId, m: RoomMsg)
    requires OrderInv(s) && a < |s.actors|
    ensures OrderInv(s.(actors := PushRoom(s.actors, a, m)))
  {
    assert CastInv(s.actors[a], s.h.logs[a], s.h.entered);
    var x := s.actors[a];
    assert CastInv(x.(mailbox := x.mailbox + [m]), s.h.logs[a], s.h.entered);
  }

  lemma OrderRoom(s: State, m: RouterMsg, a: ActorId)
    requires OrderInv(s) && m.SendRoomMessage? && m.room in s.router.rooms && a == s.router.rooms[m.room]
    requires a < |s.actors|
    requires m.id in s.h.stage && s.h.stage[m.id].AtRouter?
    ensures OrderInv(HandleRoom(s, m))
  {
    var msg := SendMessage(m.id, m.from, m.content);
    OrderPushRoom(s, a, msg);
    OrderOnward(s.(actors := PushRoom(s.actors, a, msg)), HandleRoom(s, m));
  }

  lemma OrderOpen(s: State, room: RoomId)
    requires OrderInv(s) && room !in s.router.rooms
    requires forall sid, i :: 0 <= sid < |s.h.entered| && 0 <= i < |s.h.entered[sid]| ==>
               !(s.h.entered[sid][i].RoomMessage? && s.h.entered[sid][i].room == room)
    ensures OrderInv(OpenRoom(s, room))
  {
    var t := OpenRoom(s, room);
    forall a | 0 <= a < |t.actors|
      ensures CastInv(t.actors[a], t.h.logs[a], t.h.entered)
    {
      if a == |s.actors| {
        forall sid | 0 <= sid < |t.h.entered|
          ensures Subsequence(RoomIds(t.h.entered[sid], room), [])
        {
          NoRoomIds(t.h.entered[sid], room);
          SubsequenceEmpty<MsgId>([]);
        }
      } else {
        assert CastInv(s.actors[a], s.h.logs[a], s.h.entered);
      }
    }
  }

  lemma {:induction false} NoRoomIds(q: seq<ChatMessage>, room: RoomId)
    requires forall i :: 0 <= i < |q| ==> !(q[i].RoomMessage? && q[i].room == room)
    ensures RoomIds(q, room) == []
  {
    if q != [] {
      NoRoomIds(q[..|q| - 1], room);
    }
  }

  lemma {:induction false} RoomIdsMember(q: seq<ChatMessage>, room: RoomId, i: nat)
    requires i < |q| && q[i].RoomMessage? && q[i].room == room
    ensures q[i].id in RoomIds(q, room)
  {
    if i < |q| - 1 {
      assert q[..|q| - 1][i] == q[i];
      RoomIdsMember(q[..|q| - 1], room, i);
    }
  }

  lemma RoomIdsAppend(q: seq<ChatMessage>, m: ChatMessage, room: RoomId)
    ensures RoomIds(q + [m], room) == RoomIds(q, room) + (if m.RoomMessage? && m.room == room then [m.id] else [])
  {
    assert (q + [m])[..|q|] == q;
  }

  // ---- The start of a broadcast ----

  lemma CastStart(x: Actor, x': Actor, log: seq<MsgId>, entered: seq<seq<ChatMessage>>)
    requires CastInv(x, log, entered) && x'.room == x.room && x'.activity.Casting?
    ensures CastInv(x', log + [x'.activity.msg.id], entered)
  {
    var id := x'.activity.msg.id;
    assert (log + [id])[..|log|] == log;
    forall sid | 0 <= sid < |entered|
      ensures Subsequence(RoomIds(entered[sid], x.room), log + [id])
    {
      SubsequenceGrow(RoomIds(entered[sid], x.room), log, id);
    }
  }

  lemma LogSend(logs: seq<seq<MsgId>>, actors: seq<Actor>, reqs: map<MsgId, Request>, stage: map<MsgId, Stage>,
                a: ActorId, x: Actor, id: MsgId)
    requires LogInv(logs, actors, reqs, stage) && a < |actors| && x.room == actors[a].room
    requires id in stage && stage[id].AtRoom? && id in reqs && reqs[id].kind == ToRoom(x.room)
    ensures LogInv(logs[a := logs[a] + [id]], actors[a := x], reqs, stage[id := AtTask])
  {
    assert id !in logs[a];
    NoDupAppend(logs[a], id);
  }

  lemma OrderSend(s: State, a: ActorId, x: Actor, id: MsgId, from: UserId, content: string, at: int)
    requires OrderInv(s) && a < |s.actors| && x.room == s.actors[a].room
    requires id in s.h.stage && s.h.stage[id].AtRoom? && id in s.reqs && s.reqs[id].kind == ToRoom(x.room)
    ensures OrderInv(HandleSend(s, a, x, id, from, content, at))
  {
    var t := HandleSend(s, a, x, id, from, content, at);
    LogSend(s.h.logs, s.actors, s.reqs, s.h.stage, a, t.actors[a], id);
    assert CastInv(s.actors[a], s.h.logs[a], s.h.entered);
    CastStart(s.actors[a], t.actors[a], s.h.logs[a], s.h.entered);
    OnceOnward(s.h.entered, s.hand, s.h.stage, t.h.stage);
  }

  // ---- One try_send ----

  /** A message that is not of this room leaves the room's view of every channel alone. */
  lemma CastOther(x: Actor, log: seq<MsgId>, entered: seq<seq<ChatMessage>>, c: SessionId, m: ChatMessage)
    requires CastInv(x, log, entered) && c < |entered| && !(m.RoomMessage? && m.room == x.room)
    ensures CastInv(x, log, entered[c := entered[c] + [m]])
  {
    RoomIdsAppend(entered[c], m, x.room);
    assert RoomIds(entered[c], x.room) + [] == RoomIds(entered[c], x.room);
  }

  lemma CastReached(x: Actor, log: seq<MsgId>, entered: seq<seq<ChatMessage>>, u: UserId)
    requires CastInv(x, log, entered) && x.activity.Casting? && u in x.activity.pending
    ensures CastInv(x.(activity := Casting(x.activity.msg, x.activity.pending - {u})), log, entered)
  {
  }

  lemma CastHere(x: Actor, log: seq<MsgId>, entered: seq<seq<ChatMessage>>, u: UserId)
    requires CastInv(x, log, entered) && x.activity.Casting? && u in x.activity.pending && u in x.members
    requires x.members[u] < |entered| && x.activity.msg.RoomMessage? && x.activity.msg.room == x.room
    requires forall v :: v in x.members && v != u ==> x.members[v] != x.members[u]
    ensures var c := x.members[u];
            CastInv(x.(activity := Casting(x.activity.msg, x.activity.pending - {u})), log,
                entered[c := entered[c] + [x.activity.msg]])
  {
    var c, m := x.members[u], x.activity.msg;
    var entered' := entered[c := entered[c] + [m]];
    RoomIdsAppend(entered[c], m, x.room);
    SubsequenceBoth(RoomIds(entered[c], x.room), log[..|log| - 1], m.id);
    assert log[..|log| - 1] + [m.id] == log;
    assert Subsequence(RoomIds(entered'[c], x.room), log);
  }

  lemma OncePush(entered: seq<seq<ChatMessage>>, hand: Option<Delivery>, stage: map<MsgId, Stage>, c: SessionId,
                 m: ChatMessage)
    requires OnceInv(entered, hand, stage) && c < |entered| && m.id !in ChatIds(entered[c])
    requires m.DirectMessage? ==> hand.None? && m.id in stage && !stage[m.id].AtRouter?
    ensures OnceInv(entered[c := entered[c] + [m]], hand, stage)
  {
    assert ChatIds(entered[c] + [m]) == ChatIds(entered[c]) + [m.id];
    NoDupAppend(ChatIds(entered[c]), m.id);
  }

  /** The message being cast is not in a channel it is still pending for. */
  lemma CastIsNew(x: Actor, log: seq<MsgId>, entered: seq<seq<ChatMessage>>, u: UserId, reqs: map<MsgId, Request>,
                  v: UserId)
    requires CastInv(x, log, entered) && NoDup(log) && x.activity.Casting? && u in x.activity.pending && u in x.members
    requires x.members[u] < |entered| && EnteredOk(reqs, v, entered[x.members[u]])
    requires var m := x.activity.msg; m.RoomMessage? && m.id in reqs && reqs[m.id].kind == ToRoom(x.room)
    ensures x.activity.msg.id !in ChatIds(entered[x.members[u]])
  {
    var q, id, before := entered[x.members[u]], x.activity.msg.id, log[..|log| - 1];
    forall i | 0 <= i < |q|
      ensures q[i].id != id
    {
      assert Genuine(reqs, v, q[i]);
      if q[i].RoomMessage? && q[i].room == x.room {
        RoomIdsMember(q, x.room, i);
        SubsequenceMember(RoomIds(q, x.room), before, q[i].id);
      }
    }
  }

  lemma DirectIsNew(entered: seq<seq<ChatMessage>>, d: Delivery, stage: map<MsgId, Stage>, c: SessionId,
                    reqs: map<MsgId, Request>, v: UserId)
    requires OnceInv(entered, Some(d), stage) && c < |entered| && EnteredOk(reqs, v, entered[c])
    requires d.msg.DirectMessage? && Genuine(reqs, d.to, d.msg)
    ensures d.msg.id !in ChatIds(entered[c])
  {
    forall i | 0 <= i < |entered[c]|
      ensures entered[c][i].id != d.msg.id
    {
      assert Genuine(reqs, v, entered[c][i]);
    }
  }

  lemma OrderDeliver(s: State)
    requires InRange(s) && OrderInv(s) && s.hand.Some? && HandOk(s.reqs, s.hand)
    requires EnteredInv(s.sessions, s.reqs, s.h.entered)
    ensures OrderInv(DoDeliver(s))
  {
    var t, d := DoDeliver(s), s.hand.value;
    if d.to in s.router.users && HasRoom(s.chans[s.router.users[d.to]]) {
      var c := s.router.users[d.to];
      DirectIsNew(s.h.entered, d, s.h.stage, c, s.reqs, s.sessions[c].user);
      OncePush(s.h.entered, None, s.h.stage, c, d.msg);
      forall a | 0 <= a < |s.actors|
        ensures CastInv(s.actors[a], s.h.logs[a], t.h.entered)
      {
        CastOther(s.actors[a], s.h.logs[a], s.h.entered, c, d.msg);
      }
    }
  }

  lemma LogSet(s: State, a: ActorId, x: Actor)
    requires LogInv(s.h.logs, s.actors, s.reqs, s.h.stage) && a < |s.actors| && x.room == s.actors[a].room
    ensures LogInv(s.h.logs, s.actors[a := x], s.reqs, s.h.stage)
  {
  }

  lemma CastElsewhere(s: State, a: ActorId, c: SessionId, m: ChatMessage)
    requires OrderInv(s) && RoomsInv(s.router.rooms, s.actors) && a < |s.actors| && c < |s.h.entered|
    requires m.RoomMessage? && m.room == s.actors[a].room
    ensures forall b :: 0 <= b < |s.actors| && b != a ==>
              CastInv(s.actors[b], s.h.logs[b], s.h.entered[c := s.h.entered[c] + [m]])
  {
    forall b | 0 <= b < |s.actors| && b != a
      ensures CastInv(s.actors[b], s.h.logs[b], s.h.entered[c := s.h.entered[c] + [m]])
    {
      assert s.actors[b].room != s.actors[a].room;
      CastOther(s.actors[b], s.h.logs[b], s.h.entered, c, m);
    }
  }

  /** Members of one room never share a channel, because a channel belongs to one user. */
  lemma ChannelsDistinct(ss: seq<Session>, reqs: map<MsgId, Request>, x: Actor)
    requires ActorOk(ss, reqs, x)
    ensures forall u, v :: u in x.members && v in x.members && u != v ==> x.members[u] != x.members[v]
  {
  }

  lemma OrderCastSent(s: State, a: ActorId, u: UserId)
    requires Sized(s) && OrderInv(s) && RoomsInv(s.router.rooms, s.actors)
    requires a < |s.actors| && ActorOk(s.sessions, s.reqs, s.actors[a])
    requires s.actors[a].activity.Casting? && u in s.actors[a].activity.pending && u in s.actors[a].members
    requires s.actors[a].members[u] < |s.sessions| && HasRoom(s.chans[s.actors[a].members[u]])
    requires EnteredOk(s.reqs, s.sessions[s.actors[a].members[u]].user, s.h.entered[s.actors[a].members[u]])
    ensures var t := DoCast(s, a, u);
            CastsInv(t.actors, t.h.logs, t.h.entered) && OnceInv(t.h.entered, t.hand, t.h.stage)
  {
    var x := s.actors[a];
    var c, m := x.members[u], x.activity.msg;
    assert CastInv(x, s.h.logs[a], s.h.entered);
    ChannelsDistinct(s.sessions, s.reqs, x);
    CastHere(x, s.h.logs[a], s.h.entered, u);
    CastIsNew(x, s.h.logs[a], s.h.entered, u, s.reqs, s.sessions[c].user);
    OncePush(s.h.entered, s.hand, s.h.stage, c, m);
    CastElsewhere(s, a, c, m);
  }

  lemma OrderCast(s: State, a: ActorId, u: UserId)
    requires Sized(s) && OrderInv(s) && RoomsInv(s.router.rooms, s.actors)
    requires ActorsOk(s.sessions, s.reqs, s.actors) && EnteredInv(s.sessions, s.reqs, s.h.entered)
    requires a < |s.actors| && s.actors[a].activity.Casting? && u in s.actors[a].activity.pending
    requires u in s.actors[a].members
    requires s.actors[a].members[u] < |s.sessions|
    ensures OrderInv(DoCast(s, a, u))
  {
    var x := s.actors[a];
    LogSet(s, a, x.(activity := Casting(x.activity.msg, x.activity.pending - {u})));
    if HasRoom(s.chans[x.members[u]]) {
      OrderCastSent(s, a, u);
    } else {
      assert CastInv(x, s.h.logs[a], s.h.entered);
      CastReached(x, s.h.logs[a], s.h.entered, u);
    }
  }
}
