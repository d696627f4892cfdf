/** Handles stay in range: every step keeps `InRange`. */
module RangeProof {
  import opened Types
  import opened Registry
  import opened Store
  import opened Protocol
  import opened Invariants

  lemma RangeConnect(s: State, u: UserId)
    requires InRange(s)
    ensures InRange(DoConnect(s, u))
  {
  }

  lemma RangeMint(s: State, id: MsgId, req: Request, msg: RouterMsg)
    requires InRange(s) && req.origin < |s.sessions| && RouterMsgInRange(msg, |s.sessions|)
    ensures InRange(Mint(s, id, req, msg))
  {
  }

  lemma RangeClose(s: State, sid: SessionId)
    requires InRange(s) && sid < |s.sessions|
    ensures InRange(CloseSend(s, sid))
  {
  }

  lemma RangeDirect(s: State, m: RouterMsg, at: int)
    requires InRange(s) && m.SendDirectMessage?
    ensures InRange(HandleDirect(s, m, at))
  {
  }

  lemma RangeOpen(s: State, room: RoomId)
    requires InRange(s)
    ensures InRange(OpenRoom(s, room))
  {
  }

  lemma RangePush(actors: seq<Actor>, a: ActorId, m: RoomMsg, n: nat)
    requires ActorsInRange(actors, n) && a < |actors| && RoomMsgInRange(m, n)
    ensures ActorsInRange(PushRoom(actors, a, m), n)
  {
  }

  lemma RangeRoom(s: State, m: RouterMsg)
    requires InRange(s) && m.SendRoomMessage? && m.id in s.reqs
    ensures InRange(HandleRoom(s, m))
  {
    if m.room in s.router.rooms {
      RangePush(s.actors, s.router.rooms[m.room], SendMessage(m.id, m.from, m.content), |s.sessions|);
    }
  }

  lemma RangeSetActor(s: State, a: ActorId, x: Actor)
    requires InRange(s) && a < |s.actors| && ActorInRange(x, |s.sessions|)
    ensures InRange(SetActor(s, a, x))
  {
  }

  lemma RangePopMail(x: Actor, n: nat)
    requires ActorInRange(x, n) && x.mailbox != []
    ensures ActorInRange(PopMail(x), n) && RoomMsgInRange(x.mailbox[0], n)
  {
  }

  lemma RangeResolve(s: State, id: MsgId, r: Status)
    requires InRange(s) && id in s.reqs
    ensures InRange(Resolve(s, id, r))
  {
  }


  lemma RangeSetTask(s: State, id: MsgId, k: Task)
    requires InRange(s) && id in s.tasks
    ensures InRange(SetTask(s, id, k))
  {
  }

  lemma RangeOrphan(s: State, id: MsgId)
    requires InRange(s) && id in s.writes
    ensures InRange(s.(orphans := s.orphans + {id}))
  {
  }

  lemma RangeExecute(s: State, id: MsgId, ok: bool)
    requires InRange(s) && id in s.tasks
    ensures InRange(DoExecute(s, id, ok))
  {
  }

  lemma RangeAckPush(s: State, id: MsgId)
    requires InRange(s) && id in s.shots
    ensures InRange(DoAckPush(s, id))
  {
  }

  lemma RangePopAck(s: State, sid: SessionId)
    requires InRange(s) && sid < |s.sessions| && s.acks[sid].queue != []
    ensures InRange(PopAck(s, sid))
  {
  }
}
