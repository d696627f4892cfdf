/** Nothing is fabricated: how `PayloadInv` survives each kind of change. */
module PayloadProof {
  import opened Types
  import opened Protocol
  import opened Invariants

  /** Sessions keep their user, and a session that ran has run. */
  ghost predicate Later(ss: seq<Session>, ss': seq<Session>) {
    && |ss| <= |ss'|
    && (forall i :: 0 <= i < |ss| ==> ss'[i].user == ss[i].user && (Ran(ss[i].phase) ==> Ran(ss'[i].phase)))
  }

  lemma ActorLater(ss: seq<Session>, ss': seq<Session>, reqs: map<MsgId, Request>, x: Actor)
    requires Later(ss, ss') && ActorOk(ss, reqs, x)
    ensures ActorOk(ss', reqs, x)
  {
  }

  lemma PayloadLater(ss: seq<Session>, ss': seq<Session>, reqs: map<MsgId, Request>, inbox: seq<RouterMsg>,
                     actors: seq<Actor>)
    requires Later(ss, ss') && ReqsOk(ss, reqs) && InboxOk(ss, reqs, inbox) && ActorsOk(ss, reqs, actors)
    ensures ReqsOk(ss', reqs) && InboxOk(ss', reqs, inbox) && ActorsOk(ss', reqs, actors)
  {
    forall a | 0 <= a < |actors|
      ensures ActorOk(ss', reqs, actors[a])
    {
      ActorLater(ss, ss', reqs, actors[a]);
    }
  }

  lemma EnteredLater(ss: seq<Session>, ss': seq<Session>, reqs: map<MsgId, Request>, entered: seq<seq<ChatMessage>>)
    requires Later(ss, ss') && |ss'| == |ss| && EnteredInv(ss, reqs, entered)
    ensures EnteredInv(ss', reqs, entered)
  {
  }

  lemma EnteredConnect(ss: seq<Session>, x: Session, reqs: map<MsgId, Request>, entered: seq<seq<ChatMessage>>)
    requires |entered| == |ss| && EnteredInv(ss, reqs, entered)
    ensures EnteredInv(ss + [x], reqs, entered + [[]])
  {
  }

  lemma ActorFresh(ss: seq<Session>, reqs: map<MsgId, Request>, id: MsgId, q: Request, x: Actor)
    requires id !in reqs && ActorOk(ss, reqs, x)
    ensures ActorOk(ss, reqs[id := q], x)
  {
  }

  lemma PayloadFresh(ss: seq<Session>, reqs: map<MsgId, Request>, id: MsgId, q: Request, inbox: seq<RouterMsg>,
                     actors: seq<Actor>)
    requires id !in reqs && Was(ss, q.origin, q.from)
    requires ReqsOk(ss, reqs) && InboxOk(ss, reqs, inbox) && ActorsOk(ss, reqs, actors)
    ensures ReqsOk(ss, reqs[id := q]) && InboxOk(ss, reqs[id := q], inbox) && ActorsOk(ss, reqs[id := q], actors)
  {
    forall a | 0 <= a < |actors|
      ensures ActorOk(ss, reqs[id := q], actors[a])
    {
      ActorFresh(ss, reqs, id, q, actors[a]);
    }
  }

  lemma EnteredFresh(ss: seq<Session>, reqs: map<MsgId, Request>, id: MsgId, q: Request, entered: seq<seq<ChatMessage>>)
    requires id !in reqs && EnteredInv(ss, reqs, entered)
    ensures EnteredInv(ss, reqs[id := q], entered)
  {
    forall sid | 0 <= sid < |ss| && sid < |entered|
      ensures EnteredOk(reqs[id := q], ss[sid].user, entered[sid])
    {
      assert EnteredOk(reqs, ss[sid].user, entered[sid]);
    }
  }

  lemma InboxAppend(ss: seq<Session>, reqs: map<MsgId, Request>, inbox: seq<RouterMsg>, m: RouterMsg)
    requires InboxOk(ss, reqs, inbox) && RouterMsgOk(ss, reqs, m)
    ensures InboxOk(ss, reqs, inbox + [m])
  {
  }

  lemma InboxPop(ss: seq<Session>, reqs: map<MsgId, Request>, inbox: seq<RouterMsg>)
    requires inbox != [] && InboxOk(ss, reqs, inbox)
    ensures RouterMsgOk(ss, reqs, inbox[0]) && InboxOk(ss, reqs, inbox[1..])
  {
  }

  lemma ActorsPush(ss: seq<Session>, reqs: map<MsgId, Request>, actors: seq<Actor>, a: ActorId, m: RoomMsg)
    requires a < |actors| && ActorsOk(ss, reqs, actors) && RoomMsgOk(ss, reqs, actors[a].room, m)
    ensures ActorsOk(ss, reqs, PushRoom(actors, a, m))
  {
    var x := actors[a];
    assert ActorOk(ss, reqs, x);
    assert ActorOk(ss, reqs, x.(mailbox := x.mailbox + [m]));
  }

  lemma EnteredPush(s: State, c: SessionId, m: ChatMessage)
    requires c < |s.sessions| && |s.sessions| == |s.h.entered| && |s.chans| == |s.sessions|
    requires EnteredInv(s.sessions, s.reqs, s.h.entered) && Genuine(s.reqs, s.sessions[c].user, m)
    ensures EnteredInv(s.sessions, s.reqs, Push(s, c, m).h.entered)
  {
    assert EnteredOk(s.reqs, s.sessions[c].user, s.h.entered[c] + [m]) by {
      assert EnteredOk(s.reqs, s.sessions[c].user, s.h.entered[c]);
    }
  }

  lemma ActorsSet(ss: seq<Session>, reqs: map<MsgId, Request>, actors: seq<Actor>, a: ActorId, x: Actor)
    requires a < |actors| && ActorsOk(ss, reqs, actors) && ActorOk(ss, reqs, x)
    ensures ActorsOk(ss, reqs, actors[a := x])
  {
  }

  lemma ActorPop(ss: seq<Session>, reqs: map<MsgId, Request>, x: Actor)
    requires x.mailbox != [] && ActorOk(ss, reqs, x)
    ensures RoomMsgOk(ss, reqs, x.room, x.mailbox[0]) && ActorOk(ss, reqs, PopMail(x))
  {
  }

  lemma PayloadMint(s: State, id: MsgId, q: Request, m: RouterMsg)
    requires PayloadInv(s) && id !in s.reqs && Was(s.sessions, q.origin, q.from) && q.origin < |s.h.sent|
    requires RouterMsgOk(s.sessions, s.reqs[id := q], m)
    ensures PayloadInv(Mint(s, id, q, m))
  {
    PayloadFresh(s.sessions, s.reqs, id, q, s.inbox, s.actors);
    InboxAppend(s.sessions, s.reqs[id := q], s.inbox, m);
    EnteredFresh(s.sessions, s.reqs, id, q, s.h.entered);
  }

  /** A phase change of one session that keeps what already ran. */
  lemma PayloadPhase(s: State, t: State)
    requires PayloadInv(s) && Later(s.sessions, t.sessions) && |t.sessions| == |s.sessions|
    requires t.reqs == s.reqs && t.hand == s.hand && t.actors == s.actors && t.h.entered == s.h.entered
    requires t.inbox == s.inbox
    ensures PayloadInv(t)
  {
    PayloadLater(s.sessions, t.sessions, s.reqs, s.inbox, s.actors);
    EnteredLater(s.sessions, t.sessions, s.reqs, s.h.entered);
  }
}
