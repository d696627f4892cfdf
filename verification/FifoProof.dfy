/** Channels are bounded and first-in first-out: how `FifoInv` survives each change. */
module FifoProof {
  import opened Types
  import opened Channels
  import opened Protocol
  import opened Invariants

  lemma FifoFrame(s: State, t: State)
    requires FifoInv(s) && t.chans == s.chans && t.acks == s.acks && t.h.entered == s.h.entered
    requires t.h.shown == s.h.shown
    ensures FifoInv(t)
  {
  }

  lemma FifoConnect(s: State, u: UserId)
    requires Sized(s) && FifoInv(s)
    ensures FifoInv(DoConnect(s, u))
  {
  }

  lemma FifoStart(s: State, sid: SessionId)
    requires Sized(s) && FifoInv(s) && sid < |s.sessions|
    ensures FifoInv(DoStart(s, sid))
  {
  }

  lemma FifoClose(s: State, sid: SessionId)
    requires Sized(s) && sid < |s.sessions| && FifoInv(s)
    ensures FifoInv(CloseSend(s, sid))
  {
    assert ChannelOk(s.chans[sid], s.h.entered[sid], s.h.shown[sid]);
  }

  lemma FifoPopChat(s: State, sid: SessionId)
    requires Sized(s) && FifoInv(s) && sid < |s.sessions| && s.chans[sid].open && s.chans[sid].queue != []
    ensures FifoInv(PopChat(s, sid, true))
  {
    var c := s.chans[sid];
    assert ChannelOk(c, s.h.entered[sid], s.h.shown[sid]);
    assert (s.h.shown[sid] + [c.queue[0]]) + c.queue[1..] == s.h.shown[sid] + c.queue;
  }

  lemma FifoPopAck(s: State, sid: SessionId)
    requires Sized(s) && FifoInv(s) && sid < |s.sessions| && s.acks[sid].queue != []
    ensures FifoInv(PopAck(s, sid))
  {
  }

  lemma FifoPush(s: State, c: SessionId, m: ChatMessage)
    requires Sized(s) && FifoInv(s) && c < |s.sessions|
    ensures FifoInv(Push(s, c, m))
  {
    var x := s.chans[c];
    assert ChannelOk(x, s.h.entered[c], s.h.shown[c]);
    assert s.h.shown[c] + (x.queue + [m]) == (s.h.shown[c] + x.queue) + [m];
  }

  lemma FifoAckPush(s: State, id: MsgId)
    requires Sized(s) && FifoInv(s) && id in s.shots && id in s.reqs && s.reqs[id].origin < |s.acks|
    requires var c := s.acks[s.reqs[id].origin]; !c.open || |c.queue| < CAPACITY
    ensures FifoInv(DoAckPush(s, id))
  {
  }
}
