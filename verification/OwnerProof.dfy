/** One owner per user: every step keeps `OwnerInv`. */
module OwnerProof {
  import opened Types
  import opened Sequences
  import opened Registry
  import opened Protocol
  import opened Invariants

  predicate Neutral(m: RouterMsg) {
    !m.RegisterUser? && !m.UnregisterUser?
  }

  lemma OwnerAppend(r: Router<SessionId, ActorId>, inbox: seq<RouterMsg>, ss: seq<Session>, m: RouterMsg)
    requires OwnerInv(r, inbox, ss) && Neutral(m)
    ensures OwnerInv(r, inbox + [m], ss)
  {
    TagsAppend(inbox, m, Registers);
    TagsAppend(inbox, m, Unregisters);
  }

  lemma OwnerPop(r: Router<SessionId, ActorId>, inbox: seq<RouterMsg>, ss: seq<Session>)
    requires inbox != [] && OwnerInv(r, inbox, ss) && Neutral(inbox[0])
    ensures OwnerInv(r, inbox[1..], ss)
  {
    assert Tags(inbox, Registers) == Tags(inbox[1..], Registers);
    assert Tags(inbox, Unregisters) == Tags(inbox[1..], Unregisters);
  }

  /** Sessions other than `c` are as before, and `c` is in range now. */
  ghost predicate Only(ss: seq<Session>, ss': seq<Session>, c: SessionId) {
    && |ss| <= |ss'| <= |ss| + 1 && c < |ss'| && (|ss'| > |ss| ==> c == |ss|)
    && (forall i :: 0 <= i < |ss| && i != c ==> ss'[i] == ss[i])
  }

  lemma PhaseEnter(ids: seq<int>, ss: seq<Session>, ss': seq<Session>, c: SessionId, p: Phase)
    requires InPhase(ids, ss, p) && Only(ss, ss', c) && ss'[c].phase == p
    requires c < |ss| ==> ss[c].phase != p
    ensures InPhase(ids + [c], ss', p)
  {
    NoDupAppend(ids, c);
    forall sid
      ensures sid in ids + [c] <==> 0 <= sid < |ss'| && ss'[sid].phase == p
    {
      assert sid in ids + [c] <==> sid in ids || sid == c;
    }
  }

  lemma PhaseLeave(ids: seq<int>, ss: seq<Session>, ss': seq<Session>, c: SessionId, p: Phase)
    requires InPhase([c] + ids, ss, p) && Only(ss, ss', c) && ss'[c].phase != p
    ensures c < |ss| && ss[c].phase == p
    ensures InPhase(ids, ss', p)
  {
    NoDupTail(ids, c);
    assert c in [c] + ids;
    forall sid
      ensures sid in ids <==> 0 <= sid < |ss'| && ss'[sid].phase == p
    {
      assert sid in [c] + ids <==> sid == c || sid in ids;
    }
  }

  lemma PhaseSame(ids: seq<int>, ss: seq<Session>, ss': seq<Session>, c: SessionId, p: Phase)
    requires InPhase(ids, ss, p) && Only(ss, ss', c) && ss'[c].phase != p
    requires c < |ss| ==> ss[c].phase != p
    ensures InPhase(ids, ss', p)
  {
    forall sid
      ensures sid in ids <==> 0 <= sid < |ss'| && ss'[sid].phase == p
    {
    }
  }

  lemma PhaseUntouched(ids: seq<int>, ss: seq<Session>, ss': seq<Session>, p: Phase)
    requires InPhase(ids, ss, p) && |ss'| == |ss| && forall i :: 0 <= i < |ss| ==> ss'[i].phase == ss[i].phase
    ensures InPhase(ids, ss', p)
  {
    forall sid
      ensures sid in ids <==> 0 <= sid < |ss'| && ss'[sid].phase == p
    {
    }
  }

  lemma HandshakeConnect(inbox: seq<RouterMsg>, ss: seq<Session>, u: UserId)
    requires HandshakeInv(inbox, ss)
    ensures HandshakeInv(inbox + [RegisterUser(u, |ss|)], ss + [Session(u, Registering, false)])
  {
    var m, ss' := RegisterUser(u, |ss|), ss + [Session(u, Registering, false)];
    TagsAppend(inbox, m, Registers);
    TagsAppend(inbox, m, Unregisters);
    PhaseEnter(Tags(inbox, Registers), ss, ss', |ss|, Registering);
    PhaseSame(Tags(inbox, Unregisters), ss, ss', |ss|, Leaving);
  }

  lemma OwnerConnect(r: Router<SessionId, ActorId>, inbox: seq<RouterMsg>, ss: seq<Session>, u: UserId)
    requires OwnerInv(r, inbox, ss)
    ensures OwnerInv(r, inbox + [RegisterUser(u, |ss|)], ss + [Session(u, Registering, false)])
  {
    HandshakeConnect(inbox, ss, u);
  }

  lemma OwnerStart(r: Router<SessionId, ActorId>, inbox: seq<RouterMsg>, ss: seq<Session>, sid: SessionId)
    requires OwnerInv(r, inbox, ss) && sid < |ss| && ss[sid].phase.Accepted?
    ensures OwnerInv(r, inbox, ss[sid := ss[sid].(phase := Running, receiving := true)])
  {
    var ss' := ss[sid := ss[sid].(phase := Running, receiving := true)];
    PhaseSame(Tags(inbox, Registers), ss, ss', sid, Registering);
    PhaseSame(Tags(inbox, Unregisters), ss, ss', sid, Leaving);
  }

  lemma OwnerReceiveEnds(r: Router<SessionId, ActorId>, inbox: seq<RouterMsg>, ss: seq<Session>, sid: SessionId)
    requires OwnerInv(r, inbox, ss) && sid < |ss|
    ensures OwnerInv(r, inbox, ss[sid := ss[sid].(receiving := false)])
  {
    var ss' := ss[sid := ss[sid].(receiving := false)];
    PhaseUntouched(Tags(inbox, Registers), ss, ss', Registering);
    PhaseUntouched(Tags(inbox, Unregisters), ss, ss', Leaving);
    assert UsersInv(r.users, ss');
  }

  lemma HandshakeSendUnregister(inbox: seq<RouterMsg>, ss: seq<Session>, sid: SessionId)
    requires HandshakeInv(inbox, ss) && sid < |ss| && ss[sid].phase.Running?
    ensures HandshakeInv(inbox + [UnregisterUser(ss[sid].user, sid)], SetPhase(ss, sid, Leaving))
  {
    var m, ss' := UnregisterUser(ss[sid].user, sid), SetPhase(ss, sid, Leaving);
    TagsAppend(inbox, m, Registers);
    TagsAppend(inbox, m, Unregisters);
    PhaseSame(Tags(inbox, Registers), ss, ss', sid, Registering);
    PhaseEnter(Tags(inbox, Unregisters), ss, ss', sid, Leaving);
  }

  lemma OwnerSendUnregister(r: Router<SessionId, ActorId>, inbox: seq<RouterMsg>, ss: seq<Session>, sid: SessionId)
    requires OwnerInv(r, inbox, ss) && sid < |ss| && ss[sid].phase.Running?
    ensures OwnerInv(r, inbox + [UnregisterUser(ss[sid].user, sid)], SetPhase(ss, sid, Leaving))
  {
    HandshakeSendUnregister(inbox, ss, sid);
  }

  lemma HandshakeRegister(inbox: seq<RouterMsg>, ss: seq<Session>, p: Phase)
    requires inbox != [] && inbox[0].RegisterUser? && HandshakeInv(inbox, ss)
    requires inbox[0].chan < |ss| && (p.Refused? || p.Accepted?)
    ensures ss[inbox[0].chan].phase.Registering?
    ensures HandshakeInv(inbox[1..], SetPhase(ss, inbox[0].chan, p))
  {
    var c := inbox[0].chan;
    var ss' := SetPhase(ss, c, p);
    assert Tags(inbox, Registers) == [c] + Tags(inbox[1..], Registers);
    assert Tags(inbox, Unregisters) == Tags(inbox[1..], Unregisters);
    PhaseLeave(Tags(inbox[1..], Registers), ss, ss', c, Registering);
    PhaseSame(Tags(inbox[1..], Unregisters), ss, ss', c, Leaving);
  }

  lemma UsersRegister(users: map<UserId, SessionId>, ss: seq<Session>, u: UserId, c: SessionId)
    requires UsersInv(users, ss) && c < |ss| && ss[c].user == u && ss[c].phase.Registering?
    ensures u in users ==> UsersInv(users, SetPhase(ss, c, Refused))
    ensures u !in users ==> UsersInv(users[u := c], SetPhase(ss, c, Accepted))
  {
  }

  lemma NamesPop(inbox: seq<RouterMsg>, ss: seq<Session>, c: SessionId, p: Phase)
    requires inbox != [] && NamesInv(inbox, ss) && c < |ss|
    ensures NamesInv(inbox[1..], SetPhase(ss, c, p))
  {
    forall i | 0 <= i < |inbox[1..]|
      ensures NamesOwner(inbox[1..][i], SetPhase(ss, c, p))
    {
      assert NamesOwner(inbox[i + 1], ss);
    }
  }

  lemma OwnerRegister(r: Router<SessionId, ActorId>, inbox: seq<RouterMsg>, ss: seq<Session>, u: UserId, c: SessionId)
    requires inbox != [] && inbox[0] == RegisterUser(u, c) && c < |ss| && OwnerInv(r, inbox, ss)
    ensures OwnerInv(Register(r, u, c), inbox[1..], SetPhase(ss, c, if u in r.users then Refused else Accepted))
  {
    HandshakeRegister(inbox, ss, if u in r.users then Refused else Accepted);
    NamesPop(inbox, ss, c, if u in r.users then Refused else Accepted);
    RegisterAgrees(r, u, c);
    UsersRegister(r.users, ss, u, c);
  }

  lemma HandshakeUnregister(inbox: seq<RouterMsg>, ss: seq<Session>)
    requires inbox != [] && inbox[0].UnregisterUser? && HandshakeInv(inbox, ss) && inbox[0].origin < |ss|
    ensures ss[inbox[0].origin].phase.Leaving?
    ensures HandshakeInv(inbox[1..], SetPhase(ss, inbox[0].origin, Gone))
  {
    var c := inbox[0].origin;
    var ss' := SetPhase(ss, c, Gone);
    assert Tags(inbox, Unregisters) == [c] + Tags(inbox[1..], Unregisters);
    assert Tags(inbox, Registers) == Tags(inbox[1..], Registers);
    PhaseLeave(Tags(inbox[1..], Unregisters), ss, ss', c, Leaving);
    PhaseSame(Tags(inbox[1..], Registers), ss, ss', c, Registering);
  }

  lemma UsersUnregister(users: map<UserId, SessionId>, ss: seq<Session>, u: UserId, c: SessionId)
    requires UsersInv(users, ss) && c < |ss| && ss[c].user == u && ss[c].phase.Leaving?
    ensures u in users && users[u] == c
    ensures UsersInv(users - {u}, SetPhase(ss, c, Gone))
  {
  }

  /** The entry an Unregister removes is the one of the session that sent it. */
  lemma OwnerUnregister(r: Router<SessionId, ActorId>, inbox: seq<RouterMsg>, ss: seq<Session>, u: UserId, c: SessionId)
    requires inbox != [] && inbox[0] == UnregisterUser(u, c) && c < |ss| && OwnerInv(r, inbox, ss)
    ensures u in r.users && r.users[u] == c
    ensures OwnerInv(Unregister(r, u), inbox[1..], SetPhase(ss, c, Gone))
  {
    assert NamesOwner(inbox[0], ss);
    HandshakeUnregister(inbox, ss);
    NamesPop(inbox, ss, c, Gone);
    UnregisterAgrees(r, u);
    UsersUnregister(r.users, ss, u, c);
  }

  lemma OwnerOpenRoom(r: Router<SessionId, ActorId>, r': Router<SessionId, ActorId>, inbox: seq<RouterMsg>,
                      ss: seq<Session>)
    requires OwnerInv(r, inbox, ss) && r'.users == r.users && r'.online == r.online
    ensures OwnerInv(r', inbox, ss)
  {
  }
}
