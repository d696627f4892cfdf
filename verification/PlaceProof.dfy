/** Conservation of requests: how `PlaceInv` survives each move of one request. */
module PlaceProof {
  import opened Types
  import opened Sequences
  import opened Channels
  import opened Store
  import opened Registry
  import opened Protocol
  import opened Invariants

  predicate At(stage: map<MsgId, Stage>, id: MsgId, st: Stage) {
    id in stage && stage[id] == st
  }

  /** The same requests stand at `st` in both ledgers. */
  ghost predicate SameAt(stage: map<MsgId, Stage>, stage': map<MsgId, Stage>, st: Stage) {
    forall id :: At(stage, id, st) <==> At(stage', id, st)
  }

  lemma HoldsSame(ids: seq<MsgId>, stage: map<MsgId, Stage>, stage': map<MsgId, Stage>, st: Stage)
    requires Holds(ids, stage, st) && SameAt(stage, stage', st)
    ensures Holds(ids, stage', st)
  {
    forall id
      ensures id in ids <==> id in stage' && stage'[id] == st
    {
      assert At(stage, id, st) <==> At(stage', id, st);
    }
  }

  lemma HoldsEnter(ids: seq<MsgId>, stage: map<MsgId, Stage>, id: MsgId, st: Stage)
    requires Holds(ids, stage, st) && !At(stage, id, st)
    ensures Holds(ids + [id], stage[id := st], st)
  {
    NoDupAppend(ids, id);
    forall j
      ensures j in ids + [id] <==> j in stage[id := st] && stage[id := st][j] == st
    {
      assert j in ids + [id] <==> j in ids || j == id;
    }
  }

  lemma HoldsLeave(ids: seq<MsgId>, stage: map<MsgId, Stage>, id: MsgId, st: Stage, next: Stage)
    requires Holds([id] + ids, stage, st) && next != st
    ensures At(stage, id, st)
    ensures Holds(ids, stage[id := next], st)
  {
    NoDupTail(ids, id);
    assert id in [id] + ids;
    forall j
      ensures j in ids <==> j in stage[id := next] && stage[id := next][j] == st
    {
      assert j in [id] + ids <==> j == id || j in ids;
    }
  }

  /** One request moves between two stages; every other stage holds what it held. */
  lemma MoveSame(stage: map<MsgId, Stage>, id: MsgId, next: Stage, st: Stage)
    requires next != st && !At(stage, id, st)
    ensures SameAt(stage, stage[id := next], st)
  {
  }

  lemma RoomsHoldSame(actors: seq<Actor>, stage: map<MsgId, Stage>, stage': map<MsgId, Stage>)
    requires RoomsHold(actors, stage)
    requires forall id :: (id in stage && stage[id].AtRoom?) || (id in stage' && stage'[id].AtRoom?) ==>
                            id in stage && id in stage' && stage[id] == stage'[id]
    ensures RoomsHold(actors, stage')
  {
    forall a | 0 <= a < |actors|
      ensures Holds(SendIds(actors[a].mailbox), stage', AtRoom(a))
    {
      assert SameAt(stage, stage', AtRoom(a));
      HoldsSame(SendIds(actors[a].mailbox), stage, stage', AtRoom(a));
    }
  }

  lemma HoldsForSame(q: seq<Ack>, sid: SessionId, reqs: map<MsgId, Request>, reqs': map<MsgId, Request>,
                     stage: map<MsgId, Stage>, stage': map<MsgId, Stage>, st: Stage)
    requires HoldsFor(q, sid, reqs, stage, st) && SameAt(stage, stage', st)
    requires forall id :: At(stage, id, st) && id in reqs ==> id in reqs' && reqs'[id].origin == reqs[id].origin
    requires forall id :: At(stage, id, st) && id in reqs' ==> id in reqs
    ensures HoldsFor(q, sid, reqs', stage', st)
  {
    forall id
      ensures id in AckIds(q) <==> id in reqs' && reqs'[id].origin == sid && id in stage' && stage'[id] == st
    {
      assert At(stage, id, st) <==> At(stage', id, st);
    }
  }

  lemma AcksHoldSame(acks: seq<Chan<Ack>>, handed: seq<seq<Ack>>, reqs: map<MsgId, Request>,
                     stage: map<MsgId, Stage>, stage': map<MsgId, Stage>)
    requires AcksHold(acks, handed, reqs, stage)
    requires SameAt(stage, stage', AtAcks) && SameAt(stage, stage', Handed)
    ensures AcksHold(acks, handed, reqs, stage')
  {
    forall sid | 0 <= sid < |acks|
      ensures HoldsFor(acks[sid].queue, sid, reqs, stage', AtAcks)
    {
      HoldsForSame(acks[sid].queue, sid, reqs, reqs, stage, stage', AtAcks);
    }
    forall sid | 0 <= sid < |handed|
      ensures HoldsFor(handed[sid], sid, reqs, stage', Handed)
    {
      HoldsForSame(handed[sid], sid, reqs, reqs, stage, stage', Handed);
    }
  }

  predicate Mobile(st: Stage) {
    st.AtRouter? || st.AtTask? || st.AtShot? || st.Lost?
  }

  /** A request moves between stages that no room and no ack queue is concerned with. */
  lemma MoveAside(s: State, id: MsgId, next: Stage)
    requires RoomsHold(s.actors, s.h.stage) && AcksHold(s.acks, s.h.handed, s.reqs, s.h.stage)
    requires id in s.h.stage && Mobile(s.h.stage[id]) && Mobile(next)
    ensures RoomsHold(s.actors, s.h.stage[id := next])
    ensures AcksHold(s.acks, s.h.handed, s.reqs, s.h.stage[id := next])
  {
    var stage' := s.h.stage[id := next];
    RoomsHoldSame(s.actors, s.h.stage, stage');
    MoveSame(s.h.stage, id, next, AtAcks);
    MoveSame(s.h.stage, id, next, Handed);
    AcksHoldSame(s.acks, s.h.handed, s.reqs, s.h.stage, stage');
  }

  lemma PlaceFrame(s: State, t: State)
    requires PlaceInv(s) && t.inbox == s.inbox && t.actors == s.actors && t.tasks == s.tasks && t.shots == s.shots
    requires t.acks == s.acks
    requires t.h.handed == s.h.handed && t.reqs == s.reqs && t.h.stage == s.h.stage && t.writes == s.writes
    ensures PlaceInv(t)
  {
  }

  // ---- The moves ----

  lemma PlaceAppend(s: State, m: RouterMsg)
    requires PlaceInv(s) && Tag(m, AllSends) == []
    ensures PlaceInv(s.(inbox := s.inbox + [m]))
  {
    TagsAppend(s.inbox, m, AllSends);
  }

  lemma PlacePop(s: State)
    requires PlaceInv(s) && s.inbox != [] && Tag(s.inbox[0], AllSends) == []
    ensures PlaceInv(PopInbox(s))
  {
    assert Tags(s.inbox, AllSends) == Tags(s.inbox[1..], AllSends);
  }

  lemma AcksHoldConnect(acks: seq<Chan<Ack>>, handed: seq<seq<Ack>>, reqs: map<MsgId, Request>, stage: map<MsgId,
                        Stage>, n: nat)
    requires AcksHold(acks, handed, reqs, stage) && |acks| == n && |handed| == n
    requires forall id :: id in reqs ==> reqs[id].origin < n
    ensures AcksHold(acks + [Chan([], false)], handed + [[]], reqs, stage)
  {
    assert HoldsFor([], n, reqs, stage, AtAcks);
    assert HoldsFor([], n, reqs, stage, Handed);
  }

  lemma PlaceConnect(s: State, u: UserId)
    requires InRange(s) && PlaceInv(s)
    ensures PlaceInv(DoConnect(s, u))
  {
    TagsAppend(s.inbox, RegisterUser(u, |s.sessions|), AllSends);
    AcksHoldConnect(s.acks, s.h.handed, s.reqs, s.h.stage, |s.sessions|);
  }

  lemma PlaceStart(s: State, sid: SessionId)
    requires InRange(s) && PlaceInv(s) && sid < |s.sessions| && s.sessions[sid].phase.Accepted?
    requires ReqsOk(s.sessions, s.reqs)
    ensures PlaceInv(DoStart(s, sid))
  {
    var t := DoStart(s, sid);
    assert forall i :: 0 <= i < |s.acks| ==> t.acks[i].queue == s.acks[i].queue;
  }

  lemma AcksHoldFresh(s: State, id: MsgId, q: Request, next: Stage)
    requires AcksHold(s.acks, s.h.handed, s.reqs, s.h.stage) && LossInv(s.acks, s.reqs, s.h.stage)
    requires id !in s.reqs && next.AtRouter?
    ensures AcksHold(s.acks, s.h.handed, s.reqs[id := q], s.h.stage[id := next])
  {
    var stage' := s.h.stage[id := next];
    MoveSame(s.h.stage, id, next, AtAcks);
    MoveSame(s.h.stage, id, next, Handed);
    forall sid | 0 <= sid < |s.acks|
      ensures HoldsFor(s.acks[sid].queue, sid, s.reqs[id := q], stage', AtAcks)
    {
      HoldsForSame(s.acks[sid].queue, sid, s.reqs, s.reqs[id := q], s.h.stage, stage', AtAcks);
    }
    forall sid | 0 <= sid < |s.h.handed|
      ensures HoldsFor(s.h.handed[sid], sid, s.reqs[id := q], stage', Handed)
    {
      HoldsForSame(s.h.handed[sid], sid, s.reqs, s.reqs[id := q], s.h.stage, stage', Handed);
    }
  }

  lemma PlaceMint(s: State, id: MsgId, q: Request, m: RouterMsg)
    requires PlaceInv(s) && id !in s.reqs && q.origin < |s.h.sent| && Tag(m, AllSends) == [id]
    ensures PlaceInv(Mint(s, id, q, m))
  {
    TagsAppend(s.inbox, m, AllSends);
    HoldsEnter(Tags(s.inbox, AllSends), s.h.stage, id, AtRouter);
    RoomsHoldSame(s.actors, s.h.stage, s.h.stage[id := AtRouter]);
    AcksHoldFresh(s, id, q, AtRouter);
  }

  /** The router takes a request out of its queue and hands it on as `next`. */
  lemma PlaceTake(s: State, id: MsgId, next: Stage)
    requires s.inbox != [] && Tag(s.inbox[0], AllSends) == [id] && Holds(Tags(s.inbox, AllSends), s.h.stage, AtRouter)
    requires !next.AtRouter?
    ensures At(s.h.stage, id, AtRouter)
    ensures Holds(Tags(s.inbox[1..], AllSends), s.h.stage[id := next], AtRouter)
  {
    assert Tags(s.inbox, AllSends) == [id] + Tags(s.inbox[1..], AllSends);
    HoldsLeave(Tags(s.inbox[1..], AllSends), s.h.stage, id, AtRouter, next);
  }

  lemma PlaceDirect(s: State, at: int)
    requires PlaceInv(s) && s.inbox != [] && s.inbox[0].SendDirectMessage?
    ensures PlaceInv(HandleDirect(PopInbox(s), s.inbox[0], at))
  {
    PlaceTake(s, s.inbox[0].id, AtTask);
    MoveAside(s, s.inbox[0].id, AtTask);
  }

  lemma PlaceNoRoom(s: State)
    requires PlaceInv(s) && s.inbox != [] && s.inbox[0].SendRoomMessage? && s.inbox[0].room !in s.router.rooms
    ensures PlaceInv(HandleRoom(PopInbox(s), s.inbox[0]))
  {
    PlaceTake(s, s.inbox[0].id, AtShot);
    MoveAside(s, s.inbox[0].id, AtShot);
  }

  lemma RoomsHoldEnter(actors: seq<Actor>, stage: map<MsgId, Stage>, a: ActorId, id: MsgId, m: RoomMsg)
    requires RoomsHold(actors, stage) && a < |actors| && actors[a].alive && SendTag(m) == [id]
    requires id in stage ==> !stage[id].AtRoom?
    ensures RoomsHold(PushRoom(actors, a, m), stage[id := AtRoom(a)])
  {
    var stage', actors' := stage[id := AtRoom(a)], PushRoom(actors, a, m);
    SendIdsAppend(actors[a].mailbox, m);
    HoldsEnter(SendIds(actors[a].mailbox), stage, id, AtRoom(a));
    forall b | 0 <= b < |actors'|
      ensures Holds(SendIds(actors'[b].mailbox), stage', AtRoom(b))
    {
      if b != a {
        MoveSame(stage, id, AtRoom(a), AtRoom(b));
        HoldsSame(SendIds(actors[b].mailbox), stage, stage', AtRoom(b));
      }
    }
  }

  lemma PlaceRoom(s: State)
    requires PlaceInv(s) && s.inbox != [] && s.inbox[0].SendRoomMessage? && s.inbox[0].room in s.router.rooms
    requires s.router.rooms[s.inbox[0].room] < |s.actors| && s.actors[s.router.rooms[s.inbox[0].room]].alive
    ensures PlaceInv(HandleRoom(PopInbox(s), s.inbox[0]))
  {
    var m := s.inbox[0];
    var a := s.router.rooms[m.room];
    PlaceTake(s, m.id, AtRoom(a));
    RoomsHoldEnter(s.actors, s.h.stage, a, m.id, SendMessage(m.id, m.from, m.content));
    MoveSame(s.h.stage, m.id, AtRoom(a), AtAcks);
    MoveSame(s.h.stage, m.id, AtRoom(a), Handed);
    AcksHoldSame(s.acks, s.h.handed, s.reqs, s.h.stage, s.h.stage[m.id := AtRoom(a)]);
  }

  lemma RoomsHoldOpen(actors: seq<Actor>, stage: map<MsgId, Stage>, room: RoomId)
    requires RoomsHold(actors, stage)
    ensures RoomsHold(actors + [Actor(room, [], map[], Idle, true)], stage)
  {
    var actors' := actors + [Actor(room, [], map[], Idle, true)];
    forall a | 0 <= a < |actors'|
      ensures Holds(SendIds(actors'[a].mailbox), stage, AtRoom(a))
    {
    }
  }

  lemma RoomsHoldPush(actors: seq<Actor>, stage: map<MsgId, Stage>, a: ActorId, m: RoomMsg)
    requires RoomsHold(actors, stage) && a < |actors| && SendTag(m) == []
    ensures RoomsHold(PushRoom(actors, a, m), stage)
  {
    SendIdsAppend(actors[a].mailbox, m);
  }

  lemma RoomsHoldSet(actors: seq<Actor>, stage: map<MsgId, Stage>, a: ActorId, x: Actor)
    requires RoomsHold(actors, stage) && a < |actors| && SendIds(x.mailbox) == SendIds(actors[a].mailbox)
    ensures RoomsHold(actors[a := x], stage)
  {
  }

  lemma RoomsHoldLeave(actors: seq<Actor>, stage: map<MsgId, Stage>, a: ActorId, x: Actor, id: MsgId)
    requires RoomsHold(actors, stage) && a < |actors| && SendIds(actors[a].mailbox) == [id] + SendIds(x.mailbox)
    ensures At(stage, id, AtRoom(a))
    ensures RoomsHold(actors[a := x], stage[id := AtTask])
  {
    HoldsLeave(SendIds(x.mailbox), stage, id, AtRoom(a), AtTask);
    var stage', actors' := stage[id := AtTask], actors[a := x];
    forall b | 0 <= b < |actors'|
      ensures Holds(SendIds(actors'[b].mailbox), stage', AtRoom(b))
    {
      if b != a {
        MoveSame(stage, id, AtTask, AtRoom(b));
        HoldsSame(SendIds(actors[b].mailbox), stage, stage', AtRoom(b));
      }
    }
  }

  lemma PlaceRoomSend(s: State, a: ActorId, x: Actor, id: MsgId, from: UserId, content: string, at: int)
    requires PlaceInv(s) && a < |s.actors| && a < |s.h.logs|
    requires SendIds(s.actors[a].mailbox) == [id] + SendIds(x.mailbox)
    ensures At(s.h.stage, id, AtRoom(a))
    ensures PlaceInv(HandleSend(s, a, x, id, from, content, at))
  {
    var x' := x.(activity := Casting(RoomMessage(x.room, from, content, id), x.members.Keys));
    RoomsHoldLeave(s.actors, s.h.stage, a, x', id);
    MoveSame(s.h.stage, id, AtTask, AtRouter);
    HoldsSame(Tags(s.inbox, AllSends), s.h.stage, s.h.stage[id := AtTask], AtRouter);
    MoveSame(s.h.stage, id, AtTask, AtAcks);
    MoveSame(s.h.stage, id, AtTask, Handed);
    AcksHoldSame(s.acks, s.h.handed, s.reqs, s.h.stage, s.h.stage[id := AtTask]);
  }

  /** Tasks change their progress, not their set. */
  lemma PlaceTasks(s: State, t: State)
    requires PlaceInv(s) && t.inbox == s.inbox && t.actors == s.actors && t.tasks.Keys == s.tasks.Keys
    requires t.shots == s.shots && t.acks == s.acks
    requires t.h.handed == s.h.handed && t.reqs == s.reqs && t.h.stage == s.h.stage && t.writes == s.writes
    ensures PlaceInv(t)
  {
  }

  lemma PlaceResolve(s: State, id: MsgId, r: Status)
    requires PlaceInv(s) && id in s.tasks
    ensures PlaceInv(Resolve(s, id, r))
  {
    MoveAside(s, id, AtShot);
    MoveSame(s.h.stage, id, AtShot, AtRouter);
    HoldsSame(Tags(s.inbox, AllSends), s.h.stage, s.h.stage[id := AtShot], AtRouter);
  }

  // ---- Acks ----

  lemma HoldsForEnter(q: seq<Ack>, sid: SessionId, reqs: map<MsgId, Request>, stage: map<MsgId, Stage>, st: Stage,
                      k: Ack)
    requires HoldsFor(q, sid, reqs, stage, st) && k.id in reqs && reqs[k.id].origin == sid && !At(stage, k.id, st)
    ensures HoldsFor(q + [k], sid, reqs, stage[k.id := st], st)
  {
    assert AckIds(q + [k]) == AckIds(q) + [k.id];
    NoDupAppend(AckIds(q), k.id);
    forall id
      ensures id in AckIds(q + [k]) <==>
          id in reqs && reqs[id].origin == sid && id in stage[k.id := st] && stage[k.id := st][id] == st
    {
      assert id in AckIds(q + [k]) <==> id in AckIds(q) || id == k.id;
    }
  }

  lemma HoldsForLeave(q: seq<Ack>, sid: SessionId, reqs: map<MsgId, Request>, stage: map<MsgId, Stage>, st: Stage,
                      next: Stage)
    requires q != [] && HoldsFor(q, sid, reqs, stage, st) && next != st
    ensures At(stage, q[0].id, st) && q[0].id in reqs && reqs[q[0].id].origin == sid
    ensures HoldsFor(q[1..], sid, reqs, stage[q[0].id := next], st)
  {
    var c := q[0].id;
    assert AckIds(q) == [c] + AckIds(q[1..]);
    NoDupTail(AckIds(q[1..]), c);
    assert c in AckIds(q) by { assert AckIds(q)[0] == c; }
    forall id
      ensures id in AckIds(q[1..]) <==>
          id in reqs && reqs[id].origin == sid && id in stage[c := next] && stage[c := next][id] == st
    {
      assert id in AckIds(q) <==> id == c || id in AckIds(q[1..]);
    }
  }

  lemma HoldsForOther(q: seq<Ack>, sid: SessionId, reqs: map<MsgId, Request>, stage: map<MsgId, Stage>, st: Stage,
                      id: MsgId, next: Stage)
    requires HoldsFor(q, sid, reqs, stage, st) && id in reqs && reqs[id].origin != sid
    ensures HoldsFor(q, sid, reqs, stage[id := next], st)
  {
    forall j
      ensures j in AckIds(q) <==>
          j in reqs && reqs[j].origin == sid && j in stage[id := next] && stage[id := next][j] == st
    {
    }
  }

  lemma AcksHoldPush(s: State, id: MsgId)
    requires AcksHold(s.acks, s.h.handed, s.reqs, s.h.stage) && id in s.shots && id in s.reqs
    requires s.reqs[id].origin < |s.acks|
    requires At(s.h.stage, id, AtShot) && s.acks[s.reqs[id].origin].open
    ensures var t := DoAckPush(s, id); AcksHold(t.acks, t.h.handed, t.reqs, t.h.stage)
  {
    var t, c := DoAckPush(s, id), s.reqs[id].origin;
    var k := Ack(s.reqs[id].client, id, s.shots[id]);
    forall sid | 0 <= sid < |t.acks|
      ensures HoldsFor(t.acks[sid].queue, sid, t.reqs, t.h.stage, AtAcks)
    {
      if sid == c {
        HoldsForEnter(s.acks[sid].queue, sid, s.reqs, s.h.stage, AtAcks, k);
      } else {
        HoldsForOther(s.acks[sid].queue, sid, s.reqs, s.h.stage, AtAcks, id, AtAcks);
      }
    }
    MoveSame(s.h.stage, id, AtAcks, Handed);
    forall sid | 0 <= sid < |t.h.handed|
      ensures HoldsFor(t.h.handed[sid], sid, t.reqs, t.h.stage, Handed)
    {
      HoldsForSame(s.h.handed[sid], sid, s.reqs, s.reqs, s.h.stage, t.h.stage, Handed);
    }
  }

  lemma PlaceAckPush(s: State, id: MsgId)
    requires PlaceInv(s) && id in s.shots && id in s.reqs && s.reqs[id].origin < |s.acks|
    ensures PlaceInv(DoAckPush(s, id))
  {
    var t := DoAckPush(s, id);
    var next := t.h.stage[id];
    assert At(s.h.stage, id, AtShot);
    MoveSame(s.h.stage, id, next, AtRouter);
    HoldsSame(Tags(s.inbox, AllSends), s.h.stage, t.h.stage, AtRouter);
    RoomsHoldSame(s.actors, s.h.stage, t.h.stage);
    if s.acks[s.reqs[id].origin].open {
      AcksHoldPush(s, id);
    } else {
      MoveAside(s, id, Lost);
    }
  }

  lemma AcksHoldPop(s: State, sid: SessionId)
    requires AcksHold(s.acks, s.h.handed, s.reqs, s.h.stage)
    requires sid < |s.acks| && |s.acks| == |s.h.handed| && s.acks[sid].queue != []
    ensures At(s.h.stage, s.acks[sid].queue[0].id, AtAcks)
    ensures var t := PopAck(s, sid); AcksHold(t.acks, t.h.handed, t.reqs, t.h.stage)
  {
    var t, k := PopAck(s, sid), s.acks[sid].queue[0];
    HoldsForLeave(s.acks[sid].queue, sid, s.reqs, s.h.stage, AtAcks, Handed);
    forall c | 0 <= c < |t.acks| && c != sid
      ensures HoldsFor(t.acks[c].queue, c, t.reqs, t.h.stage, AtAcks)
    {
      HoldsForOther(s.acks[c].queue, c, s.reqs, s.h.stage, AtAcks, k.id, Handed);
    }
    forall c | 0 <= c < |t.h.handed|
      ensures HoldsFor(t.h.handed[c], c, t.reqs, t.h.stage, Handed)
    {
      if c == sid {
        HoldsForEnter(s.h.handed[c], c, s.reqs, s.h.stage, Handed, k);
      } else {
        HoldsForOther(s.h.handed[c], c, s.reqs, s.h.stage, Handed, k.id, Handed);
      }
    }
  }

  lemma PlacePopAck(s: State, sid: SessionId)
    requires PlaceInv(s) && sid < |s.acks| && |s.acks| == |s.h.handed| && s.acks[sid].queue != []
    ensures PlaceInv(PopAck(s, sid))
  {
    var t, id := PopAck(s, sid), s.acks[sid].queue[0].id;
    AcksHoldPop(s, sid);
    MoveSame(s.h.stage, id, Handed, AtRouter);
    HoldsSame(Tags(s.inbox, AllSends), s.h.stage, t.h.stage, AtRouter);
    RoomsHoldSame(s.actors, s.h.stage, t.h.stage);
    assert forall c :: 0 <= c < |s.acks| ==> t.acks[c].open == s.acks[c].open;
  }

  lemma LoseAcksOnly(stage: map<MsgId, Stage>, q: seq<Ack>, sid: SessionId, reqs: map<MsgId, Request>, id: MsgId)
    requires HoldsFor(q, sid, reqs, stage, AtAcks) && id in stage
    ensures id in LoseAcks(stage, q)
    ensures LoseAcks(stage, q)[id] == if id in reqs && reqs[id].origin == sid && stage[id].AtAcks? then Lost
                                      else stage[id]
  {
    assert id in AckIds(q) <==> id in reqs && reqs[id].origin == sid && id in stage && stage[id] == AtAcks;
  }

  lemma AcksHoldClose(s: State, sid: SessionId)
    requires AcksHold(s.acks, s.h.handed, s.reqs, s.h.stage) && sid < |s.acks| && sid < |s.chans|
    ensures var t := CloseSend(s, sid); AcksHold(t.acks, t.h.handed, t.reqs, t.h.stage)
  {
    var t, q := CloseSend(s, sid), s.acks[sid].queue;
    forall id | id in s.h.stage
      ensures t.h.stage[id] == if id in s.reqs && s.reqs[id].origin == sid && s.h.stage[id].AtAcks? then Lost
                               else s.h.stage[id]
    {
      LoseAcksOnly(s.h.stage, q, sid, s.reqs, id);
    }
    forall c | 0 <= c < |t.acks|
      ensures HoldsFor(t.acks[c].queue, c, t.reqs, t.h.stage, AtAcks)
    {
      if c != sid {
        var p := s.acks[c].queue;
        forall id
          ensures id in AckIds(p) <==>
              id in t.reqs && t.reqs[id].origin == c && id in t.h.stage && t.h.stage[id] == AtAcks
        {
          assert id in AckIds(p) <==>
              id in s.reqs && s.reqs[id].origin == c && id in s.h.stage && s.h.stage[id] == AtAcks;
        }
      }
    }
    assert SameAt(s.h.stage, t.h.stage, Handed);
    forall c | 0 <= c < |t.h.handed|
      ensures HoldsFor(t.h.handed[c], c, t.reqs, t.h.stage, Handed)
    {
      HoldsForSame(s.h.handed[c], c, s.reqs, s.reqs, s.h.stage, t.h.stage, Handed);
    }
  }

  /** When a send task ends, the acks queued for it are lost, and no other request moves. */
  lemma PlaceClose(s: State, sid: SessionId)
    requires PlaceInv(s) && sid < |s.acks| && sid < |s.chans|
    ensures PlaceInv(CloseSend(s, sid))
    ensures CloseSend(s, sid).h.stage.Keys == s.h.stage.Keys
    ensures forall id :: id in s.h.stage ==>
              CloseSend(s, sid).h.stage[id] == if id in AckIds(s.acks[sid].queue) then Lost else s.h.stage[id]
    ensures forall id :: id in AckIds(s.acks[sid].queue) <==>
              id in s.reqs && s.reqs[id].origin == sid && id in s.h.stage && s.h.stage[id].AtAcks?
  {
    var t := CloseSend(s, sid);
    AcksHoldClose(s, sid);
    assert HoldsFor(s.acks[sid].queue, sid, s.reqs, s.h.stage, AtAcks);
    forall id | id in s.h.stage
      ensures id in t.h.stage
      ensures t.h.stage[id] == if id in s.reqs && s.reqs[id].origin == sid && s.h.stage[id].AtAcks? then Lost
                               else s.h.stage[id]
    {
      LoseAcksOnly(s.h.stage, s.acks[sid].queue, sid, s.reqs, id);
    }
    assert SameAt(s.h.stage, t.h.stage, AtRouter);
    HoldsSame(Tags(s.inbox, AllSends), s.h.stage, t.h.stage, AtRouter);
    RoomsHoldSame(s.actors, s.h.stage, t.h.stage);
    assert t.h.stage.Keys == s.h.stage.Keys;
  }
}
