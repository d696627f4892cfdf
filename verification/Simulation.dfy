/**
 The protocol and the objects describe the same handlers: projected to what a router or a room actor
 sees, the protocol's steps are the transitions that `MessageRouter` and `RoomActor` are proved to make.
 */
module Simulation {
  import opened Types
  import opened Sequences
  import opened Registry
  import opened Store
  import opened Protocol
  import opened Invariants
  import opened ShapeProof
  import opened Theorems
  import opened Broadcast
  import opened Provenance
  import RouterViews
  import Room
  import UserSessions

  // ---- The router ----

  function RouterViewOf(s: State): RouterViews.View<SessionId>
    requires forall r :: r in s.router.rooms ==> s.router.rooms[r] < |s.actors|
  {
    Router(s.router.users, s.router.online, map r | r in s.router.rooms :: s.actors[s.router.rooms[r]].mailbox)
  }

  lemma PushIsForward(s: State, room: RoomId, m: RoomMsg)
    requires RoomsInv(s.router.rooms, s.actors) && room in s.router.rooms
    ensures var t := s.(actors := PushRoom(s.actors, s.router.rooms[room], m));
            RouterViewOf(t) == RouterViews.Forward(RouterViewOf(s), room, m)
  {
    var a := s.router.rooms[room];
    var actors := PushRoom(s.actors, a, m);
    forall r | r in s.router.rooms
      ensures actors[s.router.rooms[r]].mailbox == s.actors[s.router.rooms[r]].mailbox + if r == room then [m] else []
    {
      assert s.actors[s.router.rooms[r]].room == r;
    }
  }

  lemma OpenIsEmpty(s: State, room: RoomId)
    requires RoomsInv(s.router.rooms, s.actors) && room !in s.router.rooms
    ensures var t := OpenRoom(s, room);
            && RoomsInv(t.router.rooms, t.actors)
            && RouterViewOf(t) == RouterViewOf(s).(rooms := RouterViewOf(s).rooms[room := []])
  {
    RoomsOpen(s, room);
  }

  lemma JoinIsJoin(s: State, u: UserId, room: RoomId, c: SessionId)
    requires RoomsInv(s.router.rooms, s.actors)
    ensures var t := HandleJoin(s, u, room, c);
            && RoomsInv(t.router.rooms, t.actors)
            && RouterViewOf(t) == RouterViews.Join(RouterViewOf(s), room, AddMember(u, c))
  {
    var o := OpenRoom(s, room);
    RoomsOpen(s, room);
    if room !in s.router.rooms {
      OpenIsEmpty(s, room);
    }
    PushIsForward(o, room, AddMember(u, c));
  }

  /** Handling a message does to the router's tables and the rooms' mailboxes what `RouterViews.Next` says. */
  lemma DispatchIsNext(s: State, m: RouterMsg, at: int)
    requires RouterMsgInRange(m, |s.sessions|) && RoomsInv(s.router.rooms, s.actors)
    ensures var t := Dispatch(s, m, at);
            && (forall r :: r in t.router.rooms ==> t.router.rooms[r] < |t.actors|)
            && RouterViewOf(t) == RouterViews.Next(RouterViewOf(s), m)
  {
    match m
    case JoinRoom(u, room, c) => JoinIsJoin(s, u, room, c);
    case LeaveRoom(u, room) =>
      if room in s.router.rooms {
        PushIsForward(s, room, RemoveMember(u));
      }
    case SendRoomMessage(id, room, from, content) =>
      if room in s.router.rooms {
        PushIsForward(s, room, SendMessage(id, from, content));
      }
    case _ =>
  }

  /** The bodies captured by the persistence tasks, with those of newly spawned ones. */
  function WithSpawned(writes: map<MsgId, Write>, ws: seq<Write>): map<MsgId, Write> {
    if ws == [] then writes else WithSpawned(writes, ws[1..])[ws[0].id := ws[0]]
  }

  /** It spawns the same persistence call. */
  lemma DispatchSpawns(s: State, m: RouterMsg, at: int)
    requires RouterMsgInRange(m, |s.sessions|) && RoomsInv(s.router.rooms, s.actors)
    ensures Dispatch(s, m, at).writes == WithSpawned(s.writes, RouterViews.Spawns(m, at))
  {
  }

  /** And once its second half is done, a direct message has reached the same channel. */
  lemma DeliveryIsNext(s: State, m: RouterMsg, at: int, c: SessionId)
    requires Sized(s) && m.SendDirectMessage? && c < |s.chans|
    requires forall u :: u in s.router.users ==> s.router.users[u] < |s.chans|
    requires forall r :: r in s.router.rooms ==> s.router.rooms[r] < |s.actors|
    ensures var t := DoDeliver(HandleDirect(s, m, at));
            && |t.chans| == |s.chans|
            && t.chans[c] == RouterViews.NextChannel(RouterViewOf(s), m, c, s.chans[c])
  {
  }

  /** In every reachable state, a step of the router is a transition of the router object. */
  lemma RouterRefines(s: State, at: int)
    requires Reachable(s) && InRange(s) && Enabled(s, RouterStep(at))
    ensures var t := Apply(s, RouterStep(at));
            && InRange(t)
            && RouterViewOf(t) == RouterViews.Next(RouterViewOf(s), s.inbox[0])
            && t.inbox == s.inbox[1..]
            && t.writes == WithSpawned(s.writes, RouterViews.Spawns(s.inbox[0], at))
  {
    ReachableInv(s);
    DispatchIsNext(PopInbox(s), s.inbox[0], at);
    DispatchInbox(PopInbox(s), s.inbox[0], at);
    DispatchSpawns(PopInbox(s), s.inbox[0], at);
    ReachStep(s, RouterStep(at));
  }

  lemma DispatchInbox(s: State, m: RouterMsg, at: int)
    requires RouterMsgInRange(m, |s.sessions|)
    requires forall r :: r in s.router.rooms ==> s.router.rooms[r] < |s.actors|
    ensures Dispatch(s, m, at).inbox == s.inbox
  {
  }

  /** The step by which session `sid` handles a frame; the id is minted for it if it needs one. */
  function FrameStep(sid: SessionId, f: UserSessions.Frame, id: MsgId): Step
    requires !f.Ignored?
  {
    match f
    case DirectFrame(client, conv, to, content) => FrameDirect(sid, id, client, conv, to, content)
    case RoomFrame(client, room, from, content) => FrameRoom(sid, id, client, room, from, content)
    case JoinFrame(room) => FrameJoin(sid, room)
  }

  /**
   A session that still receives can handle any frame, and does what the session object does: a frame that
   passes queues one message that says what the frame says, under the session's own user and name, and any
   other queues nothing; a request is remembered iff an ack is due.
   */
  lemma FrameIsHandled(s: State, sid: SessionId, f: UserSessions.Frame, id: MsgId)
    requires InRange(s) && sid < |s.sessions| && s.sessions[sid].receiving && !f.Ignored? && id !in s.reqs
    ensures Enabled(s, FrameStep(sid, f, id))
    ensures var t, u := Apply(s, FrameStep(sid, f, id)), s.sessions[sid].user;
            if UserSessions.Passes(u, f)
            then |t.inbox| == |s.inbox| + 1 && s.inbox <= t.inbox
                 && UserSessions.Carries(t.inbox[|s.inbox|], f, u, sid, id)
            else t.inbox == s.inbox
    ensures var t, u := Apply(s, FrameStep(sid, f, id)), s.sessions[sid].user;
            if UserSessions.Asks(u, f)
            then id in t.reqs && t.reqs == s.reqs[id := t.reqs[id]]
                 && Asked(FrameStep(sid, f, id), id, t.reqs[id]) && t.reqs[id].from == u
            else t.reqs == s.reqs
  {
  }

  // ---- A room ----

  function RoomViewOf(s: State, a: ActorId): Room.RoomView<SessionId>
    requires a < |s.actors|
  {
    Room.RoomView(s.actors[a].members, map c: SessionId | c < |s.chans| :: s.chans[c])
  }

  lemma SendKeepsMembers(s: State, a: ActorId, x: Actor, m: RoomMsg, at: int)
    requires a < |s.actors| && a < |s.h.logs| && m.SendMessage?
    ensures var t := HandleSend(s, a, x, m.id, m.from, m.content, at);
            && |t.actors| == |s.actors| && t.chans == s.chans
            && t.actors[a].members == x.members && t.actors[a].mailbox == x.mailbox
  {
  }

  lemma MembersSet(s: State, a: ActorId, x: Actor, ms: map<UserId, SessionId>)
    requires a < |s.actors|
    ensures var t := SetActor(s, a, x.(members := ms));
            && |t.actors| == |s.actors| && t.chans == s.chans
            && t.actors[a].members == ms && t.actors[a].mailbox == x.mailbox
  {
  }

  /** Taking up mail changes the members as `Room` says. */
  lemma MailIsNext(s: State, a: ActorId, at: int)
    requires a < |s.actors| && a < |s.h.logs| && s.actors[a].mailbox != []
    ensures var t, e := DoRoomStep(s, a, at), Room.Mail(s.actors[a].mailbox[0], at);
            && |t.actors| == |s.actors| && t.chans == s.chans
            && t.actors[a].members == Room.NextMembers(RoomViewOf(s, a), e)
            && t.actors[a].mailbox == s.actors[a].mailbox[1..]
  {
    var x := PopMail(s.actors[a]);
    match s.actors[a].mailbox[0]
    case AddMember(u, c) => MembersSet(s, a, x, AddMemberTo(x.members, u, c));
    case RemoveMember(u) => MembersSet(s, a, x, x.members - {u});
    case SendMessage(_, _, _) => SendKeepsMembers(s, a, x, s.actors[a].mailbox[0], at);
  }

  /** And spawns the same persistence call. */
  lemma MailSpawns(s: State, a: ActorId, at: int)
    requires a < |s.actors| && a < |s.h.logs| && s.actors[a].mailbox != []
    ensures var e := Room.Mail(s.actors[a].mailbox[0], at);
            DoRoomStep(s, a, at).writes == WithSpawned(s.writes, Room.Spawns(s.actors[a].room, e))
  {
  }

  lemma CastsKeepMembers(s: State, a: ActorId, us: seq<UserId>)
    requires a < |s.actors|
    ensures var t := CastAll(s, a, us);
            |t.actors| == |s.actors| && t.actors[a].members == s.actors[a].members && t.writes == s.writes
    decreases |us|
  {
    if us != [] && Castable(s, a, us[0]) {
      CastOne(s, a, us[0]);
    }
    if us != [] {
      CastsKeepMembers(if Castable(s, a, us[0]) then DoCast(s, a, us[0]) else s, a, us[1..]);
    }
  }

  /** Taking up a room message and then reaching every member, in any order, is one transition of the room object. */
  lemma BroadcastIsNext(s: State, a: ActorId, at: int, us: seq<UserId>, c: SessionId)
    requires Reachable(s) && InRange(s) && Enabled(s, RoomStep(a, at)) && s.actors[a].mailbox[0].SendMessage?
    requires NoDup(us) && (forall u :: u in us <==> u in s.actors[a].members) && c < |s.chans|
    ensures var t := CastAll(DoRoomStep(s, a, at), a, us);
            var e := Room.Mail(s.actors[a].mailbox[0], at);
            && a < |t.actors| && |t.chans| == |s.chans|
            && t.actors[a].members == Room.NextMembers(RoomViewOf(s, a), e)
            && t.chans[c] == Room.NextChannel(s.actors[a].room, RoomViewOf(s, a), e, c)
            && t.writes == WithSpawned(s.writes, Room.Spawns(s.actors[a].room, e))
  {
    var s1 := DoRoomStep(s, a, at);
    MailIsNext(s, a, at);
    MailSpawns(s, a, at);
    CastsKeepMembers(s1, a, us);
    ReachStep(s, RoomStep(a, at));
    MembersCastable(s1, a, us);
    CastAllOutcome(s1, a, us, c);
    ReachedIsMember(s.actors[a].members, us, c);
  }

  /** At first every member is still to be reached. */
  lemma SendPends(s: State, a: ActorId, at: int)
    requires a < |s.actors| && a < |s.h.logs| && s.actors[a].mailbox != [] && s.actors[a].mailbox[0].SendMessage?
    ensures var x, t := s.actors[a], DoRoomStep(s, a, at);
            && |t.actors| == |s.actors| && t.actors[a].activity.Casting?
            && t.actors[a].activity.pending == x.members.Keys && t.actors[a].alive == x.alive
  {
  }

  /** And whoever has been reached is not reached again. */
  lemma {:induction false} CastAllPends(s: State, a: ActorId, us: seq<UserId>)
    requires a < |s.actors| && s.actors[a].activity.Casting? && forall i :: 0 <= i < |us| ==> Castable(s, a, us[i])
    ensures var t := CastAll(s, a, us);
            && |t.actors| == |s.actors| && t.actors[a].activity.Casting? && t.actors[a].alive == s.actors[a].alive
            && t.actors[a].activity.pending == s.actors[a].activity.pending - set u | u in us
    decreases |us|
  {
    if us == [] {
      assert s.actors[a].activity.pending - {} == s.actors[a].activity.pending;
    } else {
      var s', rest := DoCast(s, a, us[0]), us[1..];
      CastOne(s, a, us[0]);
      forall i | 0 <= i < |rest|
        ensures Castable(s', a, rest[i])
      {
        assert Castable(s, a, us[i + 1]);
      }
      CastAllPends(s', a, rest);
      assert (set u | u in us) == {us[0]} + set u | u in rest by { assert us == [us[0]] + rest; }
    }
  }

  /** A broadcast owes every member its copy, and is over once all have been reached. */
  lemma BroadcastOwesAll(s: State, a: ActorId, at: int, us: seq<UserId>)
    requires Reachable(s) && InRange(s) && Enabled(s, RoomStep(a, at)) && s.actors[a].mailbox[0].SendMessage?
    requires forall u :: u in us <==> u in s.actors[a].members
    ensures var s1 := DoRoomStep(s, a, at);
            && InRange(s1) && (forall u :: Enabled(s1, RoomCast(a, u)) <==> u in s.actors[a].members)
            && a < |CastAll(s1, a, us).actors| && AtRest(CastAll(s1, a, us).actors[a])
  {
    SendPends(s, a, at);
    ReachStep(s, RoomStep(a, at));
    OwedIsCast(DoRoomStep(s, a, at), a, us);
  }

  lemma OwedIsCast(s: State, a: ActorId, us: seq<UserId>)
    requires Reachable(s) && InRange(s) && a < |s.actors| && s.actors[a].activity.Casting? && s.actors[a].alive
    requires forall u :: u in us <==> u in s.actors[a].activity.pending
    ensures forall u :: Enabled(s, RoomCast(a, u)) <==> u in us
    ensures a < |CastAll(s, a, us).actors| && AtRest(CastAll(s, a, us).actors[a])
  {
    assert ActorInRange(s.actors[a], |s.sessions|);
    MembersCastable(s, a, us);
    CastAllPends(s, a, us);
  }

  lemma ReachedIsMember(members: map<UserId, SessionId>, us: seq<UserId>, c: SessionId)
    requires forall u :: u in us <==> u in members
    ensures Reached(members, us, c) <==> c in members.Values
  {
    if c in members.Values {
      var u :| u in members && members[u] == c;
      assert u in us;
    }
  }

  /** The rest of a sweep, reaching the entries in this order. */
  function SweepAll(s: State, a: ActorId, us: seq<UserId>): State
    decreases |us|
  {
    if us == [] then s
    else SweepAll(if Sweepable(s, a, us[0]) then DoSweep(s, a, us[0]) else s, a, us[1..])
  }

  predicate Sweepable(s: State, a: ActorId, u: UserId) {
    && a < |s.actors| && s.actors[a].activity.Sweeping? && u in s.actors[a].members
    && s.actors[a].members[u] < |s.chans|
  }

  lemma {:induction false} SweepAllOutcome(s: State, a: ActorId, us: seq<UserId>, u: UserId)
    requires a < |s.actors| && s.actors[a].activity.Sweeping?
    requires forall v :: v in s.actors[a].members ==> s.actors[a].members[v] < |s.chans|
    ensures var t := SweepAll(s, a, us);
            && |t.actors| == |s.actors| && t.chans == s.chans
            && (u in t.actors[a].members <==>
                  u in s.actors[a].members && (u !in us || s.chans[s.actors[a].members[u]].open))
            && (u in t.actors[a].members ==> t.actors[a].members[u] == s.actors[a].members[u])
    decreases |us|
  {
    if us != [] {
      assert us == [us[0]] + us[1..];
      if Sweepable(s, a, us[0]) {
        SweepAllOutcome(DoSweep(s, a, us[0]), a, us[1..], u);
      } else {
        SweepAllOutcome(s, a, us[1..], u);
      }
    }
  }

  /** A tick and then a sweep over every entry, in any order, is one transition of the room object. */
  lemma TickIsNext(s: State, a: ActorId, us: seq<UserId>)
    requires InRange(s) && Enabled(s, RoomTick(a)) && forall u :: u in us <==> u in s.actors[a].members
    ensures var t := SweepAll(DoTick(s, a), a, us);
            && a < |t.actors| && t.chans == s.chans
            && t.actors[a].members == Room.NextMembers(RoomViewOf(s, a), Room.Tick)
  {
    var s1, t := DoTick(s, a), SweepAll(DoTick(s, a), a, us);
    assert ActorInRange(s.actors[a], |s.sessions|);
    SweepAllOutcome(s1, a, us, UserId("", ""));
    forall u
      ensures u in t.actors[a].members <==> u in s.actors[a].members && s.chans[s.actors[a].members[u]].open
      ensures u in t.actors[a].members ==> t.actors[a].members[u] == s.actors[a].members[u]
    {
      SweepAllOutcome(s1, a, us, u);
    }
    assert t.actors[a].members == Room.Retained(RoomViewOf(s, a));
  }
}
