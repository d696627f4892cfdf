/** A reconnect that finds its own stale entry in the room: the state is reachable for every user and room. */
module Rejoin {
  import opened Types
  import opened Registry
  import opened Protocol
  import opened Invariants
  import opened Theorems
  import opened Membership
  import opened EndToEnd

  /** The room holds the user's first channel and has nothing to do; so has the router. */
  predicate InRoom(s: State, u: UserId, room: RoomId) {
    && s.inbox == [] && s.hand == None && s.router.rooms == map[room := 0]
    && s.actors == [Actor(room, [], map[u := 0], Idle, true)]
  }

  /** The user's only session so far is in this phase, and its channel is open or not. */
  predicate Alone(s: State, u: UserId, p: Phase, open: bool) {
    s.sessions == [Session(u, p, true)] && |s.chans| == 1 && s.chans[0].open == open && |s.acks| == 1
  }

  lemma OnlyUser(users: map<UserId, SessionId>, u: UserId)
    requires u in users && users[u] == 0 && forall v :: v in users ==> v in [u]
    ensures users == map[u := 0]
  {
  }

  /** A join frame goes through the router's empty inbox. */
  lemma AskToJoin(s: State, sid: SessionId, room: RoomId)
    requires Reachable(s) && InRange(s) && Receives(s, sid) && s.inbox == [] && s.hand == None
    ensures InRange(s.(inbox := [JoinRoom(s.sessions[sid].user, room, sid)]))
    ensures var t := HandleJoin(s, s.sessions[sid].user, room, sid); Reachable(t) && InRange(t)
  {
    var m := JoinRoom(s.sessions[sid].user, room, sid);
    ReachStep(s, FrameJoin(sid, room));
    var s1 := s.(inbox := [m]);
    assert DoFrameJoin(s, sid, room) == s1;
    ReachStep(s1, RouterStep(0));
    assert PopInbox(s1) == s;
  }

  lemma PushFirst(x: Actor, m: RoomMsg)
    requires x.mailbox == [] && x.alive
    ensures PushRoom([x], 0, m) == [x.(mailbox := [m])]
  {
    assert x.mailbox + [m] == [m];
  }

  lemma FirstJoin(s: State, u: UserId, room: RoomId)
    requires s.actors == [] && s.router.rooms == map[]
    ensures var t := HandleJoin(s, u, room, 0);
            && t == s.(router := t.router, actors := t.actors, h := t.h)
            && t.router == s.router.(rooms := map[room := 0])
            && t.actors == [Actor(room, [AddMember(u, 0)], map[], Idle, true)]
  {
    var t := OpenRoom(s, room);
    assert t.actors == [Actor(room, [], map[], Idle, true)];
    PushFirst(Actor(room, [], map[], Idle, true), AddMember(u, 0));
  }

  lemma TakeIn(s: State, u: UserId, room: RoomId)
    requires Reachable(s) && InRange(s) && s.actors == [Actor(room, [AddMember(u, 0)], map[], Idle, true)]
    ensures var t := s.(actors := [Actor(room, [], map[u := 0], Idle, true)]); Reachable(t) && InRange(t)
  {
    ReachStep(s, RoomStep(0, 0));
    assert DoRoomStep(s, 0, 0).actors == [Actor(room, [], map[u := 0], Idle, true)];
  }

  lemma Enter(s: State, u: UserId, room: RoomId) returns (t: State)
    requires Reachable(s) && InRange(s) && Online(s, [u])
    ensures Reachable(t) && InRange(t) && InRoom(t, u, room) && Alone(t, u, Running, true)
    ensures t.router.users == map[u := 0]
  {
    assert s.sessions[0] == Session([u][0], Running, true);
    assert s.sessions == [Session(u, Running, true)];
    OnlyUser(s.router.users, u);
    AskToJoin(s, 0, room);
    FirstJoin(s, u, room);
    t := HandleJoin(s, u, room, 0);
    TakeIn(t, u, room);
    t := t.(actors := [Actor(room, [], map[u := 0], Idle, true)]);
  }

  /** The send task ends. */
  lemma Drop(s: State, u: UserId)
    requires Reachable(s) && InRange(s) && Alone(s, u, Running, true)
    ensures var t := CloseSend(s, 0); Reachable(t) && InRange(t) && Alone(t, u, Running, false)
  {
    ReachStep(s, SendEnds(0));
  }

  lemma Farewell(s: State, u: UserId)
    requires Reachable(s) && InRange(s) && Alone(s, u, Running, false) && s.inbox == [] && s.hand == None
    ensures var t := HandleUnregister(s.(sessions := SetPhase(s.sessions, 0, Leaving)), u, 0);
            Reachable(t) && InRange(t)
  {
    ReachStep(s, SendUnregister(0));
    var s1 := DoSendUnregister(s, 0);
    assert s1.inbox == [UnregisterUser(u, 0)];
    ReachStep(s1, RouterStep(0));
    assert PopInbox(s1) == s.(sessions := SetPhase(s.sessions, 0, Leaving));
  }

  lemma Leave(s: State, u: UserId, room: RoomId) returns (t: State)
    requires Reachable(s) && InRange(s) && InRoom(s, u, room) && Alone(s, u, Running, true)
    requires s.router.users == map[u := 0]
    ensures Reachable(t) && InRange(t) && InRoom(t, u, room) && Alone(t, u, Gone, false) && t.router.users == map[]
  {
    Drop(s, u);
    var s1 := CloseSend(s, 0);
    Farewell(s1, u);
    t := HandleUnregister(s1.(sessions := SetPhase(s1.sessions, 0, Leaving)), u, 0);
    assert map[u := 0 as SessionId] - {u} == map[];
  }

  /** The user is back under a second session; the first one's channel is closed. */
  predicate Back(s: State, u: UserId) {
    && s.sessions == [Session(u, Gone, true), Session(u, Running, true)]
    && |s.chans| == 2 && !s.chans[0].open && s.chans[1].open && s.router.users == map[u := 1]
  }

  lemma Greet(s: State, u: UserId)
    requires Reachable(s) && InRange(s) && s.inbox == [] && s.hand == None && u !in s.router.users
    ensures var t := HandleRegister(DoConnect(s, u).(inbox := []), u, |s.sessions|); Reachable(t) && InRange(t)
  {
    ReachStep(s, Connect(u));
    var s1 := DoConnect(s, u);
    assert s1.inbox == [RegisterUser(u, |s.sessions|)];
    ReachStep(s1, RouterStep(0));
    assert PopInbox(s1) == s1.(inbox := []);
  }

  lemma Return(s: State, u: UserId, room: RoomId) returns (t: State)
    requires Reachable(s) && InRange(s) && InRoom(s, u, room) && Alone(s, u, Gone, false) && s.router.users == map[]
    ensures Reachable(t) && InRange(t) && InRoom(t, u, room) && Back(t, u)
  {
    Greet(s, u);
    var s2 := HandleRegister(DoConnect(s, u).(inbox := []), u, 1);
    assert s2.sessions == [Session(u, Gone, true), Session(u, Accepted, false)];
    ReachStep(s2, Start(1));
    t := DoStart(s2, 1);
  }

  lemma Knock(s: State, u: UserId, room: RoomId) returns (t: State)
    requires Reachable(s) && InRange(s) && InRoom(s, u, room) && Back(s, u)
    ensures Reachable(t) && InRange(t) && Back(t, u)
    ensures t.actors == [Actor(room, [AddMember(u, 1)], map[u := 0], Idle, true)]
  {
    AskToJoin(s, 1, room);
    t := HandleJoin(s, u, room, 1);
    assert s.router.rooms[room] == 0;
    PushFirst(Actor(room, [], map[u := 0], Idle, true), AddMember(u, 1));
  }

  /**
   For every user and every room some run ends with the user reconnected and running, its first
   channel closed and still listed, and its new AddMember next in line; and that AddMember is refused.
   */
  lemma RejoinMayBeRefused(u: UserId, room: RoomId, at: int) returns (s: State)
    ensures Reachable(s) && InRange(s) && Back(s, u) && |s.actors| == 1 && s.actors[0].room == room
    ensures Stale(s, 0, u) && s.actors[0].members[u] == 0
    ensures Enabled(s, RoomStep(0, at)) && TakesUp(s, RoomStep(0, at), 0, AddMember(u, 1))
    ensures Apply(s, RoomStep(0, at)).actors[0].members == s.actors[0].members
  {
    s := AllArrive([u]);
    s := Enter(s, u, room);
    s := Leave(s, u, room);
    s := Return(s, u, room);
    s := Knock(s, u, room);
    JoinTakesEffectIff(s, 0, at, u, 1);
  }
}
