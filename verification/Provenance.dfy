/**
 Everything that comes out went in: what clients are shown, said only in terms of the steps of a run, the
 connections and frames of the clients.
 */
module Provenance {
  import opened Types
  import opened Registry
  import opened Protocol
  import opened Invariants
  import opened StepProof
  import opened Theorems
  import opened DirectOrder

  // ---- What the steps of a run say ----

  /** The users that connected, in order: session `sid` is the one of `Users(steps)[sid]`. */
  function Users(steps: seq<Step>): seq<UserId> {
    if steps == [] then [] else Users(steps[..|steps| - 1]) + UserIn(steps[|steps| - 1])
  }

  function UserIn(step: Step): seq<UserId> {
    if step.Connect? then [step.user] else []
  }

  /** This frame is request `q`, under the id it was given. */
  predicate Asked(step: Step, id: MsgId, q: Request) {
    match step
    case FrameDirect(sid, i, client, conv, to, content) =>
      i == id && q.origin == sid && q.client == client && q.kind == Direct(conv, to) && q.content == content
    case FrameRoom(sid, i, client, room, from, content) =>
      && i == id && q.origin == sid && q.client == client && q.kind == ToRoom(room) && q.content == content
      && q.from == from
    case _ => false
  }

  ghost predicate AskedIn(past: seq<Step>, id: MsgId, q: Request) {
    exists step :: step in past && Asked(step, id, q)
  }

  // ---- Users ----

  ghost predicate UsersFrom(ss: seq<Session>, us: seq<UserId>) {
    |ss| == |us| && forall sid :: 0 <= sid < |ss| ==> ss[sid].user == us[sid]
  }

  ghost predicate SameUsers(ss: seq<Session>, ss': seq<Session>) {
    |ss'| == |ss| && forall sid :: 0 <= sid < |ss| ==> ss'[sid].user == ss[sid].user
  }

  lemma PhaseUsers(s: State, step: Step)
    requires InRange(s) && Enabled(s, step)
    requires step.Start? || step.ReceiveEnds? || step.SendUnregister?
    ensures SameUsers(s.sessions, Apply(s, step).sessions)
  {
  }

  lemma DispatchUsers(s: State, m: RouterMsg, at: int)
    requires RouterMsgInRange(m, |s.sessions|)
    requires forall r :: r in s.router.rooms ==> s.router.rooms[r] < |s.actors|
    ensures SameUsers(s.sessions, Dispatch(s, m, at).sessions)
  {
  }

  lemma RouterUsers(s: State, step: Step)
    requires InRange(s) && Enabled(s, step) && (step.RouterStep? || step.RouterDeliver?)
    ensures SameUsers(s.sessions, Apply(s, step).sessions)
  {
    if step.RouterStep? {
      DispatchUsers(PopInbox(s), s.inbox[0], step.at);
    } else {
      DeliverFrame(s);
    }
  }

  lemma FrameUsers(s: State, step: Step)
    requires InRange(s) && Enabled(s, step)
    requires step.FrameDirect? || step.FrameRoom? || step.FrameJoin? || step.ExternalLeave?
    ensures Apply(s, step).sessions == s.sessions
  {
  }

  lemma SocketUsers(s: State, step: Step)
    requires InRange(s) && Enabled(s, step) && (step.SendEnds? || step.WriteChat? || step.WriteAck?)
    ensures Apply(s, step).sessions == s.sessions
  {
    SocketTouches(s, step);
  }

  lemma TaskUsers(s: State, step: Step)
    requires InRange(s) && Enabled(s, step) && OfTask(step)
    ensures Apply(s, step).sessions == s.sessions
  {
    if step.ServerExecutes? {
      ExecuteFrame(s, step.id, step.ok);
    }
  }

  lemma RoomUsers(s: State, step: Step)
    requires InRange(s) && Enabled(s, step)
    requires step.RoomStep? || step.RoomCast? || step.RoomTick? || step.RoomSweep? || step.RoomStops?
    ensures Apply(s, step).sessions == s.sessions
  {
    if step.RoomCast? {
      assert ActorInRange(s.actors[step.actor], |s.sessions|);
      CastFrame(s, step.actor, step.user);
    }
  }

  lemma StepUsers(s: State, step: Step, past: seq<Step>)
    requires InRange(s) && Enabled(s, step) && UsersFrom(s.sessions, Users(past))
    ensures UsersFrom(Apply(s, step).sessions, Users(past) + UserIn(step))
  {
    if
    case step.Connect? =>
    case step.Start? || step.ReceiveEnds? || step.SendUnregister? => PhaseUsers(s, step);
    case step.RouterStep? || step.RouterDeliver? => RouterUsers(s, step);
    case step.FrameDirect? || step.FrameRoom? || step.FrameJoin? || step.ExternalLeave? => FrameUsers(s, step);
    case step.SendEnds? || step.WriteChat? || step.WriteAck? => SocketUsers(s, step);
    case OfTask(step) => TaskUsers(s, step);
    case step.RoomStep? || step.RoomCast? || step.RoomTick? || step.RoomSweep? || step.RoomStops? =>
      RoomUsers(s, step);
  }

  // ---- Requests ----

  ghost predicate ReqsFrom(reqs: map<MsgId, Request>, past: seq<Step>) {
    forall id :: id in reqs ==> AskedIn(past, id, reqs[id])
  }

  /** No step changes a request, and only a frame adds one, which says what the frame says. */
  lemma StepReqs(s: State, step: Step)
    requires InRange(s) && Enabled(s, step)
    ensures var t := Apply(s, step);
            || t.reqs == s.reqs
            || ((step.FrameDirect? || step.FrameRoom?) && step.id in t.reqs
                && t.reqs == s.reqs[step.id := t.reqs[step.id]] && Asked(step, step.id, t.reqs[step.id]))
  {
    if
    case !Moves(step) => QuietSame(s, step);
    case step.Connect? || step.FrameDirect? || step.FrameRoom? =>
    case step.RouterDeliver? => DeliverFrame(s);
    case step.RoomCast? =>
      assert ActorInRange(s.actors[step.actor], |s.sessions|);
      CastFrame(s, step.actor, step.user);
  }

  lemma ReqsStep(s: State, step: Step, past: seq<Step>)
    requires InRange(s) && Enabled(s, step) && ReqsFrom(s.reqs, past)
    ensures ReqsFrom(Apply(s, step).reqs, past + [step])
  {
    StepReqs(s, step);
    var reqs := Apply(s, step).reqs;
    forall id | id in reqs
      ensures AskedIn(past + [step], id, reqs[id])
    {
      if id in s.reqs && reqs[id] == s.reqs[id] {
        var x :| x in past && Asked(x, id, s.reqs[id]);
        assert x in past + [step];
      } else {
        assert step in past + [step];
      }
    }
  }

  // ---- Joins ----

  ghost predicate InboxJoins(inbox: seq<RouterMsg>, past: seq<Step>) {
    forall i :: 0 <= i < |inbox| && inbox[i].JoinRoom? ==> FrameJoin(inbox[i].chan, inbox[i].room) in past
  }

  /** Whoever is in the room or about to be let in asked to join this room. */
  ghost predicate RoomJoins(x: Actor, past: seq<Step>) {
    && (forall i :: 0 <= i < |x.mailbox| && x.mailbox[i].AddMember? ==> FrameJoin(x.mailbox[i].chan, x.room) in past)
    && (forall u :: u in x.members ==> FrameJoin(x.members[u], x.room) in past)
  }

  ghost predicate RoomsJoins(actors: seq<Actor>, past: seq<Step>) {
    forall a :: 0 <= a < |actors| ==> RoomJoins(actors[a], past)
  }

  ghost predicate HeardJoins(entered: seq<seq<ChatMessage>>, past: seq<Step>) {
    forall sid, i :: 0 <= sid < |entered| && 0 <= i < |entered[sid]| && entered[sid][i].RoomMessage? ==>
        FrameJoin(sid, entered[sid][i].room) in past
  }

  ghost predicate JoinsFrom(s: State, past: seq<Step>) {
    InboxJoins(s.inbox, past) && RoomsJoins(s.actors, past) && HeardJoins(s.h.entered, past)
  }

  lemma JoinsLater(s: State, past: seq<Step>, step: Step)
    requires JoinsFrom(s, past)
    ensures JoinsFrom(s, past + [step])
  {
    forall a | 0 <= a < |s.actors|
      ensures RoomJoins(s.actors[a], past + [step])
    {
      assert RoomJoins(s.actors[a], past);
    }
  }

  /** Steps that leave rooms and channels alone; at most they queue a message. */
  lemma SessionJoins(s: State, step: Step, past: seq<Step>)
    requires InRange(s) && Enabled(s, step) && JoinsFrom(s, past) && step in past
    requires || step.Connect? || step.Start? || step.FrameDirect? || step.FrameRoom? || step.FrameJoin?
             || step.ReceiveEnds? || step.SendUnregister? || step.ExternalLeave?
    ensures JoinsFrom(Apply(s, step), past)
  {
    var t := Apply(s, step);
    assert t.actors == s.actors;
  }

  /** A send task touches its own channels only. */
  ghost predicate Untouched(s: State, t: State) {
    && t.actors == s.actors && t.inbox == s.inbox && t.h.entered == s.h.entered && t.sessions == s.sessions
    && t.tasks == s.tasks && t.shots == s.shots && t.writes == s.writes
  }

  lemma CloseTouches(s: State, sid: SessionId)
    requires sid < |s.chans| && sid < |s.acks|
    ensures Untouched(s, CloseSend(s, sid))
  {
  }

  lemma ShowTouches(s: State, sid: SessionId, ok: bool)
    requires sid < |s.chans| && sid < |s.acks| && sid < |s.h.shown| && s.chans[sid].queue != []
    ensures Untouched(s, DoWriteChat(s, sid, ok))
  {
    if !ok {
      CloseTouches(PopChat(s, sid, false), sid);
    }
  }

  lemma HandTouches(s: State, sid: SessionId, ok: bool)
    requires sid < |s.chans| && sid < |s.acks| && sid < |s.h.handed| && s.acks[sid].queue != []
    ensures Untouched(s, DoWriteAck(s, sid, ok))
  {
    if !ok {
      CloseTouches(s, sid);
    }
  }

  lemma SocketTouches(s: State, step: Step)
    requires InRange(s) && Enabled(s, step) && (step.SendEnds? || step.WriteChat? || step.WriteAck?)
    ensures Untouched(s, Apply(s, step))
  {
    if
    case step.SendEnds? => CloseTouches(s, step.sid);
    case step.WriteChat? => ShowTouches(s, step.sid, step.ok);
    case step.WriteAck? => HandTouches(s, step.sid, step.ok);
  }

  lemma SocketJoins(s: State, step: Step, past: seq<Step>)
    requires InRange(s) && Enabled(s, step) && JoinsFrom(s, past)
    requires step.SendEnds? || step.WriteChat? || step.WriteAck?
    ensures JoinsFrom(Apply(s, step), past)
  {
    SocketTouches(s, step);
  }

  lemma CallJoins(s: State, step: Step, past: seq<Step>)
    requires InRange(s) && Enabled(s, step) && JoinsFrom(s, past) && OfTask(step)
    ensures JoinsFrom(Apply(s, step), past)
  {
    var t := Apply(s, step);
    if step.ServerExecutes? {
      ExecuteFrame(s, step.id, step.ok);
    }
    assert t.actors == s.actors && t.inbox == s.inbox && t.h.entered == s.h.entered;
  }

  lemma PushJoins(actors: seq<Actor>, a: ActorId, m: RoomMsg, past: seq<Step>)
    requires a < |actors| && RoomsJoins(actors, past)
    requires m.AddMember? ==> FrameJoin(m.chan, actors[a].room) in past
    ensures RoomsJoins(PushRoom(actors, a, m), past)
  {
    var x := actors[a];
    assert RoomJoins(x, past);
    assert RoomJoins(x.(mailbox := x.mailbox + [m]), past);
  }

  lemma OpenJoins(s: State, room: RoomId, past: seq<Step>)
    requires RoomsInv(s.router.rooms, s.actors) && RoomsJoins(s.actors, past)
    ensures var t := OpenRoom(s, room);
            && RoomsJoins(t.actors, past) && room in t.router.rooms && t.router.rooms[room] < |t.actors|
            && t.actors[t.router.rooms[room]].room == room
  {
    assert RoomJoins(Actor(room, [], map[], Idle, true), past);
  }

  lemma DispatchJoins(s: State, m: RouterMsg, at: int, past: seq<Step>)
    requires RouterMsgInRange(m, |s.sessions|) && RoomsInv(s.router.rooms, s.actors) && RoomsJoins(s.actors, past)
    requires m.JoinRoom? ==> FrameJoin(m.chan, m.room) in past
    ensures RoomsJoins(Dispatch(s, m, at).actors, past)
  {
    match m
    case JoinRoom(u, room, c) =>
      var t := OpenRoom(s, room);
      OpenJoins(s, room, past);
      PushJoins(t.actors, t.router.rooms[room], AddMember(u, c), past);
    case LeaveRoom(u, room) =>
      if room in s.router.rooms {
        PushJoins(s.actors, s.router.rooms[room], RemoveMember(u), past);
      }
    case SendRoomMessage(id, room, from, content) =>
      if room in s.router.rooms {
        PushJoins(s.actors, s.router.rooms[room], SendMessage(id, from, content), past);
      }
    case _ =>
  }

  lemma DispatchQuiet(s: State, m: RouterMsg, at: int)
    requires RouterMsgInRange(m, |s.sessions|)
    requires forall r :: r in s.router.rooms ==> s.router.rooms[r] < |s.actors|
    ensures Dispatch(s, m, at).inbox == s.inbox && Dispatch(s, m, at).h.entered == s.h.entered
  {
  }

  lemma RouterJoins(s: State, at: int, past: seq<Step>)
    requires InRange(s) && RoomsInv(s.router.rooms, s.actors) && Enabled(s, RouterStep(at)) && JoinsFrom(s, past)
    ensures JoinsFrom(Apply(s, RouterStep(at)), past)
  {
    DispatchJoins(PopInbox(s), s.inbox[0], at, past);
    DispatchQuiet(PopInbox(s), s.inbox[0], at);
  }

  lemma PushedHeard(s: State, c: SessionId, m: ChatMessage, past: seq<Step>)
    requires c < |s.chans| && c < |s.h.entered| && HeardJoins(s.h.entered, past)
    requires m.RoomMessage? ==> FrameJoin(c, m.room) in past
    ensures HeardJoins(Push(s, c, m).h.entered, past)
  {
  }

  lemma DeliverJoins(s: State, past: seq<Step>)
    requires InRange(s) && s.hand.Some? && s.hand.value.msg.DirectMessage? && JoinsFrom(s, past)
    ensures JoinsFrom(DoDeliver(s), past)
  {
    var d := s.hand.value;
    DeliverFrame(s);
    if d.to in s.router.users {
      PushedHeard(s, s.router.users[d.to], d.msg, past);
    }
  }

  lemma SetJoins(actors: seq<Actor>, a: ActorId, x: Actor, past: seq<Step>)
    requires a < |actors| && RoomsJoins(actors, past) && RoomJoins(x, past)
    ensures RoomsJoins(actors[a := x], past)
  {
  }

  lemma SendActor(s: State, a: ActorId, x: Actor, m: RoomMsg, at: int)
    requires a < |s.actors| && a < |s.h.logs| && m.SendMessage?
    ensures var t := HandleSend(s, a, x, m.id, m.from, m.content, at);
            && |t.actors| == |s.actors| && t.actors == s.actors[a := t.actors[a]]
            && t.actors[a].room == x.room && t.actors[a].mailbox == x.mailbox && t.actors[a].members == x.members
            && t.inbox == s.inbox && t.h.entered == s.h.entered
  {
  }

  lemma MailActor(s: State, a: ActorId, at: int)
    requires a < |s.actors| && a < |s.h.logs| && s.actors[a].mailbox != []
    ensures var x, t, m := s.actors[a], DoRoomStep(s, a, at), s.actors[a].mailbox[0];
            && |t.actors| == |s.actors| && t.actors == s.actors[a := t.actors[a]]
            && t.actors[a].room == x.room && t.actors[a].mailbox == x.mailbox[1..]
            && t.inbox == s.inbox && t.h.entered == s.h.entered
            && (forall u :: u in t.actors[a].members ==>
                  || (u in x.members && t.actors[a].members[u] == x.members[u])
                  || m == AddMember(u, t.actors[a].members[u]))
  {
    var x, m := PopMail(s.actors[a]), s.actors[a].mailbox[0];
    match m
    case AddMember(u, c) => SetMembers(s, a, x, AddMemberTo(x.members, u, c));
    case RemoveMember(u) => SetMembers(s, a, x, x.members - {u});
    case SendMessage(_, _, _) => SendActor(s, a, x, m, at);
  }

  lemma SetMembers(s: State, a: ActorId, x: Actor, ms: map<UserId, SessionId>)
    requires a < |s.actors|
    ensures var t := SetActor(s, a, x.(members := ms));
            && |t.actors| == |s.actors| && t.actors == s.actors[a := t.actors[a]]
            && t.actors[a].room == x.room && t.actors[a].mailbox == x.mailbox && t.actors[a].members == ms
            && t.inbox == s.inbox && t.h.entered == s.h.entered
  {
  }

  lemma MailJoins(s: State, a: ActorId, at: int, past: seq<Step>)
    requires a < |s.actors| && a < |s.h.logs| && s.actors[a].mailbox != [] && JoinsFrom(s, past)
    ensures JoinsFrom(DoRoomStep(s, a, at), past)
  {
    var t := DoRoomStep(s, a, at);
    assert RoomJoins(s.actors[a], past);
    MailActor(s, a, at);
    assert RoomJoins(t.actors[a], past);
    SetJoins(s.actors, a, t.actors[a], past);
  }

  lemma CastJoins(s: State, a: ActorId, u: UserId, past: seq<Step>)
    requires InRange(s) && Enabled(s, RoomCast(a, u)) && JoinsFrom(s, past)
    requires s.actors[a].activity.msg.RoomMessage? && s.actors[a].activity.msg.room == s.actors[a].room
    ensures JoinsFrom(Apply(s, RoomCast(a, u)), past)
  {
    assert ActorInRange(s.actors[a], |s.sessions|) && RoomJoins(s.actors[a], past);
    CastFrame(s, a, u);
    PushedHeard(s, s.actors[a].members[u], s.actors[a].activity.msg, past);
    var t := DoCast(s, a, u);
    SetJoins(s.actors, a, t.actors[a], past);
  }

  lemma CleanupJoins(s: State, step: Step, past: seq<Step>)
    requires InRange(s) && Enabled(s, step) && JoinsFrom(s, past)
    requires step.RoomTick? || step.RoomSweep? || step.RoomStops?
    ensures JoinsFrom(Apply(s, step), past)
  {
    var a, t := step.actor, Apply(s, step);
    assert RoomJoins(s.actors[a], past) && ActorInRange(s.actors[a], |s.sessions|);
    assert RoomJoins(t.actors[a], past);
    SetJoins(s.actors, a, t.actors[a], past);
  }

  lemma RoomStepJoins(s: State, step: Step, past: seq<Step>)
    requires Inv(s) && Enabled(s, step) && JoinsFrom(s, past)
    requires step.RoomStep? || step.RoomCast? || step.RoomTick? || step.RoomSweep? || step.RoomStops?
    ensures JoinsFrom(Apply(s, step), past)
  {
    if step.RoomStep? {
      MailJoins(s, step.actor, step.at, past);
    } else if step.RoomCast? {
      assert ActorOk(s.sessions, s.reqs, s.actors[step.actor]);
      CastJoins(s, step.actor, step.user, past);
    } else {
      CleanupJoins(s, step, past);
    }
  }

  lemma JoinsStep(s: State, step: Step, past: seq<Step>)
    requires Inv(s) && Enabled(s, step) && JoinsFrom(s, past)
    ensures JoinsFrom(Apply(s, step), past + [step])
  {
    var all := past + [step];
    assert step in all;
    JoinsLater(s, past, step);
    if
    case step.RouterStep? => RouterJoins(s, step.at, all);
    case step.RouterDeliver? =>
      HandIsDirect(s);
      DeliverJoins(s, all);
    case step.SendEnds? || step.WriteChat? || step.WriteAck? => SocketJoins(s, step, all);
    case OfTask(step) => CallJoins(s, step, all);
    case step.RoomStep? || step.RoomCast? || step.RoomTick? || step.RoomSweep? || step.RoomStops? =>
      RoomStepJoins(s, step, all);
    case step.Connect? || step.Start? || step.FrameDirect? || step.FrameRoom? || step.FrameJoin? || step.ReceiveEnds?
      || step.SendUnregister? || step.ExternalLeave? => SessionJoins(s, step, all);
  }

  lemma HandIsDirect(s: State)
    requires Inv(s) && s.hand.Some?
    ensures s.hand.value.msg.DirectMessage?
  {
  }

  // ---- Runs ----

  ghost predicate From(s: State, past: seq<Step>) {
    UsersFrom(s.sessions, Users(past)) && ReqsFrom(s.reqs, past) && JoinsFrom(s, past)
  }

  /** The last step of a run. */
  lemma {:induction false} RunSplit(s: State, steps: seq<Step>)
    requires CanRun(s, steps) && steps != []
    ensures var init, last := steps[..|steps| - 1], steps[|steps| - 1];
            && CanRun(s, init) && InRange(Run(s, init)) && Enabled(Run(s, init), last)
            && Run(s, steps) == Apply(Run(s, init), last)
    decreases |steps|
  {
    if |steps| > 1 {
      var rest := steps[1..];
      RunSplit(Apply(s, steps[0]), rest);
      assert steps[..|steps| - 1][1..] == rest[..|rest| - 1];
    } else {
      assert steps[..0] == [] && steps[1..] == [];
    }
  }

  lemma InitFrom()
    ensures From(INIT, [])
  {
  }

  lemma {:induction false} RunUsers(s: State, steps: seq<Step>)
    requires Inv(s) && UsersFrom(s.sessions, []) && CanRun(s, steps)
    ensures UsersFrom(Run(s, steps).sessions, Users(steps))
    decreases |steps|
  {
    if steps != [] {
      var init := steps[..|steps| - 1];
      RunSplit(s, steps);
      RunUsers(s, init);
      UsersLast(Run(s, init), steps);
    }
  }

  lemma UsersLast(s: State, steps: seq<Step>)
    requires InRange(s) && steps != [] && Enabled(s, steps[|steps| - 1])
    requires UsersFrom(s.sessions, Users(steps[..|steps| - 1]))
    ensures UsersFrom(Apply(s, steps[|steps| - 1]).sessions, Users(steps))
  {
    StepUsers(s, steps[|steps| - 1], steps[..|steps| - 1]);
  }

  lemma {:induction false} RunReqs(s: State, steps: seq<Step>)
    requires Inv(s) && ReqsFrom(s.reqs, []) && CanRun(s, steps)
    ensures ReqsFrom(Run(s, steps).reqs, steps)
    decreases |steps|
  {
    if steps != [] {
      var init := steps[..|steps| - 1];
      RunSplit(s, steps);
      RunReqs(s, init);
      ReqsLast(Run(s, init), steps);
    }
  }

  lemma ReqsLast(s: State, steps: seq<Step>)
    requires InRange(s) && steps != [] && Enabled(s, steps[|steps| - 1]) && ReqsFrom(s.reqs, steps[..|steps| - 1])
    ensures ReqsFrom(Apply(s, steps[|steps| - 1]).reqs, steps)
  {
    var init, last := steps[..|steps| - 1], steps[|steps| - 1];
    ReqsStep(s, last, init);
    assert init + [last] == steps;
  }

  lemma {:induction false} RunJoins(s: State, steps: seq<Step>)
    requires Inv(s) && JoinsFrom(s, []) && CanRun(s, steps)
    ensures JoinsFrom(Run(s, steps), steps)
    decreases |steps|
  {
    if steps != [] {
      var init := steps[..|steps| - 1];
      RunSplit(s, steps);
      RunJoins(s, init);
      RunKeepsInv(s, init);
      JoinsLast(Run(s, init), steps);
    }
  }

  lemma JoinsLast(s: State, steps: seq<Step>)
    requires Inv(s) && steps != [] && Enabled(s, steps[|steps| - 1]) && JoinsFrom(s, steps[..|steps| - 1])
    ensures JoinsFrom(Apply(s, steps[|steps| - 1]), steps)
  {
    var init, last := steps[..|steps| - 1], steps[|steps| - 1];
    JoinsStep(s, last, init);
    assert init + [last] == steps;
  }

  lemma RunIsFrom(steps: seq<Step>)
    requires CanRun(INIT, steps)
    ensures Inv(Run(INIT, steps)) && From(Run(INIT, steps), steps)
  {
    InitInv();
    RunKeepsInv(INIT, steps);
    InitFrom();
    RunUsers(INIT, steps);
    RunReqs(INIT, steps);
    RunJoins(INIT, steps);
  }

  /** Request `q` is a frame of the run, sent under its own session's user. */
  ghost predicate IsFrame(steps: seq<Step>, id: MsgId, q: Request) {
    AskedIn(steps, id, q) && q.origin < |Users(steps)| && Users(steps)[q.origin] == q.from
  }

  lemma RequestsAreFrames(steps: seq<Step>, id: MsgId)
    requires CanRun(INIT, steps) && id in Run(INIT, steps).reqs
    ensures IsFrame(steps, id, Run(INIT, steps).reqs[id])
  {
    RunIsFrom(steps);
  }

  /** The message says what the frame says; a direct one is for this session's user, a room's for its joiners. */
  ghost predicate Copies(steps: seq<Step>, m: ChatMessage, q: Request, sid: SessionId) {
    && m.from == q.from && m.content == q.content
    && match m
       case DirectMessage(_, _, _) => q.kind.Direct? && sid < |Users(steps)| && q.kind.to == Users(steps)[sid]
       case RoomMessage(room, _, _, _) => q.kind == ToRoom(room) && FrameJoin(sid, room) in steps
  }

  /**
   Whatever client `sid` is shown, some client sent: the same text under the sender's own name, a direct
   message to this user or a message to a room that this very session asked to join.
   */
  lemma ShownIsFrame(steps: seq<Step>, sid: SessionId, i: nat)
    requires CanRun(INIT, steps) && sid < |Run(INIT, steps).h.shown| && i < |Run(INIT, steps).h.shown[sid]|
    ensures var m := Run(INIT, steps).h.shown[sid][i];
            exists q :: IsFrame(steps, m.id, q) && Copies(steps, m, q, sid)
  {
    var s := Run(INIT, steps);
    RunIsFrom(steps);
    ShownEntered(s, sid, i);
    var m := s.h.shown[sid][i];
    RequestsAreFrames(steps, m.id);
    assert IsFrame(steps, m.id, s.reqs[m.id]) && Copies(steps, m, s.reqs[m.id], sid);
  }

  lemma ShownEntered(s: State, sid: SessionId, i: nat)
    requires Inv(s) && sid < |s.h.shown| && i < |s.h.shown[sid]|
    ensures var m := s.h.shown[sid][i];
            && sid < |s.sessions| && sid < |s.h.entered| && i < |s.h.entered[sid]| && s.h.entered[sid][i] == m
            && m.id in s.reqs && Genuine(s.reqs, s.sessions[sid].user, m)
  {
    ShownIsPrefix(s.chans[sid], s.h.entered[sid], s.h.shown[sid]);
    assert EnteredOk(s.reqs, s.sessions[sid].user, s.h.entered[sid]);
  }

  /** Whoever is in a room asked for it, on that very channel. */
  lemma MembersAsked(steps: seq<Step>, a: ActorId, u: UserId)
    requires CanRun(INIT, steps) && a < |Run(INIT, steps).actors| && u in Run(INIT, steps).actors[a].members
    ensures var x := Run(INIT, steps).actors[a];
            && FrameJoin(x.members[u], x.room) in steps
            && x.members[u] < |Users(steps)| && Users(steps)[x.members[u]] == u
  {
    var s := Run(INIT, steps);
    RunIsFrom(steps);
    assert RoomJoins(s.actors[a], steps) && ActorOk(s.sessions, s.reqs, s.actors[a]);
  }
}
