/**
 How long a request can take, whatever clients and other tasks do meanwhile: the router, the room and
 the persistence task each serve it within a bounded number of their own steps.
 */
module Response {
  import opened Types
  import opened Sequences
  import opened Protocol
  import opened Invariants
  import opened PlaceProof
  import opened StepProof
  import opened Theorems
  import opened DirectOrder
  import opened Membership
  import opened Progress

  // ---- A request only moves forward ----

  function Rank(st: Stage): nat {
    match st
    case AtRouter => 0
    case AtRoom(_) => 1
    case AtTask => 2
    case AtShot => 3
    case AtAcks => 4
    case _ => 5
  }

  ghost predicate Forward(was: map<MsgId, Stage>, stage: map<MsgId, Stage>, id: MsgId) {
    id in was ==> id in stage && (stage[id] == was[id] || Rank(was[id]) < Rank(stage[id]))
  }

  lemma OneMoves(stage: map<MsgId, Stage>, j: MsgId, st: Stage, id: MsgId)
    requires j in stage ==> Rank(stage[j]) < Rank(st)
    ensures Forward(stage, stage[j := st], id)
  {
  }

  lemma FrameForward(s: State, step: Step, id: MsgId)
    requires InRange(s) && PlaceInv(s) && Enabled(s, step) && (step.FrameDirect? || step.FrameRoom?)
    ensures Forward(s.h.stage, Apply(s, step).h.stage, id) && Apply(s, step).tasks == s.tasks
  {
    assert step.id !in s.h.stage;
  }

  lemma SessionForward(s: State, step: Step, id: MsgId)
    requires InRange(s) && Enabled(s, step)
    requires || step.Connect? || step.Start? || step.FrameJoin? || step.ReceiveEnds? || step.SendUnregister?
             || step.ExternalLeave?
    ensures Forward(s.h.stage, Apply(s, step).h.stage, id) && Apply(s, step).tasks == s.tasks
  {
  }

  lemma CloseForward(s: State, sid: SessionId, id: MsgId)
    requires PlaceInv(s) && sid < |s.acks| && sid < |s.chans|
    ensures Forward(s.h.stage, CloseSend(s, sid).h.stage, id) && CloseSend(s, sid).tasks == s.tasks
  {
    PlaceClose(s, sid);
  }

  lemma PopAckForward(s: State, sid: SessionId, id: MsgId)
    requires PlaceInv(s) && sid < |s.acks| && sid < |s.h.handed| && s.acks[sid].queue != []
    ensures Forward(s.h.stage, PopAck(s, sid).h.stage, id) && PopAck(s, sid).tasks == s.tasks
  {
    var q := s.acks[sid].queue;
    assert HoldsFor(q, sid, s.reqs, s.h.stage, AtAcks);
    assert AckIds(q)[0] == q[0].id;
    OneMoves(s.h.stage, q[0].id, Handed, id);
  }

  lemma SocketForward(s: State, step: Step, id: MsgId)
    requires Inv(s) && Enabled(s, step) && (step.SendEnds? || step.WriteChat? || step.WriteAck?)
    ensures Forward(s.h.stage, Apply(s, step).h.stage, id) && Apply(s, step).tasks == s.tasks
  {
    if
    case step.SendEnds? => CloseForward(s, step.sid, id);
    case step.WriteChat? =>
      if !step.ok {
        FailedWriteCloses(s, step.sid);
        CloseForward(s, step.sid, id);
      }
    case step.WriteAck? =>
      if step.ok {
        PopAckForward(s, step.sid, id);
      } else {
        CloseForward(s, step.sid, id);
      }
  }

  /** The message the router takes up is the only request that moves, and it was at the router. */
  lemma DispatchForward(s: State, m: RouterMsg, at: int, id: MsgId)
    requires RouterMsgInRange(m, |s.sessions|)
    requires forall r :: r in s.router.rooms ==> s.router.rooms[r] < |s.actors|
    requires (m.SendDirectMessage? || m.SendRoomMessage?) && m.id in s.h.stage ==> s.h.stage[m.id].AtRouter?
    ensures Forward(s.h.stage, Dispatch(s, m, at).h.stage, id)
    ensures id in s.tasks && id in s.h.stage && !s.h.stage[id].AtRouter? ==>
              id in Dispatch(s, m, at).tasks && Dispatch(s, m, at).tasks[id] == s.tasks[id]
  {
  }

  lemma HeadIsAtRouter(s: State)
    requires PlaceInv(s) && s.inbox != [] && (s.inbox[0].SendDirectMessage? || s.inbox[0].SendRoomMessage?)
    ensures s.inbox[0].id in s.h.stage && s.h.stage[s.inbox[0].id].AtRouter?
  {
    var m := s.inbox[0];
    assert Tags(s.inbox, AllSends) == [m.id] + Tags(s.inbox[1..], AllSends);
    assert ([m.id] + Tags(s.inbox[1..], AllSends))[0] == m.id;
  }

  lemma RouterForward(s: State, at: int, id: MsgId)
    requires Inv(s) && Enabled(s, RouterStep(at))
    ensures var t := Apply(s, RouterStep(at));
            && Forward(s.h.stage, t.h.stage, id) && t.inbox == s.inbox[1..]
            && (id in s.tasks ==> id in t.tasks && t.tasks[id] == s.tasks[id])
  {
    var p, m := PopInbox(s), s.inbox[0];
    if m.SendDirectMessage? || m.SendRoomMessage? {
      HeadIsAtRouter(s);
    }
    assert id in s.tasks ==> s.h.stage[id].AtTask?;
    DispatchForward(p, m, at, id);
    DispatchWorks(p, m, at);
  }

  lemma DeliverForward(s: State)
    requires InRange(s) && s.hand.Some?
    ensures var t := DoDeliver(s); t.h.stage == s.h.stage && t.tasks == s.tasks && t.inbox == s.inbox
  {
  }

  // ---- Rooms ----

  lemma SendForward(s: State, a: ActorId, x: Actor, m: RoomMsg, at: int, id: MsgId)
    requires a < |s.actors| && a < |s.h.logs| && m.SendMessage? && m.id in s.h.stage && s.h.stage[m.id] == AtRoom(a)
    ensures var t := HandleSend(s, a, x, m.id, m.from, m.content, at);
            && Forward(s.h.stage, t.h.stage, id)
            && (id in s.tasks && id != m.id ==> id in t.tasks && t.tasks[id] == s.tasks[id])
  {
  }

  lemma MailHeadIsHere(s: State, a: ActorId)
    requires PlaceInv(s) && a < |s.actors| && s.actors[a].mailbox != [] && s.actors[a].mailbox[0].SendMessage?
    ensures var id := s.actors[a].mailbox[0].id; id in s.h.stage && s.h.stage[id] == AtRoom(a)
  {
    var q := s.actors[a].mailbox;
    assert Holds(SendIds(q), s.h.stage, AtRoom(a));
    assert SendIds(q) == [q[0].id] + SendIds(q[1..]);
    assert ([q[0].id] + SendIds(q[1..]))[0] == q[0].id;
  }

  lemma MailForward(s: State, a: ActorId, at: int, id: MsgId)
    requires PlaceInv(s) && a < |s.actors| && a < |s.h.logs| && s.actors[a].mailbox != []
    ensures var t := DoRoomStep(s, a, at);
            && Forward(s.h.stage, t.h.stage, id)
            && (id in s.tasks ==> id in t.tasks && t.tasks[id] == s.tasks[id])
  {
    var m := s.actors[a].mailbox[0];
    if m.SendMessage? {
      MailHeadIsHere(s, a);
      assert id in s.tasks ==> s.h.stage[id].AtTask?;
      SendForward(s, a, PopMail(s.actors[a]), m, at, id);
    }
  }

  lemma MemberForward(s: State, step: Step)
    requires InRange(s) && Enabled(s, step) && (step.RoomCast? || step.RoomTick? || step.RoomSweep? || step.RoomStops?)
    ensures Apply(s, step).h.stage == s.h.stage && Apply(s, step).tasks == s.tasks
  {
    if step.RoomCast? {
      assert ActorInRange(s.actors[step.actor], |s.sessions|);
      CastFrame(s, step.actor, step.user);
    }
  }

  lemma RoomForward(s: State, step: Step, id: MsgId)
    requires Inv(s) && Enabled(s, step)
    requires step.RoomStep? || step.RoomCast? || step.RoomTick? || step.RoomSweep? || step.RoomStops?
    ensures Forward(s.h.stage, Apply(s, step).h.stage, id)
    ensures id in s.tasks ==> id in Apply(s, step).tasks && Apply(s, step).tasks[id] == s.tasks[id]
  {
    if step.RoomStep? {
      MailForward(s, step.actor, step.at, id);
    } else {
      MemberForward(s, step);
    }
  }

  // ---- Tasks ----

  predicate Own(step: Step, id: MsgId) {
    (step.TaskSend? || step.ServerExecutes? || step.TransportFails? || step.TaskResolves?) && step.id == id
  }

  lemma ResolveForward(s: State, j: MsgId, r: Status, id: MsgId)
    requires j in s.h.stage ==> s.h.stage[j].AtTask?
    ensures var t := Resolve(s, j, r);
            && Forward(s.h.stage, t.h.stage, id)
            && (id in s.tasks && id != j ==> id in t.tasks && t.tasks[id] == s.tasks[id])
  {
  }

  lemma ExecuteForward(s: State, j: MsgId, ok: bool, id: MsgId)
    requires j in s.tasks && j in s.writes
    ensures var t := DoExecute(s, j, ok);
            t.h == s.h && (id in s.tasks && id != j ==> id in t.tasks && t.tasks[id] == s.tasks[id])
  {
  }

  lemma CallForward(s: State, step: Step, id: MsgId)
    requires InRange(s) && Enabled(s, step) && (step.TaskSend? || step.ServerExecutes? || step.OrphanCommits?)
    ensures Apply(s, step).h.stage == s.h.stage
    ensures id in s.tasks && !Own(step, id) ==> id in Apply(s, step).tasks && Apply(s, step).tasks[id] == s.tasks[id]
  {
    if step.ServerExecutes? {
      ExecuteForward(s, step.id, step.ok, id);
    }
  }

  lemma RetryForward(s: State, j: MsgId, id: MsgId)
    requires j in s.tasks && (j in s.h.stage ==> s.h.stage[j].AtTask?)
    ensures var t := Retry(s, j);
            && Forward(s.h.stage, t.h.stage, id)
            && (id in s.tasks && id != j ==> id in t.tasks && t.tasks[id] == s.tasks[id])
  {
    if Again(s.tasks[j]).failures > MAX_RETRIES {
      ResolveForward(s, j, Failed, id);
    }
  }

  lemma FailForward(s: State, step: Step, id: MsgId)
    requires Inv(s) && Enabled(s, step) && step.TransportFails?
    ensures Forward(s.h.stage, Apply(s, step).h.stage, id)
    ensures id in s.tasks && !Own(step, id) ==> id in Apply(s, step).tasks && Apply(s, step).tasks[id] == s.tasks[id]
  {
    var p := Abandon(s, step.id);
    assert p.tasks == s.tasks && p.h == s.h;
    RetryForward(p, step.id, id);
  }

  lemma AckPushForward(s: State, j: MsgId, id: MsgId)
    requires j in s.shots && j in s.reqs && s.reqs[j].origin < |s.acks| && j in s.h.stage && s.h.stage[j].AtShot?
    ensures Forward(s.h.stage, DoAckPush(s, j).h.stage, id) && DoAckPush(s, j).tasks == s.tasks
  {
  }

  lemma AnswerForward(s: State, step: Step, id: MsgId)
    requires Inv(s) && Enabled(s, step) && (step.TaskResolves? || step.AckPush?)
    ensures Forward(s.h.stage, Apply(s, step).h.stage, id)
    ensures id in s.tasks && !Own(step, id) ==> id in Apply(s, step).tasks && Apply(s, step).tasks[id] == s.tasks[id]
  {
    if step.TaskResolves? {
      ResolveForward(s, step.id, if s.tasks[step.id].phase.success then Persisted else Failed, id);
    } else {
      AckPushForward(s, step.id, id);
    }
  }

  lemma TaskForward(s: State, step: Step, id: MsgId)
    requires Inv(s) && Enabled(s, step) && OfTask(step)
    ensures Forward(s.h.stage, Apply(s, step).h.stage, id)
    ensures id in s.tasks && !Own(step, id) ==> id in Apply(s, step).tasks && Apply(s, step).tasks[id] == s.tasks[id]
  {
    if
    case step.TaskSend? || step.ServerExecutes? || step.OrphanCommits? => CallForward(s, step, id);
    case step.TransportFails? => FailForward(s, step, id);
    case step.TaskResolves? || step.AckPush? => AnswerForward(s, step, id);
  }

  lemma ClientForward(s: State, step: Step, id: MsgId)
    requires Inv(s) && Enabled(s, step)
    requires !step.RouterStep? && !step.RouterDeliver? && !OfTask(step)
    requires !step.RoomStep? && !step.RoomCast? && !step.RoomTick? && !step.RoomSweep? && !step.RoomStops?
    ensures Forward(s.h.stage, Apply(s, step).h.stage, id) && Apply(s, step).tasks == s.tasks
  {
    if
    case step.FrameDirect? || step.FrameRoom? => FrameForward(s, step, id);
    case step.SendEnds? || step.WriteChat? || step.WriteAck? => SocketForward(s, step, id);
    case step.Connect? || step.Start? || step.FrameJoin? => SessionForward(s, step, id);
    case step.ReceiveEnds? || step.SendUnregister? || step.ExternalLeave? => SessionForward(s, step, id);
  }

  /** No step moves a request back, and only its own task's steps touch its task. */
  lemma StepForward(s: State, step: Step, id: MsgId)
    requires Inv(s) && Enabled(s, step)
    ensures Forward(s.h.stage, Apply(s, step).h.stage, id)
    ensures id in s.tasks && !Own(step, id) ==> id in Apply(s, step).tasks && Apply(s, step).tasks[id] == s.tasks[id]
  {
    if step.RouterStep? {
      RouterForward(s, step.at, id);
    } else if step.RouterDeliver? {
      DeliverForward(s);
    } else if OfTask(step) {
      TaskForward(s, step, id);
    } else if step.RoomStep? || step.RoomCast? || step.RoomTick? || step.RoomSweep? || step.RoomStops? {
      RoomForward(s, step, id);
    } else {
      ClientForward(s, step, id);
    }
  }

  lemma {:induction false} RunForward(s: State, steps: seq<Step>, id: MsgId)
    requires Inv(s) && CanRun(s, steps)
    ensures Forward(s.h.stage, Run(s, steps).h.stage, id)
    decreases |steps|
  {
    if steps != [] {
      StepForward(s, steps[0], id);
      InvStep(s, steps[0]);
      RunForward(Apply(s, steps[0]), steps[1..], id);
    }
  }

  // ---- The router ----

  function RouterSteps(steps: seq<Step>): nat {
    if steps == [] then 0 else (if steps[0].RouterStep? then 1 else 0) + RouterSteps(steps[1..])
  }

  lemma MoveGrows(s: State, step: Step)
    requires InRange(s) && Enabled(s, step) && Moves(step)
    ensures s.inbox <= Apply(s, step).inbox
  {
    if step.RouterDeliver? {
      DeliverForward(s);
    } else if step.RoomCast? {
      assert ActorInRange(s.actors[step.actor], |s.sessions|);
      CastFrame(s, step.actor, step.user);
    }
  }

  /** Whatever else happens, the router's inbox only grows at its end. */
  lemma InboxGrows(s: State, step: Step)
    requires InRange(s) && Enabled(s, step) && !step.RouterStep?
    ensures s.inbox <= Apply(s, step).inbox
  {
    if Moves(step) {
      MoveGrows(s, step);
    } else {
      QuietSame(s, step);
    }
  }

  predicate SendOf(m: RouterMsg, id: MsgId) {
    (m.SendDirectMessage? || m.SendRoomMessage?) && m.id == id
  }

  /** Once taken up, a request is no longer at the router. */
  lemma TakenUp(s: State, t: State, id: MsgId)
    requires PlaceInv(s) && PlaceInv(t) && s.inbox != [] && SendOf(s.inbox[0], id) && t.inbox == s.inbox[1..]
    requires Forward(s.h.stage, t.h.stage, id)
    ensures id in t.h.stage && Rank(t.h.stage[id]) >= 1
  {
    HeadIsAtRouter(s);
    var rest := Tags(s.inbox[1..], AllSends);
    assert Tags(s.inbox, AllSends) == [id] + rest;
    NoDupTail(rest, id);
  }

  /** One step: the foremost request is taken up, or each moves up by at most one place. */
  lemma QueueStep(s: State, step: Step, id: MsgId, i: nat)
    requires Inv(s) && Enabled(s, step) && i < |s.inbox| && SendOf(s.inbox[i], id)
    ensures var t := Apply(s, step);
            && Inv(t)
            && (step.RouterStep? && i == 0 ==> id in t.h.stage && Rank(t.h.stage[id]) >= 1)
            && (step.RouterStep? && i > 0 ==> i - 1 < |t.inbox| && t.inbox[i - 1] == s.inbox[i])
            && (!step.RouterStep? ==> i < |t.inbox| && t.inbox[i] == s.inbox[i])
  {
    InvStep(s, step);
    if step.RouterStep? {
      RouterForward(s, step.at, id);
      if i == 0 {
        TakenUp(s, Apply(s, step), id);
      }
    } else {
      InboxGrows(s, step);
    }
  }

  /** After `n` router steps a request that was behind `i` others is that much further up, or has been taken up. */
  ghost predicate ServedIn(m: RouterMsg, t: State, id: MsgId, i: nat, n: nat) {
    if n <= i then i - n < |t.inbox| && t.inbox[i - n] == m else id in t.h.stage && Rank(t.h.stage[id]) >= 1
  }

  lemma RunHead(s: State, steps: seq<Step>)
    requires steps != [] && CanRun(s, steps)
    ensures Run(s, steps) == Run(Apply(s, steps[0]), steps[1..])
  {
  }

  /** What is left to show of the steps after the first. */
  ghost predicate LaterServed(m: RouterMsg, s: State, steps: seq<Step>, id: MsgId, i: nat)
    requires steps != [] && CanRun(s, steps)
  {
    var t, rest := Run(Apply(s, steps[0]), steps[1..]), steps[1..];
    if !steps[0].RouterStep? then ServedIn(m, t, id, i, RouterSteps(rest))
    else if i > 0 then ServedIn(m, t, id, i - 1, RouterSteps(rest))
    else ServedIn(m, t, id, 0, 1)
  }

  lemma ServedLater(m: RouterMsg, s: State, steps: seq<Step>, id: MsgId, i: nat)
    requires steps != [] && CanRun(s, steps) && LaterServed(m, s, steps, id, i)
    ensures ServedIn(m, Run(s, steps), id, i, RouterSteps(steps))
  {
    RunHead(s, steps);
    var t, n := Run(Apply(s, steps[0]), steps[1..]), RouterSteps(steps[1..]);
    OneStepSooner(m, t, id, i, n, steps[0].RouterStep?);
  }

  lemma OneStepSooner(m: RouterMsg, t: State, id: MsgId, i: nat, n: nat, mine: bool)
    requires if !mine then ServedIn(m, t, id, i, n)
             else if i > 0 then ServedIn(m, t, id, i - 1, n) else ServedIn(m, t, id, 0, 1)
    ensures ServedIn(m, t, id, i, if mine then n + 1 else n)
  {
  }

  /** Once taken up, taken up for good. */
  lemma StaysTakenUp(m: RouterMsg, t: State, steps: seq<Step>, id: MsgId)
    requires Inv(t) && CanRun(t, steps) && id in t.h.stage && Rank(t.h.stage[id]) >= 1
    ensures ServedIn(m, Run(t, steps), id, 0, 1)
  {
    RunForward(t, steps, id);
  }

  /** The request behind `i` others is taken up by the router's (i + 1)-th step from now, and not before. */
  lemma {:induction false} RouterServes(s: State, steps: seq<Step>, id: MsgId, i: nat)
    requires Inv(s) && CanRun(s, steps) && i < |s.inbox| && SendOf(s.inbox[i], id)
    ensures ServedIn(s.inbox[i], Run(s, steps), id, i, RouterSteps(steps))
    decreases |steps|, 1
  {
    if steps != [] {
      RestServes(s, steps, id, i);
      ServedLater(s.inbox[i], s, steps, id, i);
    }
  }

  lemma {:induction false} RestServes(s: State, steps: seq<Step>, id: MsgId, i: nat)
    requires Inv(s) && CanRun(s, steps) && i < |s.inbox| && SendOf(s.inbox[i], id) && steps != []
    ensures LaterServed(s.inbox[i], s, steps, id, i)
    decreases |steps|, 0
  {
    var t, rest := Apply(s, steps[0]), steps[1..];
    QueueStep(s, steps[0], id, i);
    if steps[0].RouterStep? && i == 0 {
      StaysTakenUp(s.inbox[i], t, rest, id);
    } else {
      RouterServes(t, rest, id, if steps[0].RouterStep? then i - 1 else i);
    }
  }

  // ---- The room ----

  function RoomSteps(steps: seq<Step>, a: ActorId): nat {
    if steps == [] then 0 else (if steps[0].RoomStep? && steps[0].actor == a then 1 else 0) + RoomSteps(steps[1..], a)
  }

  lemma MailTaken(s: State, a: ActorId, at: int)
    requires a < |s.actors| && a < |s.h.logs| && s.actors[a].mailbox != []
    ensures var t := DoRoomStep(s, a, at); a < |t.actors| && t.actors[a].mailbox == s.actors[a].mailbox[1..]
  {
    var m := s.actors[a].mailbox[0];
    if m.SendMessage? {
      SendWorks(s, a, PopMail(s.actors[a]), m, at);
    }
  }

  lemma InsideMailbox(s: State, step: Step, a: ActorId)
    requires InRange(s) && Enabled(s, step) && OfRoom(step, a) && !step.RoomStep?
    ensures a < |Apply(s, step).actors| && Apply(s, step).actors[a].mailbox == s.actors[a].mailbox
  {
    if step.RoomCast? {
      assert ActorInRange(s.actors[a], |s.sessions|);
      CastFrame(s, a, step.user);
    }
  }

  /** Whatever else happens, a room's mailbox only grows at its end. */
  lemma MailboxGrows(s: State, step: Step, a: ActorId)
    requires InRange(s) && Enabled(s, step) && a < |s.actors| && !(step.RoomStep? && step.actor == a)
    ensures a < |Apply(s, step).actors| && s.actors[a].mailbox <= Apply(s, step).actors[a].mailbox
  {
    if OfRoom(step, a) {
      InsideMailbox(s, step, a);
    } else {
      OutsideKeepsRoom(s, step, a);
    }
  }

  predicate MailOf(m: RoomMsg, id: MsgId) {
    m.SendMessage? && m.id == id
  }

  lemma MailTakenUp(s: State, t: State, a: ActorId, id: MsgId)
    requires PlaceInv(s) && PlaceInv(t) && a < |s.actors| && a < |t.actors|
    requires s.actors[a].mailbox != [] && MailOf(s.actors[a].mailbox[0], id)
    requires t.actors[a].mailbox == s.actors[a].mailbox[1..] && Forward(s.h.stage, t.h.stage, id)
    ensures id in t.h.stage && Rank(t.h.stage[id]) >= 2
  {
    MailHeadIsHere(s, a);
    var q := s.actors[a].mailbox;
    var rest := SendIds(q[1..]);
    assert Holds(SendIds(q), s.h.stage, AtRoom(a)) && Holds(rest, t.h.stage, AtRoom(a));
    assert SendIds(q) == [id] + rest;
    NoDupTail(rest, id);
  }

  lemma RoomStepServes(s: State, a: ActorId, at: int, id: MsgId)
    requires Inv(s) && Enabled(s, RoomStep(a, at))
    ensures var t := Apply(s, RoomStep(a, at));
            && Inv(t) && a < |t.actors| && t.actors[a].mailbox == s.actors[a].mailbox[1..]
            && (MailOf(s.actors[a].mailbox[0], id) ==> id in t.h.stage && Rank(t.h.stage[id]) >= 2)
  {
    var t := Apply(s, RoomStep(a, at));
    InvStep(s, RoomStep(a, at));
    MailTaken(s, a, at);
    if MailOf(s.actors[a].mailbox[0], id) {
      MailForward(s, a, at, id);
      MailTakenUp(s, t, a, id);
    }
  }

  lemma MailboxStep(s: State, step: Step, a: ActorId, id: MsgId, j: nat)
    requires Inv(s) && Enabled(s, step) && a < |s.actors|
    requires j < |s.actors[a].mailbox| && MailOf(s.actors[a].mailbox[j], id)
    ensures var t, mine := Apply(s, step), step.RoomStep? && step.actor == a;
            && Inv(t) && a < |t.actors|
            && (mine && j == 0 ==> id in t.h.stage && Rank(t.h.stage[id]) >= 2)
            && (mine && j > 0 ==> j - 1 < |t.actors[a].mailbox| && t.actors[a].mailbox[j - 1] == s.actors[a].mailbox[j])
            && (!mine ==> j < |t.actors[a].mailbox| && t.actors[a].mailbox[j] == s.actors[a].mailbox[j])
  {
    if step.RoomStep? && step.actor == a {
      RoomStepServes(s, a, step.at, id);
    } else {
      InvStep(s, step);
      MailboxGrows(s, step, a);
    }
  }

  ghost predicate ServedInRoom(m: RoomMsg, t: State, a: ActorId, id: MsgId, j: nat, n: nat) {
    if n <= j then a < |t.actors| && j - n < |t.actors[a].mailbox| && t.actors[a].mailbox[j - n] == m
    else id in t.h.stage && Rank(t.h.stage[id]) >= 2
  }

  ghost predicate LaterServedInRoom(m: RoomMsg, s: State, steps: seq<Step>, a: ActorId, id: MsgId, j: nat)
    requires steps != [] && CanRun(s, steps)
  {
    var t, rest := Run(Apply(s, steps[0]), steps[1..]), steps[1..];
    if !(steps[0].RoomStep? && steps[0].actor == a) then ServedInRoom(m, t, a, id, j, RoomSteps(rest, a))
    else if j > 0 then ServedInRoom(m, t, a, id, j - 1, RoomSteps(rest, a))
    else ServedInRoom(m, t, a, id, 0, 1)
  }

  lemma ServedLaterInRoom(m: RoomMsg, s: State, steps: seq<Step>, a: ActorId, id: MsgId, j: nat)
    requires steps != [] && CanRun(s, steps) && LaterServedInRoom(m, s, steps, a, id, j)
    ensures ServedInRoom(m, Run(s, steps), a, id, j, RoomSteps(steps, a))
  {
    RunHead(s, steps);
    var t, n := Run(Apply(s, steps[0]), steps[1..]), RoomSteps(steps[1..], a);
    OneMailSooner(m, t, a, id, j, n, steps[0].RoomStep? && steps[0].actor == a);
  }

  lemma OneMailSooner(m: RoomMsg, t: State, a: ActorId, id: MsgId, j: nat, n: nat, mine: bool)
    requires if !mine then ServedInRoom(m, t, a, id, j, n)
             else if j > 0 then ServedInRoom(m, t, a, id, j - 1, n) else ServedInRoom(m, t, a, id, 0, 1)
    ensures ServedInRoom(m, t, a, id, j, if mine then n + 1 else n)
  {
  }

  lemma StaysTakenUpInRoom(m: RoomMsg, t: State, steps: seq<Step>, a: ActorId, id: MsgId)
    requires Inv(t) && CanRun(t, steps) && id in t.h.stage && Rank(t.h.stage[id]) >= 2
    ensures ServedInRoom(m, Run(t, steps), a, id, 0, 1)
  {
    RunForward(t, steps, id);
  }

  /** The request behind `j` others in a room is taken up by its (j + 1)-th mail step from now, and not before. */
  lemma {:induction false} RoomServes(s: State, steps: seq<Step>, a: ActorId, id: MsgId, j: nat)
    requires Inv(s) && CanRun(s, steps) && a < |s.actors|
    requires j < |s.actors[a].mailbox| && MailOf(s.actors[a].mailbox[j], id)
    ensures ServedInRoom(s.actors[a].mailbox[j], Run(s, steps), a, id, j, RoomSteps(steps, a))
    decreases |steps|, 1
  {
    if steps != [] {
      RestServesInRoom(s, steps, a, id, j);
      ServedLaterInRoom(s.actors[a].mailbox[j], s, steps, a, id, j);
    }
  }

  lemma {:induction false} RestServesInRoom(s: State, steps: seq<Step>, a: ActorId, id: MsgId, j: nat)
    requires Inv(s) && CanRun(s, steps) && a < |s.actors| && steps != []
    requires j < |s.actors[a].mailbox| && MailOf(s.actors[a].mailbox[j], id)
    ensures LaterServedInRoom(s.actors[a].mailbox[j], s, steps, a, id, j)
    decreases |steps|, 0
  {
    var t, rest, mine := Apply(s, steps[0]), steps[1..], steps[0].RoomStep? && steps[0].actor == a;
    MailboxStep(s, steps[0], a, id, j);
    if mine && j == 0 {
      StaysTakenUpInRoom(s.actors[a].mailbox[j], t, rest, a, id);
    } else {
      RoomServes(t, rest, a, id, if mine then j - 1 else j);
    }
  }

  // ---- The task ----

  function OwnSteps(steps: seq<Step>, id: MsgId): nat {
    if steps == [] then 0 else (if Own(steps[0], id) then 1 else 0) + OwnSteps(steps[1..], id)
  }

  /** At most four calls of three steps each. */
  const TASK_STEPS := 3 * (MAX_RETRIES + 1)

  lemma OwnStepServes(s: State, step: Step, id: MsgId)
    requires Inv(s) && Enabled(s, step) && Own(step, id)
    ensures Weight(Apply(s, step).tasks, id) < Weight(s.tasks, id)
  {
    assert s.tasks[id].failures <= MAX_RETRIES;
    if step.TransportFails? {
      FailureWorks(s, step);
    } else {
      CallWorks(s, step);
    }
  }

  lemma TaskStanding(s: State, id: MsgId)
    requires Inv(s)
    ensures id in s.tasks ==> 3 <= Weight(s.tasks, id) <= TASK_STEPS + 2
    ensures id in s.tasks <==> id in s.h.stage && s.h.stage[id].AtTask?
  {
  }

  lemma OthersLeaveTask(s: State, step: Step, id: MsgId)
    requires Inv(s) && Enabled(s, step) && id in s.h.stage && Rank(s.h.stage[id]) >= 2 && !Own(step, id)
    ensures var t := Apply(s, step);
            && id in t.h.stage && Rank(t.h.stage[id]) >= 2 && (id in t.tasks <==> id in s.tasks)
            && Weight(t.tasks, id) == Weight(s.tasks, id)
  {
    InvStep(s, step);
    StepForward(s, step, id);
    TaskLeft(s, Apply(s, step), id);
  }

  lemma TaskLeft(s: State, t: State, id: MsgId)
    requires PlaceInv(s) && PlaceInv(t) && id in s.h.stage && Rank(s.h.stage[id]) >= 2
    requires Forward(s.h.stage, t.h.stage, id) && (id in s.tasks ==> id in t.tasks && t.tasks[id] == s.tasks[id])
    ensures (id in t.tasks <==> id in s.tasks) && Weight(t.tasks, id) == Weight(s.tasks, id)
  {
  }

  lemma OwnStepOfTask(s: State, step: Step, id: MsgId)
    requires Inv(s) && Enabled(s, step) && Own(step, id)
    ensures var t := Apply(s, step);
            && id in s.tasks && id in t.h.stage && Rank(t.h.stage[id]) >= 2
            && Weight(t.tasks, id) < Weight(s.tasks, id)
  {
    StepForward(s, step, id);
    TaskStanding(s, id);
    OwnStepServes(s, step, id);
  }

  /** What the task of `id` still has to do falls with each of its own steps and with nobody else's. */
  lemma TaskStep(s: State, step: Step, id: MsgId)
    requires Inv(s) && Enabled(s, step) && id in s.h.stage && Rank(s.h.stage[id]) >= 2
    ensures var t, own := Apply(s, step), if Own(step, id) then 1 else 0;
            && id in t.h.stage && Rank(t.h.stage[id]) >= 2
            && (id in t.tasks ==> id in s.tasks)
            && (id in s.tasks ==> Weight(t.tasks, id) + own <= Weight(s.tasks, id))
            && (id !in s.tasks ==> own == 0)
  {
    if Own(step, id) {
      OwnStepOfTask(s, step, id);
    } else {
      OthersLeaveTask(s, step, id);
    }
  }

  /** A task never takes more than TASK_STEPS steps of its own, whatever its calls come to. */
  lemma {:induction false} TaskServes(s: State, steps: seq<Step>, id: MsgId)
    requires Inv(s) && CanRun(s, steps) && id in s.h.stage && Rank(s.h.stage[id]) >= 2
    ensures var t, n := Run(s, steps), OwnSteps(steps, id);
            && id in t.h.stage && Rank(t.h.stage[id]) >= 2 && n <= TASK_STEPS
            && (id !in s.tasks ==> id !in t.tasks && n == 0)
            && (id in t.tasks ==> Weight(t.tasks, id) + n <= Weight(s.tasks, id))
            && (id in s.tasks ==> n + 2 <= Weight(s.tasks, id))
    decreases |steps|
  {
    TaskStanding(s, id);
    if steps != [] {
      TaskStep(s, steps[0], id);
      InvStep(s, steps[0]);
      TaskServes(Apply(s, steps[0]), steps[1..], id);
    }
  }

  // ---- All together ----

  /** The task of `id` is not done: it has steps left, and one of them can be taken at once. */
  ghost predicate AtWork(s: State, id: MsgId, taken: nat)
    requires InRange(s)
  {
    taken < TASK_STEPS && exists step :: Own(step, id) && Enabled(s, step)
  }

  /**
   The response bound, under any interleaving with clients, connections and other requests.  After as
   many router steps as the inbox is long and then as many mail steps of its room as that mailbox is
   long, only a request's own task can stand between it and its answer, and that task takes at most
   TASK_STEPS steps: until the answer is there, it has taken fewer and can take the next.
   */
  lemma ResponseBound(s: State, first: seq<Step>, second: seq<Step>, third: seq<Step>, id: MsgId)
    requires Reachable(s) && id in s.reqs && CanRun(s, first) && RouterSteps(first) >= |s.inbox|
    requires CanRun(Run(s, first), second) && WaitsForRoom(Run(s, first), second, id)
    requires CanRun(Run(Run(s, first), second), third)
    ensures var t, n := Run(Run(Run(s, first), second), third), OwnSteps(third, id);
            InRange(t) && n <= 12 && (Answered(t, id) || AtWork(t, id, n))
  {
    ReachableInv(s);
    var s1 := Run(s, first);
    PastRouter(s, first, id);
    RunKeepsInv(s, first);
    PastRoom(s1, second, id);
    RunKeepsInv(s1, second);
    PastTask(Run(s1, second), third, id);
  }

  /** If request `id` stands in a room, that room takes up as much mail as it has. */
  ghost predicate WaitsForRoom(s: State, steps: seq<Step>, id: MsgId) {
    id in s.h.stage && s.h.stage[id].AtRoom? ==>
      var a := s.h.stage[id].actor; a < |s.actors| ==> RoomSteps(steps, a) >= |s.actors[a].mailbox|
  }

  lemma PastTask(s: State, steps: seq<Step>, id: MsgId)
    requires Inv(s) && CanRun(s, steps) && id in s.h.stage && Rank(s.h.stage[id]) >= 2
    ensures var t, n := Run(s, steps), OwnSteps(steps, id);
            InRange(t) && n <= TASK_STEPS && (Answered(t, id) || AtWork(t, id, n))
  {
    var t := Run(s, steps);
    RunKeepsInv(s, steps);
    TaskServes(s, steps, id);
    TaskStanding(s, id);
    TaskStanding(t, id);
    if id in t.tasks {
      var step := OwnWorkLeft(t, id);
    } else {
      Late(t, id);
    }
  }

  lemma OwnWorkLeft(s: State, id: MsgId) returns (step: Step)
    requires InRange(s) && id in s.tasks
    ensures Own(step, id) && Enabled(s, step)
  {
    step := match s.tasks[id].phase
            case Ready => TaskSend(id) case InFlight => ServerExecutes(id, true) case Replied(_) => TaskResolves(id);
  }

  lemma Late(s: State, id: MsgId)
    requires Inv(s) && id in s.h.stage && Rank(s.h.stage[id]) >= 2 && id !in s.tasks
    ensures Answered(s, id)
  {
    assert !s.h.stage[id].Dropped?;
  }

  lemma {:induction false} TagIndex(q: seq<RouterMsg>, id: MsgId) returns (i: nat)
    requires id in Tags(q, AllSends)
    ensures i < |q| && SendOf(q[i], id)
  {
    if id in Tag(q[0], AllSends) {
      i := 0;
    } else {
      i := TagIndex(q[1..], id);
      i := i + 1;
    }
  }

  lemma {:induction false} SendIndex(q: seq<RoomMsg>, id: MsgId) returns (i: nat)
    requires id in SendIds(q)
    ensures i < |q| && MailOf(q[i], id)
  {
    if id in SendTag(q[0]) {
      i := 0;
    } else {
      i := SendIndex(q[1..], id);
      i := i + 1;
    }
  }

  lemma PastRouter(s: State, steps: seq<Step>, id: MsgId)
    requires Inv(s) && CanRun(s, steps) && id in s.reqs && RouterSteps(steps) >= |s.inbox|
    ensures id in Run(s, steps).h.stage && Rank(Run(s, steps).h.stage[id]) >= 1
  {
    assert Holds(Tags(s.inbox, AllSends), s.h.stage, AtRouter) && id in s.h.stage;
    if s.h.stage[id].AtRouter? {
      var i := TagIndex(s.inbox, id);
      RouterServes(s, steps, id, i);
    } else {
      RunForward(s, steps, id);
    }
  }

  lemma PastRoom(s: State, steps: seq<Step>, id: MsgId)
    requires Inv(s) && CanRun(s, steps) && id in s.h.stage && Rank(s.h.stage[id]) >= 1 && WaitsForRoom(s, steps, id)
    ensures id in Run(s, steps).h.stage && Rank(Run(s, steps).h.stage[id]) >= 2
  {
    if s.h.stage[id].AtRoom? {
      var a := s.h.stage[id].actor;
      assert Holds(SendIds(s.actors[a].mailbox), s.h.stage, AtRoom(a));
      var j := SendIndex(s.actors[a].mailbox, id);
      RoomServes(s, steps, a, id, j);
    } else {
      RunForward(s, steps, id);
    }
  }
}
