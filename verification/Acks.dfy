/** The last part of an answer's way: from its oneshot through the session's ack queue to the socket. */
module Acks {
  import opened Types
  import opened Protocol
  import opened Invariants
  import opened StepProof
  import opened Theorems
  import opened Response

  // ---- One session's acks, while its send task runs ----

  /** The send task of `sid` ends. */
  predicate Closes(step: Step, sid: SessionId) {
    step == SendEnds(sid) || step == WriteChat(sid, false) || step == WriteAck(sid, false)
  }

  predicate HasAcks(s: State, sid: SessionId) {
    sid < |s.acks| && sid < |s.h.handed|
  }

  /** All acks of the session so far: those written to the socket, then those queued. */
  function AckLine(s: State, sid: SessionId): seq<Ack>
    requires HasAcks(s, sid)
  {
    s.h.handed[sid] + s.acks[sid].queue
  }

  /** Between `s` and `t`, `n` acks were written, and others at most came behind. */
  predicate Written(s: State, t: State, sid: SessionId, n: nat) {
    && HasAcks(s, sid) && HasAcks(t, sid) && t.acks[sid].open
    && |t.h.handed[sid]| == |s.h.handed[sid]| + n
    && AckLine(s, sid) <= AckLine(t, sid)
  }

  predicate SameAcks(s: State, t: State, sid: SessionId) {
    HasAcks(t, sid) && HasAcks(s, sid) && t.acks[sid] == s.acks[sid] && t.h.handed[sid] == s.h.handed[sid]
  }

  lemma WrittenBoth(s: State, t: State, x: State, sid: SessionId, n: nat, k: nat)
    requires Written(s, t, sid, n) && Written(t, x, sid, k)
    ensures Written(s, x, sid, n + k)
  {
  }

  lemma OpeningAcks(s: State, step: Step, sid: SessionId)
    requires InRange(s) && HasAcks(s, sid) && s.acks[sid].open && Enabled(s, step)
    requires step.Connect? || step.Start? || step.FrameJoin? || step.ReceiveEnds?
    ensures SameAcks(s, Apply(s, step), sid)
  {
  }

  lemma FrameAcks(s: State, step: Step, sid: SessionId)
    requires InRange(s) && HasAcks(s, sid) && Enabled(s, step)
    requires step.FrameDirect? || step.FrameRoom? || step.SendUnregister? || step.ExternalLeave?
    ensures SameAcks(s, Apply(s, step), sid)
  {
  }

  lemma CloseAcks(s: State, x: SessionId, sid: SessionId)
    requires HasAcks(s, sid) && x < |s.chans| && x < |s.acks|
    ensures x != sid ==> SameAcks(s, CloseSend(s, x), sid)
  {
  }

  lemma SocketAcks(s: State, step: Step, sid: SessionId)
    requires InRange(s) && HasAcks(s, sid) && Enabled(s, step) && (step.SendEnds? || step.WriteChat?)
    requires !Closes(step, sid)
    ensures SameAcks(s, Apply(s, step), sid)
  {
    if step.SendEnds? {
      CloseAcks(s, step.sid, sid);
    } else if !step.ok {
      CloseAcks(PopChat(s, step.sid, false), step.sid, sid);
    }
  }

  lemma WriteAcks(s: State, step: Step, sid: SessionId)
    requires InRange(s) && HasAcks(s, sid) && s.acks[sid].open && Enabled(s, step) && step.WriteAck?
    requires !Closes(step, sid)
    ensures if step.sid == sid then Written(s, Apply(s, step), sid, 1) else SameAcks(s, Apply(s, step), sid)
  {
    if !step.ok {
      CloseAcks(s, step.sid, sid);
    } else if step.sid == sid {
      FirstIsWritten(s, sid);
    }
  }

  lemma FirstIsWritten(s: State, sid: SessionId)
    requires HasAcks(s, sid) && s.acks[sid].open && s.acks[sid].queue != []
    ensures Written(s, PopAck(s, sid), sid, 1) && AckLine(PopAck(s, sid), sid) == AckLine(s, sid)
  {
    var q := s.acks[sid].queue;
    assert s.h.handed[sid] + q == (s.h.handed[sid] + [q[0]]) + q[1..];
  }

  lemma DispatchAcks(s: State, m: RouterMsg, at: int, sid: SessionId)
    requires HasAcks(s, sid) && RouterMsgInRange(m, |s.sessions|)
    requires forall r :: r in s.router.rooms ==> s.router.rooms[r] < |s.actors|
    ensures SameAcks(s, Dispatch(s, m, at), sid)
  {
  }

  lemma RouterAcks(s: State, step: Step, sid: SessionId)
    requires InRange(s) && HasAcks(s, sid) && Enabled(s, step) && (step.RouterStep? || step.RouterDeliver?)
    ensures SameAcks(s, Apply(s, step), sid)
  {
    if step.RouterStep? {
      DispatchAcks(PopInbox(s), s.inbox[0], step.at, sid);
    } else {
      DeliverFrame(s);
    }
  }

  lemma MailAcks(s: State, a: ActorId, at: int, sid: SessionId)
    requires HasAcks(s, sid) && a < |s.actors| && a < |s.h.logs| && s.actors[a].mailbox != []
    ensures SameAcks(s, DoRoomStep(s, a, at), sid)
  {
  }

  lemma RoomAcks(s: State, step: Step, sid: SessionId)
    requires InRange(s) && HasAcks(s, sid) && Enabled(s, step)
    requires step.RoomStep? || step.RoomCast? || step.RoomTick? || step.RoomSweep? || step.RoomStops?
    ensures SameAcks(s, Apply(s, step), sid)
  {
    if step.RoomStep? {
      MailAcks(s, step.actor, step.at, sid);
    } else if step.RoomCast? {
      assert ActorInRange(s.actors[step.actor], |s.sessions|);
      CastFrame(s, step.actor, step.user);
    }
  }

  lemma CallAcks(s: State, step: Step, sid: SessionId)
    requires InRange(s) && HasAcks(s, sid) && Enabled(s, step) && OfTask(step) && !step.AckPush?
    ensures SameAcks(s, Apply(s, step), sid)
  {
    if step.ServerExecutes? {
      ExecuteFrame(s, step.id, step.ok);
    }
  }

  lemma PushAcks(s: State, id: MsgId, sid: SessionId)
    requires HasAcks(s, sid) && s.acks[sid].open && id in s.shots && id in s.reqs && s.reqs[id].origin < |s.acks|
    ensures Written(s, DoAckPush(s, id), sid, 0)
  {
  }

  lemma SameIsWritten(s: State, t: State, sid: SessionId)
    requires SameAcks(s, t, sid) && s.acks[sid].open
    ensures Written(s, t, sid, 0)
  {
  }

  /** A step that does not end the send task writes at most the foremost ack; nothing overtakes, nothing is lost. */
  lemma AckStep(s: State, step: Step, sid: SessionId)
    requires InRange(s) && HasAcks(s, sid) && s.acks[sid].open && Enabled(s, step) && !Closes(step, sid)
    ensures Written(s, Apply(s, step), sid, if step == WriteAck(sid, true) then 1 else 0)
  {
    if step.AckPush? {
      PushAcks(s, step.id, sid);
    } else if step != WriteAck(sid, true) {
      QuietAcks(s, step, sid);
      SameIsWritten(s, Apply(s, step), sid);
    } else {
      WriteAcks(s, step, sid);
    }
  }

  lemma QuietAcks(s: State, step: Step, sid: SessionId)
    requires InRange(s) && HasAcks(s, sid) && s.acks[sid].open && Enabled(s, step) && !Closes(step, sid)
    requires !step.AckPush? && step != WriteAck(sid, true)
    ensures SameAcks(s, Apply(s, step), sid)
  {
    if
    case step.Connect? || step.Start? || step.FrameJoin? || step.ReceiveEnds? => OpeningAcks(s, step, sid);
    case step.FrameDirect? || step.FrameRoom? || step.SendUnregister? || step.ExternalLeave? => FrameAcks(s, step, sid);
    case step.SendEnds? || step.WriteChat? => SocketAcks(s, step, sid);
    case step.WriteAck? => WriteAcks(s, step, sid);
    case step.RouterStep? || step.RouterDeliver? => RouterAcks(s, step, sid);
    case step.RoomStep? || step.RoomCast? || step.RoomTick? || step.RoomSweep? || step.RoomStops? =>
      RoomAcks(s, step, sid);
    case OfTask(step) => CallAcks(s, step, sid);
  }

  // ---- Runs ----

  predicate StaysOpen(steps: seq<Step>, sid: SessionId) {
    forall i :: 0 <= i < |steps| ==> !Closes(steps[i], sid)
  }

  function AckWrites(steps: seq<Step>, sid: SessionId): nat {
    if steps == [] then 0 else (if steps[0] == WriteAck(sid, true) then 1 else 0) + AckWrites(steps[1..], sid)
  }

  lemma {:induction false} AckRun(s: State, steps: seq<Step>, sid: SessionId)
    requires HasAcks(s, sid) && s.acks[sid].open && CanRun(s, steps) && StaysOpen(steps, sid)
    ensures Written(s, Run(s, steps), sid, AckWrites(steps, sid))
    decreases |steps|
  {
    if steps != [] {
      var t := Apply(s, steps[0]);
      AckStep(s, steps[0], sid);
      AckRun(t, steps[1..], sid);
      WrittenBoth(s, t, Run(t, steps[1..]), sid, if steps[0] == WriteAck(sid, true) then 1 else 0,
                  AckWrites(steps[1..], sid));
    }
  }

  /** After `n` ack writes, the ack that was behind `k` others is that much further up, or has been written. */
  predicate AckServedIn(s: State, t: State, sid: SessionId, k: nat, n: nat) {
    && HasAcks(s, sid) && HasAcks(t, sid) && k < |s.acks[sid].queue| && |t.h.handed[sid]| == |s.h.handed[sid]| + n
    && var ack := s.acks[sid].queue[k];
       if n <= k then k - n < |t.acks[sid].queue| && t.acks[sid].queue[k - n] == ack
       else t.h.handed[sid][|s.h.handed[sid]| + k] == ack
  }

  lemma WrittenAt(s: State, t: State, sid: SessionId, k: nat, n: nat)
    requires Written(s, t, sid, n) && k < |s.acks[sid].queue|
    ensures AckServedIn(s, t, sid, k, n)
  {
    var i := |s.h.handed[sid]| + k;
    assert AckLine(s, sid)[i] == s.acks[sid].queue[k];
    assert AckLine(t, sid)[i] == AckLine(s, sid)[i];
  }

  /**
   While the session's send task runs, the ack behind `k` others reaches the socket by the session's
   (k + 1)-th ack write and not before, as the next after those before it.
   */
  lemma AckServes(s: State, steps: seq<Step>, sid: SessionId, k: nat)
    requires HasAcks(s, sid) && s.acks[sid].open && CanRun(s, steps) && StaysOpen(steps, sid)
    requires k < |s.acks[sid].queue|
    ensures AckServedIn(s, Run(s, steps), sid, k, AckWrites(steps, sid))
  {
    AckRun(s, steps, sid);
    WrittenAt(s, Run(s, steps), sid, k, AckWrites(steps, sid));
  }

  // ---- From the oneshot to the queue ----

  /** The answer to `id` still stands in its oneshot. */
  predicate ShotStays(s: State, t: State, id: MsgId) {
    && id in t.shots && id in s.shots && t.shots[id] == s.shots[id]
    && id in t.reqs && id in s.reqs && t.reqs[id] == s.reqs[id]
  }

  lemma SessionShots(s: State, step: Step, id: MsgId)
    requires InRange(s) && Enabled(s, step) && id in s.shots && (OfSession(step) || step.ExternalLeave?)
    ensures ShotStays(s, Apply(s, step), id)
  {
    if step.SendEnds? || step.WriteChat? || step.WriteAck? {
      WriteShots(s, step, id);
    }
  }

  lemma WriteShots(s: State, step: Step, id: MsgId)
    requires InRange(s) && Enabled(s, step) && id in s.shots && (step.SendEnds? || step.WriteChat? || step.WriteAck?)
    ensures ShotStays(s, Apply(s, step), id)
  {
  }

  lemma DispatchShots(s: State, m: RouterMsg, at: int, id: MsgId)
    requires RouterMsgInRange(m, |s.sessions|) && id in s.shots && id in s.reqs
    requires forall r :: r in s.router.rooms ==> s.router.rooms[r] < |s.actors|
    requires m.SendRoomMessage? ==> m.id != id
    ensures ShotStays(s, Dispatch(s, m, at), id)
  {
  }

  lemma RouterShots(s: State, step: Step, id: MsgId)
    requires InRange(s) && PlaceInv(s) && Enabled(s, step) && id in s.shots && (step.RouterStep? || step.RouterDeliver?)
    ensures ShotStays(s, Apply(s, step), id)
  {
    if step.RouterStep? {
      if s.inbox[0].SendRoomMessage? {
        HeadIsAtRouter(s);
      }
      DispatchShots(PopInbox(s), s.inbox[0], step.at, id);
    } else {
      DeliverFrame(s);
    }
  }

  lemma RoomShots(s: State, step: Step, id: MsgId)
    requires InRange(s) && Enabled(s, step) && id in s.shots
    requires step.RoomStep? || step.RoomCast? || step.RoomTick? || step.RoomSweep? || step.RoomStops?
    ensures ShotStays(s, Apply(s, step), id)
  {
    if step.RoomCast? {
      assert ActorInRange(s.actors[step.actor], |s.sessions|);
      CastFrame(s, step.actor, step.user);
    }
  }

  lemma TaskShots(s: State, step: Step, id: MsgId)
    requires InRange(s) && PlaceInv(s) && Enabled(s, step) && id in s.shots && OfTask(step) && step != AckPush(id)
    ensures ShotStays(s, Apply(s, step), id)
  {
    assert id !in s.tasks;
    if step.ServerExecutes? {
      ExecuteFrame(s, step.id, step.ok);
    } else if step.TransportFails? {
      RetryShots(Abandon(s, step.id), step.id, id);
    }
  }

  lemma RetryShots(s: State, j: MsgId, id: MsgId)
    requires j in s.tasks && id in s.shots && id in s.reqs && id != j
    ensures ShotStays(s, Retry(s, j), id)
  {
  }

  lemma ShotStep(s: State, step: Step, id: MsgId)
    requires Inv(s) && Enabled(s, step) && id in s.shots && step != AckPush(id)
    ensures ShotStays(s, Apply(s, step), id)
  {
    if
    case OfSession(step) || step.ExternalLeave? => SessionShots(s, step, id);
    case step.RouterStep? || step.RouterDeliver? => RouterShots(s, step, id);
    case step.RoomStep? || step.RoomCast? || step.RoomTick? || step.RoomSweep? || step.RoomStops? =>
      RoomShots(s, step, id);
    case OfTask(step) => TaskShots(s, step, id);
  }

  lemma {:induction false} ShotRun(s: State, steps: seq<Step>, id: MsgId)
    requires Inv(s) && CanRun(s, steps) && id in s.shots && AckPush(id) !in steps
    ensures ShotStays(s, Run(s, steps), id)
    decreases |steps|
  {
    if steps != [] {
      assert steps[0] in steps && forall x :: x in steps[1..] ==> x in steps;
      ShotStep(s, steps[0], id);
      InvStep(s, steps[0]);
      ShotRun(Apply(s, steps[0]), steps[1..], id);
    }
  }

  /** The ack of `id`, once its task has come to `status`. */
  function AckOf(s: State, id: MsgId): Ack
    requires id in s.reqs && id in s.shots
  {
    Ack(s.reqs[id].client, id, s.shots[id])
  }

  lemma PushedLast(s: State, id: MsgId)
    requires id in s.shots && id in s.reqs && s.reqs[id].origin < |s.acks| && s.acks[s.reqs[id].origin].open
    ensures var t, sid := DoAckPush(s, id), s.reqs[id].origin;
            && |t.acks| == |s.acks| && t.acks[sid].open && t.h.handed == s.h.handed
            && t.acks[sid].queue == s.acks[sid].queue + [AckOf(s, id)]
  {
  }

  /** The session's ack queue has a slot, or its receiver is gone. */
  predicate MayPush(s: State, id: MsgId) {
    && id in s.reqs && s.reqs[id].origin < |s.acks|
    && (var c := s.acks[s.reqs[id].origin]; !c.open || |c.queue| < 100)
  }

  lemma PushEnabledIff(s: State, id: MsgId)
    requires InRange(s) && id in s.shots
    ensures Enabled(s, AckPush(id)) <==> MayPush(s, id)
  {
  }

  /** A resolved oneshot waits unchanged until its ack task runs, which it can do exactly when there is a slot. */
  lemma AnswerWaits(s: State, steps: seq<Step>, id: MsgId)
    requires Reachable(s) && id in s.shots && CanRun(s, steps) && AckPush(id) !in steps
    ensures var t := Run(s, steps);
            InRange(t) && ShotStays(s, t, id) && (Enabled(t, AckPush(id)) <==> MayPush(t, id))
  {
    ReachableInv(s);
    RunKeepsInv(s, steps);
    ShotRun(s, steps, id);
    PushEnabledIff(Run(s, steps), id);
  }

  /**
   Once the ack task has run, the ack reaches the socket right after everything that was handed over or
   queued before it, by as many ack writes as were queued and one more, while the send task runs.
   */
  lemma AnswerReaches(s: State, steps: seq<Step>, id: MsgId)
    requires InRange(s) && Enabled(s, AckPush(id)) && s.acks[s.reqs[id].origin].open
    requires CanRun(DoAckPush(s, id), steps) && StaysOpen(steps, s.reqs[id].origin)
    requires AckWrites(steps, s.reqs[id].origin) > |s.acks[s.reqs[id].origin].queue|
    ensures var t, sid := Run(DoAckPush(s, id), steps), s.reqs[id].origin;
            HasAcks(t, sid) && AckLine(s, sid) + [AckOf(s, id)] <= t.h.handed[sid]
  {
    var p, sid := DoAckPush(s, id), s.reqs[id].origin;
    PushedLast(s, id);
    AckRun(p, steps, sid);
    WrittenFront(p, Run(p, steps), sid, AckWrites(steps, sid));
    assert AckLine(p, sid) == AckLine(s, sid) + [AckOf(s, id)];
  }

  lemma WrittenFront(s: State, t: State, sid: SessionId, n: nat)
    requires Written(s, t, sid, n) && n >= |s.acks[sid].queue|
    ensures AckLine(s, sid) <= t.h.handed[sid]
  {
    assert AckLine(t, sid)[..|t.h.handed[sid]|] == t.h.handed[sid];
  }
}
