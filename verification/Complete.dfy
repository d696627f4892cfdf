/** Nothing is skipped: a member whose channel keeps up gets every message of its room. */
module Complete {
  import opened Types
  import opened Channels
  import opened Registry
  import opened Protocol
  import opened Invariants
  import opened OrderProof
  import opened StepProof
  import opened Theorems
  import opened DirectOrder
  import opened Membership

  /** The room's messages that the broadcast has already offered to `u`, or would have while `u` was a member. */
  function Due(x: Actor, log: seq<MsgId>, u: UserId): seq<MsgId> {
    if x.activity.Casting? && u in x.activity.pending && log != [] then log[..|log| - 1] else log
  }

  /** Room `a` holds channel `c` for `u`. */
  predicate Listed(s: State, a: ActorId, u: UserId, c: SessionId) {
    && a < |s.actors| && a < |s.h.logs| && c < |s.chans| && c < |s.h.entered|
    && u in s.actors[a].members && s.actors[a].members[u] == c
  }

  function DueIn(s: State, a: ActorId, u: UserId): seq<MsgId>
    requires a < |s.actors| && a < |s.h.logs|
  {
    Due(s.actors[a], s.h.logs[a], u)
  }

  function HeardIn(s: State, a: ActorId, c: SessionId): seq<MsgId>
    requires a < |s.actors| && c < |s.h.entered|
  {
    RoomIds(s.h.entered[c], s.actors[a].room)
  }

  /** Between `s` and `t` channel `c` heard exactly what became due. */
  ghost predicate Caught(s: State, t: State, a: ActorId, u: UserId, c: SessionId) {
    && Listed(s, a, u, c) && Listed(t, a, u, c)
    && DueIn(s, a, u) <= DueIn(t, a, u)
    && HeardIn(t, a, c) == HeardIn(s, a, c) + DueIn(t, a, u)[|DueIn(s, a, u)|..]
  }

  lemma CaughtBoth(s: State, t: State, x: State, a: ActorId, u: UserId, c: SessionId)
    requires Caught(s, t, a, u, c) && Caught(t, x, a, u, c)
    ensures Caught(s, x, a, u, c)
  {
    var d, e, f := DueIn(s, a, u), DueIn(t, a, u), DueIn(x, a, u);
    assert f[|d|..] == e[|d|..] + f[|e|..];
  }

  lemma NothingNew(s: State, t: State, a: ActorId, u: UserId, c: SessionId)
    requires Listed(s, a, u, c) && Listed(t, a, u, c)
    requires DueIn(t, a, u) == DueIn(s, a, u) && HeardIn(t, a, c) == HeardIn(s, a, c)
    ensures Caught(s, t, a, u, c)
  {
    var d := DueIn(s, a, u);
    assert d[|d|..] == [] && HeardIn(s, a, c) + [] == HeardIn(s, a, c);
  }

  // ---- Steps outside the room ----

  /** A push of anything but a message of this room leaves what was heard of it. */
  lemma PushHeard(s: State, d: SessionId, m: ChatMessage, c: SessionId, room: RoomId)
    requires c < |s.h.entered| && d < |s.chans| && d < |s.h.entered| && !(m.RoomMessage? && m.room == room && c == d)
    ensures var t := Push(s, d, m);
            |t.h.entered| == |s.h.entered| && RoomIds(t.h.entered[c], room) == RoomIds(s.h.entered[c], room)
  {
    RoomIdsAppend(s.h.entered[d], m, room);
    assert RoomIds(s.h.entered[d], room) + [] == RoomIds(s.h.entered[d], room);
  }

  lemma DeliverHeard(s: State, c: SessionId, room: RoomId)
    requires InRange(s) && s.hand.Some? && s.hand.value.msg.DirectMessage? && c < |s.h.entered|
    ensures var t := DoDeliver(s);
            |t.h.entered| == |s.h.entered| && RoomIds(t.h.entered[c], room) == RoomIds(s.h.entered[c], room)
  {
    var d := s.hand.value;
    if d.to in s.router.users {
      PushHeard(s, s.router.users[d.to], d.msg, c, room);
    }
  }

  lemma HandIsDirect(s: State)
    requires Inv(s) && s.hand.Some?
    ensures s.hand.value.msg.DirectMessage?
  {
  }

  lemma FramesHeard(s: State, step: Step, c: SessionId)
    requires InRange(s) && Enabled(s, step) && (step.Connect? || step.FrameDirect? || step.FrameRoom?)
    requires c < |s.h.entered|
    ensures c < |Apply(s, step).h.entered| && Apply(s, step).h.entered[c] == s.h.entered[c]
  {
  }

  lemma CastHeard(s: State, b: ActorId, v: UserId, c: SessionId, room: RoomId)
    requires b < |s.actors| && s.actors[b].activity.Casting? && v in s.actors[b].members && c < |s.h.entered|
    requires s.actors[b].members[v] < |s.chans| && s.actors[b].members[v] < |s.h.entered|
    requires var m := s.actors[b].activity.msg; !(m.RoomMessage? && m.room == room && s.actors[b].members[v] == c)
    ensures var t := DoCast(s, b, v);
            |t.h.entered| == |s.h.entered| && RoomIds(t.h.entered[c], room) == RoomIds(s.h.entered[c], room)
  {
    PushHeard(s, s.actors[b].members[v], s.actors[b].activity.msg, c, room);
  }

  lemma OtherCastHeard(s: State, b: ActorId, v: UserId, a: ActorId, c: SessionId)
    requires Inv(s) && Enabled(s, RoomCast(b, v)) && a < |s.actors| && a != b && c < |s.h.entered|
    ensures var t := Apply(s, RoomCast(b, v));
            |t.h.entered| == |s.h.entered|
            && RoomIds(t.h.entered[c], s.actors[a].room) == RoomIds(s.h.entered[c], s.actors[a].room)
  {
    assert ActorInRange(s.actors[b], |s.sessions|) && ActorOk(s.sessions, s.reqs, s.actors[b]);
    OneRoomPerActor(s.router.rooms, s.actors, a, b);
    CastHeard(s, b, v, c, s.actors[a].room);
  }

  lemma OneRoomPerActor(rooms: map<RoomId, ActorId>, actors: seq<Actor>, a: ActorId, b: ActorId)
    requires RoomsInv(rooms, actors) && a < |actors| && b < |actors| && a != b
    ensures actors[a].room != actors[b].room
  {
  }

  lemma OutsideHeard(s: State, step: Step, a: ActorId, c: SessionId)
    requires Inv(s) && Enabled(s, step) && a < |s.actors| && !OfRoom(step, a) && c < |s.h.entered|
    ensures var t := Apply(s, step);
            && c < |t.h.entered|
            && RoomIds(t.h.entered[c], s.actors[a].room) == RoomIds(s.h.entered[c], s.actors[a].room)
  {
    if !Moves(step) {
      QuietSame(s, step);
    } else {
      MoveHeard(s, step, a, c);
    }
  }

  lemma MoveHeard(s: State, step: Step, a: ActorId, c: SessionId)
    requires Inv(s) && Enabled(s, step) && a < |s.actors| && !OfRoom(step, a) && c < |s.h.entered| && Moves(step)
    ensures var t := Apply(s, step);
            && c < |t.h.entered|
            && RoomIds(t.h.entered[c], s.actors[a].room) == RoomIds(s.h.entered[c], s.actors[a].room)
  {
    if
    case step.Connect? || step.FrameDirect? || step.FrameRoom? => FramesHeard(s, step, c);
    case step.RouterDeliver? =>
      HandIsDirect(s);
      DeliverHeard(s, c, s.actors[a].room);
    case step.RoomCast? => OtherCastHeard(s, step.actor, step.user, a, c);
  }

  lemma SameRoomCaught(s: State, t: State, a: ActorId, u: UserId, c: SessionId)
    requires Listed(s, a, u, c) && SameRoom(s, t, a) && StillClosed(s, t) && c < |t.h.entered|
    requires RoomIds(t.h.entered[c], s.actors[a].room) == RoomIds(s.h.entered[c], s.actors[a].room)
    ensures Caught(s, t, a, u, c)
  {
    NothingNew(s, t, a, u, c);
  }

  // ---- Steps of the room ----

  /** The room offers its message to `u`, and the channel takes it. */
  lemma OwnCastCaught(s: State, a: ActorId, u: UserId, c: SessionId)
    requires Listed(s, a, u, c) && HasRoom(s.chans[c])
    requires s.actors[a].activity.Casting? && u in s.actors[a].activity.pending
    requires var x, log := s.actors[a], s.h.logs[a];
             && x.activity.msg.RoomMessage? && x.activity.msg.room == x.room
             && log != [] && log[|log| - 1] == x.activity.msg.id
    ensures Caught(s, DoCast(s, a, u), a, u, c)
  {
    var log, m := s.h.logs[a], s.actors[a].activity.msg;
    RoomIdsAppend(s.h.entered[c], m, s.actors[a].room);
    assert log[|log| - 1..] == [m.id];
  }

  lemma OtherMemberCaught(s: State, a: ActorId, v: UserId, u: UserId, c: SessionId)
    requires Listed(s, a, u, c) && s.actors[a].activity.Casting? && v in s.actors[a].members && v != u
    requires s.actors[a].members[v] != c
    requires s.actors[a].members[v] < |s.chans| && s.actors[a].members[v] < |s.h.entered|
    ensures Caught(s, DoCast(s, a, v), a, u, c)
  {
    CastHeard(s, a, v, c, s.actors[a].room);
    NothingNew(s, DoCast(s, a, v), a, u, c);
  }

  /** Taking up mail makes nothing due: a new broadcast has everybody pending. */
  lemma SendDue(s: State, a: ActorId, x: Actor, m: RoomMsg, at: int, u: UserId)
    requires a < |s.actors| && a < |s.h.logs| && m.SendMessage? && u in x.members
    ensures var t := HandleSend(s, a, x, m.id, m.from, m.content, at);
            && |t.actors| == |s.actors| && |t.h.logs| == |s.h.logs| && t.chans == s.chans
            && t.actors[a].members == x.members && t.actors[a].room == x.room
            && DueIn(t, a, u) == s.h.logs[a]
  {
    assert (s.h.logs[a] + [m.id])[..|s.h.logs[a]|] == s.h.logs[a];
  }

  lemma MailDue(s: State, a: ActorId, at: int, u: UserId, c: SessionId)
    requires Listed(s, a, u, c) && AtRest(s.actors[a]) && s.actors[a].mailbox != []
    requires s.actors[a].mailbox[0] != RemoveMember(u)
    ensures var t := DoRoomStep(s, a, at);
            && a < |t.actors| && a < |t.h.logs| && t.chans == s.chans && t.actors[a].room == s.actors[a].room
            && DueIn(t, a, u) == DueIn(s, a, u)
  {
    var m := s.actors[a].mailbox[0];
    if m.SendMessage? {
      SendDue(s, a, PopMail(s.actors[a]), m, at, u);
    }
  }

  lemma MailCaught(s: State, a: ActorId, at: int, u: UserId, c: SessionId)
    requires Listed(s, a, u, c) && AtRest(s.actors[a]) && s.actors[a].mailbox != []
    requires s.actors[a].mailbox[0] != RemoveMember(u)
    ensures Caught(s, DoRoomStep(s, a, at), a, u, c)
  {
    MailDue(s, a, at, u, c);
    MailSame(s, a, at);
    MailAndEntry(s, a, at, u);
    NothingNew(s, DoRoomStep(s, a, at), a, u, c);
  }

  lemma SweepCaught(s: State, a: ActorId, v: UserId, u: UserId, c: SessionId)
    requires Listed(s, a, u, c) && s.actors[a].activity.Sweeping? && v in s.actors[a].members
    requires s.actors[a].members[v] < |s.chans| && !(v == u && Stale(s, a, u))
    ensures Caught(s, DoSweep(s, a, v), a, u, c)
  {
    SweepAndEntry(s, a, v, u);
    NothingNew(s, DoSweep(s, a, v), a, u, c);
  }

  lemma TickCaught(s: State, a: ActorId, u: UserId, c: SessionId)
    requires Listed(s, a, u, c) && AtRest(s.actors[a])
    ensures Caught(s, DoTick(s, a), a, u, c)
  {
    NothingNew(s, DoTick(s, a), a, u, c);
  }

  lemma CastCaught(s: State, a: ActorId, v: UserId, u: UserId, c: SessionId)
    requires Inv(s) && Listed(s, a, u, c) && (v == u ==> HasRoom(s.chans[c]))
    requires s.actors[a].activity.Casting? && v in s.actors[a].activity.pending && v in s.actors[a].members
    requires s.actors[a].members[v] < |s.chans| && s.actors[a].members[v] < |s.h.entered|
    ensures Caught(s, DoCast(s, a, v), a, u, c)
  {
    var x := s.actors[a];
    assert ActorOk(s.sessions, s.reqs, x) && CastInv(x, s.h.logs[a], s.h.entered);
    if v == u {
      OwnCastCaught(s, a, u, c);
    } else {
      ChannelsDistinct(s.sessions, s.reqs, x);
      OtherMemberCaught(s, a, v, u, c);
    }
  }

  lemma CastStepCaught(s: State, step: Step, a: ActorId, u: UserId, c: SessionId)
    requires Inv(s) && Listed(s, a, u, c) && Enabled(s, step) && step.RoomCast? && step.actor == a
    requires step.user == u ==> HasRoom(s.chans[c])
    ensures Caught(s, Apply(s, step), a, u, c)
  {
    assert ActorInRange(s.actors[a], |s.sessions|);
    CastCaught(s, a, step.user, u, c);
  }

  lemma InsideCaught(s: State, step: Step, a: ActorId, u: UserId, c: SessionId)
    requires InRange(s) && RoomsInv(s.router.rooms, s.actors) && Listed(s, a, u, c)
    requires Enabled(s, step) && OfRoom(step, a) && !step.RoomCast? && !Removes(s, step, a, u)
    ensures Caught(s, Apply(s, step), a, u, c)
  {
    assert ActorInRange(s.actors[a], |s.sessions|);
    if
    case step.RoomStep? => MailCaught(s, a, step.at, u, c);
    case step.RoomTick? => TickCaught(s, a, u, c);
    case step.RoomSweep? => SweepCaught(s, a, step.user, u, c);
    case step.RoomStops? => NeverStops(s.router.rooms, s.actors, a);
  }

  lemma OutsideCaught(s: State, step: Step, a: ActorId, u: UserId, c: SessionId)
    requires Inv(s) && Listed(s, a, u, c) && Enabled(s, step) && !OfRoom(step, a)
    ensures Caught(s, Apply(s, step), a, u, c)
  {
    OutsideKeepsRoom(s, step, a);
    OutsideHeard(s, step, a, c);
    SameRoomCaught(s, Apply(s, step), a, u, c);
  }

  lemma StepCaught(s: State, step: Step, a: ActorId, u: UserId, c: SessionId)
    requires Inv(s) && Listed(s, a, u, c) && Enabled(s, step) && !Removes(s, step, a, u)
    requires step == RoomCast(a, u) ==> HasRoom(s.chans[c])
    ensures Caught(s, Apply(s, step), a, u, c)
  {
    if !OfRoom(step, a) {
      OutsideCaught(s, step, a, u, c);
    } else if step.RoomCast? {
      CastStepCaught(s, step, a, u, c);
    } else {
      InsideCaught(s, step, a, u, c);
    }
  }

  // ---- Runs ----

  /** Every message that room `a` offers to `u` in this run finds space in channel `c`. */
  ghost predicate KeepsUp(s: State, steps: seq<Step>, a: ActorId, u: UserId, c: SessionId)
    requires CanRun(s, steps)
    decreases |steps|
  {
    steps != [] ==>
      && (steps[0] == RoomCast(a, u) ==> c < |s.chans| && HasRoom(s.chans[c]))
      && KeepsUp(Apply(s, steps[0]), steps[1..], a, u, c)
  }

  lemma {:induction false} CaughtRun(s: State, steps: seq<Step>, a: ActorId, u: UserId, c: SessionId)
    requires Inv(s) && Listed(s, a, u, c) && CanRun(s, steps)
    requires NeverRemoved(s, steps, a, u) && KeepsUp(s, steps, a, u, c)
    ensures Caught(s, Run(s, steps), a, u, c)
    decreases |steps|
  {
    if steps == [] {
      NothingNew(s, s, a, u, c);
    } else {
      var t := Apply(s, steps[0]);
      StepCaught(s, steps[0], a, u, c);
      InvStep(s, steps[0]);
      CaughtRun(t, steps[1..], a, u, c);
      CaughtBoth(s, t, Run(s, steps), a, u, c);
    }
  }

  /**
   No gaps: through any run in which a member is not removed and its channel takes what the room offers,
   the room's messages that enter the channel are exactly those the room's broadcasts reached it with
   meanwhile: the part of the log between the two moments.
   */
  lemma NoGaps(s: State, steps: seq<Step>, a: ActorId, u: UserId)
    requires Reachable(s) && CanRun(s, steps) && a < |s.actors| && u in s.actors[a].members
    requires NeverRemoved(s, steps, a, u) && KeepsUp(s, steps, a, u, s.actors[a].members[u])
    ensures Caught(s, Run(s, steps), a, u, s.actors[a].members[u])
  {
    ReachableInv(s);
    assert ActorInRange(s.actors[a], |s.sessions|);
    CaughtRun(s, steps, a, u, s.actors[a].members[u]);
  }
}
