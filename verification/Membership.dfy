/** Room membership over runs: whose channels a room holds, and how stale ones leave. */
module Membership {
  import opened Types
  import opened Registry
  import opened Protocol
  import opened Invariants
  import opened OrderProof
  import opened Theorems

  /** Each stored channel belongs to a session of that user which the router accepted; no two members share one. */
  lemma MembersOwnTheirChannels(s: State, a: ActorId)
    requires Reachable(s) && a < |s.actors|
    ensures forall u :: u in s.actors[a].members ==> Was(s.sessions, s.actors[a].members[u], u)
    ensures forall u, v :: u in s.actors[a].members && v in s.actors[a].members && u != v ==>
              s.actors[a].members[u] != s.actors[a].members[v]
  {
    ReachableInv(s);
    assert ActorOk(s.sessions, s.reqs, s.actors[a]);
    ChannelsDistinct(s.sessions, s.reqs, s.actors[a]);
  }

  // ---- What steps outside a room do to it ----

  predicate OfRoom(step: Step, a: ActorId) {
    (step.RoomStep? || step.RoomCast? || step.RoomTick? || step.RoomSweep? || step.RoomStops?) && step.actor == a
  }

  /** The room has the same members and is in the middle of the same thing; it may have got more mail. */
  ghost predicate SameRoom(s: State, t: State, a: ActorId) {
    && a < |s.actors| <= |t.actors| && t.actors[a].room == s.actors[a].room
    && t.actors[a].members == s.actors[a].members && t.actors[a].activity == s.actors[a].activity
    && s.actors[a].mailbox <= t.actors[a].mailbox
    && a < |s.h.logs| <= |t.h.logs| && t.h.logs[a] == s.h.logs[a]
  }

  /** A closed channel stays closed. */
  ghost predicate StillClosed(s: State, t: State) {
    |s.chans| <= |t.chans| && forall c :: 0 <= c < |s.chans| && !s.chans[c].open ==> !t.chans[c].open
  }

  lemma FramesKeepRooms(s: State, step: Step, a: ActorId)
    requires InRange(s) && Enabled(s, step) && a < |s.actors|
    requires || step.Connect? || step.Start? || step.FrameDirect? || step.FrameRoom? || step.FrameJoin?
             || step.ReceiveEnds? || step.SendUnregister? || step.ExternalLeave?
    ensures SameRoom(s, Apply(s, step), a) && StillClosed(s, Apply(s, step))
  {
  }

  lemma ClosingKeepsRooms(s: State, step: Step, a: ActorId)
    requires InRange(s) && Enabled(s, step) && a < |s.actors| && (step.SendEnds? || step.WriteAck?)
    ensures SameRoom(s, Apply(s, step), a) && StillClosed(s, Apply(s, step))
  {
  }

  lemma ShowingKeepsRooms(s: State, step: Step, a: ActorId)
    requires InRange(s) && Enabled(s, step) && a < |s.actors| && step.WriteChat?
    ensures SameRoom(s, Apply(s, step), a) && StillClosed(s, Apply(s, step))
  {
  }

  lemma DeliveryKeepsRooms(s: State, step: Step, a: ActorId)
    requires InRange(s) && Enabled(s, step) && a < |s.actors| && step.RouterDeliver?
    ensures SameRoom(s, Apply(s, step), a) && StillClosed(s, Apply(s, step))
  {
  }

  lemma CallsKeepRooms(s: State, step: Step, a: ActorId)
    requires InRange(s) && Enabled(s, step) && a < |s.actors|
    requires step.TaskSend? || step.ServerExecutes?
    ensures SameRoom(s, Apply(s, step), a) && StillClosed(s, Apply(s, step))
  {
  }

  lemma RetriesKeepRooms(s: State, step: Step, a: ActorId)
    requires InRange(s) && Enabled(s, step) && a < |s.actors| && step.TransportFails?
    ensures SameRoom(s, Apply(s, step), a) && StillClosed(s, Apply(s, step))
  {
  }

  lemma AcksKeepRooms(s: State, step: Step, a: ActorId)
    requires InRange(s) && Enabled(s, step) && a < |s.actors|
    requires step.OrphanCommits? || step.TaskResolves? || step.AckPush?
    ensures SameRoom(s, Apply(s, step), a) && StillClosed(s, Apply(s, step))
  {
  }

  lemma PushKeepsRoom(actors: seq<Actor>, b: ActorId, m: RoomMsg, a: ActorId)
    requires a < |actors| && b < |actors|
    ensures |PushRoom(actors, b, m)| == |actors|
    ensures var x := PushRoom(actors, b, m)[a];
            && x.room == actors[a].room && x.members == actors[a].members && x.activity == actors[a].activity
            && actors[a].mailbox <= x.mailbox
  {
  }

  lemma PushedRoomStays(s: State, b: ActorId, m: RoomMsg, a: ActorId)
    requires a < |s.actors| && b < |s.actors| && a < |s.h.logs|
    ensures SameRoom(s, s.(actors := PushRoom(s.actors, b, m)), a)
  {
    PushKeepsRoom(s.actors, b, m, a);
  }

  lemma OpenedRoomStays(s: State, room: RoomId, a: ActorId)
    requires a < |s.actors| && a < |s.h.logs|
    ensures SameRoom(s, OpenRoom(s, room), a) && OpenRoom(s, room).chans == s.chans
  {
  }

  lemma RouterKeepsRooms(s: State, m: RouterMsg, at: int, a: ActorId)
    requires RouterMsgInRange(m, |s.sessions|) && a < |s.actors| && a < |s.h.logs|
    requires forall r :: r in s.router.rooms ==> s.router.rooms[r] < |s.actors|
    ensures SameRoom(s, Dispatch(s, m, at), a) && Dispatch(s, m, at).chans == s.chans
  {
    match m
    case JoinRoom(u, room, c) =>
      var t := OpenRoom(s, room);
      OpenedRoomStays(s, room, a);
      PushedRoomStays(t, t.router.rooms[room], AddMember(u, c), a);
    case LeaveRoom(u, room) =>
      if room in s.router.rooms {
        PushedRoomStays(s, s.router.rooms[room], RemoveMember(u), a);
      }
    case SendRoomMessage(id, room, from, content) =>
      if room in s.router.rooms {
        PushedRoomStays(s, s.router.rooms[room], SendMessage(id, from, content), a);
      }
    case _ =>
  }

  /** Whatever one room does, it replaces its own entry in the list of actors and no other. */
  ghost predicate OnlyRoom(s: State, t: State, b: ActorId) {
    && b < |s.actors| == |t.actors| && |s.h.logs| == |t.h.logs|
    && (forall a :: 0 <= a < |s.actors| && a != b ==> t.actors[a] == s.actors[a])
    && (forall a :: 0 <= a < |s.h.logs| && a != b ==> t.h.logs[a] == s.h.logs[a])
  }

  lemma MailTouchesOneRoom(s: State, b: ActorId, at: int)
    requires b < |s.actors| && b < |s.h.logs| && s.actors[b].mailbox != []
    ensures OnlyRoom(s, DoRoomStep(s, b, at), b)
  {
  }

  lemma CastTouchesOneRoom(s: State, b: ActorId, u: UserId)
    requires b < |s.actors| && s.actors[b].activity.Casting? && u in s.actors[b].members
    requires s.actors[b].members[u] < |s.chans| && s.actors[b].members[u] < |s.h.entered|
    ensures OnlyRoom(s, DoCast(s, b, u), b)
  {
  }

  lemma OtherRoomsKeep(s: State, step: Step, a: ActorId)
    requires InRange(s) && Enabled(s, step) && a < |s.actors| && !OfRoom(step, a)
    requires step.RoomStep? || step.RoomCast? || step.RoomTick? || step.RoomSweep? || step.RoomStops?
    ensures SameRoom(s, Apply(s, step), a)
  {
    assert ActorInRange(s.actors[step.actor], |s.sessions|);
    if step.RoomStep? {
      MailTouchesOneRoom(s, step.actor, step.at);
    } else if step.RoomCast? {
      CastTouchesOneRoom(s, step.actor, step.user);
    }
  }

  lemma RoomsKeepClosed(s: State, step: Step)
    requires InRange(s) && Enabled(s, step)
    requires step.RoomStep? || step.RoomCast? || step.RoomTick? || step.RoomSweep? || step.RoomStops?
    ensures StillClosed(s, Apply(s, step))
  {
  }

  lemma OutsideKeepsRoom(s: State, step: Step, a: ActorId)
    requires InRange(s) && Enabled(s, step) && a < |s.actors|
    ensures StillClosed(s, Apply(s, step))
    ensures !OfRoom(step, a) ==> SameRoom(s, Apply(s, step), a)
  {
    if
    case step.RouterStep? => RouterKeepsRooms(PopInbox(s), s.inbox[0], step.at, a);
    case step.Connect? || step.Start? || step.FrameDirect? || step.FrameRoom? || step.FrameJoin? || step.ReceiveEnds?
      || step.SendUnregister? || step.ExternalLeave? => FramesKeepRooms(s, step, a);
    case step.SendEnds? || step.WriteAck? => ClosingKeepsRooms(s, step, a);
    case step.WriteChat? => ShowingKeepsRooms(s, step, a);
    case step.RouterDeliver? => DeliveryKeepsRooms(s, step, a);
    case step.TaskSend? || step.ServerExecutes? => CallsKeepRooms(s, step, a);
    case step.TransportFails? => RetriesKeepRooms(s, step, a);
    case step.OrphanCommits? || step.TaskResolves? || step.AckPush? => AcksKeepRooms(s, step, a);
    case step.RoomStep? || step.RoomCast? || step.RoomTick? || step.RoomSweep? || step.RoomStops? =>
      RoomsKeepClosed(s, step);
      if !OfRoom(step, a) {
        OtherRoomsKeep(s, step, a);
      }
  }

  // ---- Entries are never overwritten ----

  /** Room `a` takes up this membership message next. */
  predicate TakesUp(s: State, step: Step, a: ActorId, m: RoomMsg) {
    step.RoomStep? && step.actor == a && a < |s.actors| && s.actors[a].mailbox != [] && s.actors[a].mailbox[0] == m
  }

  /** Room `a` holds a channel for `u` whose receiver is gone. */
  predicate Stale(s: State, a: ActorId, u: UserId) {
    && a < |s.actors| && u in s.actors[a].members
    && s.actors[a].members[u] < |s.chans| && !s.chans[s.actors[a].members[u]].open
  }

  /** The only two ways an entry leaves a room: swept while stale, or removed by name. */
  predicate Removes(s: State, step: Step, a: ActorId, u: UserId) {
    (step == RoomSweep(a, u) && Stale(s, a, u)) || TakesUp(s, step, a, RemoveMember(u))
  }

  ghost predicate SameEntry(s: State, t: State, a: ActorId, u: UserId) {
    && a < |s.actors| && a < |t.actors|
    && u in s.actors[a].members && u in t.actors[a].members && t.actors[a].members[u] == s.actors[a].members[u]
  }

  lemma MailAndEntry(s: State, a: ActorId, at: int, u: UserId)
    requires a < |s.actors| && a < |s.h.logs| && s.actors[a].mailbox != [] && u in s.actors[a].members
    ensures SameEntry(s, DoRoomStep(s, a, at), a, u) <==> s.actors[a].mailbox[0] != RemoveMember(u)
  {
  }

  lemma CastKeepsEntry(s: State, a: ActorId, v: UserId, u: UserId)
    requires a < |s.actors| && s.actors[a].activity.Casting? && v in s.actors[a].members && u in s.actors[a].members
    requires s.actors[a].members[v] < |s.chans| && s.actors[a].members[v] < |s.h.entered|
    ensures SameEntry(s, DoCast(s, a, v), a, u)
  {
  }

  lemma SweepAndEntry(s: State, a: ActorId, v: UserId, u: UserId)
    requires a < |s.actors| && s.actors[a].activity.Sweeping? && v in s.actors[a].members && u in s.actors[a].members
    requires s.actors[a].members[v] < |s.chans|
    ensures SameEntry(s, DoSweep(s, a, v), a, u) <==> !(v == u && Stale(s, a, u))
  {
  }

  lemma EntryStaysInside(s: State, step: Step, a: ActorId, u: UserId)
    requires InRange(s) && Enabled(s, step) && OfRoom(step, a) && u in s.actors[a].members
    ensures SameEntry(s, Apply(s, step), a, u) <==> !Removes(s, step, a, u)
  {
    assert ActorInRange(s.actors[a], |s.sessions|);
    if step.RoomStep? {
      MailAndEntry(s, a, step.at, u);
    } else if step.RoomCast? {
      CastKeepsEntry(s, a, step.user, u);
    } else if step.RoomSweep? {
      SweepAndEntry(s, a, step.user, u);
    }
  }

  /** An entry keeps its channel through a step exactly when the step does not remove it. */
  lemma EntryStaysIff(s: State, step: Step, a: ActorId, u: UserId)
    requires InRange(s) && Enabled(s, step) && a < |s.actors| && u in s.actors[a].members
    ensures SameEntry(s, Apply(s, step), a, u) <==> !Removes(s, step, a, u)
  {
    if OfRoom(step, a) {
      EntryStaysInside(s, step, a, u);
    } else {
      OutsideKeepsRoom(s, step, a);
    }
  }

  /** An AddMember puts the newcomer's channel in exactly when the user has no entry of another channel. */
  lemma JoinTakesEffectIff(s: State, a: ActorId, at: int, u: UserId, c: SessionId)
    requires InRange(s) && Enabled(s, RoomStep(a, at)) && TakesUp(s, RoomStep(a, at), a, AddMember(u, c))
    ensures var t := Apply(s, RoomStep(a, at));
            && a < |t.actors| && u in t.actors[a].members
            && (t.actors[a].members[u] == c <==> u !in s.actors[a].members || s.actors[a].members[u] == c)
            && (u in s.actors[a].members ==> t.actors[a].members == s.actors[a].members)
  {
  }

  /** From `s` on, at every moment of the run, the entry of `u` is channel `c`. */
  ghost predicate AlwaysHolds(s: State, steps: seq<Step>, a: ActorId, u: UserId, c: SessionId)
    requires CanRun(s, steps)
    decreases |steps|
  {
    && a < |s.actors| && u in s.actors[a].members && s.actors[a].members[u] == c
    && (steps == [] || AlwaysHolds(Apply(s, steps[0]), steps[1..], a, u, c))
  }

  ghost predicate NeverRemoved(s: State, steps: seq<Step>, a: ActorId, u: UserId)
    requires CanRun(s, steps)
    decreases |steps|
  {
    steps == [] || (!Removes(s, steps[0], a, u) && NeverRemoved(Apply(s, steps[0]), steps[1..], a, u))
  }

  /** Every AddMember of `u` that the room takes up leaves its members as they are. */
  ghost predicate AllRefused(s: State, steps: seq<Step>, a: ActorId, u: UserId)
    requires CanRun(s, steps)
    decreases |steps|
  {
    steps == [] ||
    var t := Apply(s, steps[0]);
    && ((exists c :: TakesUp(s, steps[0], a, AddMember(u, c))) ==>
        a < |t.actors| && t.actors[a].members == s.actors[a].members)
    && AllRefused(t, steps[1..], a, u)
  }

  /** An entry stays through a run exactly when nothing removes it. */
  lemma {:induction false} HoldsIff(s: State, steps: seq<Step>, a: ActorId, u: UserId)
    requires CanRun(s, steps) && a < |s.actors| && u in s.actors[a].members
    ensures AlwaysHolds(s, steps, a, u, s.actors[a].members[u]) <==> NeverRemoved(s, steps, a, u)
    decreases |steps|
  {
    if steps != [] {
      var t := Apply(s, steps[0]);
      EntryStaysIff(s, steps[0], a, u);
      if SameEntry(s, t, a, u) {
        HoldsIff(t, steps[1..], a, u);
      }
    }
  }

  lemma StaleThroughStep(s: State, step: Step, a: ActorId, u: UserId)
    requires InRange(s) && Enabled(s, step) && Stale(s, a, u) && !Removes(s, step, a, u)
    ensures SameEntry(s, Apply(s, step), a, u) && Stale(Apply(s, step), a, u)
    ensures (exists c :: TakesUp(s, step, a, AddMember(u, c))) ==>
        Apply(s, step).actors[a].members == s.actors[a].members
  {
    EntryStaysIff(s, step, a, u);
    OutsideKeepsRoom(s, step, a);
    if c :| TakesUp(s, step, a, AddMember(u, c)) {
      JoinTakesEffectIff(s, a, step.at, u, c);
    }
  }

  /**
   A stale entry blocks every rejoin: through any run that neither sweeps nor removes it, it stays
   the closed channel it was, and every AddMember of that user is refused.
   */
  lemma {:induction false} StaleEntryBlocks(s: State, steps: seq<Step>, a: ActorId, u: UserId)
    requires CanRun(s, steps) && NeverRemoved(s, steps, a, u) && Stale(s, a, u)
    ensures AllRefused(s, steps, a, u)
    ensures SameEntry(s, Run(s, steps), a, u) && Stale(Run(s, steps), a, u)
    decreases |steps|
  {
    if steps != [] {
      StaleThroughStep(s, steps[0], a, u);
      StaleEntryBlocks(Apply(s, steps[0]), steps[1..], a, u);
    }
  }

  // ---- A cleanup tick ----

  /** `t` is reached from the tick state `s` with the sweep of room `a` under way. */
  ghost predicate SweptSoFar(s: State, t: State, a: ActorId) {
    && a < |s.actors| <= |t.actors| && t.actors[a].activity.Sweeping?
    && StillClosed(s, t)
    && (forall u :: u in t.actors[a].members ==>
        u in s.actors[a].members && t.actors[a].members[u] == s.actors[a].members[u])
    && (forall u :: u in t.actors[a].members && Stale(s, a, u) ==> u in t.actors[a].activity.pending)
    && (forall u :: u in s.actors[a].members && u !in t.actors[a].members ==>
          s.actors[a].members[u] < |t.chans| && !t.chans[s.actors[a].members[u]].open)
  }

  lemma ClosedTransitive(s: State, t: State, t': State)
    requires StillClosed(s, t) && StillClosed(t, t')
    ensures StillClosed(s, t')
  {
  }

  lemma SweepOne(s: State, t: State, a: ActorId, u: UserId)
    requires InRange(t) && SweptSoFar(s, t, a) && Enabled(t, RoomSweep(a, u))
    ensures SweptSoFar(s, DoSweep(t, a, u), a)
  {
  }

  predicate Restarts(step: Step, a: ActorId) {
    (step.RoomStep? || step.RoomTick?) && step.actor == a
  }

  lemma SweepElsewhere(s: State, t: State, t': State, a: ActorId)
    requires SweptSoFar(s, t, a) && SameRoom(t, t', a) && StillClosed(t, t')
    ensures SweptSoFar(s, t', a)
  {
    ClosedTransitive(s, t, t');
  }

  lemma SweepStep(s: State, t: State, step: Step, a: ActorId)
    requires InRange(t) && Enabled(t, step) && SweptSoFar(s, t, a) && !Restarts(step, a)
    ensures SweptSoFar(s, Apply(t, step), a)
  {
    OutsideKeepsRoom(t, step, a);
    if step.RoomSweep? && step.actor == a {
      SweepOne(s, t, a, step.user);
    } else {
      assert SameRoom(t, Apply(t, step), a);
      SweepElsewhere(s, t, Apply(t, step), a);
    }
  }

  lemma {:induction false} SweepRun(s: State, t: State, steps: seq<Step>, a: ActorId)
    requires CanRun(t, steps) && SweptSoFar(s, t, a) && forall i :: 0 <= i < |steps| ==> !Restarts(steps[i], a)
    ensures SweptSoFar(s, Run(t, steps), a)
    decreases |steps|
  {
    if steps != [] {
      SweepStep(s, t, steps[0], a);
      SweepRun(s, Apply(t, steps[0]), steps[1..], a);
    }
  }

  /**
   A tick and whatever interleaves with it until the room is at rest again: entries closed when
   the tick began are gone, entries still open at the end are kept, and nothing is added.
   */
  lemma TickRemovesStale(s: State, steps: seq<Step>, a: ActorId, u: UserId)
    requires InRange(s) && Enabled(s, RoomTick(a)) && CanRun(DoTick(s, a), steps)
    requires forall i :: 0 <= i < |steps| ==> !Restarts(steps[i], a)
    ensures var t := Run(DoTick(s, a), steps);
            && a < |t.actors| && |s.chans| <= |t.chans|
            && (AtRest(t.actors[a]) && u in s.actors[a].members && !s.chans[s.actors[a].members[u]].open ==>
                u !in t.actors[a].members)
            && (u in s.actors[a].members && t.chans[s.actors[a].members[u]].open ==>
                  u in t.actors[a].members && t.actors[a].members[u] == s.actors[a].members[u])
            && (u in t.actors[a].members ==> u in s.actors[a].members)
  {
    var s' := DoTick(s, a);
    assert ActorInRange(s.actors[a], |s.sessions|);
    SweepRun(s', s', steps, a);
    var t := Run(s', steps);
    assert s'.actors[a].members == s.actors[a].members && s'.chans == s.chans;
  }

  // ---- Rejoining once a tick has come ----

  /** Through a run the room takes up no AddMember of `u`. */
  ghost predicate NeverAdded(s: State, steps: seq<Step>, a: ActorId, u: UserId)
    requires CanRun(s, steps)
    decreases |steps|
  {
    steps != [] ==>
      && (forall c :: !TakesUp(s, steps[0], a, AddMember(u, c)))
      && NeverAdded(Apply(s, steps[0]), steps[1..], a, u)
  }

  lemma MailAddsNobodyElse(s: State, a: ActorId, at: int, u: UserId)
    requires a < |s.actors| && a < |s.h.logs| && s.actors[a].mailbox != [] && u !in s.actors[a].members
    requires s.actors[a].mailbox[0].AddMember? ==> s.actors[a].mailbox[0].user != u
    ensures var t := DoRoomStep(s, a, at); a < |t.actors| && u !in t.actors[a].members
  {
  }

  /** Somebody without an entry gets one only by an AddMember. */
  lemma AbsentStays(s: State, step: Step, a: ActorId, u: UserId)
    requires InRange(s) && Enabled(s, step) && a < |s.actors| && u !in s.actors[a].members
    requires forall c :: !TakesUp(s, step, a, AddMember(u, c))
    ensures var t := Apply(s, step); a < |t.actors| && u !in t.actors[a].members
  {
    if !OfRoom(step, a) {
      OutsideKeepsRoom(s, step, a);
    } else if step.RoomStep? {
      var m := s.actors[a].mailbox[0];
      assert m.AddMember? ==> TakesUp(s, step, a, AddMember(m.user, m.chan));
      MailAddsNobodyElse(s, a, step.at, u);
    } else if step.RoomCast? {
      assert ActorInRange(s.actors[a], |s.sessions|);
      CastOnlyPushes(s, a, step.user);
    }
  }

  lemma CastOnlyPushes(s: State, a: ActorId, v: UserId)
    requires a < |s.actors| && s.actors[a].activity.Casting? && v in s.actors[a].members
    requires s.actors[a].members[v] < |s.chans| && s.actors[a].members[v] < |s.h.entered|
    ensures var t := DoCast(s, a, v); |t.actors| == |s.actors| && t.actors[a].members == s.actors[a].members
  {
  }

  /** Since the tick in `s`, the sweep is still under way or the stale entry is gone. */
  ghost predicate GoneOrSwept(s: State, t: State, a: ActorId, u: UserId) {
    SweptSoFar(s, t, a) || (a < |t.actors| && u !in t.actors[a].members)
  }

  /** The room takes up nothing new before the sweep is over. */
  lemma RestMeansSwept(s: State, t: State, a: ActorId, u: UserId)
    requires GoneOrSwept(s, t, a, u) && Stale(s, a, u) && a < |t.actors| && AtRest(t.actors[a])
    ensures u !in t.actors[a].members
  {
  }

  lemma GoneOrSweptStep(s: State, t: State, step: Step, a: ActorId, u: UserId)
    requires GoneOrSwept(s, t, a, u) && Stale(s, a, u)
    requires InRange(t) && Enabled(t, step) && forall c :: !TakesUp(t, step, a, AddMember(u, c))
    ensures GoneOrSwept(s, Apply(t, step), a, u)
  {
    if a < |t.actors| && u !in t.actors[a].members {
      AbsentStays(t, step, a, u);
    } else if Restarts(step, a) {
      RestMeansSwept(s, t, a, u);
    } else {
      SweepStep(s, t, step, a);
    }
  }

  lemma {:induction false} GoneOrSweptRun(s: State, t: State, steps: seq<Step>, a: ActorId, u: UserId)
    requires GoneOrSwept(s, t, a, u) && Stale(s, a, u) && CanRun(t, steps) && NeverAdded(t, steps, a, u)
    ensures GoneOrSwept(s, Run(t, steps), a, u)
    decreases |steps|
  {
    if steps != [] {
      GoneOrSweptStep(s, t, steps[0], a, u);
      GoneOrSweptRun(s, Apply(t, steps[0]), steps[1..], a, u);
    }
  }

  /**
   Whatever happens after a tick that began once the channel was closed, other mail and further ticks
   included: the next AddMember of that user takes effect.
   */
  lemma RejoinAfterTick(s: State, steps: seq<Step>, a: ActorId, u: UserId, c: SessionId, at: int)
    requires InRange(s) && Enabled(s, RoomTick(a)) && Stale(s, a, u)
    requires CanRun(DoTick(s, a), steps) && NeverAdded(DoTick(s, a), steps, a, u)
    requires var t := Run(DoTick(s, a), steps);
             InRange(t) && Enabled(t, RoomStep(a, at)) && TakesUp(t, RoomStep(a, at), a, AddMember(u, c))
    ensures var t := Apply(Run(DoTick(s, a), steps), RoomStep(a, at));
            a < |t.actors| && u in t.actors[a].members && t.actors[a].members[u] == c
  {
    var s', t := DoTick(s, a), Run(DoTick(s, a), steps);
    assert ActorInRange(s.actors[a], |s.sessions|);
    assert Stale(s', a, u) && SweptSoFar(s', s', a);
    GoneOrSweptRun(s', s', steps, a, u);
    RestMeansSwept(s', t, a, u);
    JoinTakesEffectIff(t, a, at, u, c);
  }
}
