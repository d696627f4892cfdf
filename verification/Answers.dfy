/**
 Which answer a request gets, and which row: both said in terms of what happened to it in the run, when it
 was taken up and how its calls ended.
 */
module Answers {
  import opened Types
  import opened Store
  import opened Protocol
  import opened Invariants
  import opened StepProof
  import opened Theorems
  import opened Response
  import opened Acks
  import opened Provenance
  import RetryLoop

  // ---- What happens to requests in a run ----

  datatype Event =
    | Took(id: MsgId, at: int)           // its persistence task is spawned, with this clock reading
    | Unknown(id: MsgId)                 // the router knows no such room
    | Said(id: MsgId, success: bool)     // its task gets the reply to a call
    | Broke(id: MsgId)                   // its task's call ends without one

  function Seen(s: State, step: Step): seq<Event> {
    match step
    case RouterStep(at) => if s.inbox == [] then [] else SeenByRouter(s, s.inbox[0], at)
    case RoomStep(a, at) =>
      if a < |s.actors| && s.actors[a].mailbox != [] && s.actors[a].mailbox[0].SendMessage?
      then [Took(s.actors[a].mailbox[0].id, at)] else []
    case TaskResolves(id) =>
      if id in s.tasks && s.tasks[id].phase.Replied? then [Said(id, s.tasks[id].phase.success)] else []
    case TransportFails(id) => [Broke(id)]
    case _ => []
  }

  function SeenByRouter(s: State, m: RouterMsg, at: int): seq<Event> {
    match m
    case SendDirectMessage(id, _, _, _, _) => [Took(id, at)]
    case SendRoomMessage(id, room, _, _) => if room in s.router.rooms then [] else [Unknown(id)]
    case _ => []
  }

  /** All that happens to requests in a run. */
  ghost function Trace(s: State, steps: seq<Step>): seq<Event>
    requires CanRun(s, steps)
    decreases |steps|
  {
    if steps == [] then [] else
      RunSplit(s, steps);
      Trace(s, steps[..|steps| - 1]) + Seen(Run(s, steps[..|steps| - 1]), steps[|steps| - 1])
  }

  // ---- The write of a request ----

  /** The time in a captured body is the reading with which its request was taken up, and each has just one. */
  ghost predicate TimesInv(writes: map<MsgId, Write>, tr: seq<Event>) {
    forall id, at :: Took(id, at) in tr <==> id in writes && writes[id].at == at
  }

  lemma SpawnTimes(s: State, id: MsgId, w: Write, tr: seq<Event>)
    requires TimesInv(s.writes, tr) && id !in s.writes
    ensures TimesInv(Spawn(s, id, w).writes, tr + [Took(id, w.at)])
  {
  }

  lemma SameTimes(writes: map<MsgId, Write>, tr: seq<Event>, more: seq<Event>)
    requires TimesInv(writes, tr) && forall e :: e in more ==> !e.Took?
    ensures TimesInv(writes, tr + more)
  {
  }

  lemma RouterTimes(s: State, at: int, tr: seq<Event>)
    requires InRange(s) && PlaceInv(s) && Enabled(s, RouterStep(at)) && TimesInv(s.writes, tr)
    ensures TimesInv(Apply(s, RouterStep(at)).writes, tr + Seen(s, RouterStep(at)))
  {
    var m := s.inbox[0];
    if m.SendDirectMessage? {
      HeadIsAtRouter(s);
      assert m.id !in s.writes;
      SpawnTimes(PopInbox(s), m.id, DmBody(m.id, m.conv, m.from, m.to, m.content, at), tr);
    } else {
      SameTimes(s.writes, tr, Seen(s, RouterStep(at)));
    }
  }

  lemma MailTimes(s: State, a: ActorId, at: int, tr: seq<Event>)
    requires InRange(s) && PlaceInv(s) && Enabled(s, RoomStep(a, at)) && TimesInv(s.writes, tr)
    ensures TimesInv(Apply(s, RoomStep(a, at)).writes, tr + Seen(s, RoomStep(a, at)))
  {
    var m := s.actors[a].mailbox[0];
    if m.SendMessage? {
      MailHeadIsHere(s, a);
      assert m.id !in s.writes;
      SpawnTimes(s, m.id, RoomBody(m.id, s.actors[a].room, m.from, m.content, at), tr);
    } else {
      SameTimes(s.writes, tr, []);
    }
  }

  lemma SessionWrites(s: State, step: Step)
    requires InRange(s) && Enabled(s, step) && (OfSession(step) || step.ExternalLeave? || step.RouterDeliver?)
    ensures Apply(s, step).writes == s.writes
  {
    if step.RouterDeliver? {
      DeliverFrame(s);
    } else {
      SessionTasks(s, step);
    }
  }

  lemma TaskWrites(s: State, step: Step)
    requires InRange(s) && Enabled(s, step) && OfTask(step)
    ensures Apply(s, step).writes == s.writes
  {
    if step.ServerExecutes? {
      ExecuteFrame(s, step.id, step.ok);
    }
  }

  lemma RoomWrites(s: State, step: Step)
    requires InRange(s) && Enabled(s, step)
    requires step.RoomCast? || step.RoomTick? || step.RoomSweep? || step.RoomStops?
    ensures Apply(s, step).writes == s.writes
  {
    if step.RoomCast? {
      assert ActorInRange(s.actors[step.actor], |s.sessions|);
      CastFrame(s, step.actor, step.user);
    }
  }

  lemma TimesStep(s: State, step: Step, tr: seq<Event>)
    requires Inv(s) && Enabled(s, step) && TimesInv(s.writes, tr)
    ensures TimesInv(Apply(s, step).writes, tr + Seen(s, step))
  {
    if step.RouterStep? {
      RouterTimes(s, step.at, tr);
    } else if step.RoomStep? {
      MailTimes(s, step.actor, step.at, tr);
    } else {
      OtherWrites(s, step);
      SameTimes(s.writes, tr, Seen(s, step));
    }
  }

  lemma OtherWrites(s: State, step: Step)
    requires InRange(s) && Enabled(s, step) && !step.RouterStep? && !step.RoomStep?
    ensures Apply(s, step).writes == s.writes && forall e :: e in Seen(s, step) ==> !e.Took?
  {
    if
    case OfSession(step) || step.ExternalLeave? || step.RouterDeliver? => SessionWrites(s, step);
    case OfTask(step) => TaskWrites(s, step);
    case step.RoomCast? || step.RoomTick? || step.RoomSweep? || step.RoomStops? => RoomWrites(s, step);
  }

  lemma {:induction false} RunTimes(s: State, steps: seq<Step>)
    requires Inv(s) && CanRun(s, steps) && TimesInv(s.writes, [])
    ensures TimesInv(Run(s, steps).writes, Trace(s, steps))
    decreases |steps|
  {
    if steps != [] {
      var init, last := steps[..|steps| - 1], steps[|steps| - 1];
      RunSplit(s, steps);
      RunTimes(s, init);
      RunKeepsInv(s, init);
      TimesStep(Run(s, init), last, Trace(s, init));
    }
  }

  lemma InitTimes()
    ensures TimesInv(INIT.writes, [])
  {
  }

  lemma WriteIsFrame(steps: seq<Step>, id: MsgId)
    requires CanRun(INIT, steps) && id in Run(INIT, steps).writes
    ensures var s, w := Run(INIT, steps), Run(INIT, steps).writes[id];
            && id in s.reqs && IsFrame(steps, id, s.reqs[id]) && Took(id, w.at) in Trace(INIT, steps)
            && WriteFor(s.reqs, id, w)
  {
    RunIsFrom(steps);
    InitInv();
    InitTimes();
    RunTimes(INIT, steps);
    assert WriteFor(Run(INIT, steps).reqs, id, Run(INIT, steps).writes[id]);
    RequestsAreFrames(steps, id);
  }

  lemma RowIsWrite(steps: seq<Step>)
    requires CanRun(INIT, steps)
    ensures RowsInv(Run(INIT, steps).writes, Run(INIT, steps).db)
  {
    RunIsFrom(steps);
  }

  /**
   Whatever row is stored, some client sent: its columns are what the frame says, under the sender's
   project, and its time is the reading with which that request was taken up.
   */
  lemma DmRowIsFrame(steps: seq<Step>, k: DmKey)
    requires CanRun(INIT, steps) && k in Run(INIT, steps).db.dms
    ensures exists q, at ::
              && IsFrame(steps, k.id, q) && Took(k.id, at) in Trace(INIT, steps) && q.kind.Direct?
              && k == DmKey(q.from.project, q.kind.conv, k.id)
              && Run(INIT, steps).db.dms[k] == DmRow(q.from.user, q.kind.to.user, q.content, at)
  {
    RowIsWrite(steps);
    WriteIsFrame(steps, k.id);
  }

  lemma RoomRowIsFrame(steps: seq<Step>, k: RoomKey)
    requires CanRun(INIT, steps) && k in Run(INIT, steps).db.roomMsgs
    ensures exists q, at ::
              && IsFrame(steps, k.id, q) && Took(k.id, at) in Trace(INIT, steps)
              && q.kind.ToRoom? && k == RoomKey(q.from.project, q.kind.room, k.id)
              && Run(INIT, steps).db.roomMsgs[k] == RoomRow(q.from.user, q.content, at)
  {
    RowIsWrite(steps);
    WriteIsFrame(steps, k.id);
  }

  // ---- What the service does with a call ----

  /** Neither the project nor the conversation or room is blank. */
  predicate Named(q: Request) {
    q.from.project != "" && match q.kind { case Direct(conv, _) => conv != "" case ToRoom(room) => room != "" }
  }

  /** The row of request `q` as of `at`. */
  predicate HoldsRow(db: Tables, id: MsgId, q: Request, at: int) {
    match q.kind
    case Direct(conv, to) =>
      var k := DmKey(q.from.project, conv, id);
      k in db.dms && db.dms[k] == DmRow(q.from.user, to.user, q.content, at)
    case ToRoom(room) =>
      var k := RoomKey(q.from.project, room, id);
      k in db.roomMsgs && db.roomMsgs[k] == RoomRow(q.from.user, q.content, at)
  }

  lemma NamedIsAccepted(reqs: map<MsgId, Request>, id: MsgId, w: Write, db: Tables)
    requires WriteFor(reqs, id, w)
    ensures Accepts(w) <==> Named(reqs[id])
    ensures HoldsRow(Execute(db, w), id, reqs[id], w.at)
  {
  }

  lemma WriteOfTask(s: State, id: MsgId)
    requires Reachable(s) && id in s.tasks
    ensures id in s.reqs && id in s.writes && WriteFor(s.reqs, id, s.writes[id])
  {
    ReachableInv(s);
  }

  /**
   The service says yes exactly when the names are there and the batch goes through, and then the row is
   stored as of the time the request was taken up.  A refused call changes nothing; a batch that failed may
   still be applied.
   */
  lemma ServiceAnswers(s: State, id: MsgId, ok: bool)
    requires Reachable(s) && InRange(s) && id in s.tasks && s.tasks[id].phase.InFlight?
    ensures Enabled(s, ServerExecutes(id, ok))
    ensures var t := Apply(s, ServerExecutes(id, ok));
            && id in s.reqs && id in s.writes && id in t.tasks
            && t.tasks[id] == Task(s.tasks[id].failures, Replied(ok && Named(s.reqs[id])))
            && (ok && Named(s.reqs[id]) ==> HoldsRow(t.db, id, s.reqs[id], s.writes[id].at))
            && (!(ok && Named(s.reqs[id])) ==> t.db == s.db)
            && t.orphans == s.orphans + if !ok && Named(s.reqs[id]) then {id} else {}
  {
    WriteOfTask(s, id);
    NamedIsAccepted(s.reqs, id, s.writes[id], s.db);
  }

  /**
   A call may break before or after the service acts on it: an accepted one that was under way may be
   applied later all the same, whatever the answer to the request is then.
   */
  lemma BrokenMayCommit(s: State, id: MsgId)
    requires Reachable(s) && InRange(s) && id in s.tasks && s.tasks[id].phase.InFlight?
    ensures Enabled(s, TransportFails(id))
    ensures var t := Apply(s, TransportFails(id));
            && id in s.reqs && id in s.writes && t.db == s.db && t.writes == s.writes
            && t.orphans == s.orphans + if Named(s.reqs[id]) then {id} else {}
  {
    WriteOfTask(s, id);
    NamedIsAccepted(s.reqs, id, s.writes[id], s.db);
  }

  /** At any later moment, and any number of times. */
  lemma OrphanStoresRow(s: State, id: MsgId)
    requires Reachable(s) && InRange(s) && id in s.orphans
    ensures Enabled(s, OrphanCommits(id)) && id in s.reqs && id in s.writes
    ensures HoldsRow(Apply(s, OrphanCommits(id)).db, id, s.reqs[id], s.writes[id].at)
  {
    ReachableInv(s);
    assert WriteFor(s.reqs, id, s.writes[id]);
    NamedIsAccepted(s.reqs, id, s.writes[id], s.db);
  }

  // ---- How a request is answered ----

  /** How one call ended. */
  datatype Outcome = Yes | No | Broken

  function OutcomeOf(e: Event, id: MsgId): seq<Outcome> {
    match e
    case Said(i, success) => if i == id then [if success then Yes else No] else []
    case Broke(i) => if i == id then [Broken] else []
    case _ => []
  }

  /** How the calls made for `id` ended, in order. */
  function Calls(tr: seq<Event>, id: MsgId): seq<Outcome> {
    if tr == [] then [] else Calls(tr[..|tr| - 1], id) + OutcomeOf(tr[|tr| - 1], id)
  }

  function Breaks(n: nat): seq<Outcome> {
    seq(n, _ => Broken)
  }

  /** After at most three broken calls, one was answered. */
  predicate FirstSays(calls: seq<Outcome>, last: Outcome) {
    1 <= |calls| <= 4 && calls == Breaks(|calls| - 1) + [last]
  }

  /**
   Persisted: the first call that was answered said yes.  Failed: it said no, or four calls broke, or the
   router did not know the room and no call was made.
   */
  predicate RightAnswer(tr: seq<Event>, id: MsgId, st: Status) {
    var calls := Calls(tr, id);
    if Unknown(id) in tr then calls == [] && st == Failed
    else if st == Persisted then FirstSays(calls, Yes)
    else FirstSays(calls, No) || calls == Breaks(4)
  }

  /** A request that no task has taken up has made no call. */
  predicate Untouched(tr: seq<Event>, id: MsgId) {
    Unknown(id) !in tr && Calls(tr, id) == []
  }

  predicate AtWork(tr: seq<Event>, id: MsgId, failures: nat) {
    Unknown(id) !in tr && failures <= 3 && Calls(tr, id) == Breaks(failures)
  }

  ghost predicate Early(s: State, id: MsgId) {
    id in s.h.stage ==> Rank(s.h.stage[id]) <= 1
  }

  ghost predicate AnswersInv(s: State, tr: seq<Event>) {
    && (forall id :: Early(s, id) ==> Untouched(tr, id))
    && (forall id :: id in s.tasks ==> AtWork(tr, id, s.tasks[id].failures))
    && (forall id :: id in s.shots ==> RightAnswer(tr, id, s.shots[id]))
    && (forall sid: SessionId :: AcksRight(s, tr, sid))
  }

  /** What a step shows about `id`. */
  function About(s: State, step: Step, id: MsgId): seq<Outcome> {
    match step
    case TaskResolves(i) =>
      if i == id && i in s.tasks && s.tasks[i].phase.Replied?
      then [if s.tasks[i].phase.success then Yes else No] else []
    case TransportFails(i) => if i == id then [Broken] else []
    case _ => []
  }

  lemma CallsNext(s: State, step: Step, tr: seq<Event>, id: MsgId)
    ensures Calls(tr + Seen(s, step), id) == Calls(tr, id) + About(s, step, id)
  {
    var more := Seen(s, step);
    if more == [] {
      assert tr + more == tr;
    } else {
      assert (tr + more)[..|tr|] == tr && (tr + more)[|tr|] == more[0];
    }
  }

  lemma EventsNeed(s: State, step: Step, id: MsgId)
    requires InRange(s) && PlaceInv(s) && Enabled(s, step)
    ensures About(s, step, id) != [] ==> id in s.tasks && Own(step, id)
    ensures Unknown(id) in Seen(s, step) ==> id in s.h.stage && s.h.stage[id].AtRouter? && step.RouterStep?
  {
    if step.RouterStep? && s.inbox[0].SendRoomMessage? {
      HeadIsAtRouter(s);
    }
  }

  // ---- Tasks ----

  lemma DispatchTasks(s: State, m: RouterMsg, at: int, id: MsgId)
    requires RouterMsgInRange(m, |s.sessions|)
    requires forall r :: r in s.router.rooms ==> s.router.rooms[r] < |s.actors|
    ensures var t := Dispatch(s, m, at); id in t.tasks && id !in s.tasks ==> t.tasks[id] == Task(0, Ready)
  {
  }

  lemma MailTasks(s: State, a: ActorId, at: int, id: MsgId)
    requires a < |s.actors| && a < |s.h.logs| && s.actors[a].mailbox != []
    ensures var t := DoRoomStep(s, a, at); id in t.tasks && id !in s.tasks ==> t.tasks[id] == Task(0, Ready)
  {
  }

  lemma OwnTasks(s: State, step: Step)
    requires InRange(s) && Enabled(s, step) && OfTask(step)
    ensures Apply(s, step).tasks.Keys <= s.tasks.Keys
  {
    if step.ServerExecutes? {
      ExecuteFrame(s, step.id, step.ok);
    }
  }

  /** A task begins with no call made. */
  lemma TaskComes(s: State, step: Step, id: MsgId)
    requires Inv(s) && Enabled(s, step) && id !in s.tasks && id in Apply(s, step).tasks
    ensures Apply(s, step).tasks[id] == Task(0, Ready)
  {
    if
    case step.RouterStep? => DispatchTasks(PopInbox(s), s.inbox[0], step.at, id);
    case step.RoomStep? => MailTasks(s, step.actor, step.at, id);
    case !step.RouterStep? && !step.RoomStep? => NoTaskComes(s, step);
  }

  lemma NoTaskComes(s: State, step: Step)
    requires InRange(s) && Enabled(s, step) && !step.RouterStep? && !step.RoomStep?
    ensures Apply(s, step).tasks.Keys <= s.tasks.Keys
  {
    if
    case step.RouterDeliver? => DeliverFrame(s);
    case step.RoomCast? || step.RoomTick? || step.RoomSweep? || step.RoomStops? => MemberForward(s, step);
    case OfTask(step) => OwnTasks(s, step);
    case OfSession(step) || step.ExternalLeave? => SessionTasks(s, step);
  }

  lemma SessionTasks(s: State, step: Step)
    requires InRange(s) && Enabled(s, step) && (OfSession(step) || step.ExternalLeave?)
    ensures Apply(s, step).tasks == s.tasks && Apply(s, step).shots == s.shots && Apply(s, step).writes == s.writes
  {
    if step.SendEnds? || step.WriteChat? || step.WriteAck? {
      SocketTouches(s, step);
    } else {
      FrameTouches(s, step);
    }
  }

  lemma FrameTouches(s: State, step: Step)
    requires InRange(s) && Enabled(s, step)
    requires || step.Connect? || step.Start? || step.FrameDirect? || step.FrameRoom? || step.FrameJoin?
             || step.ReceiveEnds? || step.SendUnregister? || step.ExternalLeave?
    ensures Apply(s, step).tasks == s.tasks && Apply(s, step).shots == s.shots && Apply(s, step).writes == s.writes
  {
  }

  /** A call that broke counts as one failure more. */
  lemma TaskGoesOn(s: State, step: Step, id: MsgId)
    requires InRange(s) && Enabled(s, step) && Own(step, id) && id in Apply(s, step).tasks
    ensures id in s.tasks && Apply(s, step).tasks[id].failures == s.tasks[id].failures + |About(s, step, id)|
    ensures About(s, step, id) == [] || About(s, step, id) == [Broken]
    ensures step.TransportFails? ==> s.tasks[id].failures < 3
  {
  }

  // ---- Oneshots ----

  ghost predicate SameShot(s: State, t: State, id: MsgId) {
    id in t.shots ==> id in s.shots && t.shots[id] == s.shots[id]
  }

  lemma DispatchShot(s: State, m: RouterMsg, at: int, id: MsgId)
    requires RouterMsgInRange(m, |s.sessions|)
    requires forall r :: r in s.router.rooms ==> s.router.rooms[r] < |s.actors|
    ensures var t := Dispatch(s, m, at);
            || SameShot(s, t, id)
            || (id in t.shots && t.shots[id] == Failed && SeenByRouter(s, m, at) == [Unknown(id)])
  {
  }

  lemma RoomShot(s: State, step: Step)
    requires InRange(s) && Enabled(s, step)
    requires step.RoomStep? || step.RoomCast? || step.RoomTick? || step.RoomSweep? || step.RoomStops?
    ensures Apply(s, step).shots == s.shots
  {
    if step.RoomCast? {
      assert ActorInRange(s.actors[step.actor], |s.sessions|);
      CastFrame(s, step.actor, step.user);
    }
  }

  /** A task's last call decides. */
  lemma TaskShot(s: State, step: Step, id: MsgId)
    requires InRange(s) && Enabled(s, step) && OfTask(step)
    ensures var t := Apply(s, step);
            || SameShot(s, t, id)
            || (step == TaskResolves(id) && id in s.tasks && s.tasks[id].phase.Replied? && id in t.shots
                && t.shots[id] == if s.tasks[id].phase.success then Persisted else Failed)
            || (step == TransportFails(id) && id in s.tasks && s.tasks[id].failures >= 3 && id in t.shots
                && t.shots[id] == Failed)
  {
    if step.ServerExecutes? {
      ExecuteFrame(s, step.id, step.ok);
    }
  }

  /**
   A oneshot is resolved in just three ways: the router does not know the room, and it failed; the task had
   a reply, and it says what the reply said; a fourth call broke, and it failed.
   */
  lemma ShotArises(s: State, step: Step, id: MsgId)
    requires InRange(s) && Enabled(s, step)
    ensures var t := Apply(s, step);
            || SameShot(s, t, id)
            || (step.RouterStep? && id in t.shots && t.shots[id] == Failed && Seen(s, step) == [Unknown(id)])
            || (step == TaskResolves(id) && id in s.tasks && s.tasks[id].phase.Replied? && id in t.shots
                && (t.shots[id] == Persisted <==> s.tasks[id].phase.success))
            || (step == TransportFails(id) && id in s.tasks && s.tasks[id].failures >= 3 && id in t.shots
                && t.shots[id] == Failed)
  {
    if
    case step.RouterStep? => DispatchShot(PopInbox(s), s.inbox[0], step.at, id);
    case step.RouterDeliver? => DeliverFrame(s);
    case step.RoomStep? || step.RoomCast? || step.RoomTick? || step.RoomSweep? || step.RoomStops? => RoomShot(s, step);
    case OfTask(step) => TaskShot(s, step, id);
    case OfSession(step) || step.ExternalLeave? => SessionTasks(s, step);
  }

  // ---- Acks ----

  /** Every ack of session `sid` was there before, or is pushed by this step with what its oneshot says. */
  ghost predicate AcksFrom(s: State, t: State, step: Step, sid: SessionId) {
    && sid < |t.acks| && sid < |t.h.handed|
    && (forall k :: k in t.acks[sid].queue || k in t.h.handed[sid] ==>
          || (HasAcks(s, sid) && (k in s.acks[sid].queue || k in s.h.handed[sid]))
          || (step == AckPush(k.id) && k.id in s.shots && k.status == s.shots[k.id]))
  }

  lemma OpeningAcksFrom(s: State, step: Step, sid: SessionId)
    requires InRange(s) && Enabled(s, step) && (step.Connect? || step.Start?) && sid < |Apply(s, step).acks|
    ensures AcksFrom(s, Apply(s, step), step, sid)
  {
  }

  lemma QuietAcksFrom(s: State, step: Step, sid: SessionId)
    requires InRange(s) && Enabled(s, step) && HasAcks(s, sid)
    requires || step.FrameDirect? || step.FrameRoom? || step.FrameJoin? || step.ReceiveEnds? || step.SendUnregister?
             || step.ExternalLeave?
    ensures SameAcks(s, Apply(s, step), sid)
  {
  }

  lemma SocketAcksFrom(s: State, step: Step, sid: SessionId)
    requires InRange(s) && Enabled(s, step) && HasAcks(s, sid) && (step.SendEnds? || step.WriteChat? || step.WriteAck?)
    ensures AcksFrom(s, Apply(s, step), step, sid)
  {
    if step.WriteAck? && step.ok {
      PopAcksFrom(s, step.sid, sid, step);
    } else if step.WriteChat? && !step.ok {
      CloseAcksFrom(PopChat(s, step.sid, false), step.sid, sid, step);
    } else if !step.WriteChat? {
      CloseAcksFrom(s, step.sid, sid, step);
    }
  }

  lemma CloseAcksFrom(s: State, x: SessionId, sid: SessionId, step: Step)
    requires HasAcks(s, sid) && x < |s.chans| && x < |s.acks|
    ensures AcksFrom(s, CloseSend(s, x), step, sid)
  {
  }

  lemma PopAcksFrom(s: State, x: SessionId, sid: SessionId, step: Step)
    requires HasAcks(s, sid) && x < |s.acks| && x < |s.h.handed| && s.acks[x].queue != []
    ensures AcksFrom(s, PopAck(s, x), step, sid)
  {
  }

  lemma PushAcksFrom(s: State, id: MsgId, sid: SessionId)
    requires HasAcks(s, sid) && id in s.shots && id in s.reqs && s.reqs[id].origin < |s.acks|
    ensures AcksFrom(s, DoAckPush(s, id), AckPush(id), sid)
  {
  }

  lemma AckComes(s: State, step: Step, sid: SessionId)
    requires InRange(s) && Enabled(s, step) && sid < |Apply(s, step).acks|
    ensures AcksFrom(s, Apply(s, step), step, sid)
  {
    if
    case step.Connect? || step.Start? => OpeningAcksFrom(s, step, sid);
    case step.FrameDirect? || step.FrameRoom? || step.FrameJoin? || step.ReceiveEnds? || step.SendUnregister?
      || step.ExternalLeave? => NoNewAcks(s, step); QuietAcksFrom(s, step, sid);
    case step.SendEnds? || step.WriteChat? || step.WriteAck? => NoNewAcks(s, step); SocketAcksFrom(s, step, sid);
    case step.AckPush? => NoNewAcks(s, step); PushAcksFrom(s, step.id, sid);
    case step.RouterStep? || step.RouterDeliver? => NoNewAcks(s, step); RouterAcks(s, step, sid);
    case step.RoomStep? || step.RoomCast? || step.RoomTick? || step.RoomSweep? || step.RoomStops? =>
      NoNewAcks(s, step);
      RoomAcks(s, step, sid);
    case OfTask(step) && !step.AckPush? => NoNewAcks(s, step); CallAcks(s, step, sid);
  }

  lemma NoNewAcks(s: State, step: Step)
    requires InRange(s) && Enabled(s, step) && !step.Connect?
    ensures |Apply(s, step).acks| == |s.acks| == |s.h.handed|
  {
    if OfSession(step) || OfTask(step) || step.ExternalLeave? {
      SessionAckCount(s, step);
    } else {
      ActorAckCount(s, step);
    }
  }

  lemma SessionAckCount(s: State, step: Step)
    requires InRange(s) && Enabled(s, step) && !step.Connect?
    requires OfSession(step) || OfTask(step) || step.ExternalLeave?
    ensures |Apply(s, step).acks| == |s.acks|
  {
    if step.ServerExecutes? {
      ExecuteFrame(s, step.id, step.ok);
    }
  }

  lemma ActorAckCount(s: State, step: Step)
    requires InRange(s) && Enabled(s, step) && !OfSession(step) && !OfTask(step) && !step.ExternalLeave?
    ensures Apply(s, step).acks == s.acks
  {
    if step.RouterStep? {
      DispatchAckCount(PopInbox(s), s.inbox[0], step.at);
    } else if step.RouterDeliver? {
      DeliverFrame(s);
    } else if step.RoomCast? {
      assert ActorInRange(s.actors[step.actor], |s.sessions|);
      CastFrame(s, step.actor, step.user);
    }
  }

  lemma DispatchAckCount(s: State, m: RouterMsg, at: int)
    requires RouterMsgInRange(m, |s.sessions|)
    requires forall r :: r in s.router.rooms ==> s.router.rooms[r] < |s.actors|
    ensures Dispatch(s, m, at).acks == s.acks
  {
  }

  // ---- The invariant ----

  lemma EarlyStep(s: State, step: Step, tr: seq<Event>, id: MsgId)
    requires Inv(s) && Enabled(s, step) && (Early(s, id) ==> Untouched(tr, id)) && Early(Apply(s, step), id)
    ensures Untouched(tr + Seen(s, step), id)
  {
    StepForward(s, step, id);
    EventsNeed(s, step, id);
    CallsNext(s, step, tr, id);
    if Unknown(id) in Seen(s, step) {
      UnknownIsAnswered(s, step.at, id);
    }
  }

  lemma UnknownIsAnswered(s: State, at: int, id: MsgId)
    requires InRange(s) && Enabled(s, RouterStep(at)) && Unknown(id) in Seen(s, RouterStep(at))
    ensures var t := Apply(s, RouterStep(at)); id in t.h.stage && t.h.stage[id].AtShot?
  {
  }

  lemma NothingAbout(s: State, step: Step, tr: seq<Event>, id: MsgId)
    requires About(s, step, id) == [] && Unknown(id) !in Seen(s, step)
    ensures Calls(tr + Seen(s, step), id) == Calls(tr, id)
    ensures Unknown(id) in tr + Seen(s, step) <==> Unknown(id) in tr
  {
    CallsNext(s, step, tr, id);
  }

  lemma WorkNext(s: State, step: Step, tr: seq<Event>, id: MsgId, n: nat)
    requires AtWork(tr, id, n) && Unknown(id) !in Seen(s, step)
    requires About(s, step, id) == [] || (About(s, step, id) == [Broken] && n < 3)
    ensures AtWork(tr + Seen(s, step), id, n + |About(s, step, id)|)
  {
    CallsNext(s, step, tr, id);
    assert Breaks(n) + [Broken] == Breaks(n + 1);
  }

  /** The call that decides. */
  lemma AnswerNext(s: State, step: Step, tr: seq<Event>, id: MsgId, n: nat, st: Status)
    requires AtWork(tr, id, n) && Unknown(id) !in Seen(s, step)
    requires || (About(s, step, id) == [Yes] && st == Persisted) || (About(s, step, id) == [No] && st == Failed)
             || (About(s, step, id) == [Broken] && n == 3 && st == Failed)
    ensures RightAnswer(tr + Seen(s, step), id, st)
  {
    CallsNext(s, step, tr, id);
    assert Breaks(3) + [Broken] == Breaks(4);
  }

  lemma UnknownNext(s: State, step: Step, tr: seq<Event>, id: MsgId)
    requires Untouched(tr, id) && Seen(s, step) == [Unknown(id)] && About(s, step, id) == []
    ensures RightAnswer(tr + Seen(s, step), id, Failed)
  {
    CallsNext(s, step, tr, id);
    assert Unknown(id) in tr + Seen(s, step);
  }

  lemma RightNext(s: State, step: Step, tr: seq<Event>, id: MsgId, st: Status)
    requires RightAnswer(tr, id, st) && About(s, step, id) == [] && Unknown(id) !in Seen(s, step)
    ensures RightAnswer(tr + Seen(s, step), id, st)
  {
    NothingAbout(s, step, tr, id);
  }

  lemma TasksStep(s: State, step: Step, tr: seq<Event>, id: MsgId)
    requires Inv(s) && Enabled(s, step) && id in Apply(s, step).tasks
    requires Early(s, id) ==> Untouched(tr, id)
    requires id in s.tasks ==> AtWork(tr, id, s.tasks[id].failures)
    ensures AtWork(tr + Seen(s, step), id, Apply(s, step).tasks[id].failures)
  {
    if id !in s.tasks {
      NewTask(s, step, tr, id);
    } else {
      OldTask(s, step, id);
      WorkNext(s, step, tr, id, s.tasks[id].failures);
    }
  }

  lemma OldTask(s: State, step: Step, id: MsgId)
    requires Inv(s) && Enabled(s, step) && id in s.tasks && id in Apply(s, step).tasks
    ensures Unknown(id) !in Seen(s, step)
    ensures About(s, step, id) == [] || (About(s, step, id) == [Broken] && s.tasks[id].failures < 3)
    ensures Apply(s, step).tasks[id].failures == s.tasks[id].failures + |About(s, step, id)|
  {
    EventsNeed(s, step, id);
    if Own(step, id) {
      TaskGoesOn(s, step, id);
    } else {
      StepForward(s, step, id);
    }
  }

  lemma NewTask(s: State, step: Step, tr: seq<Event>, id: MsgId)
    requires Inv(s) && Enabled(s, step) && id in Apply(s, step).tasks && id !in s.tasks
    requires Early(s, id) ==> Untouched(tr, id)
    ensures AtWork(tr + Seen(s, step), id, Apply(s, step).tasks[id].failures)
  {
    TaskComes(s, step, id);
    StepForward(s, step, id);
    InvStep(s, step);
    EventsNeed(s, step, id);
    if Unknown(id) in Seen(s, step) {
      UnknownIsAnswered(s, step.at, id);
    }
    NothingAbout(s, step, tr, id);
  }

  lemma ShotsStep(s: State, step: Step, tr: seq<Event>, id: MsgId)
    requires Inv(s) && Enabled(s, step) && id in Apply(s, step).shots
    requires Early(s, id) ==> Untouched(tr, id)
    requires id in s.tasks ==> AtWork(tr, id, s.tasks[id].failures)
    requires id in s.shots ==> RightAnswer(tr, id, s.shots[id])
    ensures RightAnswer(tr + Seen(s, step), id, Apply(s, step).shots[id])
  {
    var t := Apply(s, step);
    ShotArises(s, step, id);
    EventsNeed(s, step, id);
    if SameShot(s, t, id) {
      RightNext(s, step, tr, id, s.shots[id]);
    } else if step.RouterStep? {
      UnknownNext(s, step, tr, id);
    } else {
      AnswerNext(s, step, tr, id, s.tasks[id].failures, t.shots[id]);
    }
  }

  /** The acks of session `sid` say what they should. */
  ghost predicate AcksRight(s: State, tr: seq<Event>, sid: SessionId) {
    HasAcks(s, sid) ==> forall k :: k in s.acks[sid].queue || k in s.h.handed[sid] ==> RightAnswer(tr, k.id, k.status)
  }

  lemma AcksStep(s: State, step: Step, tr: seq<Event>, sid: SessionId)
    requires Inv(s) && Enabled(s, step) && sid < |Apply(s, step).acks|
    requires (forall id :: id in s.shots ==> RightAnswer(tr, id, s.shots[id])) && AcksRight(s, tr, sid)
    ensures AcksRight(Apply(s, step), tr + Seen(s, step), sid)
  {
    var t := Apply(s, step);
    AckComes(s, step, sid);
    forall k | k in t.acks[sid].queue || k in t.h.handed[sid]
      ensures RightAnswer(tr + Seen(s, step), k.id, k.status)
    {
      AckedIsDone(s, sid, k);
      EventsNeed(s, step, k.id);
      RightNext(s, step, tr, k.id, k.status);
    }
  }

  /** An ack's request stands at its oneshot or beyond. */
  lemma AckedIsDone(s: State, sid: SessionId, k: Ack)
    requires PlaceInv(s)
    requires k.id in s.shots || (HasAcks(s, sid) && (k in s.acks[sid].queue || k in s.h.handed[sid]))
    ensures k.id !in s.tasks && k.id in s.h.stage && !s.h.stage[k.id].AtRouter?
  {
    if HasAcks(s, sid) {
      var q, h := s.acks[sid].queue, s.h.handed[sid];
      assert HoldsFor(q, sid, s.reqs, s.h.stage, AtAcks) && HoldsFor(h, sid, s.reqs, s.h.stage, Handed);
      if k in q {
        var i :| 0 <= i < |q| && q[i] == k;
        assert AckIds(q)[i] == k.id;
      } else if k in h {
        var i :| 0 <= i < |h| && h[i] == k;
        assert AckIds(h)[i] == k.id;
      }
    }
  }

  lemma AnswersStep(s: State, step: Step, tr: seq<Event>)
    requires Inv(s) && Enabled(s, step) && AnswersInv(s, tr)
    ensures AnswersInv(Apply(s, step), tr + Seen(s, step))
  {
    var t, tr' := Apply(s, step), tr + Seen(s, step);
    forall id | Early(t, id)
      ensures Untouched(tr', id)
    {
      EarlyStep(s, step, tr, id);
    }
    forall id | id in t.tasks
      ensures AtWork(tr', id, t.tasks[id].failures)
    {
      TasksStep(s, step, tr, id);
    }
    forall id | id in t.shots
      ensures RightAnswer(tr', id, t.shots[id])
    {
      ShotsStep(s, step, tr, id);
    }
    forall sid: SessionId
      ensures AcksRight(t, tr', sid)
    {
      if sid < |t.acks| {
        AcksStep(s, step, tr, sid);
      }
    }
  }

  lemma {:induction false} RunAnswers(s: State, steps: seq<Step>)
    requires Inv(s) && CanRun(s, steps) && AnswersInv(s, [])
    ensures AnswersInv(Run(s, steps), Trace(s, steps))
    decreases |steps|
  {
    if steps != [] {
      var init, last := steps[..|steps| - 1], steps[|steps| - 1];
      RunSplit(s, steps);
      RunAnswers(s, init);
      RunKeepsInv(s, init);
      AnswersStep(Run(s, init), last, Trace(s, init));
    }
  }

  lemma InitAnswers()
    ensures AnswersInv(INIT, [])
  {
  }

  lemma AnswersOfRun(steps: seq<Step>)
    requires CanRun(INIT, steps)
    ensures AnswersInv(Run(INIT, steps), Trace(INIT, steps))
  {
    InitInv();
    InitAnswers();
    RunAnswers(INIT, steps);
  }

  /**
   An ack says just what happened: it answers a frame of this very session under that frame's client id,
   and it says Persisted iff the first call that was answered, of at most four, said yes.
   */
  lemma AckSaysWhatHappened(steps: seq<Step>, sid: SessionId, k: Ack)
    requires CanRun(INIT, steps) && HasAcks(Run(INIT, steps), sid)
    requires k in Run(INIT, steps).acks[sid].queue || k in Run(INIT, steps).h.handed[sid]
    ensures RightAnswer(Trace(INIT, steps), k.id, k.status)
    ensures exists q :: IsFrame(steps, k.id, q) && q.origin == sid && q.client == k.client
  {
    var s := Run(INIT, steps);
    AnswersOfRun(steps);
    assert AcksRight(s, Trace(INIT, steps), sid);
    RunIsFrom(steps);
    AckIsRequest(s, sid, k);
    RequestsAreFrames(steps, k.id);
  }

  lemma AckIsRequest(s: State, sid: SessionId, k: Ack)
    requires Inv(s) && HasAcks(s, sid) && (k in s.acks[sid].queue || k in s.h.handed[sid])
    ensures k.id in s.reqs && s.reqs[k.id].origin == sid && s.reqs[k.id].client == k.client
  {
    assert AckQueueOk(s.reqs, s.writes, s.db, sid, s.acks[sid].queue);
    assert AckQueueOk(s.reqs, s.writes, s.db, sid, s.h.handed[sid]);
  }

  /** Likewise before its ack is queued, and until then the calls so far all broke. */
  lemma OneshotSaysWhatHappened(steps: seq<Step>, id: MsgId)
    requires CanRun(INIT, steps)
    ensures var s, tr := Run(INIT, steps), Trace(INIT, steps);
            && (id in s.shots ==> RightAnswer(tr, id, s.shots[id]))
            && (id in s.tasks ==> Calls(tr, id) == Breaks(s.tasks[id].failures) && s.tasks[id].failures <= 3)
            && (id !in s.reqs ==> Calls(tr, id) == [])
  {
    AnswersOfRun(steps);
    RunIsFrom(steps);
    if id !in Run(INIT, steps).reqs {
      assert Early(Run(INIT, steps), id);
    }
  }

  /** The calls of a task as the retry loop sees them. */
  function AttemptsOf(calls: seq<Outcome>): nat -> RetryLoop.Attempt {
    (i: nat) =>
      if i < |calls| && calls[i] == Yes then RetryLoop.Answered(true, true)
      else if i < |calls| && calls[i] == No then RetryLoop.Answered(false, false)
      else RetryLoop.Broken("", false)
  }

  /** The task of the protocol answers as the retry loop is proved to. */
  lemma AnswersAsPersist(tr: seq<Event>, id: MsgId, st: Status)
    requires RightAnswer(tr, id, st)
    ensures st == Persisted ==> exists n: nat :: RetryLoop.FirstAnswerIsYes(AttemptsOf(Calls(tr, id)), n)
    ensures st == Failed ==> !exists n: nat :: RetryLoop.FirstAnswerIsYes(AttemptsOf(Calls(tr, id)), n)
  {
    var calls := Calls(tr, id);
    if st == Persisted {
      var n := |calls| - 1;
      assert calls[n] == Yes && forall i :: 0 <= i < n ==> calls[i] == Broken;
      assert RetryLoop.FirstAnswerIsYes(AttemptsOf(calls), n);
    } else {
      assert forall n: nat :: n < |calls| ==> calls[n] != Yes;
      NeverYes(calls);
    }
  }

  lemma NeverYes(calls: seq<Outcome>)
    requires forall n: nat :: n < |calls| ==> calls[n] != Yes
    ensures forall n: nat :: !RetryLoop.FirstAnswerIsYes(AttemptsOf(calls), n)
  {
    forall n: nat
      ensures AttemptsOf(calls)(n) != RetryLoop.Answered(true, true)
    {
    }
  }
}
