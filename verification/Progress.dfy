/**
 No request is ever stuck: whatever order the router, the rooms and the persistence tasks work in, they
 run out of work, and then every request has its answer.
 */
module Progress {
  import opened Types
  import opened Protocol
  import opened Invariants
  import opened StepProof
  import opened Theorems

  /** The oneshot of request `id` has been resolved, whatever became of the ack afterwards. */
  predicate Answered(s: State, id: MsgId) {
    id in s.h.stage && (s.h.stage[id].AtShot? || s.h.stage[id].AtAcks? || s.h.stage[id].Handed? || s.h.stage[id].Lost?)
  }

  /** A step that gets something done: no client, connection or timer is involved, and no late commit. */
  predicate Works(step: Step) {
    || step.RouterStep? || step.RouterDeliver? || step.RoomStep? || step.RoomCast? || step.RoomSweep?
    || step.TaskSend? || step.ServerExecutes? || step.TransportFails? || step.TaskResolves?
  }

  ghost predicate HasWork(s: State)
    requires InRange(s)
  {
    exists step :: Works(step) && Enabled(s, step)
  }

  // ---- How much is left to do ----

  datatype Load = ByMail | ByPending

  function Pending(x: Actor): set<UserId> {
    if x.activity.Idle? then {} else x.activity.pending
  }

  function LoadOf(x: Actor, k: Load): nat {
    match k case ByMail => |x.mailbox| case ByPending => |Pending(x)|
  }

  function Total(actors: seq<Actor>, k: Load): nat {
    if actors == [] then 0 else Total(actors[..|actors| - 1], k) + LoadOf(actors[|actors| - 1], k)
  }

  lemma {:induction false} TotalSet(actors: seq<Actor>, a: ActorId, x: Actor, k: Load)
    requires a < |actors|
    ensures Total(actors[a := x], k) + LoadOf(actors[a], k) == Total(actors, k) + LoadOf(x, k)
    decreases |actors|
  {
    var init := actors[..|actors| - 1];
    if a == |init| {
      assert actors[a := x][..|init|] == init;
    } else {
      TotalSet(init, a, x, k);
      assert actors[a := x][..|init|] == init[a := x];
    }
  }

  function Left(p: TaskPhase): nat {
    match p case Ready => 2 case InFlight => 1 case Replied(_) => 0
  }

  /** What a task can still do before it resolves, at worst. */
  function Weight(tasks: map<MsgId, Task>, id: MsgId): nat {
    if id !in tasks then 0
    else if tasks[id].failures <= MAX_RETRIES then 3 * (MAX_RETRIES + 1 - tasks[id].failures) + Left(tasks[id].phase)
    else 1 + Left(tasks[id].phase)
  }

  function TaskWork(tasks: map<MsgId, Task>, ids: seq<MsgId>): nat {
    if ids == [] then 0 else TaskWork(tasks, ids[..|ids| - 1]) + Weight(tasks, ids[|ids| - 1])
  }

  lemma {:induction false} TaskWorkFalls(was: map<MsgId, Task>, tasks: map<MsgId, Task>, ids: seq<MsgId>, id: MsgId)
    requires Weight(tasks, id) < Weight(was, id) && forall j :: j != id ==> Weight(tasks, j) == Weight(was, j)
    ensures TaskWork(tasks, ids) <= TaskWork(was, ids)
    ensures id in ids ==> TaskWork(tasks, ids) < TaskWork(was, ids)
    decreases |ids|
  {
    if ids != [] {
      TaskWorkFalls(was, tasks, ids[..|ids| - 1], id);
    }
  }

  function Hand(s: State): nat {
    if s.hand.Some? then 1 else 0
  }

  /** `t` has less to do than `s`, counting what weighs most first. */
  predicate Less(t: State, s: State, ids: seq<MsgId>) {
    || |t.inbox| < |s.inbox|
    || (t.inbox == s.inbox &&
          (|| Hand(t) < Hand(s)
           || (t.hand == s.hand &&
                 (|| Total(t.actors, ByMail) < Total(s.actors, ByMail)
                  || (Total(t.actors, ByMail) == Total(s.actors, ByMail) &&
                        (|| Total(t.actors, ByPending) < Total(s.actors, ByPending)
                         || (t.actors == s.actors && TaskWork(t.tasks, ids) < TaskWork(s.tasks, ids))))))))
  }

  // ---- Every working step leaves less to do, and adds no request ----

  lemma DispatchWorks(s: State, m: RouterMsg, at: int)
    requires RouterMsgInRange(m, |s.sessions|)
    requires forall r :: r in s.router.rooms ==> s.router.rooms[r] < |s.actors|
    ensures var t := Dispatch(s, m, at); t.inbox == s.inbox && t.reqs == s.reqs
  {
  }

  lemma DeliverWorks(s: State)
    requires InRange(s) && s.hand.Some?
    ensures var t := DoDeliver(s); t.inbox == s.inbox && t.hand.None? && t.reqs == s.reqs
  {
  }

  lemma SendWorks(s: State, a: ActorId, x: Actor, m: RoomMsg, at: int)
    requires a < |s.actors| && a < |s.h.logs| && m.SendMessage?
    ensures var t := HandleSend(s, a, x, m.id, m.from, m.content, at);
            && t.inbox == s.inbox && t.hand == s.hand && t.reqs == s.reqs
            && t.actors == s.actors[a := t.actors[a]] && t.actors[a].mailbox == x.mailbox
  {
  }

  lemma MailWorks(s: State, a: ActorId, at: int)
    requires a < |s.actors| && a < |s.h.logs| && s.actors[a].mailbox != []
    ensures var t := DoRoomStep(s, a, at);
            && t.inbox == s.inbox && t.hand == s.hand && t.reqs == s.reqs
            && Total(t.actors, ByMail) < Total(s.actors, ByMail)
  {
    var x, m, t := PopMail(s.actors[a]), s.actors[a].mailbox[0], DoRoomStep(s, a, at);
    if m.SendMessage? {
      SendWorks(s, a, x, m, at);
    }
    assert t.actors == s.actors[a := t.actors[a]] && t.actors[a].mailbox == x.mailbox;
    TotalSet(s.actors, a, t.actors[a], ByMail);
  }

  /** The actor reaches one of the members it had pending. */
  lemma ReachWorks(actors: seq<Actor>, a: ActorId, x: Actor, u: UserId)
    requires a < |actors| && u in Pending(actors[a]) && x.mailbox == actors[a].mailbox
    requires Pending(x) == Pending(actors[a]) - {u}
    ensures Total(actors[a := x], ByMail) == Total(actors, ByMail)
    ensures Total(actors[a := x], ByPending) < Total(actors, ByPending)
  {
    TotalSet(actors, a, x, ByMail);
    TotalSet(actors, a, x, ByPending);
  }

  lemma CastWorks(s: State, a: ActorId, u: UserId)
    requires a < |s.actors| && s.actors[a].activity.Casting? && u in s.actors[a].members
    requires u in s.actors[a].activity.pending
    requires s.actors[a].members[u] < |s.chans| && s.actors[a].members[u] < |s.h.entered|
    ensures var t := DoCast(s, a, u);
            && t.inbox == s.inbox && t.hand == s.hand && t.reqs == s.reqs
            && Total(t.actors, ByMail) == Total(s.actors, ByMail)
            && Total(t.actors, ByPending) < Total(s.actors, ByPending)
  {
    var t := DoCast(s, a, u);
    assert t.actors == s.actors[a := t.actors[a]];
    ReachWorks(s.actors, a, t.actors[a], u);
  }

  lemma SweepWorks(s: State, a: ActorId, u: UserId)
    requires a < |s.actors| && s.actors[a].activity.Sweeping? && u in s.actors[a].members
    requires u in s.actors[a].activity.pending
    requires s.actors[a].members[u] < |s.chans|
    ensures var t := DoSweep(s, a, u);
            && t.inbox == s.inbox && t.hand == s.hand && t.reqs == s.reqs
            && Total(t.actors, ByMail) == Total(s.actors, ByMail)
            && Total(t.actors, ByPending) < Total(s.actors, ByPending)
  {
    var t := DoSweep(s, a, u);
    assert t.actors == s.actors[a := t.actors[a]];
    ReachWorks(s.actors, a, t.actors[a], u);
  }

  /** A task takes up its call, hears from the server, tries again or resolves. */
  ghost predicate TaskMoved(s: State, t: State, id: MsgId) {
    && t.inbox == s.inbox && t.hand == s.hand && t.reqs == s.reqs && t.actors == s.actors
    && Weight(t.tasks, id) < Weight(s.tasks, id) && forall j :: j != id ==> Weight(t.tasks, j) == Weight(s.tasks, j)
  }

  lemma SetTaskWorks(s: State, id: MsgId, k: Task)
    requires id in s.tasks && k.failures == s.tasks[id].failures && Left(k.phase) < Left(s.tasks[id].phase)
    ensures TaskMoved(s, SetTask(s, id, k), id)
  {
  }

  lemma ExecuteWorks(s: State, id: MsgId, ok: bool)
    requires id in s.tasks && id in s.writes && s.tasks[id].phase.InFlight?
    ensures TaskMoved(s, DoExecute(s, id, ok), id)
  {
  }

  lemma ResolveWorks(s: State, id: MsgId, r: Status)
    requires id in s.tasks
    ensures TaskMoved(s, Resolve(s, id, r), id)
  {
  }

  lemma CallWorks(s: State, step: Step)
    requires InRange(s) && Enabled(s, step) && (step.TaskSend? || step.ServerExecutes? || step.TaskResolves?)
    ensures TaskMoved(s, Apply(s, step), step.id)
  {
    match step {
      case TaskSend(id) => SetTaskWorks(s, id, s.tasks[id].(phase := InFlight));
      case ServerExecutes(id, ok) => ExecuteWorks(s, id, ok);
      case TaskResolves(id) => ResolveWorks(s, id, if s.tasks[id].phase.success then Persisted else Failed);
    }
  }

  lemma RetryWorks(s: State, id: MsgId)
    requires id in s.tasks && s.tasks[id].failures <= MAX_RETRIES && !s.tasks[id].phase.Ready?
    ensures TaskMoved(s, Retry(s, id), id)
  {
  }

  lemma FailureWorks(s: State, step: Step)
    requires InRange(s) && Enabled(s, step) && step.TransportFails? && s.tasks[step.id].failures <= MAX_RETRIES
    ensures TaskMoved(s, Apply(s, step), step.id)
  {
    var p := Abandon(s, step.id);
    assert p.tasks == s.tasks && p.inbox == s.inbox && p.hand == s.hand && p.reqs == s.reqs && p.actors == s.actors;
    RetryWorks(p, step.id);
  }

  ghost predicate Lists(ids: seq<MsgId>, reqs: map<MsgId, Request>) {
    forall id :: id in reqs ==> id in ids
  }

  lemma TaskStepWorks(s: State, step: Step, ids: seq<MsgId>)
    requires Inv(s) && Enabled(s, step) && Lists(ids, s.reqs)
    requires step.TaskSend? || step.ServerExecutes? || step.TransportFails? || step.TaskResolves?
    ensures Less(Apply(s, step), s, ids) && Apply(s, step).reqs == s.reqs
  {
    assert step.id in s.h.stage && step.id in s.reqs && s.tasks[step.id].failures <= MAX_RETRIES;
    if step.TransportFails? {
      FailureWorks(s, step);
    } else {
      CallWorks(s, step);
    }
    TaskWorkFalls(s.tasks, Apply(s, step).tasks, ids, step.id);
  }

  lemma ActorStepWorks(s: State, step: Step, ids: seq<MsgId>)
    requires InRange(s) && Enabled(s, step) && Works(step)
    requires step.RouterStep? || step.RouterDeliver? || step.RoomStep? || step.RoomCast? || step.RoomSweep?
    ensures Less(Apply(s, step), s, ids) && Apply(s, step).reqs == s.reqs
  {
    if
    case step.RouterStep? => DispatchWorks(PopInbox(s), s.inbox[0], step.at);
    case step.RouterDeliver? => DeliverWorks(s);
    case step.RoomStep? => MailWorks(s, step.actor, step.at);
    case step.RoomCast? =>
      assert ActorInRange(s.actors[step.actor], |s.sessions|);
      CastWorks(s, step.actor, step.user);
    case step.RoomSweep? =>
      assert ActorInRange(s.actors[step.actor], |s.sessions|);
      SweepWorks(s, step.actor, step.user);
  }

  lemma WorkFalls(s: State, step: Step, ids: seq<MsgId>)
    requires Inv(s) && Enabled(s, step) && Works(step) && Lists(ids, s.reqs)
    ensures Less(Apply(s, step), s, ids) && Apply(s, step).reqs == s.reqs
  {
    if step.TaskSend? || step.ServerExecutes? || step.TransportFails? || step.TaskResolves? {
      TaskStepWorks(s, step, ids);
    } else {
      ActorStepWorks(s, step, ids);
    }
  }

  // ---- A request without an answer is work for somebody ----

  lemma RouterWork(s: State, id: MsgId) returns (step: Step)
    requires Inv(s) && id in s.h.stage && s.h.stage[id].AtRouter?
    ensures Works(step) && Enabled(s, step)
  {
    assert Holds(Tags(s.inbox, AllSends), s.h.stage, AtRouter);
    step := if s.hand.Some? then RouterDeliver else RouterStep(0);
  }

  lemma RoomWork(s: State, id: MsgId, a: ActorId) returns (step: Step)
    requires Inv(s) && id in s.h.stage && s.h.stage[id] == AtRoom(a)
    ensures Works(step) && Enabled(s, step)
  {
    var x := s.actors[a];
    assert ActorInRange(x, |s.sessions|) && Holds(SendIds(x.mailbox), s.h.stage, AtRoom(a)) && x.alive;
    if AtRest(x) {
      step := RoomStep(a, 0);
    } else {
      var u :| u in x.activity.pending;
      step := if x.activity.Casting? then RoomCast(a, u) else RoomSweep(a, u);
    }
  }

  lemma TaskWorkLeft(s: State, id: MsgId) returns (step: Step)
    requires Inv(s) && id in s.h.stage && s.h.stage[id].AtTask?
    ensures Works(step) && Enabled(s, step)
  {
    assert id in s.tasks;
    step := match s.tasks[id].phase
            case Ready => TaskSend(id) case InFlight => ServerExecutes(id, true) case Replied(_) => TaskResolves(id);
  }

  lemma UnansweredIsWork(s: State, id: MsgId)
    requires Inv(s) && id in s.reqs && !Answered(s, id)
    ensures HasWork(s)
  {
    assert id in s.h.stage && !s.h.stage[id].Dropped?;
    var step;
    match s.h.stage[id] {
      case AtRouter => step := RouterWork(s, id);
      case AtRoom(a) => step := RoomWork(s, id, a);
      case AtTask => step := TaskWorkLeft(s, id);
    }
    assert Works(step) && Enabled(s, step);
  }

  // ---- Any order of work comes to an end with every request answered ----

  /** What to do in a state at a time. */
  type Schedule = (State, nat) -> Step

  /** Whenever there is work, the schedule picks some of it. */
  ghost predicate Diligent(pick: Schedule) {
    forall s, n :: Inv(s) && HasWork(s) ==> Works(pick(s, n)) && Enabled(s, pick(s, n))
  }

  /** `steps` is what the schedule does from `s`, at time `n`, until no work is left. */
  ghost predicate WorksOff(s: State, steps: seq<Step>, pick: Schedule, n: nat)
    requires CanRun(s, steps)
    decreases |steps|
  {
    InRange(s) &&
    if steps == [] then !HasWork(s)
    else HasWork(s) && steps[0] == pick(s, n) && WorksOff(Apply(s, steps[0]), steps[1..], pick, n + 1)
  }

  ghost predicate AllAnswered(s: State) {
    forall id :: id in s.reqs ==> Answered(s, id)
  }

  lemma QuietIsAnswered(s: State)
    requires Inv(s) && !HasWork(s)
    ensures AllAnswered(s)
  {
    forall id | id in s.reqs
      ensures Answered(s, id)
    {
      if !Answered(s, id) {
        UnansweredIsWork(s, id);
      }
    }
  }

  lemma WorkFirst(s: State, pick: Schedule, n: nat, ids: seq<MsgId>)
    requires Inv(s) && Lists(ids, s.reqs) && Diligent(pick) && HasWork(s)
    ensures Enabled(s, pick(s, n))
    ensures var t := Apply(s, pick(s, n)); Inv(t) && Less(t, s, ids) && t.reqs == s.reqs
  {
    WorkFalls(s, pick(s, n), ids);
    InvStep(s, pick(s, n));
  }

  lemma WorkThen(s: State, rest: seq<Step>, pick: Schedule, n: nat)
    requires InRange(s) && HasWork(s) && Enabled(s, pick(s, n))
    requires CanRun(Apply(s, pick(s, n)), rest) && WorksOff(Apply(s, pick(s, n)), rest, pick, n + 1)
    ensures CanRun(s, [pick(s, n)] + rest) && WorksOff(s, [pick(s, n)] + rest, pick, n)
  {
    assert ([pick(s, n)] + rest)[1..] == rest;
  }

  lemma {:induction false} WorkEnds(s: State, pick: Schedule, n: nat,
                                    ids: seq<MsgId>) returns (steps: seq<Step>)
    requires Inv(s) && Lists(ids, s.reqs) && Diligent(pick)
    ensures CanRun(s, steps) && WorksOff(s, steps, pick, n)
    decreases |s.inbox|, Hand(s), Total(s.actors, ByMail), Total(s.actors, ByPending), TaskWork(s.tasks, ids)
  {
    if !HasWork(s) {
      steps := [];
    } else {
      WorkFirst(s, pick, n, ids);
      var rest := WorkEnds(Apply(s, pick(s, n)), pick, n + 1, ids);
      WorkThen(s, rest, pick, n);
      steps := [pick(s, n)] + rest;
    }
  }

  lemma {:induction false} WorkedOff(s: State, steps: seq<Step>, pick: Schedule, n: nat, ids: seq<MsgId>)
    requires Inv(s) && Lists(ids, s.reqs) && Diligent(pick) && CanRun(s, steps) && WorksOff(s, steps, pick, n)
    ensures Run(s, steps).reqs == s.reqs && AllAnswered(Run(s, steps))
    decreases |steps|
  {
    if steps == [] {
      QuietIsAnswered(s);
    } else {
      WorkFirst(s, pick, n, ids);
      WorkedOff(Apply(s, steps[0]), steps[1..], pick, n + 1, ids);
    }
  }

  datatype Boxed = Boxed(id: MsgId)

  lemma {:induction false} ListAll(bs: set<Boxed>) returns (ids: seq<MsgId>)
    ensures forall b :: b in bs ==> b.id in ids
    decreases |bs|
  {
    if bs == {} {
      ids := [];
    } else {
      var b :| b in bs;
      var rest := ListAll(bs - {b});
      ids := [b.id] + rest;
    }
  }

  lemma ListRequests(reqs: map<MsgId, Request>) returns (ids: seq<MsgId>)
    ensures Lists(ids, reqs)
  {
    var bs := set id | id in reqs :: Boxed(id);
    ids := ListAll(bs);
    forall id | id in reqs
      ensures id in ids
    {
      assert Boxed(id) in bs;
    }
  }

  /**
   From every reachable state, whatever the clients do next is not needed: every schedule of the router,
   the rooms and the tasks that works while there is work comes to an end, and then every request that
   was ever accepted has its answer.
   */
  lemma EveryScheduleAnswers(s: State, pick: Schedule) returns (steps: seq<Step>)
    requires Reachable(s) && Diligent(pick)
    ensures CanRun(s, steps) && WorksOff(s, steps, pick, 0) && Run(s, steps).reqs == s.reqs
    ensures AllAnswered(Run(s, steps))
  {
    ReachableInv(s);
    var ids := ListRequests(s.reqs);
    steps := WorkEnds(s, pick, 0, ids);
    WorkedOff(s, steps, pick, 0, ids);
  }

  /** There are such schedules, so from every reachable state every request can still be answered. */
  lemma EveryRequestCanBeAnswered(s: State)
    requires Reachable(s)
    ensures exists steps :: CanRun(s, steps) && Run(s, steps).reqs == s.reqs && AllAnswered(Run(s, steps))
  {
    var pick := (t: State, n: nat) => Choice(t);
    var steps := EveryScheduleAnswers(s, pick);
  }

  ghost function Choice(s: State): Step {
    if InRange(s) && HasWork(s) then (var step :| Works(step) && Enabled(s, step); step) else RouterDeliver
  }
}
