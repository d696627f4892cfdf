/**
 Sessions, the router, room actors, persistence tasks and the store as one interleaved
 transition system.

 Every step is one uninterrupted action of one task on the shared queues.  A broadcast, a
 cleanup sweep and the hand-over of a direct message are split at each channel access, because
 other tasks push into the same channels meanwhile.  `Apply` is deterministic: whatever the
 environment chooses (frames, fresh ids, failures, clock readings, which member comes next) is
 part of the step.

 The fields of `History` and the `origin` tag of an UnregisterUser are bookkeeping: no step reads
 them to decide anything.
 */
module Protocol {
  import opened Types
  import opened Channels
  import opened Registry
  import opened Store

  // ---- Sessions ----

  /**
   `Registering` to `Accepted` or `Refused` is the handshake; `Leaving` has queued its Unregister; `Gone` had it
   handled.
   */
  datatype Phase = Registering | Refused | Accepted | Running | Leaving | Gone

  /** `receiving`: the receive task is still handling frames. */
  datatype Session = Session(user: UserId, phase: Phase, receiving: bool)

  datatype Kind = Direct(conv: string, to: UserId) | ToRoom(room: RoomId)

  /** One accepted client frame: what was asked, and what the ack task it spawned remembers. */
  datatype Request = Request(origin: SessionId, client: ClientId, from: UserId, kind: Kind, content: string)

  // ---- Mailboxes ----

  /** Senders are named by their session; the tag of an unregistration is the session it came from. */
  type RouterMsg = RouterMail<SessionId>
  type RoomMsg = RoomMail<SessionId>

  /** The second half of a direct message: the router is about to try the recipient's channel. */
  datatype Delivery = Delivery(to: UserId, msg: ChatMessage)

  // ---- Room actors ----

  /** What the actor is in the middle of; `pending` are the members it has not reached yet. */
  datatype Activity =
    | Idle
    | Casting(msg: ChatMessage, pending: set<UserId>)
    | Sweeping(pending: set<UserId>)

  datatype Actor = Actor(
    room: RoomId,
    mailbox: seq<RoomMsg>,
    members: map<UserId, SessionId>,
    activity: Activity,
    alive: bool)

  predicate AtRest(a: Actor) {
    a.alive && (a.activity.Idle? || a.activity.pending == {})
  }

  // ---- Persistence tasks ----

  datatype TaskPhase = Ready | InFlight | Replied(success: bool)

  datatype Task = Task(failures: nat, phase: TaskPhase)

  function Again(t: Task): Task {
    Task(t.failures + 1, Ready)
  }

  // ---- The whole system ----

  /** Where a request stands; `Dropped` is the branch that loses it without an ack. */
  datatype Stage = AtRouter | AtRoom(actor: ActorId) | AtTask | AtShot | AtAcks | Handed | Lost | Dropped

  datatype History = History(
    entered: seq<seq<ChatMessage>>,  // per session: everything its channel ever accepted
    shown: seq<seq<ChatMessage>>,    // per session: chat frames written to the socket
    sent: seq<seq<MsgId>>,           // per session: server ids it minted, in order
    handed: seq<seq<Ack>>,           // per session: acks written to the socket
    logs: seq<seq<MsgId>>,           // per actor: room messages processed, in order
    stage: map<MsgId, Stage>)

  datatype State = State(
    router: Router<SessionId, ActorId>,
    inbox: seq<RouterMsg>,
    hand: Option<Delivery>,
    sessions: seq<Session>,
    chans: seq<Chan<ChatMessage>>,
    acks: seq<Chan<Ack>>,
    actors: seq<Actor>,
    reqs: map<MsgId, Request>,
    writes: map<MsgId, Write>,       // the gRPC body an id's persistence task captured
    tasks: map<MsgId, Task>,
    shots: map<MsgId, Status>,       // resolved oneshots whose ack task has not run yet
    orphans: set<MsgId>,             // abandoned or errored attempts that may still commit
    db: Tables,
    h: History)

  const INIT := State(Router(map[], [], map[]), [], None, [], [], [], [],
                      map[], map[], map[], map[], {}, EMPTY, History([], [], [], [], [], map[]))

  datatype Step =
    | Connect(user: UserId)
    | Start(sid: SessionId)
    | FrameDirect(sid: SessionId, id: MsgId, client: ClientId, conv: string, to: UserId, content: string)
    | FrameRoom(sid: SessionId, id: MsgId, client: ClientId, room: RoomId, from: UserId, content: string)
    | FrameJoin(sid: SessionId, room: RoomId)
    | ReceiveEnds(sid: SessionId)
    | SendEnds(sid: SessionId)
    | SendUnregister(sid: SessionId)
    | WriteChat(sid: SessionId, ok: bool)
    | WriteAck(sid: SessionId, ok: bool)
    | RouterStep(at: int)
    | RouterDeliver
    | ExternalLeave(user: UserId, room: RoomId)
    | RoomStep(actor: ActorId, at: int)
    | RoomCast(actor: ActorId, user: UserId)
    | RoomTick(actor: ActorId)
    | RoomSweep(actor: ActorId, user: UserId)
    | RoomStops(actor: ActorId)
    | TaskSend(id: MsgId)
    | ServerExecutes(id: MsgId, ok: bool)
    | TransportFails(id: MsgId)
    | OrphanCommits(id: MsgId)
    | TaskResolves(id: MsgId)
    | AckPush(id: MsgId)

  // ---- Handles always point at something ----

  predicate RouterMsgInRange(m: RouterMsg, n: nat) {
    match m
    case RegisterUser(_, c) => c < n
    case UnregisterUser(_, c) => c < n
    case JoinRoom(_, _, c) => c < n
    case _ => true
  }

  predicate RoomMsgInRange(m: RoomMsg, n: nat) {
    m.AddMember? ==> m.chan < n
  }

  ghost predicate ActorInRange(a: Actor, n: nat) {
    && (forall i :: 0 <= i < |a.mailbox| ==> RoomMsgInRange(a.mailbox[i], n))
    && (forall u :: u in a.members ==> a.members[u] < n)
    && (!a.activity.Idle? ==> a.activity.pending <= a.members.Keys)
  }

  ghost predicate Sized(s: State) {
    && |s.chans| == |s.sessions|
    && |s.acks| == |s.sessions|
    && |s.h.entered| == |s.sessions|
    && |s.h.shown| == |s.sessions|
    && |s.h.sent| == |s.sessions|
    && |s.h.handed| == |s.sessions|
    && |s.h.logs| == |s.actors|
  }

  ghost predicate RouterInRange(r: Router<SessionId, ActorId>, n: nat, k: nat) {
    && (forall u :: u in r.users ==> r.users[u] < n)
    && (forall room :: room in r.rooms ==> r.rooms[room] < k)
  }

  ghost predicate InboxInRange(inbox: seq<RouterMsg>, n: nat) {
    forall i :: 0 <= i < |inbox| ==> RouterMsgInRange(inbox[i], n)
  }

  ghost predicate ActorsInRange(actors: seq<Actor>, n: nat) {
    forall a :: 0 <= a < |actors| ==> ActorInRange(actors[a], n)
  }

  ghost predicate IdsKnown(reqs: map<MsgId, Request>, writes: map<MsgId, Write>, tasks: map<MsgId, Task>,
                           shots: map<MsgId, Status>, orphans: set<MsgId>, n: nat)
  {
    && (forall id :: id in reqs ==> reqs[id].origin < n)
    && (forall id :: id in tasks ==> id in writes)
    && (forall id :: id in orphans ==> id in writes)
    && (forall id :: id in shots ==> id in reqs)
  }

  ghost predicate InRange(s: State) {
    && Sized(s)
    && RouterInRange(s.router, |s.sessions|, |s.actors|)
    && InboxInRange(s.inbox, |s.sessions|)
    && ActorsInRange(s.actors, |s.sessions|)
    && IdsKnown(s.reqs, s.writes, s.tasks, s.shots, s.orphans, |s.sessions|)
  }

  // ---- When a step may happen ----

  predicate Ran(p: Phase) {
    p.Running? || p.Leaving? || p.Gone?
  }

  /** The send task runs: it alone holds both receivers of the session. */
  predicate Sends(s: State, sid: SessionId) {
    sid < |s.sessions| && sid < |s.chans| && Ran(s.sessions[sid].phase) && s.chans[sid].open
  }

  predicate Receives(s: State, sid: SessionId) {
    sid < |s.sessions| && s.sessions[sid].receiving
  }

  ghost predicate Enabled(s: State, step: Step)
    requires InRange(s)
  {
    match step
    case Connect(_) => true
    case Start(sid) => sid < |s.sessions| && s.sessions[sid].phase.Accepted?
    case FrameDirect(sid, id, _, _, _, _) => Receives(s, sid) && id !in s.reqs
    case FrameRoom(sid, id, _, _, _, _) => Receives(s, sid) && id !in s.reqs
    case FrameJoin(sid, _) => Receives(s, sid)
    case ReceiveEnds(sid) => Receives(s, sid)
    case SendEnds(sid) => Sends(s, sid)
    case SendUnregister(sid) =>
      sid < |s.sessions| && s.sessions[sid].phase.Running? && (!s.sessions[sid].receiving || !s.chans[sid].open)
    case WriteChat(sid, _) => Sends(s, sid) && s.chans[sid].queue != []
    case WriteAck(sid, _) => Sends(s, sid) && s.acks[sid].queue != []
    case RouterStep(_) => s.hand.None? && s.inbox != []
    case RouterDeliver => s.hand.Some?
    case ExternalLeave(_, _) => true
    case RoomStep(a, _) => a < |s.actors| && AtRest(s.actors[a]) && s.actors[a].mailbox != []
    case RoomCast(a, u) => a < |s.actors| && s.actors[a].activity.Casting? && u in s.actors[a].activity.pending
    case RoomTick(a) => a < |s.actors| && AtRest(s.actors[a])
    case RoomSweep(a, u) => a < |s.actors| && s.actors[a].activity.Sweeping? && u in s.actors[a].activity.pending
    // the actor's loop ends only once every handle of its mailbox is gone
    case RoomStops(a) =>
      a < |s.actors| && AtRest(s.actors[a]) && s.actors[a].mailbox == [] && a !in s.router.rooms.Values
    case TaskSend(id) => id in s.tasks && s.tasks[id].phase.Ready?
    case ServerExecutes(id, _) => id in s.tasks && s.tasks[id].phase.InFlight?
    case TransportFails(id) => id in s.tasks && !s.tasks[id].phase.Ready?
    case OrphanCommits(id) => id in s.orphans
    case TaskResolves(id) => id in s.tasks && s.tasks[id].phase.Replied?
    case AckPush(id) => id in s.shots && (var c := s.acks[s.reqs[id].origin]; !c.open || |c.queue| < CAPACITY)
  }

  // ---- Session steps ----

  function DoConnect(s: State, u: UserId): State {
    s.(sessions := s.sessions + [Session(u, Registering, false)],
       chans := s.chans + [Chan([], true)],
       acks := s.acks + [Chan([], false)],
       inbox := s.inbox + [RegisterUser(u, |s.sessions|)],
       h := s.h.(entered := s.h.entered + [[]], shown := s.h.shown + [[]],
                 sent := s.h.sent + [[]], handed := s.h.handed + [[]]))
  }

  function SetPhase(ss: seq<Session>, sid: SessionId, p: Phase): seq<Session>
    requires sid < |ss|
  {
    ss[sid := ss[sid].(phase := p)]
  }

  function DoStart(s: State, sid: SessionId): State
    requires sid < |s.sessions| && sid < |s.acks|
  {
    s.(sessions := s.sessions[sid := s.sessions[sid].(phase := Running, receiving := true)],
       acks := s.acks[sid := s.acks[sid].(open := true)])
  }

  function Mint(s: State, id: MsgId, req: Request, msg: RouterMsg): State
    requires req.origin < |s.h.sent|
  {
    s.(inbox := s.inbox + [msg],
       reqs := s.reqs[id := req],
       h := s.h.(sent := s.h.sent[req.origin := s.h.sent[req.origin] + [id]], stage := s.h.stage[id := AtRouter]))
  }

  function DoFrameDirect(s: State, sid: SessionId, id: MsgId, client: ClientId, conv: string, to: UserId,
                         content: string): State
    requires sid < |s.sessions| && sid < |s.h.sent|
  {
    var u := s.sessions[sid].user;
    Mint(s, id, Request(sid, client, u, Direct(conv, to), content), SendDirectMessage(id, conv, u, to, content))
  }

  /** A frame whose `from` is not the session's own user is refused before anything is sent. */
  function DoFrameRoom(s: State, sid: SessionId, id: MsgId, client: ClientId, room: RoomId, from: UserId,
                       content: string): State
    requires sid < |s.sessions| && sid < |s.h.sent|
  {
    if from != s.sessions[sid].user then s else
      Mint(s, id, Request(sid, client, from, ToRoom(room), content), SendRoomMessage(id, room, from, content))
  }

  function DoFrameJoin(s: State, sid: SessionId, room: RoomId): State
    requires sid < |s.sessions|
  {
    s.(inbox := s.inbox + [JoinRoom(s.sessions[sid].user, room, sid)])
  }

  function AckIds(q: seq<Ack>): (r: seq<MsgId>)
    ensures |r| == |q| && forall i :: 0 <= i < |q| ==> r[i] == q[i].id
  {
    seq(|q|, i requires 0 <= i < |q| => q[i].id)
  }

  /** The acks still queued are lost with their receiver. */
  function LoseAcks(stage: map<MsgId, Stage>, q: seq<Ack>): map<MsgId, Stage> {
    map id | id in stage :: if id in AckIds(q) then Lost else stage[id]
  }

  /** The send task ends and drops both receivers. */
  function CloseSend(s: State, sid: SessionId): State
    requires sid < |s.chans| && sid < |s.acks|
  {
    s.(chans := s.chans[sid := Chan([], false)],
       acks := s.acks[sid := Chan([], false)],
       h := s.h.(stage := LoseAcks(s.h.stage, s.acks[sid].queue)))
  }

  function DoSendUnregister(s: State, sid: SessionId): State
    requires sid < |s.sessions|
  {
    s.(sessions := SetPhase(s.sessions, sid, Leaving),
       inbox := s.inbox + [UnregisterUser(s.sessions[sid].user, sid)])
  }

  function PopChat(s: State, sid: SessionId, ok: bool): State
    requires sid < |s.chans| && sid < |s.h.shown| && s.chans[sid].queue != []
  {
    var c := s.chans[sid];
    s.(chans := s.chans[sid := c.(queue := c.queue[1..])],
       h := if ok then s.h.(shown := s.h.shown[sid := s.h.shown[sid] + [c.queue[0]]]) else s.h)
  }

  /** A failed socket write loses the popped frame and ends the send task. */
  function DoWriteChat(s: State, sid: SessionId, ok: bool): State
    requires sid < |s.chans| && sid < |s.acks| && sid < |s.h.shown| && s.chans[sid].queue != []
  {
    if ok then PopChat(s, sid, true) else CloseSend(PopChat(s, sid, false), sid)
  }

  function PopAck(s: State, sid: SessionId): State
    requires sid < |s.acks| && sid < |s.h.handed| && s.acks[sid].queue != []
  {
    var c := s.acks[sid];
    s.(acks := s.acks[sid := c.(queue := c.queue[1..])],
       h := s.h.(handed := s.h.handed[sid := s.h.handed[sid] + [c.queue[0]]],
                 stage := s.h.stage[c.queue[0].id := Handed]))
  }

  function DoWriteAck(s: State, sid: SessionId, ok: bool): State
    requires sid < |s.chans| && sid < |s.acks| && sid < |s.h.handed| && s.acks[sid].queue != []
  {
    if ok then PopAck(s, sid) else CloseSend(s, sid)
  }

  // ---- Router steps ----

  function Spawn(s: State, id: MsgId, w: Write): State {
    s.(writes := s.writes[id := w], tasks := s.tasks[id := Task(0, Ready)], h := s.h.(stage := s.h.stage[id := AtTask]))
  }

  function HandleRegister(s: State, u: UserId, c: SessionId): State
    requires c < |s.sessions|
  {
    s.(router := Register(s.router, u, c),
       sessions := SetPhase(s.sessions, c, if u in s.router.users then Refused else Accepted))
  }

  function HandleUnregister(s: State, u: UserId, origin: SessionId): State
    requires origin < |s.sessions|
  {
    s.(router := Unregister(s.router, u), sessions := SetPhase(s.sessions, origin, Gone))
  }

  function HandleDirect(s: State, m: RouterMsg, at: int): State
    requires m.SendDirectMessage?
  {
    Spawn(s, m.id, DmBody(m.id, m.conv, m.from, m.to, m.content, at))
      .(hand := Some(Delivery(m.to, DirectMessage(m.from, m.content, m.id))))
  }

  /** Sending to a room whose actor is gone fails, and the message is dropped. */
  function PushRoom(actors: seq<Actor>, a: ActorId, m: RoomMsg): seq<Actor>
    requires a < |actors|
  {
    if actors[a].alive then actors[a := actors[a].(mailbox := actors[a].mailbox + [m])] else actors
  }

  function OpenRoom(s: State, room: RoomId): State {
    if room in s.router.rooms then s else
      s.(router := s.router.(rooms := s.router.rooms[room := |s.actors|]),
         actors := s.actors + [Actor(room, [], map[], Idle, true)],
         h := s.h.(logs := s.h.logs + [[]]))
  }

  function HandleJoin(s: State, u: UserId, room: RoomId, c: SessionId): State
    requires room in s.router.rooms ==> s.router.rooms[room] < |s.actors|
  {
    var t := OpenRoom(s, room);
    t.(actors := PushRoom(t.actors, t.router.rooms[room], AddMember(u, c)))
  }

  function HandleLeave(s: State, u: UserId, room: RoomId): State
    requires room in s.router.rooms ==> s.router.rooms[room] < |s.actors|
  {
    if room in s.router.rooms then s.(actors := PushRoom(s.actors, s.router.rooms[room], RemoveMember(u))) else s
  }

  function HandleRoom(s: State, m: RouterMsg): State
    requires m.SendRoomMessage?
    requires m.room in s.router.rooms ==> s.router.rooms[m.room] < |s.actors|
  {
    if m.room !in s.router.rooms then
      s.(shots := s.shots[m.id := Failed], h := s.h.(stage := s.h.stage[m.id := AtShot]))
    else
      var a := s.router.rooms[m.room];
      s.(actors := PushRoom(s.actors, a, SendMessage(m.id, m.from, m.content)),
         h := s.h.(stage := s.h.stage[m.id := if s.actors[a].alive then AtRoom(a) else Dropped]))
  }

  function Dispatch(s: State, m: RouterMsg, at: int): State
    requires RouterMsgInRange(m, |s.sessions|)
    requires forall r :: r in s.router.rooms ==> s.router.rooms[r] < |s.actors|
  {
    match m
    case RegisterUser(u, c) => HandleRegister(s, u, c)
    case UnregisterUser(u, origin) => HandleUnregister(s, u, origin)
    case SendDirectMessage(_, _, _, _, _) => HandleDirect(s, m, at)
    case SendRoomMessage(_, _, _, _) => HandleRoom(s, m)
    case JoinRoom(u, room, c) => HandleJoin(s, u, room, c)
    case LeaveRoom(u, room) => HandleLeave(s, u, room)
  }

  function PopInbox(s: State): State
    requires s.inbox != []
  {
    s.(inbox := s.inbox[1..])
  }

  /** One `try_send` into session `c`'s channel. */
  function Push(s: State, c: SessionId, m: ChatMessage): State
    requires c < |s.chans| && c < |s.h.entered|
  {
    s.(chans := s.chans[c := Offer(s.chans[c], m)],
       h := if HasRoom(s.chans[c]) then s.h.(entered := s.h.entered[c := s.h.entered[c] + [m]]) else s.h)
  }

  function DoDeliver(s: State): State
    requires s.hand.Some?
    requires forall u :: u in s.router.users ==> s.router.users[u] < |s.chans| && s.router.users[u] < |s.h.entered|
  {
    var d := s.hand.value;
    (if d.to in s.router.users then Push(s, s.router.users[d.to], d.msg) else s).(hand := None)
  }

  // ---- Room steps ----

  function SetActor(s: State, a: ActorId, x: Actor): State
    requires a < |s.actors|
  {
    s.(actors := s.actors[a := x])
  }

  function PopMail(x: Actor): Actor
    requires x.mailbox != []
  {
    x.(mailbox := x.mailbox[1..], activity := Idle)
  }

  /** The task is spawned first; then the broadcast starts, with every member still to reach. */
  function HandleSend(s: State, a: ActorId, x: Actor, id: MsgId, from: UserId, content: string, at: int): State
    requires a < |s.actors| && a < |s.h.logs|
  {
    Spawn(s.(actors := s.actors[a := x.(activity := Casting(RoomMessage(x.room, from, content, id), x.members.Keys))],
             h := s.h.(logs := s.h.logs[a := s.h.logs[a] + [id]])),
          id, RoomBody(id, x.room, from, content, at))
  }

  function DoRoomStep(s: State, a: ActorId, at: int): State
    requires a < |s.actors| && a < |s.h.logs| && s.actors[a].mailbox != []
  {
    var x := PopMail(s.actors[a]);
    match s.actors[a].mailbox[0]
    case AddMember(u, c) => SetActor(s, a, x.(members := AddMemberTo(x.members, u, c)))
    case RemoveMember(u) => SetActor(s, a, x.(members := x.members - {u}))
    case SendMessage(id, from, content) => HandleSend(s, a, x, id, from, content, at)
  }

  function DoCast(s: State, a: ActorId, u: UserId): State
    requires a < |s.actors| && s.actors[a].activity.Casting? && u in s.actors[a].members
    requires s.actors[a].members[u] < |s.chans| && s.actors[a].members[u] < |s.h.entered|
  {
    var x := s.actors[a];
    var y := x.(activity := Casting(x.activity.msg, x.activity.pending - {u}));
    SetActor(Push(s, x.members[u], x.activity.msg), a, y)
  }

  function DoTick(s: State, a: ActorId): State
    requires a < |s.actors|
  {
    SetActor(s, a, s.actors[a].(activity := Sweeping(s.actors[a].members.Keys)))
  }

  /** One entry of `retain`: it stays exactly when its channel is open. */
  function DoSweep(s: State, a: ActorId, u: UserId): State
    requires a < |s.actors| && s.actors[a].activity.Sweeping? && u in s.actors[a].members
    requires s.actors[a].members[u] < |s.chans|
  {
    var x := s.actors[a];
    SetActor(s, a, x.(members := if s.chans[x.members[u]].open then x.members else x.members - {u},
                      activity := Sweeping(x.activity.pending - {u})))
  }

  // ---- Persistence steps ----

  function SetTask(s: State, id: MsgId, t: Task): State {
    s.(tasks := s.tasks[id := t])
  }

  function Resolve(s: State, id: MsgId, r: Status): State {
    s.(tasks := s.tasks - {id}, shots := s.shots[id := r], h := s.h.(stage := s.h.stage[id := AtShot]))
  }

  /** The chat service validates, runs the batch and answers; an errored batch may still commit later. */
  function DoExecute(s: State, id: MsgId, ok: bool): State
    requires id in s.tasks && id in s.writes
  {
    if !Accepts(s.writes[id]) then SetTask(s, id, s.tasks[id].(phase := Replied(false)))
    else if ok then SetTask(s, id, s.tasks[id].(phase := Replied(true))).(db := Execute(s.db, s.writes[id]))
    else SetTask(s, id, s.tasks[id].(phase := Replied(false))).(orphans := s.orphans + {id})
  }

  /** The caller gives up on an attempt that the server may still carry out. */
  function Abandon(s: State, id: MsgId): State
    requires id in s.tasks && id in s.writes
  {
    if s.tasks[id].phase.InFlight? && Accepts(s.writes[id]) then s.(orphans := s.orphans + {id}) else s
  }

  /** Up to MAX_RETRIES times the call is made again with the same body. */
  function Retry(s: State, id: MsgId): State
    requires id in s.tasks
  {
    var t := Again(s.tasks[id]);
    if t.failures <= MAX_RETRIES then SetTask(s, id, t) else Resolve(s, id, Failed)
  }

  function DoResolve(s: State, id: MsgId): State
    requires id in s.tasks && s.tasks[id].phase.Replied?
  {
    Resolve(s, id, if s.tasks[id].phase.success then Persisted else Failed)
  }

  /** The ack task wakes up; with the receiver gone its send fails and the ack is lost. */
  function DoAckPush(s: State, id: MsgId): State
    requires id in s.shots && id in s.reqs && s.reqs[id].origin < |s.acks|
  {
    var sid := s.reqs[id].origin;
    var c := s.acks[sid];
    if !c.open then
      s.(shots := s.shots - {id}, h := s.h.(stage := s.h.stage[id := Lost]))
    else
      s.(shots := s.shots - {id},
         acks := s.acks[sid := c.(queue := c.queue + [Ack(s.reqs[id].client, id, s.shots[id])])],
         h := s.h.(stage := s.h.stage[id := AtAcks]))
  }

  // ---- Runs ----

  ghost function Apply(s: State, step: Step): State
    requires InRange(s) && Enabled(s, step)
  {
    match step
    case Connect(u) => DoConnect(s, u)
    case Start(sid) => DoStart(s, sid)
    case FrameDirect(sid, id, client, conv, to, content) => DoFrameDirect(s, sid, id, client, conv, to, content)
    case FrameRoom(sid, id, client, room, from, content) => DoFrameRoom(s, sid, id, client, room, from, content)
    case FrameJoin(sid, room) => DoFrameJoin(s, sid, room)
    case ReceiveEnds(sid) => s.(sessions := s.sessions[sid := s.sessions[sid].(receiving := false)])
    case SendEnds(sid) => CloseSend(s, sid)
    case SendUnregister(sid) => DoSendUnregister(s, sid)
    case WriteChat(sid, ok) => DoWriteChat(s, sid, ok)
    case WriteAck(sid, ok) => DoWriteAck(s, sid, ok)
    case RouterStep(at) => Dispatch(PopInbox(s), s.inbox[0], at)
    case RouterDeliver => DoDeliver(s)
    case ExternalLeave(u, room) => s.(inbox := s.inbox + [LeaveRoom(u, room)])
    case RoomStep(a, at) => DoRoomStep(s, a, at)
    case RoomCast(a, u) => DoCast(s, a, u)
    case RoomTick(a) => DoTick(s, a)
    case RoomSweep(a, u) => DoSweep(s, a, u)
    case RoomStops(a) => SetActor(s, a, s.actors[a].(alive := false))
    case TaskSend(id) => SetTask(s, id, s.tasks[id].(phase := InFlight))
    case ServerExecutes(id, ok) => DoExecute(s, id, ok)
    case TransportFails(id) => Retry(Abandon(s, id), id)
    case OrphanCommits(id) => s.(db := Execute(s.db, s.writes[id]))
    case TaskResolves(id) => DoResolve(s, id)
    case AckPush(id) => DoAckPush(s, id)
  }
}
