/**
 The inductive invariant of the protocol, one predicate per concern.  Each predicate takes the
 components it speaks about, so a step that leaves them alone keeps it for free.
 */
module Invariants {
  import opened Types
  import opened Sequences
  import opened Channels
  import opened Registry
  import opened Store
  import opened Protocol

  // ---- Reading identifiers off the queues ----

  datatype Sel = Registers | Unregisters | AllSends | SendsTo(room: RoomId)

  function Tag(m: RouterMsg, sel: Sel): seq<int> {
    match m
    case RegisterUser(_, c) => if sel.Registers? then [c] else []
    case UnregisterUser(_, c) => if sel.Unregisters? then [c] else []
    case SendDirectMessage(id, _, _, _, _) => if sel.AllSends? then [id] else []
    case SendRoomMessage(id, room, _, _) => if sel.AllSends? || sel == SendsTo(room) then [id] else []
    case _ => []
  }

  function Tags(q: seq<RouterMsg>, sel: Sel): seq<int> {
    if q == [] then [] else Tag(q[0], sel) + Tags(q[1..], sel)
  }

  lemma {:induction false} TagsAppend(q: seq<RouterMsg>, m: RouterMsg, sel: Sel)
    ensures Tags(q + [m], sel) == Tags(q, sel) + Tag(m, sel)
  {
    if q == [] {
      assert q + [m] == [m];
    } else {
      assert (q + [m])[1..] == q[1..] + [m];
      TagsAppend(q[1..], m, sel);
    }
  }

  function SendTag(m: RoomMsg): seq<MsgId> {
    if m.SendMessage? then [m.id] else []
  }

  function SendIds(q: seq<RoomMsg>): seq<MsgId> {
    if q == [] then [] else SendTag(q[0]) + SendIds(q[1..])
  }

  lemma {:induction false} SendIdsAppend(q: seq<RoomMsg>, m: RoomMsg)
    ensures SendIds(q + [m]) == SendIds(q) + SendTag(m)
  {
    if q == [] {
      assert q + [m] == [m];
    } else {
      assert (q + [m])[1..] == q[1..] + [m];
      SendIdsAppend(q[1..], m);
    }
  }

  /** The messages of one room that a session's channel accepted, oldest first. */
  function RoomIds(q: seq<ChatMessage>, room: RoomId): seq<MsgId> {
    if q == [] then [] else
      RoomIds(q[..|q| - 1], room) + (var m := q[|q| - 1]; if m.RoomMessage? && m.room == room then [m.id] else [])
  }

  function ChatIds(q: seq<ChatMessage>): (r: seq<MsgId>)
    ensures |r| == |q| && forall i :: 0 <= i < |q| ==> r[i] == q[i].id
  {
    seq(|q|, i requires 0 <= i < |q| => q[i].id)
  }

  // ---- One owner per user ----

  /** Accepted, running, or with its Unregister still queued. */
  predicate Owns(p: Phase) {
    p.Accepted? || p.Running? || p.Leaving?
  }

  ghost predicate UsersInv(users: map<UserId, SessionId>, ss: seq<Session>) {
    && (forall u :: u in users ==> users[u] < |ss| && ss[users[u]].user == u && Owns(ss[users[u]].phase))
    && (forall sid :: 0 <= sid < |ss| && Owns(ss[sid].phase) ==> ss[sid].user in users && users[ss[sid].user] == sid)
  }

  /** `ids` are distinct and are exactly the sessions in phase `p`. */
  ghost predicate InPhase(ids: seq<int>, ss: seq<Session>, p: Phase) {
    && NoDup(ids)
    && (forall sid :: sid in ids <==> 0 <= sid < |ss| && ss[sid].phase == p)
  }

  ghost predicate HandshakeInv(inbox: seq<RouterMsg>, ss: seq<Session>) {
    && InPhase(Tags(inbox, Registers), ss, Registering)
    && InPhase(Tags(inbox, Unregisters), ss, Leaving)
  }

  predicate NamesOwner(m: RouterMsg, ss: seq<Session>) {
    match m
    case RegisterUser(u, c) => c < |ss| && ss[c].user == u
    case UnregisterUser(u, c) => c < |ss| && ss[c].user == u
    case _ => true
  }

  ghost predicate NamesInv(inbox: seq<RouterMsg>, ss: seq<Session>) {
    forall i :: 0 <= i < |inbox| ==> NamesOwner(inbox[i], ss)
  }

  ghost predicate ReceivingInv(ss: seq<Session>) {
    forall sid :: 0 <= sid < |ss| && ss[sid].receiving ==> Ran(ss[sid].phase)
  }

  ghost predicate OwnerInv(r: Router<SessionId, ActorId>, inbox: seq<RouterMsg>, ss: seq<Session>) {
    && Agrees(r)
    && UsersInv(r.users, ss)
    && HandshakeInv(inbox, ss)
    && NamesInv(inbox, ss)
    && ReceivingInv(ss)
  }

  // ---- One live actor per room ----

  ghost predicate RoomsInv(rooms: map<RoomId, ActorId>, actors: seq<Actor>) {
    && (forall r :: r in rooms ==> rooms[r] < |actors| && actors[rooms[r]].room == r)
    && (forall a :: 0 <= a < |actors| ==> actors[a].alive && actors[a].room in rooms && rooms[actors[a].room] == a)
  }

  // ---- Nothing is fabricated on the way ----

  /** `c` is a session of `u` that the router accepted and that has run since. */
  predicate Was(ss: seq<Session>, c: SessionId, u: UserId) {
    c < |ss| && ss[c].user == u && Ran(ss[c].phase)
  }

  predicate Carries(reqs: map<MsgId, Request>, id: MsgId, from: UserId, kind: Kind, content: string) {
    id in reqs && reqs[id].from == from && reqs[id].kind == kind && reqs[id].content == content
  }

  predicate RouterMsgOk(ss: seq<Session>, reqs: map<MsgId, Request>, m: RouterMsg) {
    match m
    case SendDirectMessage(id, conv, from, to, content) => Carries(reqs, id, from, Direct(conv, to), content)
    case SendRoomMessage(id, room, from, content) => Carries(reqs, id, from, ToRoom(room), content)
    case JoinRoom(u, _, c) => Was(ss, c, u)
    case _ => true
  }

  predicate RoomMsgOk(ss: seq<Session>, reqs: map<MsgId, Request>, room: RoomId, m: RoomMsg) {
    match m
    case AddMember(u, c) => Was(ss, c, u)
    case RemoveMember(_) => true
    case SendMessage(id, from, content) => Carries(reqs, id, from, ToRoom(room), content)
  }

  /** `m` is the copy of some client's request, addressed to `u`'s session or to a room. */
  predicate Genuine(reqs: map<MsgId, Request>, u: UserId, m: ChatMessage) {
    match m
    case DirectMessage(from, content, id) =>
      id in reqs && reqs[id].kind.Direct? && Carries(reqs, id, from, Direct(reqs[id].kind.conv, u), content)
    case RoomMessage(room, from, content, id) => Carries(reqs, id, from, ToRoom(room), content)
  }

  ghost predicate ActorOk(ss: seq<Session>, reqs: map<MsgId, Request>, x: Actor) {
    && (forall i :: 0 <= i < |x.mailbox| ==> RoomMsgOk(ss, reqs, x.room, x.mailbox[i]))
    && (forall u :: u in x.members ==> Was(ss, x.members[u], u))
    && (x.activity.Casting? ==>
          var m := x.activity.msg;
          m.RoomMessage? && m.room == x.room && Carries(reqs, m.id, m.from, ToRoom(x.room), m.content))
  }

  ghost predicate EnteredOk(reqs: map<MsgId, Request>, u: UserId, q: seq<ChatMessage>) {
    forall i :: 0 <= i < |q| ==> Genuine(reqs, u, q[i])
  }

  ghost predicate ReqsOk(ss: seq<Session>, reqs: map<MsgId, Request>) {
    forall id :: id in reqs ==> Was(ss, reqs[id].origin, reqs[id].from)
  }

  ghost predicate InboxOk(ss: seq<Session>, reqs: map<MsgId, Request>, inbox: seq<RouterMsg>) {
    forall i :: 0 <= i < |inbox| ==> RouterMsgOk(ss, reqs, inbox[i])
  }

  ghost predicate HandOk(reqs: map<MsgId, Request>, hand: Option<Delivery>) {
    hand.Some? ==> hand.value.msg.DirectMessage? && Genuine(reqs, hand.value.to, hand.value.msg)
  }

  ghost predicate ActorsOk(ss: seq<Session>, reqs: map<MsgId, Request>, actors: seq<Actor>) {
    forall a :: 0 <= a < |actors| ==> ActorOk(ss, reqs, actors[a])
  }

  ghost predicate EnteredInv(ss: seq<Session>, reqs: map<MsgId, Request>, entered: seq<seq<ChatMessage>>) {
    forall sid :: 0 <= sid < |ss| && sid < |entered| ==> EnteredOk(reqs, ss[sid].user, entered[sid])
  }

  ghost predicate PayloadInv(s: State) {
    && ReqsOk(s.sessions, s.reqs)
    && InboxOk(s.sessions, s.reqs, s.inbox)
    && HandOk(s.reqs, s.hand)
    && ActorsOk(s.sessions, s.reqs, s.actors)
    && EnteredInv(s.sessions, s.reqs, s.h.entered)
  }

  // ---- Every request is in exactly one place ----

  /** The ids in `q` are distinct and are exactly those standing at `st`. */
  ghost predicate Holds(ids: seq<MsgId>, stage: map<MsgId, Stage>, st: Stage) {
    && NoDup(ids)
    && (forall id :: id in ids <==> id in stage && stage[id] == st)
  }

  /** Likewise for the requests of one session. */
  ghost predicate HoldsFor(q: seq<Ack>, sid: SessionId, reqs: map<MsgId, Request>, stage: map<MsgId, Stage>,
                           st: Stage) {
    && NoDup(AckIds(q))
    && (forall id :: id in AckIds(q) <==> id in reqs && reqs[id].origin == sid && id in stage && stage[id] == st)
  }

  ghost predicate RoomsHold(actors: seq<Actor>, stage: map<MsgId, Stage>) {
    && (forall a :: 0 <= a < |actors| ==> Holds(SendIds(actors[a].mailbox), stage, AtRoom(a)))
    && (forall id :: id in stage && stage[id].AtRoom? ==> stage[id].actor < |actors|)
  }

  ghost predicate TasksHold(tasks: map<MsgId, Task>, shots: map<MsgId, Status>, stage: map<MsgId, Stage>) {
    && (forall id :: id in tasks <==> id in stage && stage[id].AtTask?)
    && (forall id :: id in shots <==> id in stage && stage[id].AtShot?)
  }

  ghost predicate AcksHold(acks: seq<Chan<Ack>>, handed: seq<seq<Ack>>, reqs: map<MsgId, Request>, stage: map<MsgId,
                           Stage>) {
    && (forall sid :: 0 <= sid < |acks| ==> HoldsFor(acks[sid].queue, sid, reqs, stage, AtAcks))
    && (forall sid :: 0 <= sid < |handed| ==> HoldsFor(handed[sid], sid, reqs, stage, Handed))
  }

  /** Requests are lost only with their session's ack receiver, and never dropped silently. */
  ghost predicate LossInv(acks: seq<Chan<Ack>>, reqs: map<MsgId, Request>, stage: map<MsgId, Stage>) {
    && (forall id :: id in stage <==> id in reqs)
    && (forall id :: id in stage && stage[id].Lost? ==> reqs[id].origin < |acks| && !acks[reqs[id].origin].open)
    && (forall id :: id in stage ==> !stage[id].Dropped?)
  }

  /** A persistence task is spawned only once a request has left every mailbox. */
  ghost predicate SpawnInv(writes: map<MsgId, Write>, stage: map<MsgId, Stage>) {
    forall id :: id in writes ==> id in stage && !stage[id].AtRouter? && !stage[id].AtRoom?
  }

  ghost predicate PlaceInv(s: State) {
    && Holds(Tags(s.inbox, AllSends), s.h.stage, AtRouter)
    && RoomsHold(s.actors, s.h.stage)
    && TasksHold(s.tasks, s.shots, s.h.stage)
    && AcksHold(s.acks, s.h.handed, s.reqs, s.h.stage)
    && LossInv(s.acks, s.reqs, s.h.stage)
    && SpawnInv(s.writes, s.h.stage)
  }

  // ---- Order of delivery ----

  ghost predicate LogInv(logs: seq<seq<MsgId>>, actors: seq<Actor>, reqs: map<MsgId, Request>, stage: map<MsgId,
                         Stage>) {
    && |logs| == |actors|
    && (forall a :: 0 <= a < |logs| ==> NoDup(logs[a]))
    && (forall a, i :: 0 <= a < |logs| && 0 <= i < |logs[a]| ==>
          var id := logs[a][i];
          && id in stage && !stage[id].AtRouter? && !stage[id].AtRoom?
          && id in reqs && reqs[id].kind == ToRoom(actors[a].room))
  }

  /** Every channel shows a subsequence of the room's log; the one being cast is still missing where it is pending. */
  ghost predicate CastInv(x: Actor, log: seq<MsgId>, entered: seq<seq<ChatMessage>>) {
    && (forall sid :: 0 <= sid < |entered| ==> Subsequence(RoomIds(entered[sid], x.room), log))
    && (x.activity.Casting? ==>
          && log != []
          && log[|log| - 1] == x.activity.msg.id
          && forall u :: u in x.activity.pending && u in x.members && x.members[u] < |entered| ==>
               Subsequence(RoomIds(entered[x.members[u]], x.room), log[..|log| - 1]))
  }

  ghost predicate CastsInv(actors: seq<Actor>, logs: seq<seq<MsgId>>, entered: seq<seq<ChatMessage>>) {
    forall a :: 0 <= a < |actors| && a < |logs| ==> CastInv(actors[a], logs[a], entered)
  }

  ghost predicate OnceInv(entered: seq<seq<ChatMessage>>, hand: Option<Delivery>, stage: map<MsgId, Stage>) {
    && (forall sid :: 0 <= sid < |entered| ==> NoDup(ChatIds(entered[sid])))
    && (forall sid, i :: 0 <= sid < |entered| && 0 <= i < |entered[sid]| && entered[sid][i].DirectMessage? ==>
          var id := entered[sid][i].id;
          id in stage && !stage[id].AtRouter? && (hand.Some? ==> hand.value.msg.id != id))
    && (hand.Some? ==> hand.value.msg.id in stage && !stage[hand.value.msg.id].AtRouter?)
  }

  ghost predicate OrderInv(s: State) {
    && LogInv(s.h.logs, s.actors, s.reqs, s.h.stage)
    && CastsInv(s.actors, s.h.logs, s.h.entered)
    && OnceInv(s.h.entered, s.hand, s.h.stage)
  }

  // ---- Order of sending ----

  datatype Pick = BySession(sid: SessionId) | ByRoom(room: RoomId)

  predicate Picks(reqs: map<MsgId, Request>, id: MsgId, p: Pick) {
    id in reqs &&
    match p
    case BySession(sid) => reqs[id].origin == sid
    case ByRoom(room) => reqs[id].kind == ToRoom(room)
  }

  function Keep(reqs: map<MsgId, Request>, ids: seq<MsgId>, p: Pick): seq<MsgId> {
    if ids == [] then [] else (if Picks(reqs, ids[0], p) then [ids[0]] else []) + Keep(reqs, ids[1..], p)
  }

  /** The messages for `room` between the sessions and the end of its log, oldest first. */
  function Pipe(rooms: map<RoomId, ActorId>, actors: seq<Actor>, logs: seq<seq<MsgId>>, inbox: seq<RouterMsg>,
                room: RoomId): seq<MsgId> {
    (if room in rooms && rooms[room] < |actors| && rooms[room] < |logs|
     then logs[rooms[room]] + SendIds(actors[rooms[room]].mailbox) else [])
    + Tags(inbox, SendsTo(room))
  }

  /** What session `sid` has in the pipe of `room` are the latest of its sends to that room, in send order. */
  ghost predicate PipeOk(reqs: map<MsgId, Request>, pipe: seq<MsgId>, sent: seq<MsgId>, room: RoomId, sid: SessionId) {
    Suffix(Keep(reqs, pipe, BySession(sid)), Keep(reqs, sent, ByRoom(room)))
  }

  ghost predicate Known(reqs: map<MsgId, Request>, ids: seq<MsgId>) {
    forall i :: 0 <= i < |ids| ==> ids[i] in reqs
  }

  function PipeOf(s: State, room: RoomId): seq<MsgId> {
    Pipe(s.router.rooms, s.actors, s.h.logs, s.inbox, room)
  }

  ghost predicate PipeInv(s: State) {
    && (forall sid :: 0 <= sid < |s.h.sent| ==> Known(s.reqs, s.h.sent[sid]))
    && (forall room: RoomId :: Known(s.reqs, PipeOf(s, room)))
    && (forall room: RoomId, sid :: 0 <= sid < |s.h.sent| ==> PipeOk(s.reqs, PipeOf(s, room), s.h.sent[sid], room, sid))
  }

  // ---- An ack means a stored row ----

  /** `w` is the body a task builds for request `id`, whatever the clock said. */
  predicate WriteFor(reqs: map<MsgId, Request>, id: MsgId, w: Write) {
    id in reqs &&
    var q := reqs[id];
    match q.kind
    case Direct(conv, to) => w.DmWrite? && w == DmBody(id, conv, q.from, to, q.content, w.at)
    case ToRoom(room) => w.RoomWrite? && w == RoomBody(id, room, q.from, q.content, w.at)
  }

  predicate Stored(writes: map<MsgId, Write>, db: Tables, id: MsgId) {
    id in writes && HasRow(db, writes[id])
  }

  predicate AckOk(reqs: map<MsgId, Request>, writes: map<MsgId, Write>, db: Tables, sid: SessionId, k: Ack) {
    && k.id in reqs && reqs[k.id].origin == sid && reqs[k.id].client == k.client
    && (k.status.Persisted? ==> Stored(writes, db, k.id))
  }

  ghost predicate RowsInv(writes: map<MsgId, Write>, db: Tables) {
    && (forall k :: k in db.dms ==>
          k.id in writes && writes[k.id].DmWrite? && DmKeyOf(writes[k.id]) == k && DmRowOf(writes[k.id]) == db.dms[k])
    && (forall k :: k in db.roomMsgs ==>
          && k.id in writes && writes[k.id].RoomWrite?
          && RoomKeyOf(writes[k.id]) == k && RoomRowOf(writes[k.id]) == db.roomMsgs[k])
  }

  ghost predicate WritesOk(reqs: map<MsgId, Request>, writes: map<MsgId, Write>) {
    forall id :: id in writes ==> WriteFor(reqs, id, writes[id])
  }

  ghost predicate TasksOk(tasks: map<MsgId, Task>, writes: map<MsgId, Write>, db: Tables) {
    && (forall id :: id in tasks && tasks[id].phase == Replied(true) ==> Stored(writes, db, id))
    && (forall id :: id in tasks ==> tasks[id].failures <= MAX_RETRIES)
  }

  ghost predicate ShotsOk(shots: map<MsgId, Status>, writes: map<MsgId, Write>, db: Tables) {
    forall id :: id in shots && shots[id].Persisted? ==> Stored(writes, db, id)
  }

  ghost predicate AckQueueOk(reqs: map<MsgId, Request>, writes: map<MsgId, Write>, db: Tables, sid: SessionId,
                             q: seq<Ack>) {
    forall i :: 0 <= i < |q| ==> AckOk(reqs, writes, db, sid, q[i])
  }

  ghost predicate AcksOk(reqs: map<MsgId, Request>, writes: map<MsgId, Write>, db: Tables, acks: seq<Chan<Ack>>,
                         handed: seq<seq<Ack>>) {
    && (forall sid :: 0 <= sid < |acks| ==> AckQueueOk(reqs, writes, db, sid, acks[sid].queue))
    && (forall sid :: 0 <= sid < |handed| ==> AckQueueOk(reqs, writes, db, sid, handed[sid]))
  }

  ghost predicate DurableInv(s: State) {
    && WritesOk(s.reqs, s.writes)
    && RowsInv(s.writes, s.db)
    && IndexAgrees(s.db)
    && TasksOk(s.tasks, s.writes, s.db)
    && ShotsOk(s.shots, s.writes, s.db)
    && AcksOk(s.reqs, s.writes, s.db, s.acks, s.h.handed)
  }

  // ---- Channels are bounded and first-in first-out ----

  ghost predicate ChannelOk(c: Chan<ChatMessage>, entered: seq<ChatMessage>, shown: seq<ChatMessage>) {
    && |c.queue| <= CAPACITY
    && (c.open ==> shown + c.queue == entered)
    && (!c.open ==> c.queue == [] && shown <= entered)
  }

  ghost predicate ChannelsOk(chans: seq<Chan<ChatMessage>>, entered: seq<seq<ChatMessage>>,
                             shown: seq<seq<ChatMessage>>) {
    forall sid :: 0 <= sid < |chans| && sid < |entered| && sid < |shown| ==>
        ChannelOk(chans[sid], entered[sid], shown[sid])
  }

  ghost predicate AcksBounded(acks: seq<Chan<Ack>>) {
    forall sid :: 0 <= sid < |acks| ==> |acks[sid].queue| <= CAPACITY
  }

  ghost predicate FifoInv(s: State) {
    ChannelsOk(s.chans, s.h.entered, s.h.shown) && AcksBounded(s.acks)
  }

  /** A room message in a channel came from a room that exists. */
  ghost predicate HeardInv(entered: seq<seq<ChatMessage>>, rooms: map<RoomId, ActorId>) {
    forall sid, i :: 0 <= sid < |entered| && 0 <= i < |entered[sid]| && entered[sid][i].RoomMessage? ==>
        entered[sid][i].room in rooms
  }

  ghost predicate Shape(s: State) {
    && InRange(s)
    && OwnerInv(s.router, s.inbox, s.sessions)
    && RoomsInv(s.router.rooms, s.actors)
    && PayloadInv(s)
    && HeardInv(s.h.entered, s.router.rooms)
  }

  ghost predicate Inv(s: State) {
    Shape(s) && PlaceInv(s) && OrderInv(s) && PipeInv(s) && DurableInv(s) && FifoInv(s)
  }

  lemma InitShape()
    ensures Shape(INIT)
  {
  }

  lemma InitPipe()
    ensures PipeInv(INIT)
  {
  }

  lemma InitInv()
    ensures Inv(INIT)
  {
    InitShape();
    InitPipe();
  }
}
