/** What holds in every reachable state of every interleaving. */
module Theorems {
  import opened Types
  import opened Sequences
  import opened Channels
  import opened Registry
  import opened Store
  import opened Protocol
  import opened Invariants
  import opened OwnerProof
  import opened PipeProof
  import opened StepProof

  // ---- Runs ----

  ghost predicate CanRun(s: State, steps: seq<Step>)
    decreases |steps|
  {
    steps == [] || (InRange(s) && Enabled(s, steps[0]) && CanRun(Apply(s, steps[0]), steps[1..]))
  }

  ghost function Run(s: State, steps: seq<Step>): State
    requires CanRun(s, steps)
    decreases |steps|
  {
    if steps == [] then s else Run(Apply(s, steps[0]), steps[1..])
  }

  ghost predicate Reachable(s: State) {
    exists steps :: CanRun(INIT, steps) && Run(INIT, steps) == s
  }

  lemma {:induction false} RunKeepsInv(s: State, steps: seq<Step>)
    requires Inv(s) && CanRun(s, steps)
    ensures Inv(Run(s, steps))
    decreases |steps|
  {
    if steps != [] {
      InvStep(s, steps[0]);
      RunKeepsInv(Apply(s, steps[0]), steps[1..]);
    }
  }

  lemma ReachableInv(s: State)
    requires Reachable(s)
    ensures Inv(s)
  {
    var steps :| CanRun(INIT, steps) && Run(INIT, steps) == s;
    InitInv();
    RunKeepsInv(INIT, steps);
  }

  lemma {:induction false} RunOneMore(s: State, steps: seq<Step>, step: Step)
    requires CanRun(s, steps) && InRange(Run(s, steps)) && Enabled(Run(s, steps), step)
    ensures CanRun(s, steps + [step]) && Run(s, steps + [step]) == Apply(Run(s, steps), step)
    decreases |steps|
  {
    if steps == [] {
      assert steps + [step] == [step] && [step][1..] == [];
    } else {
      assert (steps + [step])[1..] == steps[1..] + [step];
      RunOneMore(Apply(s, steps[0]), steps[1..], step);
    }
  }

  lemma ReachStep(s: State, step: Step)
    requires Reachable(s) && InRange(s) && Enabled(s, step)
    ensures Reachable(Apply(s, step)) && InRange(Apply(s, step))
  {
    var steps :| CanRun(INIT, steps) && Run(INIT, steps) == s;
    RunOneMore(INIT, steps, step);
    ReachableInv(Apply(s, step));
  }

  // ---- One owner per user ----

  /** `sid` is accepted, running, or still has its Unregister in the router's queue. */
  predicate OwnerOf(s: State, u: UserId, sid: SessionId) {
    sid < |s.sessions| && s.sessions[sid].user == u && Owns(s.sessions[sid].phase)
  }

  lemma SingleOwner(s: State, u: UserId)
    requires Reachable(s)
    ensures u in s.router.users <==> exists sid :: OwnerOf(s, u, sid)
    ensures forall sid :: OwnerOf(s, u, sid) ==> u in s.router.users && s.router.users[u] == sid
    ensures forall sid, sid' :: OwnerOf(s, u, sid) && OwnerOf(s, u, sid') ==> sid == sid'
  {
    ReachableInv(s);
    if u in s.router.users {
      assert OwnerOf(s, u, s.router.users[u]);
    }
  }

  /** An Unregister is handled while its own sender is registered, so it removes nobody else. */
  lemma UnregisterRemovesItsSender(s: State, u: UserId, origin: SessionId)
    requires Reachable(s) && s.inbox != [] && s.inbox[0] == UnregisterUser(u, origin)
    ensures u in s.router.users && s.router.users[u] == origin
    ensures origin < |s.sessions| && s.sessions[origin].user == u && s.sessions[origin].phase.Leaving?
  {
    ReachableInv(s);
    OwnerUnregister(s.router, s.inbox, s.sessions, u, origin);
    HandshakeUnregister(s.inbox, s.sessions);
  }

  lemma RegistryAgrees(s: State)
    requires Reachable(s)
    ensures NoDup(s.router.online) && forall u :: u in s.router.online <==> u in s.router.users
  {
    ReachableInv(s);
  }

  // ---- Rooms ----

  /** At most one actor was ever spawned per room id; it runs for ever and the router keeps its handle. */
  lemma RoomsAreUnique(s: State, a: ActorId)
    requires Reachable(s) && a < |s.actors|
    ensures s.actors[a].alive && s.actors[a].room in s.router.rooms && s.router.rooms[s.actors[a].room] == a
    ensures forall b :: 0 <= b < |s.actors| && s.actors[a].room == s.actors[b].room ==> a == b
    ensures InRange(s) && !Enabled(s, RoomStops(a))
  {
    ReachableInv(s);
    NeverStops(s.router.rooms, s.actors, a);
    StopsDisabled(s, a);
  }

  lemma StopsDisabled(s: State, a: ActorId)
    requires InRange(s) && a in s.router.rooms.Values
    ensures !Enabled(s, RoomStops(a))
  {
  }

  // ---- Acks ----

  /** The message table holds the row of request `id`: its sender, its addressee and its text. */
  predicate RowStored(db: Tables, id: MsgId, q: Request) {
    match q.kind
    case Direct(conv, to) =>
      var k := DmKey(q.from.project, conv, id);
      k in db.dms && db.dms[k].sender == q.from.user && db.dms[k].recipient == to.user && db.dms[k].text == q.content
    case ToRoom(room) =>
      var k := RoomKey(q.from.project, room, id);
      k in db.roomMsgs && db.roomMsgs[k].sender == q.from.user && db.roomMsgs[k].content == q.content
  }

  /** What an ack tells the session it is queued for. */
  predicate AckHonest(s: State, sid: SessionId, k: Ack) {
    && k.id in s.reqs && s.reqs[k.id].origin == sid && s.reqs[k.id].client == k.client
    && sid < |s.sessions| && s.reqs[k.id].from == s.sessions[sid].user
    && (k.status.Persisted? ==> RowStored(s.db, k.id, s.reqs[k.id]))
  }

  lemma AckImpliesDurable(s: State, sid: SessionId, i: nat)
    requires Reachable(s) && sid < |s.sessions|
    ensures |s.acks| == |s.sessions| && |s.h.handed| == |s.sessions|
    ensures i < |s.acks[sid].queue| ==> AckHonest(s, sid, s.acks[sid].queue[i])
    ensures i < |s.h.handed[sid]| ==> AckHonest(s, sid, s.h.handed[sid][i])
  {
    ReachableInv(s);
    if i < |s.acks[sid].queue| {
      AckOkHonest(s, sid, s.acks[sid].queue[i]);
    }
    if i < |s.h.handed[sid]| {
      AckOkHonest(s, sid, s.h.handed[sid][i]);
    }
  }

  lemma AckOkHonest(s: State, sid: SessionId, k: Ack)
    requires AckOk(s.reqs, s.writes, s.db, sid, k) && WritesOk(s.reqs, s.writes) && ReqsOk(s.sessions, s.reqs)
    ensures AckHonest(s, sid, k)
  {
    if k.id in s.writes {
      assert WriteFor(s.reqs, k.id, s.writes[k.id]);
    }
  }

  /** Where a request can be; the queues carry the actor or session they belong to. */
  datatype Place =
    | RouterQueue
    | RoomQueue(actor: ActorId)
    | PersistenceTask
    | ResolvedOneshot
    | AckQueue(sid: SessionId)
    | Socket(sid: SessionId)
    | LostWith(sid: SessionId)

  predicate IsAt(s: State, id: MsgId, p: Place) {
    match p
    case RouterQueue => id in Tags(s.inbox, AllSends)
    case RoomQueue(a) => a < |s.actors| && id in SendIds(s.actors[a].mailbox)
    case PersistenceTask => id in s.tasks
    case ResolvedOneshot => id in s.shots
    case AckQueue(sid) => sid < |s.acks| && id in AckIds(s.acks[sid].queue)
    case Socket(sid) => sid < |s.h.handed| && id in AckIds(s.h.handed[sid])
    case LostWith(sid) =>
      && id in s.h.stage && s.h.stage[id].Lost?
      && id in s.reqs && s.reqs[id].origin == sid && sid < |s.acks| && !s.acks[sid].open
  }

  function PlaceOf(st: Stage, origin: SessionId): Place {
    match st
    case AtRouter => RouterQueue
    case AtRoom(a) => RoomQueue(a)
    case AtTask => PersistenceTask
    case AtShot => ResolvedOneshot
    case AtAcks => AckQueue(origin)
    case Handed => Socket(origin)
    case Lost => LostWith(origin)
    case Dropped => LostWith(origin)
  }

  lemma AtItsStage(s: State, id: MsgId, p: Place)
    requires Sized(s) && PlaceInv(s) && IdsKnown(s.reqs, s.writes, s.tasks, s.shots, s.orphans, |s.sessions|)
    requires id in s.reqs
    ensures id in s.h.stage
    ensures IsAt(s, id, p) <==> p == PlaceOf(s.h.stage[id], s.reqs[id].origin)
  {
    match p {
      case RoomQueue(a) =>
        if a < |s.actors| {
          assert Holds(SendIds(s.actors[a].mailbox), s.h.stage, AtRoom(a));
        }
      case AckQueue(sid) =>
        if sid < |s.acks| {
          assert HoldsFor(s.acks[sid].queue, sid, s.reqs, s.h.stage, AtAcks);
        }
      case Socket(sid) =>
        if sid < |s.h.handed| {
          assert HoldsFor(s.h.handed[sid], sid, s.reqs, s.h.stage, Handed);
        }
      case _ =>
    }
  }

  /** Conservation: every accepted request is in exactly one place, once. */
  lemma ExactlyOnePlace(s: State, id: MsgId)
    requires Reachable(s) && id in s.reqs
    ensures exists p :: IsAt(s, id, p)
    ensures forall p, p' :: IsAt(s, id, p) && IsAt(s, id, p') ==> p == p'
    ensures NoDup(Tags(s.inbox, AllSends))
    ensures forall a :: 0 <= a < |s.actors| ==> NoDup(SendIds(s.actors[a].mailbox))
    ensures forall sid :: 0 <= sid < |s.acks| ==> NoDup(AckIds(s.acks[sid].queue))
    ensures forall sid :: 0 <= sid < |s.h.handed| ==> NoDup(AckIds(s.h.handed[sid]))
  {
    ReachableInv(s);
    forall p
      ensures IsAt(s, id, p) <==> p == PlaceOf(s.h.stage[id], s.reqs[id].origin)
    {
      AtItsStage(s, id, p);
    }
    assert IsAt(s, id, PlaceOf(s.h.stage[id], s.reqs[id].origin));
  }

  /** The branch that forgets a message because its room is gone is never taken. */
  lemma NeverDropped(s: State, id: MsgId)
    requires Reachable(s) && id in s.h.stage
    ensures !s.h.stage[id].Dropped?
  {
    ReachableInv(s);
  }

  // ---- Order ----

  lemma {:induction false} RoomIdsPrefix(p: seq<ChatMessage>, q: seq<ChatMessage>, room: RoomId)
    requires p <= q
    ensures RoomIds(p, room) <= RoomIds(q, room)
    decreases |q|
  {
    if p != q {
      assert p <= q[..|q| - 1];
      RoomIdsPrefix(p, q[..|q| - 1], room);
    }
  }

  lemma PrefixSubsequence(p: seq<MsgId>, q: seq<MsgId>, t: seq<MsgId>)
    requires p <= q && Subsequence(q, t)
    ensures Subsequence(p, t)
  {
    var at: seq<nat> :| Embeds(q, t, at);
    assert Embeds(p, t, at[..|p|]);
  }

  /**
   Per-room total order: the room has one duplicate-free log, and what enters a session's channel,
   and what that session's client is shown, are subsequences of it.
   */
  lemma RoomOrder(s: State, a: ActorId, sid: SessionId)
    requires Reachable(s) && a < |s.actors| && sid < |s.sessions|
    ensures Sized(s) && NoDup(s.h.logs[a])
    ensures Subsequence(RoomIds(s.h.entered[sid], s.actors[a].room), s.h.logs[a])
    ensures Subsequence(RoomIds(s.h.shown[sid], s.actors[a].room), s.h.logs[a])
  {
    ReachableInv(s);
    assert CastInv(s.actors[a], s.h.logs[a], s.h.entered);
    ShownIsPrefix(s.chans[sid], s.h.entered[sid], s.h.shown[sid]);
    var room := s.actors[a].room;
    RoomIdsPrefix(s.h.shown[sid], s.h.entered[sid], room);
    PrefixSubsequence(RoomIds(s.h.shown[sid], room), RoomIds(s.h.entered[sid], room), s.h.logs[a]);
  }

  lemma ShownIsPrefix(c: Chan<ChatMessage>, entered: seq<ChatMessage>, shown: seq<ChatMessage>)
    requires ChannelOk(c, entered, shown)
    ensures shown <= entered
  {
  }

  /** No two clients are shown two messages of a room in opposite orders. */
  lemma SameOrderForAll(s: State, a: ActorId, sid: SessionId, sid': SessionId, i: nat, j: nat, i': nat, j': nat)
    requires Reachable(s) && a < |s.actors| && sid < |s.sessions| && sid' < |s.sessions| && Sized(s)
    requires var v, v' := RoomIds(s.h.shown[sid], s.actors[a].room), RoomIds(s.h.shown[sid'], s.actors[a].room);
             i < j < |v| && i' < |v'| && j' < |v'| && v[i] == v'[i'] && v[j] == v'[j']
    ensures i' < j'
  {
    RoomOrder(s, a, sid);
    RoomOrder(s, a, sid');
    var room := s.actors[a].room;
    SubsequencesAgree(RoomIds(s.h.shown[sid], room), RoomIds(s.h.shown[sid'], room), s.h.logs[a], i, j, i', j');
  }

  lemma LogIsStretch(reqs: map<MsgId, Request>, log: seq<MsgId>, rest: seq<MsgId>, sent: seq<MsgId>, room: RoomId,
                     sid: SessionId)
    requires PipeOk(reqs, log + rest, sent, room, sid)
    ensures Infix(Keep(reqs, log, BySession(sid)), Keep(reqs, sent, ByRoom(room)))
  {
    KeepConcat(reqs, log, rest, BySession(sid));
    SuffixInfix(Keep(reqs, log, BySession(sid)), Keep(reqs, rest, BySession(sid)), Keep(reqs, sent, ByRoom(room)));
  }

  /** What a session has in a room's log is an unbroken stretch of its sends to that room, in send order. */
  lemma SenderOrder(s: State, a: ActorId, sid: SessionId)
    requires Reachable(s) && a < |s.actors| && sid < |s.sessions|
    ensures Sized(s)
    ensures Infix(Keep(s.reqs, s.h.logs[a], BySession(sid)), Keep(s.reqs, s.h.sent[sid], ByRoom(s.actors[a].room)))
  {
    ReachableInv(s);
    PipeSplit(s, a);
    var room := s.actors[a].room;
    var rest := SendIds(s.actors[a].mailbox) + Tags(s.inbox, SendsTo(room));
    assert PipeOk(s.reqs, PipeOf(s, room), s.h.sent[sid], room, sid);
    LogIsStretch(s.reqs, s.h.logs[a], rest, s.h.sent[sid], room, sid);
  }

  lemma PipeSplit(s: State, a: ActorId)
    requires Sized(s) && RoomsInv(s.router.rooms, s.actors) && a < |s.actors|
    ensures var room := s.actors[a].room;
            PipeOf(s, room) == s.h.logs[a] + (SendIds(s.actors[a].mailbox) + Tags(s.inbox, SendsTo(room)))
  {
  }

  // ---- At most once, and nothing fabricated ----

  /** Every frame in a channel is one client's request, under that client's own name, for this user. */
  predicate Authentic(s: State, sid: SessionId, m: ChatMessage) {
    && m.id in s.reqs
    && var q := s.reqs[m.id];
    && q.origin < |s.sessions| && m.from == s.sessions[q.origin].user && m.content == q.content
    && sid < |s.sessions|
    && match m
       case DirectMessage(_, _, _) => q.kind.Direct? && q.kind.to == s.sessions[sid].user
       case RoomMessage(room, _, _, _) => q.kind == ToRoom(room)
  }

  lemma AtMostOnce(s: State, sid: SessionId)
    requires Reachable(s) && sid < |s.sessions|
    ensures Sized(s)
    ensures forall i, j :: 0 <= i < j < |s.h.entered[sid]| ==> s.h.entered[sid][i].id != s.h.entered[sid][j].id
    ensures forall i :: 0 <= i < |s.h.entered[sid]| ==> Authentic(s, sid, s.h.entered[sid][i])
    ensures s.h.shown[sid] <= s.h.entered[sid]
    ensures s.chans[sid].open ==> s.h.shown[sid] + s.chans[sid].queue == s.h.entered[sid]
  {
    ReachableInv(s);
    var q := s.h.entered[sid];
    assert NoDup(ChatIds(q));
    assert forall i :: 0 <= i < |q| ==> ChatIds(q)[i] == q[i].id;
    assert EnteredOk(s.reqs, s.sessions[sid].user, q);
    ShownIsPrefix(s.chans[sid], q, s.h.shown[sid]);
  }

  lemma ChannelsBounded(s: State, sid: SessionId)
    requires Reachable(s) && sid < |s.sessions|
    ensures Sized(s) && |s.chans[sid].queue| <= 100 && |s.acks[sid].queue| <= 100
  {
    ReachableInv(s);
    assert ChannelOk(s.chans[sid], s.h.entered[sid], s.h.shown[sid]);
  }

  lemma IndexAgreesInEveryState(s: State)
    requires Reachable(s)
    ensures IndexAgrees(s.db)
  {
    ReachableInv(s);
  }
}
