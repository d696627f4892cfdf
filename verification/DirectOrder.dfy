/** Direct messages keep their sender's order: one router handles them one at a time. */
module DirectOrder {
  import opened Types
  import opened Sequences
  import opened Registry
  import opened Protocol
  import opened Invariants
  import opened PipeProof
  import opened StepProof
  import opened Theorems

  // ---- The line of direct messages, from the channels back to the inbox ----

  function DirectIds(q: seq<ChatMessage>): seq<MsgId> {
    if q == [] then [] else DirectIds(q[..|q| - 1]) + (var m := q[|q| - 1]; if m.DirectMessage? then [m.id] else [])
  }

  function DirectTag(m: RouterMsg): seq<MsgId> {
    if m.SendDirectMessage? then [m.id] else []
  }

  function DirectTags(q: seq<RouterMsg>): seq<MsgId> {
    if q == [] then [] else DirectTag(q[0]) + DirectTags(q[1..])
  }

  lemma {:induction false} DirectTagsAppend(q: seq<RouterMsg>, m: RouterMsg)
    ensures DirectTags(q + [m]) == DirectTags(q) + DirectTag(m)
  {
    if q == [] {
      assert q + [m] == [m];
    } else {
      assert (q + [m])[1..] == q[1..] + [m];
      DirectTagsAppend(q[1..], m);
    }
  }

  lemma DirectIdsAppend(q: seq<ChatMessage>, m: ChatMessage)
    ensures DirectIds(q + [m]) == DirectIds(q) + if m.DirectMessage? then [m.id] else []
  {
    assert (q + [m])[..|q|] == q;
  }

  function HandIds(hand: Option<Delivery>): seq<MsgId> {
    if hand.Some? then [hand.value.msg.id] else []
  }

  /** Direct messages on their way: the one in the router's hand, then those in its inbox. */
  function OnTheWay(s: State): seq<MsgId> {
    HandIds(s.hand) + DirectTags(s.inbox)
  }

  /** What session `sid` has in this line is in the order it was sent. */
  ghost predicate InOrder(reqs: map<MsgId, Request>, line: seq<MsgId>, sent: seq<MsgId>, sid: SessionId) {
    Subsequence(Keep(reqs, line, BySession(sid)), sent)
  }

  ghost predicate LineInv(reqs: map<MsgId, Request>, sent: seq<seq<MsgId>>, line: seq<MsgId>) {
    Known(reqs, line) && forall sid :: 0 <= sid < |sent| ==> InOrder(reqs, line, sent[sid], sid)
  }

  /** Whoever it is for, what lies on the way continues what has entered each channel. */
  ghost predicate LinesInv(reqs: map<MsgId, Request>, sent: seq<seq<MsgId>>, entered: seq<seq<ChatMessage>>,
                           way: seq<MsgId>) {
    && LineInv(reqs, sent, way)
    && (forall r :: 0 <= r < |entered| ==> LineInv(reqs, sent, DirectIds(entered[r]) + way))
  }

  ghost predicate DirectInv(s: State) {
    LinesInv(s.reqs, s.h.sent, s.h.entered, OnTheWay(s))
  }

  // ---- Changes of a line ----

  lemma SubsequenceWithout(x: seq<MsgId>, y: seq<MsgId>, z: seq<MsgId>, t: seq<MsgId>)
    requires Subsequence(x + y + z, t)
    ensures Subsequence(x + z, t)
  {
    var at: seq<nat> :| Embeds(x + y + z, t, at);
    var at' := at[..|x|] + at[|x| + |y|..];
    forall i | 0 <= i < |at'|
      ensures at'[i] < |t| && t[at'[i]] == (x + z)[i]
    {
      var j := if i < |x| then i else i + |y|;
      assert at'[i] == at[j] && (x + y + z)[j] == (x + z)[i];
    }
    assert Embeds(x + z, t, at');
  }

  /** A message leaves the line without a trace. */
  lemma LineWithout(reqs: map<MsgId, Request>, sent: seq<seq<MsgId>>, x: seq<MsgId>, y: seq<MsgId>, z: seq<MsgId>)
    requires LineInv(reqs, sent, x + (y + z))
    ensures LineInv(reqs, sent, x + z)
  {
    forall i | 0 <= i < |x + z|
      ensures (x + z)[i] in reqs
    {
      assert (x + z)[i] == (x + (y + z))[if i < |x| then i else i + |y|];
    }
    forall sid | 0 <= sid < |sent|
      ensures InOrder(reqs, x + z, sent[sid], sid)
    {
      var p := BySession(sid);
      assert InOrder(reqs, x + (y + z), sent[sid], sid);
      KeepConcat(reqs, x, y + z, p);
      KeepConcat(reqs, y, z, p);
      KeepConcat(reqs, x, z, p);
      var x', y', z' := Keep(reqs, x, p), Keep(reqs, y, p), Keep(reqs, z, p);
      assert x' + (y' + z') == x' + y' + z';
      SubsequenceWithout(x', y', z', sent[sid]);
    }
  }

  /** A session sends: its id goes to the end of its sends, and to the end of the line if it is direct. */
  lemma LineMint(reqs: map<MsgId, Request>, sent: seq<seq<MsgId>>, line: seq<MsgId>, id: MsgId, q: Request,
                 tag: seq<MsgId>)
    requires LineInv(reqs, sent, line) && id !in reqs && q.origin < |sent| && (tag == [] || tag == [id])
    ensures LineInv(reqs[id := q], sent[q.origin := sent[q.origin] + [id]], line + tag)
  {
    var reqs', sent' := reqs[id := q], sent[q.origin := sent[q.origin] + [id]];
    forall sid | 0 <= sid < |sent|
      ensures InOrder(reqs', line + tag, sent'[sid], sid)
    {
      var p := BySession(sid);
      var mine := Keep(reqs, line, p);
      assert InOrder(reqs, line, sent[sid], sid);
      KeepFresh(reqs, id, q, line, p);
      KeepConcat(reqs', line, tag, p);
      assert Keep(reqs', [id], p) == if q.origin == sid then [id] else [];
      if q.origin == sid {
        SubsequenceBoth(mine, sent[sid], id);
        SubsequenceGrow(mine, sent[sid], id);
      }
      assert mine + [] == mine;
    }
  }

  /** A session connects: nobody has sent under its name yet. */
  lemma LineConnect(reqs: map<MsgId, Request>, sent: seq<seq<MsgId>>, line: seq<MsgId>)
    requires LineInv(reqs, sent, line) && forall id :: id in reqs ==> reqs[id].origin < |sent|
    ensures LineInv(reqs, sent + [[]], line)
  {
    forall sid | 0 <= sid < |sent + [[]]|
      ensures InOrder(reqs, line, (sent + [[]])[sid], sid)
    {
      if sid == |sent| {
        KeepNone(reqs, line, sid);
        SubsequenceEmpty<MsgId>([]);
      } else {
        assert InOrder(reqs, line, sent[sid], sid);
      }
    }
  }

  lemma LinesConnect(reqs: map<MsgId, Request>, sent: seq<seq<MsgId>>, entered: seq<seq<ChatMessage>>, way: seq<MsgId>)
    requires LinesInv(reqs, sent, entered, way) && forall id :: id in reqs ==> reqs[id].origin < |sent|
    ensures LinesInv(reqs, sent + [[]], entered + [[]], way)
  {
    LineConnect(reqs, sent, way);
    forall r | 0 <= r < |entered + [[]]|
      ensures LineInv(reqs, sent + [[]], DirectIds((entered + [[]])[r]) + way)
    {
      if r < |entered| {
        LineConnect(reqs, sent, DirectIds(entered[r]) + way);
      } else {
        assert DirectIds([]) + way == way;
      }
    }
  }

  lemma LinesMint(reqs: map<MsgId, Request>, sent: seq<seq<MsgId>>, entered: seq<seq<ChatMessage>>, way: seq<MsgId>,
                  id: MsgId, q: Request, tag: seq<MsgId>)
    requires LinesInv(reqs, sent, entered, way) && id !in reqs && q.origin < |sent| && (tag == [] || tag == [id])
    ensures LinesInv(reqs[id := q], sent[q.origin := sent[q.origin] + [id]], entered, way + tag)
  {
    LineMint(reqs, sent, way, id, q, tag);
    forall r | 0 <= r < |entered|
      ensures LineInv(reqs[id := q], sent[q.origin := sent[q.origin] + [id]], DirectIds(entered[r]) + (way + tag))
    {
      LineMint(reqs, sent, DirectIds(entered[r]) + way, id, q, tag);
      assert (DirectIds(entered[r]) + way) + tag == DirectIds(entered[r]) + (way + tag);
    }
  }

  /** The foremost message on the way is dropped. */
  lemma LinesDrop(reqs: map<MsgId, Request>, sent: seq<seq<MsgId>>, entered: seq<seq<ChatMessage>>, id: MsgId,
                  tail: seq<MsgId>)
    requires LinesInv(reqs, sent, entered, [id] + tail)
    ensures LinesInv(reqs, sent, entered, tail)
  {
    assert [] + ([id] + tail) == [id] + tail && [] + tail == tail;
    LineWithout(reqs, sent, [], [id], tail);
    forall r | 0 <= r < |entered|
      ensures LineInv(reqs, sent, DirectIds(entered[r]) + tail)
    {
      LineWithout(reqs, sent, DirectIds(entered[r]), [id], tail);
    }
  }

  /** Or it enters one channel, where it comes next. */
  lemma LinesEnter(reqs: map<MsgId, Request>, sent: seq<seq<MsgId>>, entered: seq<seq<ChatMessage>>, m: ChatMessage,
                   tail: seq<MsgId>, c: SessionId)
    requires LinesInv(reqs, sent, entered, [m.id] + tail) && m.DirectMessage? && c < |entered|
    ensures LinesInv(reqs, sent, entered[c := entered[c] + [m]], tail)
  {
    LinesDrop(reqs, sent, entered, m.id, tail);
    DirectIdsAppend(entered[c], m);
    assert LineInv(reqs, sent, DirectIds(entered[c]) + ([m.id] + tail));
    assert (DirectIds(entered[c]) + [m.id]) + tail == DirectIds(entered[c]) + ([m.id] + tail);
  }

  /** A room message enters a channel: no line changes. */
  lemma LinesRoom(reqs: map<MsgId, Request>, sent: seq<seq<MsgId>>, entered: seq<seq<ChatMessage>>, m: ChatMessage,
                  way: seq<MsgId>, c: SessionId)
    requires LinesInv(reqs, sent, entered, way) && m.RoomMessage? && c < |entered|
    ensures LinesInv(reqs, sent, entered[c := entered[c] + [m]], way)
  {
    DirectIdsAppend(entered[c], m);
    assert DirectIds(entered[c]) + [] == DirectIds(entered[c]);
  }

  // ---- Every step ----

  ghost predicate SameLines(s: State, t: State) {
    t.reqs == s.reqs && t.h.sent == s.h.sent && t.h.entered == s.h.entered && OnTheWay(t) == OnTheWay(s)
  }

  lemma ConnectKeeps(s: State, u: UserId)
    requires DirectInv(s) && Sized(s) && forall id :: id in s.reqs ==> s.reqs[id].origin < |s.sessions|
    ensures DirectInv(DoConnect(s, u))
  {
    DirectTagsAppend(s.inbox, RegisterUser(u, |s.sessions|));
    assert DirectTags(s.inbox) + [] == DirectTags(s.inbox);
    LinesConnect(s.reqs, s.h.sent, s.h.entered, OnTheWay(s));
  }

  lemma MintKeeps(s: State, id: MsgId, q: Request, m: RouterMsg)
    requires DirectInv(s) && id !in s.reqs && q.origin < |s.h.sent| && (m.SendDirectMessage? ==> m.id == id)
    ensures DirectInv(Mint(s, id, q, m))
  {
    DirectTagsAppend(s.inbox, m);
    assert HandIds(s.hand) + (DirectTags(s.inbox) + DirectTag(m)) == OnTheWay(s) + DirectTag(m);
    LinesMint(s.reqs, s.h.sent, s.h.entered, OnTheWay(s), id, q, DirectTag(m));
  }

  lemma FrameKeeps(s: State, step: Step)
    requires Inv(s) && DirectInv(s) && Enabled(s, step) && (step.FrameDirect? || step.FrameRoom?)
    ensures DirectInv(Apply(s, step))
  {
    if step.FrameDirect? {
      var u := s.sessions[step.sid].user;
      MintKeeps(s, step.id, Request(step.sid, step.client, u, Direct(step.conv, step.to), step.content),
                SendDirectMessage(step.id, step.conv, u, step.to, step.content));
    } else if step.from == s.sessions[step.sid].user {
      MintKeeps(s, step.id, Request(step.sid, step.client, step.from, ToRoom(step.room), step.content),
                SendRoomMessage(step.id, step.room, step.from, step.content));
    }
  }

  /** The message in hand enters the recipient's channel there and then, or is gone. */
  lemma DeliverKeeps(s: State)
    requires InRange(s) && DirectInv(s) && s.hand.Some? && s.hand.value.msg.DirectMessage?
    ensures DirectInv(DoDeliver(s))
  {
    var d, tail := s.hand.value, DirectTags(s.inbox);
    assert [] + tail == tail;
    LinesDrop(s.reqs, s.h.sent, s.h.entered, d.msg.id, tail);
    if d.to in s.router.users {
      LinesEnter(s.reqs, s.h.sent, s.h.entered, d.msg, tail, s.router.users[d.to]);
    }
  }

  lemma DispatchSame(s: State, at: int)
    requires InRange(s) && Enabled(s, RouterStep(at))
    ensures SameLines(s, Apply(s, RouterStep(at)))
  {
    var m := s.inbox[0];
    assert DirectTags(s.inbox) == DirectTag(m) + DirectTags(s.inbox[1..]);
    DispatchLines(PopInbox(s), m, at);
    assert [] + DirectTags(s.inbox) == DirectTags(s.inbox);
  }

  lemma DispatchLines(s: State, m: RouterMsg, at: int)
    requires RouterMsgInRange(m, |s.sessions|) && s.hand == None
    requires forall r :: r in s.router.rooms ==> s.router.rooms[r] < |s.actors|
    ensures var t := Dispatch(s, m, at);
            && t.reqs == s.reqs && t.h.sent == s.h.sent && t.inbox == s.inbox && t.h.entered == s.h.entered
            && HandIds(t.hand) == DirectTag(m)
  {
  }

  lemma QueueSame(s: State, m: RouterMsg)
    requires !m.SendDirectMessage?
    ensures OnTheWay(s.(inbox := s.inbox + [m])) == OnTheWay(s)
  {
    DirectTagsAppend(s.inbox, m);
  }

  lemma SessionSame(s: State, step: Step)
    requires InRange(s) && Enabled(s, step)
    requires step.Start? || step.FrameJoin? || step.ReceiveEnds? || step.SendUnregister? || step.ExternalLeave?
    ensures SameLines(s, Apply(s, step)) && s.inbox <= Apply(s, step).inbox
  {
    if step.FrameJoin? {
      QueueSame(s, JoinRoom(s.sessions[step.sid].user, step.room, step.sid));
    } else if step.SendUnregister? {
      QueueSame(s, UnregisterUser(s.sessions[step.sid].user, step.sid));
    } else if step.ExternalLeave? {
      QueueSame(s, LeaveRoom(step.user, step.room));
    }
  }

  lemma CloseSame(s: State, step: Step)
    requires InRange(s) && Enabled(s, step) && (step.SendEnds? || step.WriteAck?)
    ensures SameLines(s, Apply(s, step)) && s.inbox <= Apply(s, step).inbox
  {
  }

  lemma ShowSame(s: State, step: Step)
    requires InRange(s) && Enabled(s, step) && step.WriteChat?
    ensures SameLines(s, Apply(s, step)) && s.inbox <= Apply(s, step).inbox
  {
  }

  lemma CallSame(s: State, step: Step)
    requires InRange(s) && Enabled(s, step) && (step.TaskSend? || step.ServerExecutes?)
    ensures SameLines(s, Apply(s, step)) && s.inbox <= Apply(s, step).inbox
  {
  }

  lemma RetrySame(s: State, step: Step)
    requires InRange(s) && Enabled(s, step) && step.TransportFails?
    ensures SameLines(s, Apply(s, step)) && s.inbox <= Apply(s, step).inbox
  {
  }

  lemma AckSame(s: State, step: Step)
    requires InRange(s) && Enabled(s, step) && (step.OrphanCommits? || step.TaskResolves? || step.AckPush?)
    ensures SameLines(s, Apply(s, step)) && s.inbox <= Apply(s, step).inbox
  {
  }

  lemma CastKeeps(s: State, a: ActorId, u: UserId)
    requires DirectInv(s) && a < |s.actors| && s.actors[a].activity.Casting? && u in s.actors[a].members
    requires s.actors[a].members[u] < |s.chans| && s.actors[a].members[u] < |s.h.entered|
    requires s.actors[a].activity.msg.RoomMessage?
    ensures DirectInv(DoCast(s, a, u))
  {
    LinesRoom(s.reqs, s.h.sent, s.h.entered, s.actors[a].activity.msg, OnTheWay(s), s.actors[a].members[u]);
  }

  lemma SendSame(s: State, a: ActorId, x: Actor, m: RoomMsg, at: int)
    requires a < |s.actors| && a < |s.h.logs| && m.SendMessage?
    ensures var t := HandleSend(s, a, x, m.id, m.from, m.content, at); SameLines(s, t) && t.inbox == s.inbox
  {
  }

  lemma MailSame(s: State, a: ActorId, at: int)
    requires a < |s.actors| && a < |s.h.logs| && s.actors[a].mailbox != []
    ensures SameLines(s, DoRoomStep(s, a, at)) && DoRoomStep(s, a, at).inbox == s.inbox
  {
    var m := s.actors[a].mailbox[0];
    if m.SendMessage? {
      SendSame(s, a, PopMail(s.actors[a]), m, at);
    }
  }

  lemma RoomSame(s: State, step: Step)
    requires InRange(s) && Enabled(s, step) && (step.RoomStep? || step.RoomTick? || step.RoomSweep? || step.RoomStops?)
    ensures SameLines(s, Apply(s, step)) && s.inbox <= Apply(s, step).inbox
  {
    if step.RoomStep? {
      MailSame(s, step.actor, step.at);
    }
  }

  predicate Moves(step: Step) {
    step.Connect? || step.FrameDirect? || step.FrameRoom? || step.RouterDeliver? || step.RoomCast?
  }

  lemma QuietSame(s: State, step: Step)
    requires InRange(s) && Enabled(s, step) && !Moves(step)
    ensures SameLines(s, Apply(s, step)) && (!step.RouterStep? ==> s.inbox <= Apply(s, step).inbox)
  {
    if
    case step.RouterStep? => DispatchSame(s, step.at);
    case step.Start? || step.FrameJoin? || step.ReceiveEnds? || step.SendUnregister? || step.ExternalLeave? =>
      SessionSame(s, step);
    case step.SendEnds? || step.WriteAck? => CloseSame(s, step);
    case step.WriteChat? => ShowSame(s, step);
    case step.TaskSend? || step.ServerExecutes? => CallSame(s, step);
    case step.TransportFails? => RetrySame(s, step);
    case step.OrphanCommits? || step.TaskResolves? || step.AckPush? => AckSame(s, step);
    case step.RoomStep? || step.RoomTick? || step.RoomSweep? || step.RoomStops? => RoomSame(s, step);
  }

  lemma MoveKeeps(s: State, step: Step)
    requires Inv(s) && DirectInv(s) && Enabled(s, step) && Moves(step)
    ensures DirectInv(Apply(s, step))
  {
    if
    case step.Connect? => ConnectKeeps(s, step.user);
    case step.FrameDirect? || step.FrameRoom? => FrameKeeps(s, step);
    case step.RouterDeliver? => DeliverKeeps(s);
    case step.RoomCast? =>
      var x := s.actors[step.actor];
      assert ActorInRange(x, |s.sessions|) && ActorOk(s.sessions, s.reqs, x);
      CastKeeps(s, step.actor, step.user);
  }

  lemma DirectStep(s: State, step: Step)
    requires Inv(s) && DirectInv(s) && Enabled(s, step)
    ensures DirectInv(Apply(s, step))
  {
    if Moves(step) {
      MoveKeeps(s, step);
    } else {
      QuietSame(s, step);
    }
  }

  lemma {:induction false} DirectRun(s: State, steps: seq<Step>)
    requires Inv(s) && DirectInv(s) && CanRun(s, steps)
    ensures DirectInv(Run(s, steps))
    decreases |steps|
  {
    if steps != [] {
      DirectStep(s, steps[0]);
      InvStep(s, steps[0]);
      DirectRun(Apply(s, steps[0]), steps[1..]);
    }
  }

  lemma InitDirect()
    ensures DirectInv(INIT)
  {
  }

  lemma ReachableDirect(s: State)
    requires Reachable(s)
    ensures DirectInv(s)
  {
    var steps :| CanRun(INIT, steps) && Run(INIT, steps) == s;
    InitInv();
    InitDirect();
    DirectRun(INIT, steps);
  }

  lemma EnteredInOrder(s: State, sid: SessionId, r: SessionId)
    requires DirectInv(s) && sid < |s.h.sent| && r < |s.h.entered|
    ensures InOrder(s.reqs, DirectIds(s.h.entered[r]), s.h.sent[sid], sid)
  {
    var ids, way := DirectIds(s.h.entered[r]), OnTheWay(s);
    assert ids + (way + []) == ids + way && ids + [] == ids;
    LineWithout(s.reqs, s.h.sent, ids, way, []);
  }

  /**
   The direct messages of one session that enter a given channel, or reach that client's screen, come in
   the order in which the session sent them.
   */
  lemma DirectOrderKept(s: State, sid: SessionId, r: SessionId)
    requires Reachable(s) && sid < |s.sessions| && r < |s.sessions|
    ensures Sized(s)
    ensures Subsequence(Keep(s.reqs, DirectIds(s.h.entered[r]), BySession(sid)), s.h.sent[sid])
    ensures Subsequence(Keep(s.reqs, DirectIds(s.h.shown[r]), BySession(sid)), s.h.sent[sid])
  {
    ReachableDirect(s);
    ReachableInv(s);
    EnteredInOrder(s, sid, r);
    ShownIsPrefix(s.chans[r], s.h.entered[r], s.h.shown[r]);
    ShownInOrder(s.reqs, s.h.shown[r], s.h.entered[r], s.h.sent[sid], sid);
  }

  lemma {:induction false} DirectIdsPrefix(p: seq<ChatMessage>, q: seq<ChatMessage>)
    requires p <= q
    ensures DirectIds(p) <= DirectIds(q)
    decreases |q|
  {
    if p != q {
      assert p <= q[..|q| - 1];
      DirectIdsPrefix(p, q[..|q| - 1]);
    }
  }

  lemma ShownInOrder(reqs: map<MsgId, Request>, shown: seq<ChatMessage>, entered: seq<ChatMessage>, sent: seq<MsgId>,
                     sid: SessionId)
    requires shown <= entered && InOrder(reqs, DirectIds(entered), sent, sid)
    ensures InOrder(reqs, DirectIds(shown), sent, sid)
  {
    DirectIdsPrefix(shown, entered);
    var x, p := DirectIds(shown), BySession(sid);
    var y := DirectIds(entered)[|x|..];
    assert DirectIds(entered) == x + y;
    KeepConcat(reqs, x, y, p);
    assert Keep(reqs, x, p) <= Keep(reqs, x + y, p);
    PrefixSubsequence(Keep(reqs, x, p), Keep(reqs, x + y, p), sent);
  }
}
