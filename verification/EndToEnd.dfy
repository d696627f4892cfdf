/** The model is not idle: any two users can exchange a direct message from frame to ack. */
module EndToEnd {
  import opened Types
  import opened Sequences
  import opened Channels
  import opened Registry
  import opened Store
  import opened Protocol
  import opened Invariants
  import opened Theorems

  /** Nothing is under way and these are the only sessions so far, all of them running. */
  predicate Online(s: State, us: seq<UserId>) {
    && s.inbox == [] && s.hand == None && s.reqs == map[] && s.actors == [] && s.router.rooms == map[]
    && |s.sessions| == |us| && |s.chans| == |us| && |s.acks| == |us| && |s.h.shown| == |us| && |s.h.handed| == |us|
    && (forall i :: 0 <= i < |us| ==>
          && s.sessions[i] == Session(us[i], Running, true)
          && us[i] in s.router.users && s.router.users[us[i]] == i
          && s.chans[i] == Chan([], true) && s.acks[i] == Chan([], true) && s.h.shown[i] == [] && s.h.handed[i] == [])
    && (forall u :: u in s.router.users ==> u in us)
  }

  function Arrived(s: State, u: UserId): State {
    DoConnect(s, u).(inbox := [], router := Register(s.router, u, |s.sessions|),
                     sessions := s.sessions + [Session(u, Running, true)],
                     acks := s.acks + [Chan([], true)])
  }

  lemma ArrivedOnline(s: State, us: seq<UserId>, u: UserId)
    requires Online(s, us) && u !in us
    ensures Online(Arrived(s, u), us + [u])
  {
  }

  lemma ArriveSteps(s: State, us: seq<UserId>, u: UserId)
    requires Sized(s) && Online(s, us) && u !in us
    ensures var n := |us|; var s1 := DoConnect(s, u); var s2 := HandleRegister(PopInbox(s1), u, n);
            && s1.inbox == [RegisterUser(u, n)] && s1.hand == None
            && s2.sessions == s.sessions + [Session(u, Accepted, false)] && |s2.acks| == n + 1
            && DoStart(s2, n) == Arrived(s, u)
  {
    var n := |us|;
    var s1 := DoConnect(s, u);
    assert s1.inbox == [RegisterUser(u, n)];
  }

  lemma Arrive(s: State, us: seq<UserId>, u: UserId)
    requires Reachable(s) && InRange(s) && Online(s, us) && u !in us
    ensures Reachable(Arrived(s, u)) && InRange(Arrived(s, u))
  {
    var n := |us|;
    ArriveSteps(s, us, u);
    ReachStep(s, Connect(u));
    ReachStep(DoConnect(s, u), RouterStep(0));
    ReachStep(HandleRegister(PopInbox(DoConnect(s, u)), u, n), Start(n));
  }

  lemma {:induction false} AllArrive(us: seq<UserId>) returns (s: State)
    requires NoDup(us)
    ensures Reachable(s) && InRange(s) && Online(s, us)
  {
    if us == [] {
      s := INIT;
      assert CanRun(INIT, []) && Run(INIT, []) == INIT;
      InitShape();
    } else {
      var init, u := us[..|us| - 1], us[|us| - 1];
      s := AllArrive(init);
      Arrive(s, init, u);
      ArrivedOnline(s, init, u);
      s := Arrived(s, u);
      assert init + [u] == us;
    }
  }

  // ---- One message ----

  datatype Note = Note(from: SessionId, to: SessionId, id: MsgId, client: ClientId, conv: string, content: string)

  /** The message has been delivered and its task is ready to write. */
  predicate Delivered(s: State, us: seq<UserId>, n: Note) {
    && n.from < |us| && n.to < |us| && |s.sessions| == |us| && |s.chans| == |us| && |s.acks| == |us|
    && |s.h.shown| == |us| && |s.h.handed| == |us|
    && s.sessions[n.from].phase == Running && s.sessions[n.to].phase == Running && s.chans[n.from].open
    && s.chans[n.to] == Chan([DirectMessage(us[n.from], n.content, n.id)], true)
    && s.acks[n.from] == Chan([], true) && s.h.shown[n.to] == [] && s.h.handed[n.from] == []
    && n.id in s.reqs && s.reqs[n.id].origin == n.from && s.reqs[n.id].client == n.client
    && n.id in s.tasks && s.tasks[n.id] == Task(0, Ready) && n.id in s.writes && Accepts(s.writes[n.id])
  }

  lemma SendSteps(s: State, us: seq<UserId>, n: Note)
    requires Sized(s) && Online(s, us) && n.from < |us| && n.to < |us| && us[n.from].project != "" && n.conv != ""
    ensures var m := SendDirectMessage(n.id, n.conv, us[n.from], us[n.to], n.content);
            var s1 := DoFrameDirect(s, n.from, n.id, n.client, n.conv, us[n.to], n.content);
            var s2 := HandleDirect(PopInbox(s1), m, 0);
            && s1.inbox == [m] && s1.hand == None && s2.hand.Some? && s2.router == s.router
            && |s2.chans| == |s2.h.entered| == |us|
            && Delivered(DoDeliver(s2), us, n)
  {
    var m := SendDirectMessage(n.id, n.conv, us[n.from], us[n.to], n.content);
    var s1 := DoFrameDirect(s, n.from, n.id, n.client, n.conv, us[n.to], n.content);
    assert s1.inbox == [m];
  }

  function Sent(s: State, us: seq<UserId>, n: Note): State
    requires Sized(s) && Online(s, us) && n.from < |us| && n.to < |us|
  {
    var m := SendDirectMessage(n.id, n.conv, us[n.from], us[n.to], n.content);
    HandleDirect(PopInbox(DoFrameDirect(s, n.from, n.id, n.client, n.conv, us[n.to], n.content)), m, 0)
  }

  lemma Hand(s: State, us: seq<UserId>, n: Note)
    requires Reachable(s) && InRange(s) && Online(s, us) && n.from < |us| && n.to < |us| && us[n.from].project != ""
    requires n.conv != ""
    ensures Reachable(Sent(s, us, n)) && InRange(Sent(s, us, n))
  {
    SendSteps(s, us, n);
    ReachStep(s, FrameDirect(n.from, n.id, n.client, n.conv, us[n.to], n.content));
    Take(DoFrameDirect(s, n.from, n.id, n.client, n.conv, us[n.to], n.content));
  }

  lemma Take(s: State)
    requires Reachable(s) && InRange(s) && s.hand == None && s.inbox != [] && s.inbox[0].SendDirectMessage?
    ensures Reachable(HandleDirect(PopInbox(s), s.inbox[0], 0)) && InRange(HandleDirect(PopInbox(s), s.inbox[0], 0))
  {
    ReachStep(s, RouterStep(0));
  }

  lemma Send(s: State, us: seq<UserId>, n: Note)
    requires Reachable(s) && InRange(s) && Online(s, us) && n.from < |us| && n.to < |us| && us[n.from].project != ""
    requires n.conv != ""
    ensures InRange(Sent(s, us, n)) && Sent(s, us, n).hand.Some?
    ensures var t := DoDeliver(Sent(s, us, n)); Reachable(t) && InRange(t) && Delivered(t, us, n)
  {
    Hand(s, us, n);
    SendSteps(s, us, n);
    ReachStep(Sent(s, us, n), RouterDeliver);
  }

  /** The recipient's client has been shown the message. */
  predicate Shown(s: State, us: seq<UserId>, n: Note) {
    n.from < |us| && n.to < |s.h.shown| && s.h.shown[n.to] == [DirectMessage(us[n.from], n.content, n.id)]
  }

  /** The sender's ack channel is ready, and its request is the note. */
  predicate Awaits(s: State, n: Note) {
    && n.from < |s.sessions| == |s.chans| == |s.acks| == |s.h.handed| && s.sessions[n.from].phase == Running
    && s.chans[n.from].open
    && s.acks[n.from] == Chan([], true) && s.h.handed[n.from] == []
    && n.id in s.reqs && s.reqs[n.id].origin == n.from && s.reqs[n.id].client == n.client
  }

  lemma Show(s: State, us: seq<UserId>, n: Note)
    requires Reachable(s) && InRange(s) && Delivered(s, us, n)
    ensures var t := PopChat(s, n.to, true);
            && Reachable(t) && InRange(t) && Shown(t, us, n) && Awaits(t, n)
            && n.id in t.tasks && t.tasks[n.id] == Task(0, Ready) && n.id in t.writes && Accepts(t.writes[n.id])
  {
    ReachStep(s, WriteChat(n.to, true));
  }

  /** Through call, commit and reply to the resolved oneshot. */
  lemma Persist(s: State, us: seq<UserId>, n: Note) returns (t: State)
    requires Reachable(s) && InRange(s) && Shown(s, us, n) && Awaits(s, n)
    requires n.id in s.tasks && s.tasks[n.id] == Task(0, Ready) && n.id in s.writes && Accepts(s.writes[n.id])
    ensures Reachable(t) && InRange(t) && Shown(t, us, n) && Awaits(t, n) && n.id in t.shots
    ensures t.shots[n.id] == Persisted
  {
    ReachStep(s, TaskSend(n.id));
    var s1 := SetTask(s, n.id, Task(0, InFlight));
    ReachStep(s1, ServerExecutes(n.id, true));
    var s2 := DoExecute(s1, n.id, true);
    ReachStep(s2, TaskResolves(n.id));
    t := Resolve(s2, n.id, Persisted);
  }

  /** The sender's client has been told that the message is persisted. */
  predicate Told(s: State, n: Note) {
    n.from < |s.h.handed| && s.h.handed[n.from] == [Ack(n.client, n.id, Persisted)]
  }

  lemma Acknowledge(s: State, us: seq<UserId>, n: Note) returns (t: State)
    requires Reachable(s) && InRange(s) && Shown(s, us, n) && Awaits(s, n)
    requires n.id in s.shots && s.shots[n.id] == Persisted
    ensures Reachable(t) && Shown(t, us, n) && Told(t, n)
  {
    ReachStep(s, AckPush(n.id));
    var s1 := DoAckPush(s, n.id);
    ReachStep(s1, WriteAck(n.from, true));
    t := PopAck(s1, n.from);
  }

  /**
   However many users are online, any of them can send any of them any text: some run shows it to
   the recipient's client and tells the sender's client that it is persisted.
   */
  lemma AnyoneCanReachAnyone(us: seq<UserId>, n: Note)
    requires NoDup(us) && n.from < |us| && n.to < |us| && us[n.from].project != "" && n.conv != ""
    ensures exists s :: Reachable(s) && Shown(s, us, n) && Told(s, n)
  {
    var s := AllArrive(us);
    Send(s, us, n);
    var s1 := DoDeliver(Sent(s, us, n));
    Show(s1, us, n);
    var s2 := Persist(PopChat(s1, n.to, true), us, n);
    var s3 := Acknowledge(s2, us, n);
  }
}
