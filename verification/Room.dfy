/** A room actor as the object it is: its loop, the members map it updates and the channels it pushes into. */
module Room {
  import opened Types
  import opened Channels
  import opened Registry
  import opened Store

  /**
   What happens to a room, in order: it takes up mail, its cleanup timer ticks, or in between other
   tasks leave a channel in another state.
   */
  datatype Event<C> = Mail(mail: RoomMail<C>, at: int) | Tick | Meanwhile(chan: C, left: Chan<ChatMessage>)

  /** The members, and the channels that are or may become theirs. */
  datatype RoomView<C> = RoomView(members: map<UserId, C>, chans: map<C, Chan<ChatMessage>>)

  predicate Alive<C>(v: RoomView<C>, u: UserId) {
    u in v.members && v.members[u] in v.chans && v.chans[v.members[u]].open
  }

  /** `retain`: exactly the entries with an open channel stay. */
  function Retained<C>(v: RoomView<C>): map<UserId, C> {
    map u | u in v.members && Alive(v, u) :: v.members[u]
  }

  function NextMembers<C>(v: RoomView<C>, e: Event<C>): map<UserId, C> {
    match e
    case Mail(AddMember(u, c), _) => AddMemberTo(v.members, u, c)
    case Mail(RemoveMember(u), _) => v.members - {u}
    case Mail(SendMessage(_, _, _), _) => v.members
    case Tick => Retained(v)
    case Meanwhile(_, _) => v.members
  }

  /** A channel is offered one copy of a message sent while it is a member's; a closed one stays as it is. */
  ghost function NextChannel<C>(room: RoomId, v: RoomView<C>, e: Event<C>, c: C): Chan<ChatMessage>
    requires c in v.chans
  {
    match e
    case Mail(SendMessage(id, from, content), _) =>
      if c in v.members.Values then Offer(v.chans[c], RoomMessage(room, from, content, id)) else v.chans[c]
    case Meanwhile(d, left) => if c == d && v.chans[c].open then left else v.chans[c]
    case _ => v.chans[c]
  }

  ghost function Next<C>(room: RoomId, v: RoomView<C>, e: Event<C>): RoomView<C> {
    RoomView(NextMembers(v, e), map c | c in v.chans :: NextChannel(room, v, e, c))
  }

  ghost function After<C>(room: RoomId, v: RoomView<C>, es: seq<Event<C>>): RoomView<C> {
    if es == [] then v else Next(room, After(room, v, es[..|es| - 1]), es[|es| - 1])
  }

  /** The persistence call a message spawns. */
  function Spawns<C>(room: RoomId, e: Event<C>): seq<Write> {
    match e
    case Mail(SendMessage(id, from, content), at) => [RoomBody(id, room, from, content, at)]
    case _ => []
  }

  function SpawnedBy<C>(room: RoomId, es: seq<Event<C>>): seq<Write> {
    if es == [] then [] else SpawnedBy(room, es[..|es| - 1]) + Spawns(room, es[|es| - 1])
  }

  predicate IsSend<C>(e: Event<C>) {
    e.Mail? && e.mail.SendMessage?
  }

  function Sends<C>(es: seq<Event<C>>): nat {
    if es == [] then 0
    else Sends(es[..|es| - 1]) + if IsSend(es[|es| - 1]) then 1 else 0
  }

  /** `w` asks for the row of this room message, under its sender's project, as of the event's time. */
  predicate Records<C>(w: Write, room: RoomId, e: Event<C>) {
    && e.Mail? && e.mail.SendMessage? && w.RoomWrite?
    && w.project == e.mail.from.project && w.room == room && w.id == e.mail.id
    && w.sender == e.mail.from.user && w.content == e.mail.content && w.at == e.at
  }

  /** The writes are the messages taken up, one for one and in order. */
  ghost predicate RecordsAll<C>(ws: seq<Write>, room: RoomId, es: seq<Event<C>>) {
    && |ws| == Sends(es)
    && (forall i :: 0 <= i < |es| && IsSend(es[i]) ==>
          Sends(es[..i]) < |ws| && Records(ws[Sends(es[..i])], room, es[i]))
  }

  lemma OneMoreRecorded<C>(ws: seq<Write>, more: seq<Write>, room: RoomId, es: seq<Event<C>>)
    requires es != [] && RecordsAll(ws, room, es[..|es| - 1])
    requires var e := es[|es| - 1]; if IsSend(e) then |more| == 1 && Records(more[0], room, e) else more == []
    ensures RecordsAll(ws + more, room, es)
  {
    var init := es[..|es| - 1];
    forall i | 0 <= i < |es| && IsSend(es[i])
      ensures Sends(es[..i]) < |ws + more| && Records((ws + more)[Sends(es[..i])], room, es[i])
    {
      if i < |init| {
        assert es[i] == init[i] && es[..i] == init[..i];
      }
    }
  }

  lemma {:induction false} SendsAreRecorded<C>(room: RoomId, es: seq<Event<C>>)
    ensures RecordsAll(SpawnedBy(room, es), room, es)
    decreases |es|
  {
    if es != [] {
      SendsAreRecorded(room, es[..|es| - 1]);
      OneMoreRecorded(SpawnedBy(room, es[..|es| - 1]), Spawns(room, es[|es| - 1]), room, es);
    }
  }

  // ---- Who is a member after a run of events ----

  ghost predicate Evicts<C>(v: RoomView<C>, e: Event<C>, u: UserId) {
    (e.Mail? && e.mail == RemoveMember(u)) || (e.Tick? && !Alive(v, u))
  }

  /** `u` got channel `c` before event `k` and no later event took it away. */
  ghost predicate MemberSince<C>(room: RoomId, v: RoomView<C>, es: seq<Event<C>>, u: UserId, c: C, k: nat) {
    && k <= |es|
    && (if k == 0 then u in v.members && v.members[u] == c
        else es[k - 1].Mail? && es[k - 1].mail == AddMember(u, c) && u !in After(room, v, es[..k - 1]).members)
    && (forall j :: k <= j < |es| ==> !Evicts(After(room, v, es[..j]), es[j], u))
  }

  lemma SinceGoesOn<C>(room: RoomId, v: RoomView<C>, es: seq<Event<C>>, e: Event<C>, u: UserId, c: C, k: nat)
    requires k <= |es|
    ensures MemberSince(room, v, es + [e], u, c, k) <==>
            MemberSince(room, v, es, u, c, k) && !Evicts(After(room, v, es), e, u)
  {
    var all := es + [e];
    assert all[..|es|] == es && all[|es|] == e;
    assert forall j :: 0 <= j < |es| ==> all[j] == es[j] && all[..j] == es[..j];
  }

  /** Membership, exactly: somebody is in the room through `c` iff they were let in with it and not put out since. */
  lemma {:induction false} MemberIff<C>(room: RoomId, v: RoomView<C>, es: seq<Event<C>>, u: UserId, c: C)
    ensures var ms := After(room, v, es).members;
            u in ms && ms[u] == c <==> exists k :: MemberSince(room, v, es, u, c, k)
    decreases |es|
  {
    if es == [] {
      if u in v.members && v.members[u] == c {
        assert MemberSince(room, v, es, u, c, 0);
      }
    } else {
      var init, e := es[..|es| - 1], es[|es| - 1];
      var w := After(room, v, init);
      assert es == init + [e];
      MemberIff(room, v, init, u, c);
      if u in w.members {
        if w.members[u] == c && !Evicts(w, e, u) {
          var k :| MemberSince(room, v, init, u, c, k);
          SinceGoesOn(room, v, init, e, u, c, k);
        }
      } else if e.Mail? && e.mail == AddMember(u, c) {
        assert MemberSince(room, v, es, u, c, |es|);
      }
      forall k: nat | MemberSince(room, v, es, u, c, k)
        ensures var ms := After(room, v, es).members; u in ms && ms[u] == c
      {
        if k <= |init| {
          SinceGoesOn(room, v, init, e, u, c, k);
        }
      }
    }
  }

  // ---- What a channel holds after a run of events ----

  /** The room's messages that were sent while `c` was a member's, in order. */
  ghost function Copies<C>(room: RoomId, v: RoomView<C>, es: seq<Event<C>>, c: C): seq<ChatMessage> {
    if es == [] then [] else
      var init, e := es[..|es| - 1], es[|es| - 1];
      Copies(room, v, init, c) +
        if e.Mail? && e.mail.SendMessage? && c in After(room, v, init).members.Values
        then [RoomMessage(room, e.mail.from, e.mail.content, e.mail.id)] else []
  }

  /** A channel that no other task touches holds, after what it held, exactly the copies that fit, in order. */
  lemma {:induction false} ChannelHolds<C>(room: RoomId, v: RoomView<C>, es: seq<Event<C>>, c: C)
    requires c in v.chans && forall i :: 0 <= i < |es| && es[i].Meanwhile? ==> es[i].chan != c
    ensures c in After(room, v, es).chans
    ensures After(room, v, es).chans[c] == Filled(v.chans[c], Copies(room, v, es, c))
    decreases |es|
  {
    if es == [] {
      assert Filled(v.chans[c], []).queue == v.chans[c].queue;
    } else {
      var init, e := es[..|es| - 1], es[|es| - 1];
      ChannelHolds(room, v, init, c);
      if e.Mail? && e.mail.SendMessage? && c in After(room, v, init).members.Values {
        FilledOffer(v.chans[c], Copies(room, v, init, c), RoomMessage(room, e.mail.from, e.mail.content, e.mail.id));
      }
    }
  }

  // ---- The actor ----

  /** A new member comes with a channel of its own. */
  predicate Brings(e: Event<Channel>, owner: map<Channel, UserId>) {
    match e
    case Mail(AddMember(u, c), _) => c in owner && owner[c] == u
    case Meanwhile(c, _) => c in owner
    case _ => true
  }

  class RoomActor {
    const room: RoomId
    var members: map<UserId, Channel>
    var spawned: seq<Write>

    constructor (room: RoomId)
      ensures this.room == room && members == map[] && spawned == []
    {
      this.room := room;
      members, spawned := map[], [];
    }

    /** No two members share a channel. */
    ghost predicate Distinct()
      reads this
    {
      forall u, v :: u in members && v in members && u != v ==> members[u] != members[v]
    }

    method HandleAddMember(u: UserId, c: Channel) returns (ok: bool)
      modifies this`members
      ensures ok == (u !in old(members)) && members == AddMemberTo(old(members), u, c)
    {
      if u in members {
        return false;
      }
      members := members[u := c];
      return true;
    }

    method HandleRemoveMember(u: UserId)
      modifies this`members
      ensures members == old(members) - {u}
    {
      members := members - {u};
    }

    /**
     The members are reached in no particular order.  Every one is offered exactly one copy, so
     the outcome does not depend on that order, and nobody's full or closed channel touches
     another's.
     */
    method HandleSendMessage(id: MsgId, from: UserId, content: string, at: int)
      requires Distinct()
      modifies this`spawned, members.Values`queue
      ensures spawned == old(spawned) + [RoomWrite(from.project, room, id, from.user, content, at)]
      ensures forall u :: u in members ==>
                members[u].View() == Offer(old(members[u].View()), RoomMessage(room, from, content, id))
    {
      spawned := spawned + [RoomBody(id, room, from, content, at)];
      var message := RoomMessage(room, from, content, id);
      var pending := members.Keys;
      while pending != {}
        invariant pending <= members.Keys
        invariant spawned == old(spawned) + [RoomBody(id, room, from, content, at)]
        invariant forall u :: u in members ==>
                    members[u].View() == if u in pending then old(members[u].View())
                                         else Offer(old(members[u].View()), message)
        decreases |pending|
      {
        var u :| u in pending;
        var _ := members[u].TrySend(message);
        pending := pending - {u};
      }
    }

    /** The cleanup tick. */
    method Cleanup()
      modifies this`members
      ensures members == map u | u in old(members) && old(members[u].open) :: old(members)[u]
    {
      var pending, kept := members.Keys, map[];
      while pending != {}
        invariant pending <= members.Keys && members == old(members)
        invariant kept == map u | u in members && u !in pending && members[u].open :: members[u]
        decreases |pending|
      {
        var u :| u in pending;
        if members[u].open {
          kept := kept[u := members[u]];
        }
        pending := pending - {u};
      }
      members := kept;
    }

    ghost function View(cs: set<Channel>): RoomView<Channel>
      reads this, cs
    {
      RoomView(members, ViewOf(cs))
    }

    /** Each channel is one user's: this is what keeps the members' channels apart. */
    ghost predicate Owned(owner: map<Channel, UserId>)
      reads this
    {
      forall u :: u in members ==> members[u] in owner && owner[members[u]] == u
    }

    method Broadcast(id: MsgId, from: UserId, content: string, at: int, ghost owner: map<Channel, UserId>)
      requires Owned(owner)
      modifies this`spawned, members.Values`queue
      ensures View(owner.Keys) == Next(room, old(View(owner.Keys)), Mail(SendMessage(id, from, content), at))
      ensures spawned == old(spawned) + [RoomBody(id, room, from, content, at)]
    {
      ghost var was := View(owner.Keys);
      HandleSendMessage(id, from, content, at);
      forall c | c in owner
        ensures c.View() == NextChannel(room, was, Mail(SendMessage(id, from, content), at), c)
      {
        if c in members.Values {
          assert c == members[owner[c]];
        }
      }
    }

    method HandleMail(m: RoomMail<Channel>, at: int, ghost owner: map<Channel, UserId>)
      requires Owned(owner) && Brings(Mail(m, at), owner)
      modifies this, members.Values`queue
      ensures Owned(owner)
      ensures View(owner.Keys) == Next(room, old(View(owner.Keys)), Mail(m, at))
      ensures spawned == old(spawned) + Spawns(room, Mail(m, at))
    {
      match m
      case AddMember(u, c) =>
        var _ := HandleAddMember(u, c);
      case RemoveMember(u) =>
        HandleRemoveMember(u);
      case SendMessage(id, from, content) =>
        Broadcast(id, from, content, at, owner);
    }

    method HandleTick(ghost owner: map<Channel, UserId>)
      requires Owned(owner)
      modifies this`members
      ensures Owned(owner)
      ensures View(owner.Keys) == Next(room, old(View(owner.Keys)), Tick)
    {
      Cleanup();
      assert members == Retained(old(View(owner.Keys)));
    }

    /** Other tasks push into a channel, read from it or close it; a closed one never opens again. */
    method Yield(c: Channel, left: Chan<ChatMessage>, ghost owner: map<Channel, UserId>)
      requires Owned(owner) && c in owner
      modifies c
      ensures Owned(owner)
      ensures View(owner.Keys) == Next(room, old(View(owner.Keys)), Meanwhile(c, left))
    {
      if c.open {
        c.queue, c.open := left.queue, left.open;
      }
    }

    method Handle(e: Event<Channel>, ghost owner: map<Channel, UserId>)
      requires Owned(owner) && Brings(e, owner)
      modifies this, owner.Keys
      ensures Owned(owner)
      ensures View(owner.Keys) == Next(room, old(View(owner.Keys)), e)
      ensures spawned == old(spawned) + Spawns(room, e)
    {
      match e
      case Mail(m, at) =>
        HandleMail(m, at, owner);
      case Tick =>
        HandleTick(owner);
      case Meanwhile(c, left) =>
        Yield(c, left, owner);
    }

    /** The select loop over mail and ticks, in the order it takes them up, with other tasks at work in between. */
    method Run(es: seq<Event<Channel>>, ghost owner: map<Channel, UserId>)
      requires Owned(owner) && forall i :: 0 <= i < |es| ==> Brings(es[i], owner)
      modifies this, owner.Keys
      ensures Owned(owner)
      ensures View(owner.Keys) == After(room, old(View(owner.Keys)), es)
      ensures spawned == old(spawned) + SpawnedBy(room, es)
    {
      ghost var view := View(owner.Keys);
      for i := 0 to |es|
        invariant Owned(owner)
        invariant View(owner.Keys) == After(room, view, es[..i])
        invariant spawned == old(spawned) + SpawnedBy(room, es[..i])
      {
        assert es[..i + 1][..i] == es[..i];
        Handle(es[i], owner);
      }
      assert es[..|es|] == es;
    }
  }
}
