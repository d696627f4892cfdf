/** A broadcast reaches its members in whatever order the map yields them; the outcome is the same. */
module Broadcast {
  import opened Types
  import opened Sequences
  import opened Channels
  import opened Protocol
  import opened Invariants
  import opened OrderProof
  import opened Theorems
  import opened Membership

  /** Two members may be reached in either order, with other tasks at work before and after. */
  lemma CastsCommute(s: State, a: ActorId, u: UserId, v: UserId)
    requires InRange(s) && a < |s.actors| && ActorOk(s.sessions, s.reqs, s.actors[a]) && s.actors[a].activity.Casting?
    requires u in s.actors[a].members && v in s.actors[a].members && u != v
    ensures DoCast(DoCast(s, a, u), a, v) == DoCast(DoCast(s, a, v), a, u)
  {
    var x := s.actors[a];
    ChannelsDistinct(s.sessions, s.reqs, x);
    var c, d, m := x.members[u], x.members[v], x.activity.msg;
    var l, r := DoCast(DoCast(s, a, u), a, v), DoCast(DoCast(s, a, v), a, u);
    assert l.chans == s.chans[c := Offer(s.chans[c], m)][d := Offer(s.chans[d], m)];
    assert r.chans == s.chans[d := Offer(s.chans[d], m)][c := Offer(s.chans[c], m)];
    assert l.chans == r.chans;
    assert l.h.entered == r.h.entered;
    assert x.activity.pending - {u} - {v} == x.activity.pending - {v} - {u};
    assert l.actors[a] == r.actors[a];
    assert l.actors == r.actors;
  }

  // ---- A whole broadcast ----

  predicate Castable(s: State, a: ActorId, u: UserId) {
    && a < |s.actors| && s.actors[a].activity.Casting? && u in s.actors[a].members
    && s.actors[a].members[u] < |s.chans| && s.actors[a].members[u] < |s.h.entered|
  }

  /** The rest of a broadcast, reaching the members in this order. */
  function CastAll(s: State, a: ActorId, us: seq<UserId>): State
    decreases |us|
  {
    if us == [] then s else CastAll(if Castable(s, a, us[0]) then DoCast(s, a, us[0]) else s, a, us[1..])
  }

  ghost predicate Apart(members: map<UserId, SessionId>) {
    forall u, v :: u in members && v in members && u != v ==> members[u] != members[v]
  }

  /** Channel `c` belongs to one of these members. */
  predicate Reached(members: map<UserId, SessionId>, us: seq<UserId>, c: SessionId) {
    exists i :: 0 <= i < |us| && us[i] in members && members[us[i]] == c
  }

  lemma ReachedFirst(members: map<UserId, SessionId>, us: seq<UserId>, c: SessionId)
    requires us != [] && us[0] in members
    ensures Reached(members, us, c) <==> members[us[0]] == c || Reached(members, us[1..], c)
  {
    if Reached(members, us[1..], c) {
      var i :| 0 <= i < |us[1..]| && us[1..][i] in members && members[us[1..][i]] == c;
      assert us[i + 1] in members && members[us[i + 1]] == c;
    }
    if Reached(members, us, c) && members[us[0]] != c {
      var i :| 0 <= i < |us| && us[i] in members && members[us[i]] == c;
      assert us[1..][i - 1] == us[i];
    }
  }

  lemma ReachedOnce(members: map<UserId, SessionId>, u: UserId, us: seq<UserId>)
    requires Apart(members) && u in members && u !in us
    ensures !Reached(members, us, members[u])
  {
    forall i | 0 <= i < |us| && us[i] in members
      ensures members[us[i]] != members[u]
    {
      assert us[i] in us;
    }
  }

  lemma CastOne(s: State, a: ActorId, u: UserId)
    requires Castable(s, a, u)
    ensures var t, c := DoCast(s, a, u), s.actors[a].members[u];
            && |t.h.entered| == |s.h.entered| && |t.actors| == |s.actors| && t.writes == s.writes
            && t.actors[a].members == s.actors[a].members && t.actors[a].activity.Casting?
            && t.actors[a].activity.msg == s.actors[a].activity.msg
            && t.chans == s.chans[c := Offer(s.chans[c], s.actors[a].activity.msg)]
  {
  }

  /**
   What channel `c` holds after the members `us` were reached: one copy is offered to each of them, nothing to
   others.
   */
  function Outcome(s: State, a: ActorId, us: seq<UserId>, c: SessionId): Chan<ChatMessage>
    requires a < |s.actors| && s.actors[a].activity.Casting? && c < |s.chans|
  {
    if Reached(s.actors[a].members, us, c) then Offer(s.chans[c], s.actors[a].activity.msg) else s.chans[c]
  }

  lemma {:induction false} CastAllOutcome(s: State, a: ActorId, us: seq<UserId>, c: SessionId)
    requires (forall i :: 0 <= i < |us| ==> Castable(s, a, us[i])) && NoDup(us)
    requires a < |s.actors| && s.actors[a].activity.Casting? && Apart(s.actors[a].members) && c < |s.chans|
    ensures |CastAll(s, a, us).chans| == |s.chans| && CastAll(s, a, us).chans[c] == Outcome(s, a, us, c)
    decreases |us|
  {
    if us != [] {
      var members, s', rest := s.actors[a].members, DoCast(s, a, us[0]), us[1..];
      CastOne(s, a, us[0]);
      NoDupTail(rest, us[0]) by { assert [us[0]] + rest == us; }
      forall i | 0 <= i < |rest|
        ensures Castable(s', a, rest[i])
      {
        assert Castable(s, a, us[i + 1]);
      }
      CastAllOutcome(s', a, rest, c);
      ReachedFirst(members, us, c);
      ReachedOnce(members, us[0], rest);
    }
  }

  lemma SameReach(members: map<UserId, SessionId>, us: seq<UserId>, vs: seq<UserId>, c: SessionId)
    requires forall u :: u in us ==> u in vs
    ensures Reached(members, us, c) ==> Reached(members, vs, c)
  {
    if Reached(members, us, c) {
      var i :| 0 <= i < |us| && us[i] in members && members[us[i]] == c;
      assert us[i] in vs;
    }
  }

  /** In every reachable state the members of a casting room can all be reached, through channels of their own. */
  lemma MembersCastable(s: State, a: ActorId, us: seq<UserId>)
    requires Reachable(s) && a < |s.actors| && s.actors[a].activity.Casting?
    requires forall u :: u in us ==> u in s.actors[a].members
    ensures Apart(s.actors[a].members) && forall i :: 0 <= i < |us| ==> Castable(s, a, us[i])
  {
    MembersOwnTheirChannels(s, a);
    ReachableInv(s);
    assert ActorInRange(s.actors[a], |s.sessions|);
  }

  /** The order in which the members come up makes no difference to any channel. */
  lemma BroadcastInAnyOrder(s: State, a: ActorId, us: seq<UserId>, vs: seq<UserId>, c: SessionId)
    requires Reachable(s) && a < |s.actors| && s.actors[a].activity.Casting? && c < |s.chans|
    requires NoDup(us) && NoDup(vs) && (forall u :: u in us <==> u in vs)
    requires (forall u :: u in us ==> u in s.actors[a].members)
    ensures |CastAll(s, a, us).chans| == |s.chans| == |CastAll(s, a, vs).chans|
    ensures CastAll(s, a, us).chans[c] == Outcome(s, a, us, c) == CastAll(s, a, vs).chans[c]
  {
    MembersCastable(s, a, us);
    MembersCastable(s, a, vs);
    CastAllOutcome(s, a, us, c);
    CastAllOutcome(s, a, vs, c);
    SameReach(s.actors[a].members, us, vs, c);
    SameReach(s.actors[a].members, vs, us, c);
  }

  /** Filling, closing or emptying one member's channel changes nothing for another member. */
  lemma OtherMembersUnaffected(s: State, a: ActorId, us: seq<UserId>, c: SessionId, d: SessionId, v: Chan<ChatMessage>)
    requires Reachable(s) && a < |s.actors| && s.actors[a].activity.Casting? && c < |s.chans| && d < |s.chans| && c != d
    requires NoDup(us) && forall u :: u in us ==> u in s.actors[a].members
    ensures |CastAll(s, a, us).chans| == |s.chans| == |CastAll(s.(chans := s.chans[d := v]), a, us).chans|
    ensures CastAll(s.(chans := s.chans[d := v]), a, us).chans[c] == CastAll(s, a, us).chans[c]
  {
    MembersCastable(s, a, us);
    var s' := s.(chans := s.chans[d := v]);
    forall i | 0 <= i < |us|
      ensures Castable(s', a, us[i])
    {
      assert Castable(s, a, us[i]);
    }
    CastAllOutcome(s, a, us, c);
    CastAllOutcome(s', a, us, c);
  }
}
