/**
 Get-or-insert of a conversation id: a select and, if it finds nothing, an insert, with any
 number of calls interleaved between the two.
 */
module Conversations {
  type ConvId = string

  // ---- Keys ----

  /** String comparison: lexicographic by code point. */
  predicate Less(a: string, b: string) {
    b != [] && (a == [] || a[0] < b[0] || (a[0] == b[0] && Less(a[1..], b[1..])))
  }

  lemma {:induction false} LessIsStrictTotal(a: string, b: string)
    ensures a == b ==> !Less(a, b)
    ensures a != b ==> (Less(a, b) <==> !Less(b, a))
  {
    if a != [] && b != [] && a[0] == b[0] {
      LessIsStrictTotal(a[1..], b[1..]);
      assert a == [a[0]] + a[1..] && b == [b[0]] + b[1..];
    }
  }

  /** At position `k` the strings part, and `a` ends there or has the smaller code point. */
  predicate PartsBelow(a: string, b: string, k: nat) {
    k <= |a| && k < |b| && a[..k] == b[..k] && (k == |a| || a[k] < b[k])
  }

  /** It is the usual order: the strings agree up to some point, and there the lesser one ends or is smaller. */
  lemma {:induction false} LessIff(a: string, b: string)
    ensures Less(a, b) <==> exists k: nat :: PartsBelow(a, b, k)
  {
    if a == [] || b == [] || a[0] != b[0] {
      assert Less(a, b) ==> PartsBelow(a, b, 0);
      assert forall k: nat :: PartsBelow(a, b, k) && k > 0 ==> a[..k][0] == b[..k][0];
    } else {
      LessIff(a[1..], b[1..]);
      forall k: nat
        ensures PartsBelow(a[1..], b[1..], k) ==> PartsBelow(a, b, k + 1)
      {
        assert k < |a| ==> a[..k + 1] == [a[0]] + a[1..][..k];
        assert k < |b| ==> b[..k + 1] == [b[0]] + b[1..][..k];
      }
      forall k: nat | PartsBelow(a, b, k)
        ensures k > 0 && PartsBelow(a[1..], b[1..], k - 1)
      {
        assert k > 0 ==> a[1..][..k - 1] == a[..k][1..] && b[1..][..k - 1] == b[..k][1..];
      }
    }
  }

  datatype Key = Key(project: string, user1: string, user2: string)

  function KeyOf(project: string, a: string, b: string): Key {
    if Less(a, b) then Key(project, a, b) else Key(project, b, a)
  }

  datatype Request = Request(project: string, a: string, b: string)

  /** The service turns away blank names and a conversation with oneself. */
  predicate Admits(r: Request) {
    r.project != "" && r.a != "" && r.b != "" && r.a != r.b
  }

  /**
   The service lets through exactly the requests whose key is a strictly ordered pair of non-blank
   names; both spellings of a pair share it.
   */
  lemma KeysAreOrdered(r: Request)
    ensures var k := KeyOf(r.project, r.a, r.b);
            && {k.user1, k.user2} == {r.a, r.b} && k.project == r.project && KeyOf(r.project, r.b, r.a) == k
            && (Admits(r) <==> k.project != "" && k.user1 != "" && k.user2 != "" && Less(k.user1, k.user2))
  {
    LessIsStrictTotal(r.a, r.b);
  }

  /** And two pairs share a key only if they are the same pair. */
  lemma KeysAreFaithful(r: Request, q: Request)
    requires KeyOf(r.project, r.a, r.b) == KeyOf(q.project, q.a, q.b)
    ensures r.project == q.project && ((r.a == q.a && r.b == q.b) || (r.a == q.b && r.b == q.a))
  {
  }

  // ---- One call at a time, as the query code runs it ----

  type Table = map<Key, ConvId>

  /** What one call comes to: a row that can be read is returned untouched, otherwise the row is set. */
  predicate OneCall(was: Table, k: Key, readable: bool, newId: ConvId, t: Table, id: ConvId, createdNew: bool) {
    && createdNew == (k !in was || !readable)
    && (!createdNew ==> t == was)
    && (createdNew ==> id == newId && t == was[k := newId])
    && k in t && t[k] == id
  }

  class DmLookup {
    var rows: map<Key, ConvId>

    /** `readable`: the reply to the select can be read as rows; if not, the code goes on as if there were none. */
    method Getsert(project: string, a: string, b: string, readable: bool, newId: ConvId)
      returns (id: ConvId, createdNew: bool)
      modifies this
      ensures OneCall(old(rows), KeyOf(project, a, b), readable, newId, rows, id, createdNew)
    {
      var u1, u2 := b, a;
      if Less(a, b) {
        u1, u2 := a, b;
      }
      var k := Key(project, u1, u2);
      if readable && k in rows {
        return rows[k], false;
      }
      rows := rows[k := newId];
      return newId, true;
    }
  }

  // ---- Interleaved calls ----

  /** `Losing` has sent an insert whose reply will not come; `ended` is the moment a call was over. */
  datatype Phase =
    | Selecting
    | Inserting
    | Losing
    | Returned(id: ConvId, created: bool, ended: nat)
    | Errored(ended: nat)

  datatype Call = Call(req: Request, began: nat, phase: Phase) {
    function Key(): Key {
      KeyOf(req.project, req.a, req.b)
    }

    predicate Over() {
      phase.Returned? || phase.Errored?
    }
  }

  /** An insert whose caller got no answer. */
  datatype Stray = Stray(key: Key, id: ConvId)

  /** What comes back from a select; an unreadable reply is taken for an empty one. */
  datatype Reply = Rows | Unreadable | NoReply

  /**
   `trace` holds the table at every moment; the last one is now.  `strays` may still be applied.
   `misread` are the keys whose row was there when a reply about it was unreadable.
   */
  datatype State = State(trace: seq<Table>, calls: seq<Call>, strays: set<Stray>, misread: set<Key>)

  datatype Step =
    | Begin(req: Request)
    | Select(call: nat, reply: Reply)
    | Insert(call: nat, id: ConvId)
    | Lose(call: nat, id: ConvId)
    | GiveUp(call: nat)
    | Commit(stray: Stray)

  function Init(t0: Table): State {
    State([t0], [], {}, {})
  }

  function Now(s: State): Table
    requires s.trace != []
  {
    s.trace[|s.trace| - 1]
  }

  predicate InPhase(s: State, i: nat, p: Phase) {
    i < |s.calls| && s.calls[i].phase == p
  }

  predicate Enabled(s: State, step: Step) {
    match step
    case Begin(req) => Admits(req)
    case Select(i, _) => InPhase(s, i, Selecting)
    case Insert(i, _) => InPhase(s, i, Inserting)
    case Lose(i, _) => InPhase(s, i, Inserting)
    case GiveUp(i) => InPhase(s, i, Losing)
    case Commit(stray) => stray in s.strays
  }

  function Move(s: State, i: nat, p: Phase, t: Table): State
    requires i < |s.calls|
  {
    s.(trace := s.trace + [t], calls := s.calls[i := s.calls[i].(phase := p)])
  }

  function Answer(k: Key, reply: Reply, t: Table, now: nat): Phase {
    match reply
    case Rows => if k in t then Returned(t[k], false, now) else Inserting
    case Unreadable => Inserting
    case NoReply => Errored(now)
  }

  function Misread(k: Key, reply: Reply, t: Table): set<Key> {
    if reply.Unreadable? && k in t then {k} else {}
  }

  /**
   A failed query ends its call with an error.  An insert that failed may be applied all the same,
   at any moment from then on and any number of times.
   */
  function Apply(s: State, step: Step): State
    requires s.trace != [] && Enabled(s, step)
  {
    var t := Now(s);
    match step
    case Begin(req) => s.(trace := s.trace + [t], calls := s.calls + [Call(req, |s.trace|, Selecting)])
    case Select(i, reply) => Move(s, i, Answer(s.calls[i].Key(), reply, t, |s.trace|), t)
                               .(misread := s.misread + Misread(s.calls[i].Key(), reply, t))
    case Insert(i, id) => Move(s, i, Returned(id, true, |s.trace|), t[s.calls[i].Key() := id])
    case Lose(i, id) => Move(s, i, Losing, t).(strays := s.strays + {Stray(s.calls[i].Key(), id)})
    case GiveUp(i) => Move(s, i, Errored(|s.trace|), t)
    case Commit(stray) => s.(trace := s.trace + [t[stray.key := stray.id]])
  }

  ghost predicate CanRun(s: State, steps: seq<Step>)
    decreases |steps|
  {
    s.trace != [] && (steps == [] || (Enabled(s, steps[0]) && CanRun(Apply(s, steps[0]), steps[1..])))
  }

  ghost function Run(s: State, steps: seq<Step>): State
    requires CanRun(s, steps)
    decreases |steps|
  {
    if steps == [] then s else Run(Apply(s, steps[0]), steps[1..])
  }

  ghost predicate Reachable(s: State, t0: Table) {
    exists steps :: CanRun(Init(t0), steps) && Run(Init(t0), steps) == s
  }

  // ---- Any overlap, any failures ----

  /** The id a call returned was the row's value at some moment of that call. */
  ghost predicate WasStored(s: State, c: Call) {
    exists m :: StoredAt(s.trace, c, m)
  }

  ghost predicate StoredAt(trace: seq<Table>, c: Call, m: nat) {
    && c.phase.Returned? && c.began <= m <= c.phase.ended && m < |trace|
    && c.Key() in trace[m] && trace[m][c.Key()] == c.phase.id
  }

  ghost predicate Honest(s: State) {
    forall i :: 0 <= i < |s.calls| ==>
      && s.calls[i].began < |s.trace| && Admits(s.calls[i].req)
      && (s.calls[i].phase.Returned? ==> WasStored(s, s.calls[i]))
  }

  lemma HonestStep(s: State, step: Step)
    requires s.trace != [] && Honest(s) && Enabled(s, step)
    ensures Honest(Apply(s, step))
  {
    var s' := Apply(s, step);
    forall i | 0 <= i < |s'.calls| && s'.calls[i].phase.Returned?
      ensures WasStored(s', s'.calls[i])
    {
      var c := s'.calls[i];
      if i < |s.calls| && s.calls[i] == c {
        var m :| StoredAt(s.trace, c, m);
        assert StoredAt(s'.trace, c, m);
      } else {
        assert StoredAt(s'.trace, c, |s.trace|);
      }
    }
  }

  // ---- A row that is there ----

  /** No call on `k` missed a row that was there. */
  predicate AllRead(s: State, k: Key) {
    k !in s.misread
  }

  lemma AllReadBefore(s: State, step: Step, k: Key)
    requires s.trace != [] && Enabled(s, step) && AllRead(Apply(s, step), k)
    ensures AllRead(s, k)
  {
    assert s.misread <= Apply(s, step).misread;
  }

  /** Every call on `k` is going to find the row it started with. */
  ghost predicate Settled(s: State, k: Key, id: ConvId) {
    && s.trace != [] && k in Now(s) && Now(s)[k] == id
    && (forall p :: p in s.strays ==> p.key != k)
    && (forall i :: 0 <= i < |s.calls| && s.calls[i].Key() == k ==>
          var p := s.calls[i].phase;
          p.Selecting? || p.Errored? || (p.Returned? && p.id == id && !p.created))
  }

  lemma SettledStep(s: State, step: Step, k: Key, id: ConvId)
    requires Settled(s, k, id) && Enabled(s, step) && AllRead(Apply(s, step), k)
    ensures Settled(Apply(s, step), k, id)
  {
    var s' := Apply(s, step);
    forall i | 0 <= i < |s'.calls| && s'.calls[i].Key() == k
      ensures var p := s'.calls[i].phase; p.Selecting? || p.Errored? || (p.Returned? && p.id == id && !p.created)
    {
      assert i < |s.calls| ==> s.calls[i].Key() == k;
    }
  }

  // ---- No overlap ----

  /** Of two calls on key `k`, the earlier one was over before the later one began. */
  ghost predicate Apart(s: State, k: Key) {
    forall i, j :: 0 <= i < j < |s.calls| && s.calls[i].Key() == k && s.calls[j].Key() == k ==>
      s.calls[i].Over() && s.calls[i].phase.ended < s.calls[j].began
  }

  /** No insert on `k` went unanswered. */
  ghost predicate Unlost(s: State, k: Key) {
    forall p :: p in s.strays ==> p.key != k
  }

  ghost predicate CreatedBy(s: State, k: Key, i: nat) {
    i < |s.calls| && s.calls[i].Key() == k && s.calls[i].phase.Returned? && s.calls[i].phase.created
  }

  /** Call `c` agrees with the row as it is now. */
  ghost predicate CallAgrees(c: Call, k: Key, t: Table, t0: Table) {
    c.Key() == k ==>
      && (c.phase.Inserting? ==> k !in t)
      && (c.phase.Returned? ==> k in t && t[k] == c.phase.id && (c.phase.created ==> k !in t0))
  }

  ghost predicate OneRow(s: State, k: Key, t0: Table)
    requires s.trace != []
  {
    && (forall i :: 0 <= i < |s.calls| ==> s.calls[i].began < |s.trace| && CallAgrees(s.calls[i], k, Now(s), t0))
    && (k in t0 ==> k in Now(s) && Now(s)[k] == t0[k])
    && (forall i, j :: CreatedBy(s, k, i) && CreatedBy(s, k, j) ==> i == j)
    && (k in Now(s) ==> k in t0 || exists i :: CreatedBy(s, k, i))
  }

  /** Calls that overlap now overlap for good. */
  lemma ApartBefore(s: State, step: Step, k: Key)
    requires s.trace != [] && Enabled(s, step) && Apart(Apply(s, step), k)
    requires forall i :: 0 <= i < |s.calls| ==> s.calls[i].began < |s.trace|
    ensures Apart(s, k)
  {
    var s' := Apply(s, step);
    forall i, j | 0 <= i < j < |s.calls| && s.calls[i].Key() == k && s.calls[j].Key() == k
      ensures s.calls[i].Over() && s.calls[i].phase.ended < s.calls[j].began
    {
      assert s'.calls[i].Key() == k && s'.calls[j].Key() == k;
    }
  }

  lemma UnlostBefore(s: State, step: Step, k: Key)
    requires s.trace != [] && Enabled(s, step) && Unlost(Apply(s, step), k)
    ensures Unlost(s, k)
  {
    assert s.strays <= Apply(s, step).strays;
  }

  lemma AgreeStep(s: State, step: Step, k: Key, t0: Table, i: nat)
    requires s.trace != [] && Enabled(s, step) && OneRow(s, k, t0) && Apart(s, k) && Apart(Apply(s, step), k)
    requires Unlost(s, k) && AllRead(Apply(s, step), k)
    requires i < |Apply(s, step).calls|
    ensures CallAgrees(Apply(s, step).calls[i], k, Now(Apply(s, step)), t0)
  {
    if i < |s.calls| {
      assert CallAgrees(s.calls[i], k, Now(s), t0);
    }
  }

  lemma CreatedOnce(s: State, step: Step, k: Key, t0: Table, i: nat, j: nat)
    requires s.trace != [] && Enabled(s, step) && OneRow(s, k, t0)
    requires CreatedBy(Apply(s, step), k, i) && CreatedBy(Apply(s, step), k, j)
    ensures i == j
  {
    assert CreatedBy(s, k, i) || (step.Insert? && i == step.call);
    assert CreatedBy(s, k, j) || (step.Insert? && j == step.call);
    assert CallAgrees(s.calls[i], k, Now(s), t0) && CallAgrees(s.calls[j], k, Now(s), t0);
  }

  lemma OneRowStep(s: State, step: Step, k: Key, t0: Table)
    requires s.trace != [] && Enabled(s, step) && OneRow(s, k, t0) && Apart(s, k) && Apart(Apply(s, step), k)
    requires Unlost(s, k) && AllRead(Apply(s, step), k)
    ensures OneRow(Apply(s, step), k, t0)
  {
    var s' := Apply(s, step);
    forall i: nat | i < |s'.calls|
      ensures s'.calls[i].began < |s'.trace| && CallAgrees(s'.calls[i], k, Now(s'), t0)
    {
      AgreeStep(s, step, k, t0, i);
    }
    forall i: nat, j: nat | CreatedBy(s', k, i) && CreatedBy(s', k, j)
      ensures i == j
    {
      CreatedOnce(s, step, k, t0, i, j);
    }
    if k in Now(s') && k !in t0 {
      if k in Now(s) {
        var i :| CreatedBy(s, k, i);
        assert CreatedBy(s', k, i);
      } else {
        assert CreatedBy(s', k, step.call);
      }
    }
  }

  /** Calls on `k` kept apart, each insert answered, each row that was there read. */
  ghost predicate Undisturbed(s: State, k: Key) {
    Apart(s, k) && Unlost(s, k) && AllRead(s, k)
  }

  lemma {:induction false} RunKeeps(s: State, steps: seq<Step>, k: Key, t0: Table)
    requires CanRun(s, steps) && Honest(s) && (Undisturbed(s, k) ==> OneRow(s, k, t0))
    requires k in t0 && AllRead(s, k) ==> Settled(s, k, t0[k])
    ensures var t := Run(s, steps);
            && t.trace != [] && Honest(t)
            && (Undisturbed(t, k) ==> OneRow(t, k, t0))
            && (k in t0 && AllRead(t, k) ==> Settled(t, k, t0[k]))
    decreases |steps|
  {
    if steps != [] {
      var s' := Apply(s, steps[0]);
      HonestStep(s, steps[0]);
      if AllRead(s', k) {
        AllReadBefore(s, steps[0], k);
        if k in t0 {
          SettledStep(s, steps[0], k, t0[k]);
        }
        if Apart(s', k) && Unlost(s', k) {
          ApartBefore(s, steps[0], k);
          UnlostBefore(s, steps[0], k);
          OneRowStep(s, steps[0], k, t0);
        }
      }
      RunKeeps(s', steps[1..], k, t0);
    }
  }

  lemma ReachableKeeps(s: State, t0: Table, k: Key)
    requires Reachable(s, t0)
    ensures s.trace != [] && Honest(s)
    ensures Undisturbed(s, k) ==> OneRow(s, k, t0)
    ensures k in t0 && AllRead(s, k) ==> Settled(s, k, t0[k])
  {
    var steps :| CanRun(Init(t0), steps) && Run(Init(t0), steps) == s;
    RunKeeps(Init(t0), steps, k, t0);
  }

  // ---- The promises ----

  /** However calls overlap and fail, each returned id was the stored one at some moment during the call. */
  lemma ReturnedIdWasStored(s: State, t0: Table, i: nat)
    requires Reachable(s, t0) && i < |s.calls| && s.calls[i].phase.Returned?
    ensures exists m :: StoredAt(s.trace, s.calls[i], m)
  {
    ReachableKeeps(s, t0, s.calls[i].Key());
    assert WasStored(s, s.calls[i]);
  }

  /** No call is ever made under a key that is not an ordered pair of non-blank names. */
  lemma CallsHaveOrderedKeys(s: State, t0: Table, i: nat)
    requires Reachable(s, t0) && i < |s.calls|
    ensures var k := s.calls[i].Key(); k.project != "" && k.user1 != "" && k.user2 != "" && Less(k.user1, k.user2)
  {
    ReachableKeeps(s, t0, s.calls[i].Key());
    KeysAreOrdered(s.calls[i].req);
  }

  /** With nobody in between, the steps of a call are one call of the query code. */
  lemma StepsAreOneCall(s: State, r: Request, readable: bool, newId: ConvId)
    requires s.trace != [] && Admits(r)
    ensures var i, s1 := |s.calls|, Apply(s, Begin(r));
            Enabled(s1, Select(i, if readable then Rows else Unreadable)) &&
            var s2 := Apply(s1, Select(i, if readable then Rows else Unreadable));
            (s2.calls[i].phase.Inserting? ==> Enabled(s2, Insert(i, newId))) &&
            var s3 := if s2.calls[i].phase.Inserting? then Apply(s2, Insert(i, newId)) else s2;
            var p := s3.calls[i].phase;
            && p.Returned? && s3.trace != []
            && OneCall(Now(s), KeyOf(r.project, r.a, r.b), readable, newId, Now(s3), p.id, p.created)
  {
  }

  predicate SamePair(r: Request, q: Request) {
    r.project == q.project && ((r.a == q.a && r.b == q.b) || (r.a == q.b && r.b == q.a))
  }

  /**
   When calls for a pair never overlap, none of their inserts went unanswered and none missed a row that
   was there, all of them return one id and at most one reports it as new.
   */
  lemma OneConversationPerPair(s: State, t0: Table, i: nat, j: nat)
    requires Reachable(s, t0) && i < |s.calls| && j < |s.calls|
    requires Admits(s.calls[i].req) && SamePair(s.calls[i].req, s.calls[j].req)
    requires Undisturbed(s, s.calls[i].Key())
    requires s.calls[i].phase.Returned? && s.calls[j].phase.Returned?
    ensures s.calls[i].phase.id == s.calls[j].phase.id
    ensures s.calls[i].phase.created && s.calls[j].phase.created ==> i == j
  {
    var k := s.calls[i].Key();
    KeysAreOrdered(s.calls[i].req);
    ReachableKeeps(s, t0, k);
    assert CallAgrees(s.calls[i], k, Now(s), t0) && CallAgrees(s.calls[j], k, Now(s), t0);
    assert s.calls[i].phase.created ==> CreatedBy(s, k, i);
    assert s.calls[j].phase.created ==> CreatedBy(s, k, j);
  }

  /** If moreover there was no row at first, exactly one of the calls that returned made it. */
  lemma SomeCallCreated(s: State, t0: Table, i: nat)
    requires Reachable(s, t0) && i < |s.calls| && s.calls[i].phase.Returned?
    requires Undisturbed(s, s.calls[i].Key()) && s.calls[i].Key() !in t0
    ensures exists j :: CreatedBy(s, s.calls[i].Key(), j)
    ensures forall j, j' :: CreatedBy(s, s.calls[i].Key(), j) && CreatedBy(s, s.calls[i].Key(), j') ==> j == j'
  {
    var k := s.calls[i].Key();
    ReachableKeeps(s, t0, k);
    assert CallAgrees(s.calls[i], k, Now(s), t0);
  }

  predicate Returns(s: State, k: Key, i: nat) {
    i < |s.calls| && s.calls[i].Key() == k && s.calls[i].phase.Returned?
  }

  /** Whatever calls on key `k` have returned in `s` is one id. */
  ghost predicate AllAgree(s: State, k: Key) {
    forall i: nat, j: nat :: Returns(s, k, i) && Returns(s, k, j) ==> s.calls[i].phase.id == s.calls[j].phase.id
  }

  /**
   With nothing assumed about overlap and failure, the calls for a pair agree in every run that reads
   the rows there are exactly when the pair had a row to begin with.
   */
  lemma AgreeAlwaysIff(r: Request, t0: Table)
    requires Admits(r)
    ensures var k := KeyOf(r.project, r.a, r.b);
            k in t0 <==> forall s :: Reachable(s, t0) && AllRead(s, k) ==> AllAgree(s, k)
  {
    var k := KeyOf(r.project, r.a, r.b);
    if k in t0 {
      forall s | Reachable(s, t0) && AllRead(s, k)
        ensures AllAgree(s, k)
      {
        ReachableKeeps(s, t0, k);
      }
    } else {
      var s := OverlapMayDisagree(r, t0, "x", "y");
      assert Returns(s, k, 0) && Returns(s, k, 1);
    }
  }

  // ---- Three ways to get two ids ----

  lemma RunOneMore(s: State, steps: seq<Step>, step: Step)
    requires CanRun(s, steps) && Run(s, steps).trace != [] && Enabled(Run(s, steps), step)
    ensures CanRun(s, steps + [step]) && Run(s, steps + [step]) == Apply(Run(s, steps), step)
    decreases |steps|
  {
    if steps == [] {
      assert steps + [step] == [step] && [step][1..] == [];
    } else {
      assert (steps + [step])[1..] == steps[1..] + [step];
      RunOneMore(Apply(s, steps[0]), steps[1..], step);
    }
  }

  lemma ReachStep(s: State, step: Step, t0: Table)
    requires Reachable(s, t0) && s.trace != [] && Enabled(s, step)
    ensures Reachable(Apply(s, step), t0)
  {
    var steps :| CanRun(Init(t0), steps) && Run(Init(t0), steps) == s;
    RunOneMore(Init(t0), steps, step);
  }

  lemma InitReachable(t0: Table)
    ensures Reachable(Init(t0), t0)
  {
    assert CanRun(Init(t0), []) && Run(Init(t0), []) == Init(t0);
  }

  /** Overlapping calls need not agree: for every pair without a row, both may find nothing and both insert. */
  lemma OverlapMayDisagree(r: Request, t0: Table, x: ConvId, y: ConvId) returns (s: State)
    requires Admits(r) && KeyOf(r.project, r.a, r.b) !in t0
    ensures Reachable(s, t0) && s.calls == [Call(r, 1, Returned(x, true, 5)), Call(r, 2, Returned(y, true, 6))]
    ensures s.misread == {}
  {
    InitReachable(t0);
    ReachStep(Init(t0), Begin(r), t0);
    var s1 := State([t0, t0], [Call(r, 1, Selecting)], {}, {});
    assert Apply(Init(t0), Begin(r)) == s1;
    ReachStep(s1, Begin(r), t0);
    var s2 := State([t0, t0, t0], [Call(r, 1, Selecting), Call(r, 2, Selecting)], {}, {});
    assert Apply(s1, Begin(r)) == s2;
    ReachStep(s2, Select(0, Rows), t0);
    var s3 := State([t0, t0, t0, t0], [Call(r, 1, Inserting), Call(r, 2, Selecting)], {}, {});
    assert Apply(s2, Select(0, Rows)) == s3;
    ReachStep(s3, Select(1, Rows), t0);
    var s4 := State([t0, t0, t0, t0, t0], [Call(r, 1, Inserting), Call(r, 2, Inserting)], {}, {});
    assert Apply(s3, Select(1, Rows)) == s4;
    s := RaceToInsert(r, t0, x, y, s4);
  }

  lemma RaceToInsert(r: Request, t0: Table, x: ConvId, y: ConvId, s4: State) returns (s: State)
    requires Reachable(s4, t0) && |s4.trace| == 5 && s4.calls == [Call(r, 1, Inserting), Call(r, 2, Inserting)]
    requires s4.misread == {}
    ensures Reachable(s, t0) && s.calls == [Call(r, 1, Returned(x, true, 5)), Call(r, 2, Returned(y, true, 6))]
    ensures s.misread == {}
  {
    ReachStep(s4, Insert(0, x), t0);
    var s5 := Apply(s4, Insert(0, x));
    assert s5.calls == [Call(r, 1, Returned(x, true, 5)), Call(r, 2, Inserting)];
    ReachStep(s5, Insert(1, y), t0);
    s := Apply(s5, Insert(1, y));
  }

  /**
   Nor need calls that follow one another, once an insert went unanswered: the second finds nothing
   and inserts, then the lost insert is applied, and the third reads it.
   */
  lemma LateInsertSplits(r: Request, t0: Table, x: ConvId, y: ConvId) returns (s: State)
    requires Admits(r) && KeyOf(r.project, r.a, r.b) !in t0
    ensures Reachable(s, t0) && Apart(s, KeyOf(r.project, r.a, r.b)) && s.misread == {}
    ensures s.calls == [Call(r, 1, Errored(4)), Call(r, 5, Returned(y, true, 7)), Call(r, 9, Returned(x, false, 10))]
  {
    var k := KeyOf(r.project, r.a, r.b);
    InitReachable(t0);
    ReachStep(Init(t0), Begin(r), t0);
    var s1 := Apply(Init(t0), Begin(r));
    ReachStep(s1, Select(0, Rows), t0);
    var s2 := Apply(s1, Select(0, Rows));
    assert s2.calls == [Call(r, 1, Inserting)] && s2.trace == [t0, t0, t0];
    ReachStep(s2, Lose(0, x), t0);
    var s3 := Apply(s2, Lose(0, x));
    ReachStep(s3, GiveUp(0), t0);
    var s4 := Apply(s3, GiveUp(0));
    assert s4.calls == [Call(r, 1, Errored(4))] && |s4.trace| == 5 && Now(s4) == t0 && Stray(k, x) in s4.strays;
    s := SecondAndThird(r, t0, x, y, s4);
  }

  lemma SecondAndThird(r: Request, t0: Table, x: ConvId, y: ConvId, s4: State) returns (s: State)
    requires Admits(r) && KeyOf(r.project, r.a, r.b) !in t0
    requires Reachable(s4, t0) && s4.calls == [Call(r, 1, Errored(4))] && |s4.trace| == 5 && Now(s4) == t0
    requires Stray(KeyOf(r.project, r.a, r.b), x) in s4.strays && s4.misread == {}
    ensures Reachable(s, t0) && s.misread == {}
    ensures s.calls == [Call(r, 1, Errored(4)), Call(r, 5, Returned(y, true, 7)), Call(r, 9, Returned(x, false, 10))]
  {
    ReachStep(s4, Begin(r), t0);
    var s5 := Apply(s4, Begin(r));
    ReachStep(s5, Select(1, Rows), t0);
    var s6 := Apply(s5, Select(1, Rows));
    assert s6.calls == [Call(r, 1, Errored(4)), Call(r, 5, Inserting)];
    ReachStep(s6, Insert(1, y), t0);
    var s7 := Apply(s6, Insert(1, y));
    assert s7.calls == [Call(r, 1, Errored(4)), Call(r, 5, Returned(y, true, 7))];
    s := Third(r, t0, x, y, s7);
  }

  lemma Third(r: Request, t0: Table, x: ConvId, y: ConvId, s7: State) returns (s: State)
    requires Admits(r) && Reachable(s7, t0) && |s7.trace| == 8 && s7.misread == {}
    requires s7.calls == [Call(r, 1, Errored(4)), Call(r, 5, Returned(y, true, 7))]
    requires Stray(KeyOf(r.project, r.a, r.b), x) in s7.strays
    ensures Reachable(s, t0) && s.misread == {} && s.calls == s7.calls + [Call(r, 9, Returned(x, false, 10))]
  {
    var stray := Stray(KeyOf(r.project, r.a, r.b), x);
    ReachStep(s7, Commit(stray), t0);
    var s8 := Apply(s7, Commit(stray));
    ReachStep(s8, Begin(r), t0);
    var s9 := Apply(s8, Begin(r));
    assert s9.calls == s7.calls + [Call(r, 9, Selecting)];
    ReachStep(s9, Select(2, Rows), t0);
    s := Apply(s9, Select(2, Rows));
  }

  /**
   Nor, for a pair that has a row, once a reply about it was unreadable: the next call overwrites the row,
   though no calls overlap and every insert is answered.
   */
  lemma MisreadSplits(r: Request, t0: Table, x: ConvId) returns (s: State)
    requires Admits(r) && KeyOf(r.project, r.a, r.b) in t0
    ensures var k := KeyOf(r.project, r.a, r.b);
            && Reachable(s, t0) && Apart(s, k) && Unlost(s, k)
            && s.calls == [Call(r, 1, Returned(t0[k], false, 2)), Call(r, 3, Returned(x, true, 5))]
  {
    InitReachable(t0);
    ReachStep(Init(t0), Begin(r), t0);
    var s1 := Apply(Init(t0), Begin(r));
    ReachStep(s1, Select(0, Rows), t0);
    var s2 := Apply(s1, Select(0, Rows));
    ReachStep(s2, Begin(r), t0);
    var s3 := Apply(s2, Begin(r));
    ReachStep(s3, Select(1, Unreadable), t0);
    var s4 := Apply(s3, Select(1, Unreadable));
    ReachStep(s4, Insert(1, x), t0);
    s := Apply(s4, Insert(1, x));
  }
}
