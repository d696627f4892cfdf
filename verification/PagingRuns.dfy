/**
 A cursor walk while other writers are at work: any upserts may commit between two page requests, of
 new rows or over stored ones.
 */
module PagingRuns {
  import opened Types
  import opened Paging

  datatype Event = Written(row: Row) | Fetch

  /** The partition, and the client that pages through it. */
  datatype Walker = Walker(p: seq<Row>, cursor: Option<MsgId>, out: seq<Row>, done: bool)

  function Start(p: seq<Row>): Walker {
    Walker(p, None, [], false)
  }

  function AfterFetch(w: Walker, full: bool): Walker {
    var page := Page(w.p, w.cursor);
    Walker(w.p, if page == [] then w.cursor else Some(page[|page| - 1].id), w.out + page, Stops(page, full))
  }

  function Next(w: Walker, e: Event, full: bool): Walker {
    match e
    case Written(r) => w.(p := Insert(w.p, r))
    case Fetch => if w.done then w else AfterFetch(w, full)
  }

  function Follow(w: Walker, es: seq<Event>, full: bool): Walker
    decreases |es|
  {
    if es == [] then w else Follow(Next(w, es[0], full), es[1..], full)
  }

  // ---- Each fetch is what a client does with a reply ----

  /** Keep the messages, ask next with the cursor named, and stop when there is no more. */
  function Take(w: Walker, r: Reply): Walker {
    w.(cursor := if r.next.Some? then r.next else w.cursor, out := w.out + r.messages, done := !r.hasMore)
  }

  lemma FetchTakesGrpc(w: Walker, project: string, conv: string)
    requires !w.done && project != "" && conv != ""
    ensures var r := GrpcFetch(w.p, project, conv, w.cursor, Fair);
            r.Some? && Next(w, Fetch, false) == Take(w, r.value)
  {
  }

  lemma FetchTakesMongo(w: Walker)
    requires !w.done
    ensures Next(w, Fetch, true) == Take(w, MongoFetch(w.p, w.cursor))
  {
  }

  // ---- What every event keeps ----

  /** Some row of `p` has this id. */
  predicate HasId(p: seq<Row>, id: MsgId) {
    exists i :: 0 <= i < |p| && p[i].id == id
  }

  /** What was read lies above the cursor, in order, under ids that are stored. */
  ghost predicate Tidy(w: Walker) {
    && Sorted(w.p) && Descending(w.out)
    && (forall i :: 0 <= i < |w.out| ==> HasId(w.p, w.out[i].id) && !Under(w.cursor, w.out[i].id))
  }

  /** The row under `id` has been read or is still ahead of the walk. */
  ghost predicate Covered(w: Walker, id: MsgId) {
    HasId(w.p, id) && (HasId(w.out, id) || (!w.done && Under(w.cursor, id)))
  }

  lemma InsertKeepsIds(p: seq<Row>, r: Row, id: MsgId)
    requires Sorted(p)
    ensures HasId(Insert(p, r), id) <==> HasId(p, id) || id == r.id
  {
    InsertSorted(p, r);
    var q := Insert(p, r);
    if HasId(q, id) {
      var i :| 0 <= i < |q| && q[i].id == id;
      assert q[i] in q;
      assert q[i] != r ==> q[i] in p;
    }
    if HasId(p, id) && id != r.id {
      var i :| 0 <= i < |p| && p[i].id == id;
      assert p[i] in p;
      assert p[i] in q;
    }
    if id == r.id {
      assert r in q;
    }
  }

  lemma WriteKeeps(w: Walker, r: Row)
    requires Tidy(w)
    ensures Tidy(w.(p := Insert(w.p, r)))
    ensures forall id :: Covered(w, id) ==> Covered(w.(p := Insert(w.p, r)), id)
  {
    InsertSorted(w.p, r);
    forall id
      ensures HasId(w.p, id) ==> HasId(Insert(w.p, r), id)
    {
      InsertKeepsIds(w.p, r, id);
    }
  }

  lemma FetchKeepsTidy(w: Walker, full: bool)
    requires Tidy(w)
    ensures Tidy(AfterFetch(w, full))
  {
    PageAnswers(w.p, w.cursor);
    var page := Page(w.p, w.cursor);
    var out := w.out + page;
    forall i | 0 <= i < |page|
      ensures HasId(w.p, page[i].id) && Under(w.cursor, page[i].id)
    {
      assert page[i] in page;
      assert page[i] in w.p;
    }
    forall i, j | 0 <= i < j < |out|
      ensures out[j].id < out[i].id
    {
    }
    forall i | 0 <= i < |out|
      ensures HasId(w.p, out[i].id) && !Under(AfterFetch(w, full).cursor, out[i].id)
    {
      if page != [] {
        assert i >= |w.out| ==> out[i] == page[i - |w.out|];
      }
    }
  }

  lemma FetchKeepsCovered(w: Walker, full: bool, id: MsgId)
    requires Tidy(w) && Covered(w, id)
    ensures Covered(AfterFetch(w, full), id)
  {
    PageAnswers(w.p, w.cursor);
    var page := Page(w.p, w.cursor);
    var out := w.out + page;
    if HasId(w.out, id) {
      var i :| 0 <= i < |w.out| && w.out[i].id == id;
      assert out[i].id == id;
    } else {
      var i :| 0 <= i < |w.p| && w.p[i].id == id;
      assert w.p[i] in w.p;
      if w.p[i] in page {
        var j :| 0 <= j < |page| && page[j] == w.p[i];
        assert out[|w.out| + j].id == id;
      } else {
        assert page != [] && page[|page| - 1] in page;
      }
    }
  }

  lemma NextKeeps(w: Walker, e: Event, full: bool)
    requires Tidy(w)
    ensures Tidy(Next(w, e, full))
    ensures forall id :: Covered(w, id) ==> Covered(Next(w, e, full), id)
  {
    match e
    case Written(r) => WriteKeeps(w, r);
    case Fetch =>
      if !w.done {
        FetchKeepsTidy(w, full);
        forall id | Covered(w, id)
          ensures Covered(AfterFetch(w, full), id)
        {
          FetchKeepsCovered(w, full, id);
        }
      }
  }

  /** From any point of a walk on, every id then below the cursor is read before the walk ends. */
  lemma {:induction false} FollowKeeps(w: Walker, es: seq<Event>, full: bool, id: MsgId)
    requires Tidy(w)
    ensures Tidy(Follow(w, es, full))
    ensures Covered(w, id) ==> Covered(Follow(w, es, full), id)
    decreases |es|
  {
    if es != [] {
      NextKeeps(w, es[0], full);
      FollowKeeps(Next(w, es[0], full), es[1..], full, id);
    }
  }

  lemma RowsOneEvent(w: Walker, e: Event, full: bool, x: Row)
    requires Tidy(w)
    ensures var t := Next(w, e, full); x in t.p || x in t.out ==> x in w.p || x in w.out || e == Written(x)
  {
    match e
    case Written(r) => InsertSorted(w.p, r);
    case Fetch => PageAnswers(w.p, w.cursor);
  }

  /** Every row stored or read was stored or read before, or was written on the way. */
  lemma {:induction false} RowsComeFromWrites(w: Walker, es: seq<Event>, full: bool, x: Row)
    requires Tidy(w)
    ensures var t := Follow(w, es, full);
            x in t.p || x in t.out ==> x in w.p || x in w.out || Written(x) in es
    decreases |es|
  {
    if es != [] {
      var w' := Next(w, es[0], full);
      NextKeeps(w, es[0], full);
      RowsComeFromWrites(w', es[1..], full, x);
      RowsOneEvent(w, es[0], full, x);
      assert es == [es[0]] + es[1..];
    }
  }

  /**
   Whatever is written meanwhile, over stored rows too: the rows read descend strictly, so no id comes
   twice; each was stored at some time and its id still is; and once the walk ends it has read a row
   for every id that was there when it began.
   */
  lemma WalkDuringWrites(p: seq<Row>, es: seq<Event>, full: bool, x: Row)
    requires Sorted(p)
    ensures var w := Follow(Start(p), es, full);
            && Descending(w.out)
            && (x in w.out ==> HasId(w.p, x.id) && (x in p || Written(x) in es))
            && (w.done && x in p ==> HasId(w.out, x.id))
  {
    FollowKeeps(Start(p), es, full, x.id);
    RowsComeFromWrites(Start(p), es, full, x);
    var w := Follow(Start(p), es, full);
    if x in w.out {
      var i :| 0 <= i < |w.out| && w.out[i] == x;
    }
    if x in p {
      var i :| 0 <= i < |p| && p[i] == x;
      assert HasId(p, x.id);
    }
  }

  /** In particular a row that nothing is written over is read itself. */
  lemma UntouchedRowIsRead(p: seq<Row>, es: seq<Event>, full: bool, x: Row)
    requires Sorted(p) && x in p && (forall r :: Written(r) in es && r.id == x.id ==> r == x)
    ensures var w := Follow(Start(p), es, full); w.done ==> x in w.out
  {
    WalkDuringWrites(p, es, full, x);
    var w := Follow(Start(p), es, full);
    if w.done {
      var i :| 0 <= i < |w.out| && w.out[i].id == x.id;
      WalkDuringWrites(p, es, full, w.out[i]);
      assert w.out[i] in w.out;
      if w.out[i] in p {
        SameIdSameRow(p, w.out[i], x);
      }
    }
  }

  // ---- When the walk ends ----

  function Fetches(es: seq<Event>): nat {
    if es == [] then 0 else (if es[0].Fetch? then 1 else 0) + Fetches(es[1..])
  }

  /** No later write lands below the cursor of the moment. */
  ghost predicate StaysAhead(w: Walker, es: seq<Event>, full: bool)
    decreases |es|
  {
    es == [] || ((es[0].Written? ==> !Under(w.cursor, es[0].row.id)) && StaysAhead(Next(w, es[0], full), es[1..], full))
  }

  lemma {:induction false} InsertAbove(p: seq<Row>, r: Row, c: MsgId)
    requires Sorted(p) && r.id >= c
    ensures Below(Insert(p, r), c) == Below(p, c)
  {
    if p != [] && r.id > p[0].id {
      InsertAbove(p[1..], r, c);
      assert Insert(p, r)[1..] == Insert(p[1..], r);
    }
  }

  /** Exactly the requests a quiet conversation of the same length would take. */
  lemma {:induction false} WalkEndsDuringWrites(w: Walker, es: seq<Event>, full: bool)
    requires Tidy(w) && !w.done && StaysAhead(w, es, full)
    ensures Follow(w, es, full).done <==> Fetches(es) >= Needed(Position(w.p, w.cursor), full)
    decreases |es|
  {
    if es != [] {
      var w' := Next(w, es[0], full);
      NextKeeps(w, es[0], full);
      match es[0]
      case Written(r) =>
        InsertAbove(w.p, r, w.cursor.value);
        WalkEndsDuringWrites(w', es[1..], full);
      case Fetch =>
        var page := Page(w.p, w.cursor);
        if Stops(page, full) {
          StaysDone(w', es[1..], full);
        } else {
          NextPosition(w.p, w.cursor);
          WalkEndsDuringWrites(w', es[1..], full);
        }
    }
  }

  lemma {:induction false} StaysDone(w: Walker, es: seq<Event>, full: bool)
    requires w.done
    ensures Follow(w, es, full).done
    decreases |es|
  {
    if es != [] {
      StaysDone(Next(w, es[0], full), es[1..], full);
    }
  }
}
