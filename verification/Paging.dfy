/**
 Cursor reads of one conversation.  A partition is the run of its rows in clustering order, so
 ids ascend strictly; writes are upserts at the row's place.
 */
module Paging {
  import opened Types
  import opened Store

  const PAGE_SIZE := 50

  datatype Row = Row(id: MsgId, body: DmRow)

  ghost predicate Sorted(p: seq<Row>) {
    forall i, j :: 0 <= i < j < |p| ==> p[i].id < p[j].id
  }

  ghost predicate Descending(p: seq<Row>) {
    forall i, j :: 0 <= i < j < |p| ==> p[j].id < p[i].id
  }

  // ---- The partition and the table ----

  function Insert(p: seq<Row>, r: Row): seq<Row> {
    if p == [] || r.id < p[0].id then [r] + p
    else if p[0].id == r.id then [r] + p[1..]
    else [p[0]] + Insert(p[1..], r)
  }

  lemma {:induction false} InsertHolds(p: seq<Row>, r: Row)
    requires Sorted(p)
    ensures forall x :: x in Insert(p, r) <==> x == r || (x in p && x.id != r.id)
  {
    if p != [] {
      var rest := p[1..];
      assert p == [p[0]] + rest;
      assert forall x :: x in rest ==> p[0].id < x.id;
      if r.id > p[0].id {
        InsertHolds(rest, r);
      }
    }
  }

  lemma {:induction false} InsertStaysAbove(p: seq<Row>, r: Row, low: MsgId)
    requires r.id > low && forall j :: 0 <= j < |p| ==> p[j].id > low
    ensures forall j :: 0 <= j < |Insert(p, r)| ==> Insert(p, r)[j].id > low
  {
    if p != [] && r.id > p[0].id {
      InsertStaysAbove(p[1..], r, low);
    }
  }

  lemma SortedPrepend(x: Row, q: seq<Row>)
    requires Sorted(q) && forall j :: 0 <= j < |q| ==> x.id < q[j].id
    ensures Sorted([x] + q)
  {
  }

  lemma {:induction false} InsertKeepsOrder(p: seq<Row>, r: Row)
    requires Sorted(p)
    ensures Sorted(Insert(p, r))
  {
    if p == [] || r.id < p[0].id {
      SortedPrepend(r, p);
    } else {
      var rest := p[1..];
      if p[0].id == r.id {
        SortedPrepend(r, rest);
      } else {
        InsertKeepsOrder(rest, r);
        InsertStaysAbove(rest, r, p[0].id);
        SortedPrepend(p[0], Insert(rest, r));
      }
    }
  }

  lemma InsertSorted(p: seq<Row>, r: Row)
    requires Sorted(p)
    ensures Sorted(Insert(p, r))
    ensures forall x :: x in Insert(p, r) <==> x == r || (x in p && x.id != r.id)
  {
    InsertHolds(p, r);
    InsertKeepsOrder(p, r);
  }

  /** Row `x` is the table's row of this conversation under its id. */
  predicate InTable(x: Row, dms: map<DmKey, DmRow>, project: string, conv: string) {
    var k := DmKey(project, conv, x.id);
    k in dms && dms[k] == x.body
  }

  /** `p` lists exactly the table's rows of this conversation. */
  ghost predicate Represents(p: seq<Row>, dms: map<DmKey, DmRow>, project: string, conv: string) {
    Sorted(p) && forall x :: x in p <==> InTable(x, dms, project, conv)
  }

  /** A committed batch changes its own conversation by one insert and no other conversation at all. */
  lemma ExecuteInserts(p: seq<Row>, t: Tables, w: Write, project: string, conv: string)
    requires Represents(p, t.dms, project, conv)
    ensures var mine := w.DmWrite? && w.project == project && w.conv == conv;
            Represents(if mine then Insert(p, Row(w.id, DmRowOf(w))) else p, Execute(t, w).dms, project, conv)
  {
    var dms := Execute(t, w).dms;
    if w.DmWrite? && w.project == project && w.conv == conv {
      var r := Row(w.id, DmRowOf(w));
      InsertSorted(p, r);
      forall x
        ensures InTable(x, dms, project, conv) <==> x == r || (x in p && x.id != r.id)
      {
        assert x in p <==> InTable(x, t.dms, project, conv);
      }
    } else {
      forall x
        ensures InTable(x, dms, project, conv) <==> InTable(x, t.dms, project, conv)
      {
      }
    }
  }

  // ---- The three reads ----

  /** How many rows have an id below `c`. */
  function Below(p: seq<Row>, c: MsgId): (n: nat)
    ensures n <= |p|
  {
    if p == [] || p[0].id >= c then 0 else 1 + Below(p[1..], c)
  }

  lemma {:induction false} BelowSplits(p: seq<Row>, c: MsgId)
    requires Sorted(p)
    ensures forall i :: 0 <= i < Below(p, c) ==> p[i].id < c
    ensures forall i :: Below(p, c) <= i < |p| ==> p[i].id >= c
  {
    if p != [] {
      BelowSplits(p[1..], c);
      if p[0].id < c {
        assert forall i :: 1 <= i < |p| ==> p[i] == p[1..][i - 1];
      }
    }
  }

  lemma {:induction false} BelowAt(p: seq<Row>, j: nat)
    requires Sorted(p) && j < |p|
    ensures Below(p, p[j].id) == j && Below(p, p[j].id + 1) == j + 1
  {
    if j == 0 {
      assert |p| > 1 ==> p[1..][0].id >= p[0].id + 1;
    } else {
      assert p[0].id < p[j].id;
      BelowAt(p[1..], j - 1);
    }
  }

  function Reverse(s: seq<Row>): (r: seq<Row>)
    ensures |r| == |s| && forall i :: 0 <= i < |s| ==> r[i] == s[|s| - 1 - i]
  {
    seq(|s|, i requires 0 <= i < |s| => s[|s| - 1 - i])
  }

  /** The number of rows a descending read from this cursor still has before it. */
  function Position(p: seq<Row>, cursor: Option<MsgId>): (n: nat)
    ensures n <= |p|
  {
    match cursor case None => |p| case Some(c) => Below(p, c)
  }

  function PageFrom(k: nat): nat {
    if k <= PAGE_SIZE then 0 else k - PAGE_SIZE
  }

  /** `message_id < cursor ORDER BY message_id DESC LIMIT 50` */
  function Page(p: seq<Row>, cursor: Option<MsgId>): seq<Row> {
    var k := Position(p, cursor);
    Reverse(p[PageFrom(k)..k])
  }

  /** `message_id > after`, ascending. */
  function After(p: seq<Row>, after: MsgId): seq<Row> {
    p[Below(p, after + 1)..]
  }

  predicate Under(cursor: Option<MsgId>, id: MsgId) {
    cursor.None? || id < cursor.value
  }

  /** What the query text asks for, without reference to positions. */
  ghost predicate Answers(page: seq<Row>, p: seq<Row>, cursor: Option<MsgId>) {
    && |page| <= PAGE_SIZE && Descending(page)
    && (forall r :: r in page ==> r in p && Under(cursor, r.id))
    && (forall r :: r in p && Under(cursor, r.id) && r !in page ==>
          |page| == PAGE_SIZE && forall x :: x in page ==> r.id < x.id)
  }

  lemma PositionSplits(p: seq<Row>, cursor: Option<MsgId>)
    requires Sorted(p)
    ensures forall i :: 0 <= i < Position(p, cursor) ==> Under(cursor, p[i].id)
    ensures forall i :: Position(p, cursor) <= i < |p| ==> !Under(cursor, p[i].id)
  {
    if cursor.Some? {
      BelowSplits(p, cursor.value);
    }
  }

  lemma PageAnswers(p: seq<Row>, cursor: Option<MsgId>)
    requires Sorted(p)
    ensures Answers(Page(p, cursor), p, cursor)
  {
    PositionSplits(p, cursor);
    var k, page := Position(p, cursor), Page(p, cursor);
    var lo := PageFrom(k);
    assert forall i :: 0 <= i < |page| ==> page[i] == p[k - 1 - i];
    forall i | lo <= i < k
      ensures p[i] in page
    {
      assert page[k - 1 - i] == p[i];
    }
  }

  /** The sync read returns every later row, oldest first, and nothing else. */
  lemma AfterAnswers(p: seq<Row>, after: MsgId, x: Row)
    requires Sorted(p)
    ensures Sorted(After(p, after))
    ensures x in After(p, after) <==> x in p && x.id > after
  {
    BelowSplits(p, after + 1);
    var n := Below(p, after + 1);
    if x in p && x.id > after {
      var i :| 0 <= i < |p| && p[i] == x;
      assert After(p, after)[i - n] == x;
    }
  }

  // ---- The endpoint and the gateway around it ----

  /** A message id on the wire; printing is injective and never blank. */
  datatype Text = Blank | Garbage | IdText(id: MsgId)

  datatype Response = Response(success: bool, messages: seq<Row>, nextCursor: Text)

  /** The query's rows are copied out one by one. */
  method FetchPaginatedMessages(p: seq<Row>, cursor: Option<MsgId>) returns (messages: seq<Row>)
    requires Sorted(p)
    ensures messages == Page(p, cursor) && Answers(messages, p, cursor)
  {
    var rows := Page(p, cursor);
    messages := [];
    for i := 0 to |rows|
      invariant messages == rows[..i]
    {
      messages := messages + [rows[i]];
    }
    PageAnswers(p, cursor);
  }

  /** Whether the query and the call around it go through. */
  datatype Weather = Fair | QueryFails | CallFails

  /** The chat service: decode the cursor, check the names, read, and point at the last row. */
  function GetPaginated(p: seq<Row>, project: string, conv: string, cursor: Text, queryOk: bool): Response {
    if cursor.Garbage? || project == "" || conv == "" || !queryOk then Response(false, [], Blank)
    else
      var page := Page(p, match cursor case IdText(id) => Some(id) case _ => None);
      Response(true, page, if page == [] then Blank else IdText(page[|page| - 1].id))
  }

  datatype Reply = Reply(messages: seq<Row>, next: Option<MsgId>, hasMore: bool)

  /** The gateway over gRPC: it reports more exactly when the service named a next cursor. */
  function GrpcFetch(p: seq<Row>, project: string, conv: string, cursor: Option<MsgId>, w: Weather): Option<Reply> {
    var text := match cursor case None => Blank case Some(id) => IdText(id);
    var r := GetPaginated(p, project, conv, text, !w.QueryFails?);
    if w.CallFails? || !r.success then None
    else
      var next := match r.nextCursor case IdText(id) => Some(id) case _ => None;
      Some(Reply(r.messages, next, next.Some?))
  }

  /** The gateway over Mongo: it reports more exactly when the page is full. */
  function MongoFetch(p: seq<Row>, cursor: Option<MsgId>): Reply {
    var page := Page(p, cursor);
    Reply(page, if page == [] then None else Some(page[|page| - 1].id), |page| == PAGE_SIZE)
  }

  /** The id of the last message, if there is one. */
  function LastId(messages: seq<Row>): Option<MsgId> {
    if messages == [] then None else Some(messages[|messages| - 1].id)
  }

  /** The endpoint, for every cursor text: what it refuses, what it answers and the cursor it names. */
  lemma EndpointAnswers(p: seq<Row>, project: string, conv: string, cursor: Text, queryOk: bool)
    requires Sorted(p)
    ensures var r := GetPaginated(p, project, conv, cursor, queryOk);
            && (r.success <==> cursor != Garbage && project != "" && conv != "" && queryOk)
            && (!r.success ==> r.messages == [] && r.nextCursor == Blank)
            && (r.success ==> Answers(r.messages, p, if cursor.IdText? then Some(cursor.id) else None))
            && (r.success ==> r.nextCursor == match LastId(r.messages) case None => Blank case Some(id) => IdText(id))
  {
    PageAnswers(p, if cursor.IdText? then Some(cursor.id) else None);
  }

  /** The reply over Mongo answers the query too, and more is reported exactly after a full page of 50. */
  lemma MongoFetchIsPage(p: seq<Row>, cursor: Option<MsgId>)
    requires Sorted(p)
    ensures var r := MongoFetch(p, cursor);
            && Answers(r.messages, p, cursor) && r.next == LastId(r.messages) && (r.hasMore <==> |r.messages| == 50)
            && (r.messages != [] ==> Position(p, r.next) == PageFrom(Position(p, cursor)))
  {
    PageAnswers(p, cursor);
    if Page(p, cursor) != [] {
      NextPosition(p, cursor);
    }
  }

  /** The cursor survives both encodings, and the last id of a page is where the next one starts. */
  lemma GrpcFetchIsPage(p: seq<Row>, project: string, conv: string, cursor: Option<MsgId>, w: Weather)
    requires Sorted(p)
    ensures GrpcFetch(p, project, conv, cursor, w).Some? <==> project != "" && conv != "" && w.Fair?
    ensures project != "" && conv != "" && w.Fair? ==>
              var r := GrpcFetch(p, project, conv, cursor, w).value;
              && Answers(r.messages, p, cursor)
              && (r.hasMore <==> r.messages != []) && r.next == LastId(r.messages)
              && (r.messages != [] ==> Position(p, r.next) == PageFrom(Position(p, cursor)))
  {
    PageAnswers(p, cursor);
    if Page(p, cursor) != [] {
      NextPosition(p, cursor);
    }
  }

  lemma NextPosition(p: seq<Row>, cursor: Option<MsgId>)
    requires Sorted(p) && Page(p, cursor) != []
    ensures var page := Page(p, cursor);
            Position(p, Some(page[|page| - 1].id)) == PageFrom(Position(p, cursor))
  {
    var k, page := Position(p, cursor), Page(p, cursor);
    var lo := PageFrom(k);
    assert page[|page| - 1] == p[lo];
    BelowAt(p, lo);
  }

  // ---- Walking a quiet conversation ----

  /**
   The reply to this page says there is no more: over Mongo (`full`) any short page does, over gRPC only an empty
   one.
   */
  predicate Stops(page: seq<Row>, full: bool) {
    page == [] || (full && |page| != PAGE_SIZE)
  }

  /** Follow next cursors until a reply says there is no more. */
  function Walk(p: seq<Row>, cursor: Option<MsgId>, full: bool): seq<seq<Row>>
    requires Sorted(p)
    decreases Position(p, cursor)
  {
    var page := Page(p, cursor);
    if Stops(page, full) then [page]
    else
      NextPosition(p, cursor);
      [page] + Walk(p, Some(page[|page| - 1].id), full)
  }

  function Flatten(pages: seq<seq<Row>>): seq<Row> {
    if pages == [] then [] else pages[0] + Flatten(pages[1..])
  }

  lemma ReverseConcat(a: seq<Row>, b: seq<Row>)
    ensures Reverse(a + b) == Reverse(b) + Reverse(a)
  {
  }

  lemma WalkFollowsGrpc(p: seq<Row>, project: string, conv: string, cursor: Option<MsgId>)
    requires Sorted(p) && project != "" && conv != ""
    ensures var r := GrpcFetch(p, project, conv, cursor, Fair).value;
            Walk(p, cursor, false) == [r.messages] + (if r.hasMore then Walk(p, r.next, false) else [])
  {
    var page := Page(p, cursor);
    assert [page] + [] == [page];
  }

  lemma WalkFollowsMongo(p: seq<Row>, cursor: Option<MsgId>)
    requires Sorted(p)
    ensures var r := MongoFetch(p, cursor);
            Walk(p, cursor, true) == [r.messages] + (if r.hasMore then Walk(p, r.next, true) else [])
  {
    var page := Page(p, cursor);
    assert [page] + [] == [page];
  }

  /** From any cursor the walk reads everything below it, newest first. */
  lemma {:induction false} WalkReadsAll(p: seq<Row>, cursor: Option<MsgId>, full: bool)
    requires Sorted(p)
    ensures Flatten(Walk(p, cursor, full)) == Reverse(p[..Position(p, cursor)])
    decreases Position(p, cursor)
  {
    var k, page := Position(p, cursor), Page(p, cursor);
    var lo := PageFrom(k);
    assert p[..k] == p[..lo] + p[lo..k];
    ReverseConcat(p[..lo], p[lo..k]);
    if Stops(page, full) {
      assert lo == 0 && Reverse(p[..lo]) == [];
      assert Flatten([page]) == page;
    } else {
      NextPosition(p, cursor);
      var next := Some(page[|page| - 1].id);
      WalkReadsAll(p, next, full);
      assert Walk(p, cursor, full)[1..] == Walk(p, next, full);
    }
  }

  /** Requests for `n` rows: ceil(n / 50) + 1 over gRPC, floor(n / 50) + 1 over Mongo. */
  function Needed(n: nat, full: bool): nat {
    (if full then n / PAGE_SIZE else (n + PAGE_SIZE - 1) / PAGE_SIZE) + 1
  }

  lemma {:induction false} WalkRequests(p: seq<Row>, cursor: Option<MsgId>, full: bool)
    requires Sorted(p)
    ensures |Walk(p, cursor, full)| == Needed(Position(p, cursor), full)
    decreases Position(p, cursor)
  {
    var page := Page(p, cursor);
    if !Stops(page, full) {
      NextPosition(p, cursor);
      WalkRequests(p, Some(page[|page| - 1].id), full);
    }
  }

  /** The whole conversation in descending order, by either stop rule. */
  lemma QuietWalk(p: seq<Row>)
    requires Sorted(p)
    ensures Flatten(Walk(p, None, false)) == Reverse(p)
    ensures |Walk(p, None, false)| == (|p| + 49) / 50 + 1
    ensures Flatten(Walk(p, None, true)) == Reverse(p) && |Walk(p, None, true)| == |p| / 50 + 1
  {
    WalkReadsAll(p, None, false);
    WalkReadsAll(p, None, true);
    WalkRequests(p, None, false);
    WalkRequests(p, None, true);
    assert p[..|p|] == p;
  }

  // ---- A cursor splits the history ----

  lemma ReverseTwice(s: seq<Row>, r: seq<Row>)
    requires r == Reverse(s)
    ensures Reverse(r) == s
  {
  }

  lemma SplitAt(p: seq<Row>, j: nat)
    requires j < |p|
    ensures p[..j] + [p[j]] + p[j + 1..] == p
  {
  }

  lemma WalkBack(p: seq<Row>, j: nat, full: bool)
    requires Sorted(p) && j < |p|
    ensures Flatten(Walk(p, Some(p[j].id), full)) == Reverse(p[..j])
  {
    BelowAt(p, j);
    WalkReadsAll(p, Some(p[j].id), full);
  }

  /** Walk back from a stored row, the row itself, and the sync read after it make up the full history. */
  lemma CursorSplit(p: seq<Row>, j: nat, full: bool)
    requires Sorted(p) && j < |p|
    ensures Reverse(Flatten(Walk(p, Some(p[j].id), full))) + [p[j]] + After(p, p[j].id) == p
  {
    WalkBack(p, j, full);
    ReverseTwice(p[..j], Flatten(Walk(p, Some(p[j].id), full)));
    BelowAt(p, j);
    SplitAt(p, j);
  }

  /** Every row of `p` is still there in `q`. */
  ghost predicate Extends(p: seq<Row>, q: seq<Row>) {
    forall r :: r in p ==> r in q
  }

  /**
   A client that had everything up to a sync at stored row w, and syncs after w from then on,
   lacks exactly the rows that were inserted later with an id below w.
   */
  lemma SyncMisses(p: seq<Row>, q: seq<Row>, j: nat, client: seq<Row>, r: Row)
    requires Sorted(p) && Sorted(q) && Extends(p, q) && j < |p|
    requires forall x :: x in client <==> x in p
    ensures var w := p[j].id;
            r in q && r !in client + After(q, w) <==> r in q && r !in p && r.id < w
  {
    var w := p[j].id;
    BelowSplits(q, w + 1);
    var n := Below(q, w + 1);
    assert p[j] in q;
    if r in q {
      var i :| 0 <= i < |q| && q[i] == r;
      if i >= n {
        assert After(q, w)[i - n] == r;
      }
      if r in After(q, w) {
        var h :| 0 <= h < |After(q, w)| && After(q, w)[h] == r;
        assert r == q[n + h];
      }
      if r.id == w {
        SameIdSameRow(q, r, p[j]);
      }
    }
  }

  lemma SameIdSameRow(q: seq<Row>, a: Row, b: Row)
    requires Sorted(q) && a in q && b in q && a.id == b.id
    ensures a == b
  {
    var i :| 0 <= i < |q| && q[i] == a;
    var j :| 0 <= j < |q| && q[j] == b;
    assert i == j;
  }
}
