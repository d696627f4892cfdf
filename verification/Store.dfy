/**
 The chat-service tables, keyed as the migrations key them, and the two logged batches that
 write them.
 */
module Store {
  import opened Types

  datatype DmKey = DmKey(project: string, conv: string, id: MsgId)
  datatype DmRow = DmRow(sender: string, recipient: string, text: string, at: int)
  datatype ConvKey = ConvKey(project: string, user: string, conv: string)
  datatype RoomKey = RoomKey(project: string, room: RoomId, id: MsgId)
  datatype RoomRow = RoomRow(sender: string, content: string, at: int)
  datatype ProjectRoom = ProjectRoom(project: string, room: RoomId)

  datatype Tables = Tables(
    dms: map<DmKey, DmRow>,
    convs: map<ConvKey, int>,
    roomMsgs: map<RoomKey, RoomRow>,
    projectRooms: map<ProjectRoom, int>)

  const EMPTY := Tables(map[], map[], map[], map[])

  /** The body of one WriteDM or WriteRoomMessage call. */
  datatype Write =
    | DmWrite(project: string, conv: string, id: MsgId, sender: string, recipient: string, text: string, at: int)
    | RoomWrite(project: string, room: RoomId, id: MsgId, sender: string, content: string, at: int)

  /** The bodies the persist handlers build: the project is the sender's. */
  function DmBody(id: MsgId, conv: string, from: UserId, to: UserId, content: string, at: int): Write {
    DmWrite(from.project, conv, id, from.user, to.user, content, at)
  }

  function RoomBody(id: MsgId, room: RoomId, from: UserId, content: string, at: int): Write {
    RoomWrite(from.project, room, id, from.user, content, at)
  }

  /** The service refuses a blank project, conversation or room before it touches a table. */
  predicate Accepts(w: Write) {
    match w
    case DmWrite(project, conv, _, _, _, _, _) => project != "" && conv != ""
    case RoomWrite(project, room, _, _, _, _) => project != "" && room != ""
  }

  function DmKeyOf(w: Write): DmKey
    requires w.DmWrite?
  {
    DmKey(w.project, w.conv, w.id)
  }

  function DmRowOf(w: Write): DmRow
    requires w.DmWrite?
  {
    DmRow(w.sender, w.recipient, w.text, w.at)
  }

  function RoomKeyOf(w: Write): RoomKey
    requires w.RoomWrite?
  {
    RoomKey(w.project, w.room, w.id)
  }

  function RoomRowOf(w: Write): RoomRow
    requires w.RoomWrite?
  {
    RoomRow(w.sender, w.content, w.at)
  }

  /** One committed batch: every statement is an upsert. */
  function Execute(t: Tables, w: Write): Tables {
    match w
    case DmWrite(project, conv, _, sender, recipient, _, at) =>
      t.(dms := t.dms[DmKeyOf(w) := DmRowOf(w)],
         convs := t.convs[ConvKey(project, sender, conv) := at][ConvKey(project, recipient, conv) := at])
    case RoomWrite(project, room, _, _, _, at) =>
      t.(roomMsgs := t.roomMsgs[RoomKeyOf(w) := RoomRowOf(w)],
         projectRooms := t.projectRooms[ProjectRoom(project, room) := at])
  }

  /** The message table holds exactly the row this write asks for. */
  predicate HasRow(t: Tables, w: Write) {
    match w
    case DmWrite(_, _, _, _, _, _, _) => DmKeyOf(w) in t.dms && t.dms[DmKeyOf(w)] == DmRowOf(w)
    case RoomWrite(_, _, _, _, _, _) => RoomKeyOf(w) in t.roomMsgs && t.roomMsgs[RoomKeyOf(w)] == RoomRowOf(w)
  }

  /** No other message already sits under this write's key. */
  predicate Compatible(t: Tables, w: Write) {
    match w
    case DmWrite(_, _, _, _, _, _, _) => DmKeyOf(w) in t.dms ==> t.dms[DmKeyOf(w)] == DmRowOf(w)
    case RoomWrite(_, _, _, _, _, _) => RoomKeyOf(w) in t.roomMsgs ==> t.roomMsgs[RoomKeyOf(w)] == RoomRowOf(w)
  }

  // ---- Agreement between the message tables and the two list tables ----

  /** Message `k` accounts for the list row `c`. */
  ghost predicate Backs(dms: map<DmKey, DmRow>, convs: map<ConvKey, int>, k: DmKey, c: ConvKey) {
    && k in dms && c in convs
    && k.project == c.project && k.conv == c.conv
    && dms[k].at == convs[c]
    && (dms[k].sender == c.user || dms[k].recipient == c.user)
  }

  ghost predicate BacksRoom(rows: map<RoomKey, RoomRow>, rooms: map<ProjectRoom, int>, k: RoomKey, p: ProjectRoom) {
    && k in rows && p in rooms
    && k.project == p.project && k.room == p.room
    && rows[k].at == rooms[p]
  }

  /** Both users of message `k` list its conversation. */
  ghost predicate Lists(dms: map<DmKey, DmRow>, convs: map<ConvKey, int>, k: DmKey) {
    k in dms ==>
      && ConvKey(k.project, dms[k].sender, k.conv) in convs
      && ConvKey(k.project, dms[k].recipient, k.conv) in convs
  }

  /** Some message of the conversation, by or to this user, was created at the listed time. */
  ghost predicate Dated(dms: map<DmKey, DmRow>, convs: map<ConvKey, int>, c: ConvKey) {
    c in convs ==> exists k :: Backs(dms, convs, k, c)
  }

  ghost predicate RoomDated(rows: map<RoomKey, RoomRow>, rooms: map<ProjectRoom, int>, p: ProjectRoom) {
    p in rooms ==> exists k :: BacksRoom(rows, rooms, k, p)
  }

  ghost predicate RoomListed(rows: map<RoomKey, RoomRow>, rooms: map<ProjectRoom, int>, k: RoomKey) {
    k in rows ==> ProjectRoom(k.project, k.room) in rooms
  }

  ghost predicate IndexAgrees(t: Tables) {
    && (forall k :: Lists(t.dms, t.convs, k))
    && (forall c :: Dated(t.dms, t.convs, c))
    && (forall k :: RoomListed(t.roomMsgs, t.projectRooms, k))
    && (forall p :: RoomDated(t.roomMsgs, t.projectRooms, p))
  }

  lemma ExecuteKeepsDated(t: Tables, w: Write, c: ConvKey)
    requires w.DmWrite? && Dated(t.dms, t.convs, c) && Compatible(t, w)
    ensures Dated(Execute(t, w).dms, Execute(t, w).convs, c)
  {
    var dms, convs := Execute(t, w).dms, Execute(t, w).convs;
    if c == ConvKey(w.project, w.sender, w.conv) || c == ConvKey(w.project, w.recipient, w.conv) {
      assert Backs(dms, convs, DmKeyOf(w), c);
    } else if c in convs {
      var k :| Backs(t.dms, t.convs, k, c);
      assert Backs(dms, convs, k, c);
    }
  }

  lemma ExecuteKeepsLists(t: Tables, w: Write, k: DmKey)
    requires w.DmWrite? && Lists(t.dms, t.convs, k)
    ensures Lists(Execute(t, w).dms, Execute(t, w).convs, k)
  {
  }

  lemma ExecuteKeepsRoomDated(t: Tables, w: Write, p: ProjectRoom)
    requires w.RoomWrite? && RoomDated(t.roomMsgs, t.projectRooms, p) && Compatible(t, w)
    ensures RoomDated(Execute(t, w).roomMsgs, Execute(t, w).projectRooms, p)
  {
    var rows, rooms := Execute(t, w).roomMsgs, Execute(t, w).projectRooms;
    if p == ProjectRoom(w.project, w.room) {
      assert BacksRoom(rows, rooms, RoomKeyOf(w), p);
    } else if p in rooms {
      var k :| BacksRoom(t.roomMsgs, t.projectRooms, k, p);
      assert BacksRoom(rows, rooms, k, p);
    }
  }

  /** A batch whose key holds nothing else keeps both list tables in agreement. */
  lemma ExecuteKeepsIndex(t: Tables, w: Write)
    requires IndexAgrees(t) && Compatible(t, w)
    ensures IndexAgrees(Execute(t, w))
  {
    var t' := Execute(t, w);
    if w.DmWrite? {
      forall k
        ensures Lists(t'.dms, t'.convs, k)
      {
        ExecuteKeepsLists(t, w, k);
      }
      forall c
        ensures Dated(t'.dms, t'.convs, c)
      {
        ExecuteKeepsDated(t, w, c);
      }
    } else {
      forall k
        ensures RoomListed(t'.roomMsgs, t'.projectRooms, k)
      {
        assert RoomListed(t.roomMsgs, t.projectRooms, k);
      }
      forall p
        ensures RoomDated(t'.roomMsgs, t'.projectRooms, p)
      {
        ExecuteKeepsRoomDated(t, w, p);
      }
    }
  }

  /** The tables after a list of batches, in commit order; a retried batch appears several times. */
  function ExecuteAll(t: Tables, ws: seq<Write>): Tables {
    if ws == [] then t else Execute(ExecuteAll(t, ws[..|ws| - 1]), ws[|ws| - 1])
  }

  // ---- The list tables show the last commit ----

  /** This write lists the conversation for its sender and its recipient. */
  predicate Touches(w: Write, c: ConvKey) {
    w.DmWrite? && w.project == c.project && w.conv == c.conv && (w.sender == c.user || w.recipient == c.user)
  }

  predicate TouchesRoom(w: Write, p: ProjectRoom) {
    w.RoomWrite? && w.project == p.project && w.room == p.room
  }

  /** The first `n` batches are those up to the last one that lists `c`. */
  predicate LastTouch(ws: seq<Write>, c: ConvKey, n: nat) {
    0 < n <= |ws| && Touches(ws[n - 1], c) && forall i :: n <= i < |ws| ==> !Touches(ws[i], c)
  }

  predicate LastRoomTouch(ws: seq<Write>, p: ProjectRoom, n: nat) {
    0 < n <= |ws| && TouchesRoom(ws[n - 1], p) && forall i :: n <= i < |ws| ==> !TouchesRoom(ws[i], p)
  }

  lemma {:induction false} ListsLastCommit(ws: seq<Write>, c: ConvKey, n: nat)
    requires LastTouch(ws, c, n)
    ensures var t := ExecuteAll(EMPTY, ws); c in t.convs && t.convs[c] == ws[n - 1].at
    decreases |ws|
  {
    if n < |ws| {
      var init := ws[..|ws| - 1];
      assert !Touches(ws[|ws| - 1], c);
      ListsLastCommit(init, c, n);
    }
  }

  lemma {:induction false} ListsLastActivity(ws: seq<Write>, p: ProjectRoom, n: nat)
    requires LastRoomTouch(ws, p, n)
    ensures var t := ExecuteAll(EMPTY, ws); p in t.projectRooms && t.projectRooms[p] == ws[n - 1].at
    decreases |ws|
  {
    if n < |ws| {
      var init := ws[..|ws| - 1];
      assert !TouchesRoom(ws[|ws| - 1], p);
      ListsLastActivity(init, p, n);
    }
  }

  /** A conversation or room that no batch touches is not listed. */
  lemma {:induction false} ListsNothingElse(ws: seq<Write>, c: ConvKey, p: ProjectRoom)
    ensures (forall w :: w in ws ==> !Touches(w, c)) ==> c !in ExecuteAll(EMPTY, ws).convs
    ensures (forall w :: w in ws ==> !TouchesRoom(w, p)) ==> p !in ExecuteAll(EMPTY, ws).projectRooms
  {
    if ws != [] {
      var init, w := ws[..|ws| - 1], ws[|ws| - 1];
      assert ws == init + [w];
      assert w in ws && forall x :: x in init ==> x in ws;
      ListsNothingElse(init, c, p);
    }
  }

  /** One message id never names two different messages. */
  ghost predicate OneMessagePerId(ws: seq<Write>) {
    forall i, j :: 0 <= i < |ws| && 0 <= j < |ws| && ws[i].id == ws[j].id ==> ws[i] == ws[j]
  }

  ghost predicate RowsFrom(t: Tables, ws: seq<Write>) {
    && (forall k :: k in t.dms ==>
        exists i :: 0 <= i < |ws| && ws[i].DmWrite? && DmKeyOf(ws[i]) == k && DmRowOf(ws[i]) == t.dms[k])
    && (forall k :: k in t.roomMsgs ==>
        exists i :: 0 <= i < |ws| && ws[i].RoomWrite? && RoomKeyOf(ws[i]) == k && RoomRowOf(ws[i]) == t.roomMsgs[k])
  }

  /** The row of a write under its key, column by column. */
  predicate RowOf(t: Tables, w: Write) {
    match w
    case DmWrite(project, conv, id, sender, recipient, text, at) =>
      var k := DmKey(project, conv, id); k in t.dms && t.dms[k] == DmRow(sender, recipient, text, at)
    case RoomWrite(project, room, id, sender, content, at) =>
      var k := RoomKey(project, room, id); k in t.roomMsgs && t.roomMsgs[k] == RoomRow(sender, content, at)
  }

  lemma {:induction false} RowsComeFromWrites(ws: seq<Write>)
    ensures RowsFrom(ExecuteAll(EMPTY, ws), ws)
  {
    if ws != [] {
      var init, w := ws[..|ws| - 1], ws[|ws| - 1];
      RowsComeFromWrites(init);
      var t, t' := ExecuteAll(EMPTY, init), ExecuteAll(EMPTY, ws);
      forall k | k in t'.dms
        ensures exists i :: 0 <= i < |ws| && ws[i].DmWrite? && DmKeyOf(ws[i]) == k && DmRowOf(ws[i]) == t'.dms[k]
      {
        if w.DmWrite? && k == DmKeyOf(w) {
          assert ws[|ws| - 1] == w;
        } else {
          var i :| 0 <= i < |init| && init[i].DmWrite? && DmKeyOf(init[i]) == k && DmRowOf(init[i]) == t.dms[k];
          assert ws[i] == init[i];
        }
      }
      forall k | k in t'.roomMsgs
        ensures exists i ::
                  0 <= i < |ws| && ws[i].RoomWrite? && RoomKeyOf(ws[i]) == k && RoomRowOf(ws[i]) == t'.roomMsgs[k]
      {
        if w.RoomWrite? && k == RoomKeyOf(w) {
          assert ws[|ws| - 1] == w;
        } else {
          var i :| 0 <= i < |init| && init[i].RoomWrite? && RoomKeyOf(init[i]) == k &&
              RoomRowOf(init[i]) == t.roomMsgs[k];
          assert ws[i] == init[i];
        }
      }
    }
  }

  lemma NextIsCompatible(t: Tables, ws: seq<Write>, w: Write)
    requires t == ExecuteAll(EMPTY, ws) && OneMessagePerId(ws + [w])
    ensures Compatible(t, w)
  {
    RowsComeFromWrites(ws);
    var all := ws + [w];
    assert all[|ws|] == w;
    assert forall i :: 0 <= i < |ws| ==> ws[i] == all[i];
  }

  /**
   Over every commit order of any writes, with any repetitions, both list tables agree with the
   message tables.
   */
  lemma {:induction false} IndexAgreesAlways(ws: seq<Write>)
    requires OneMessagePerId(ws)
    ensures IndexAgrees(ExecuteAll(EMPTY, ws))
  {
    if ws != [] {
      var init, w := ws[..|ws| - 1], ws[|ws| - 1];
      assert ws == init + [w];
      IndexAgreesAlways(init);
      NextIsCompatible(ExecuteAll(EMPTY, init), init, w);
      ExecuteKeepsIndex(ExecuteAll(EMPTY, init), w);
    }
  }

  /**
   The assumption cannot be dropped.  When two direct messages are written under one key, the second
   replaces the first, and the list rows still agree exactly when nobody is left out: both users of
   the first are users of the second.
   */
  lemma ReusedKeyAgreesIff(a: Write, b: Write)
    requires a.DmWrite? && b.DmWrite? && DmKeyOf(a) == DmKeyOf(b)
    ensures IndexAgrees(ExecuteAll(EMPTY, [a, b])) <==>
            a.sender in {b.sender, b.recipient} && a.recipient in {b.sender, b.recipient}
  {
    var once := [a];
    assert [a, b][..1] == once && once[..0] == [];
    assert ExecuteAll(EMPTY, once) == Execute(EMPTY, a);
    var t, k := ExecuteAll(EMPTY, [a, b]), DmKeyOf(b);
    assert t == Execute(Execute(EMPTY, a), b);
    assert t.dms == map[k := DmRowOf(b)] && t.roomMsgs == map[] && t.projectRooms == map[];
    forall u
      ensures var c := ConvKey(a.project, u, a.conv);
              (u == a.sender || u == a.recipient) && u != b.sender && u != b.recipient ==> !Dated(t.dms, t.convs, c)
    {
    }
    if a.sender in {b.sender, b.recipient} && a.recipient in {b.sender, b.recipient} {
      forall c
        ensures Dated(t.dms, t.convs, c)
      {
        if c in t.convs {
          assert Backs(t.dms, t.convs, k, c);
        }
      }
    } else {
      var u := if a.sender in {b.sender, b.recipient} then a.recipient else a.sender;
      assert !Dated(t.dms, t.convs, ConvKey(a.project, u, a.conv));
    }
  }
}
