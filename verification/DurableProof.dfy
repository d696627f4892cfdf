/** An ack means a stored row: how `DurableInv` survives each change. */
module DurableProof {
  import opened Types
  import opened Channels
  import opened Store
  import opened Protocol
  import opened Invariants

  /** Bodies and rows once there stay as they are; requests keep their origin and client. */
  ghost predicate Grows(reqs: map<MsgId, Request>, reqs': map<MsgId, Request>,
                        writes: map<MsgId, Write>, writes': map<MsgId, Write>, db: Tables, db': Tables)
  {
    && (forall id :: id in reqs ==> id in reqs' && reqs'[id] == reqs[id])
    && (forall id :: id in writes ==> id in writes' && writes'[id] == writes[id])
    && (forall id :: Stored(writes, db, id) ==> Stored(writes', db', id))
  }

  lemma AcksGrow(reqs: map<MsgId, Request>, reqs': map<MsgId, Request>, writes: map<MsgId, Write>, writes': map<MsgId,
                 Write>,
                 db: Tables, db': Tables, acks: seq<Chan<Ack>>, handed: seq<seq<Ack>>)
    requires Grows(reqs, reqs', writes, writes', db, db') && AcksOk(reqs, writes, db, acks, handed)
    ensures AcksOk(reqs', writes', db', acks, handed)
  {
    forall sid | 0 <= sid < |acks|
      ensures AckQueueOk(reqs', writes', db', sid, acks[sid].queue)
    {
      assert AckQueueOk(reqs, writes, db, sid, acks[sid].queue);
    }
    forall sid | 0 <= sid < |handed|
      ensures AckQueueOk(reqs', writes', db', sid, handed[sid])
    {
      assert AckQueueOk(reqs, writes, db, sid, handed[sid]);
    }
  }

  lemma RepliesGrow(tasks: map<MsgId, Task>, shots: map<MsgId, Status>, reqs: map<MsgId, Request>, reqs': map<MsgId,
                    Request>,
                    writes: map<MsgId, Write>, writes': map<MsgId, Write>, db: Tables, db': Tables)
    requires Grows(reqs, reqs', writes, writes', db, db') && TasksOk(tasks, writes, db) && ShotsOk(shots, writes, db)
    ensures TasksOk(tasks, writes', db') && ShotsOk(shots, writes', db')
  {
  }

  lemma DurableFrame(s: State, t: State)
    requires DurableInv(s) && t.reqs == s.reqs && t.writes == s.writes && t.tasks == s.tasks && t.shots == s.shots
    requires t.acks == s.acks && t.h.handed == s.h.handed && t.db == s.db
    ensures DurableInv(t)
  {
  }

  lemma DurableConnect(s: State, u: UserId)
    requires DurableInv(s)
    ensures DurableInv(DoConnect(s, u))
  {
  }

  lemma DurableStart(s: State, sid: SessionId)
    requires DurableInv(s) && sid < |s.sessions| && sid < |s.acks|
    ensures DurableInv(DoStart(s, sid))
  {
  }

  lemma DurableMint(s: State, id: MsgId, q: Request, m: RouterMsg)
    requires DurableInv(s) && id !in s.reqs && q.origin < |s.h.sent|
    ensures DurableInv(Mint(s, id, q, m))
  {
    AcksGrow(s.reqs, s.reqs[id := q], s.writes, s.writes, s.db, s.db, s.acks, s.h.handed);
  }

  lemma RowsSpawn(writes: map<MsgId, Write>, db: Tables, id: MsgId, w: Write)
    requires RowsInv(writes, db) && id !in writes
    ensures RowsInv(writes[id := w], db)
  {
  }

  lemma DurableSpawn(s: State, id: MsgId, w: Write)
    requires DurableInv(s) && id !in s.writes && WriteFor(s.reqs, id, w)
    ensures DurableInv(Spawn(s, id, w))
  {
    RowsSpawn(s.writes, s.db, id, w);
    AcksGrow(s.reqs, s.reqs, s.writes, s.writes[id := w], s.db, s.db, s.acks, s.h.handed);
  }

  // ---- Commits ----

  lemma CommitCompatible(reqs: map<MsgId, Request>, writes: map<MsgId, Write>, db: Tables, id: MsgId)
    requires WritesOk(reqs, writes) && RowsInv(writes, db) && id in writes
    ensures Compatible(db, writes[id])
  {
    assert WriteFor(reqs, id, writes[id]);
  }

  lemma CommitRows(reqs: map<MsgId, Request>, writes: map<MsgId, Write>, db: Tables, id: MsgId)
    requires WritesOk(reqs, writes) && RowsInv(writes, db) && id in writes
    ensures RowsInv(writes, Execute(db, writes[id]))
  {
    assert WriteFor(reqs, id, writes[id]);
  }

  lemma CommitKeepsRow(db: Tables, w: Write, v: Write)
    requires Compatible(db, w) && HasRow(db, v)
    ensures HasRow(Execute(db, w), v)
  {
  }

  lemma CommitGrows(reqs: map<MsgId, Request>, writes: map<MsgId, Write>, db: Tables, id: MsgId)
    requires id in writes && Compatible(db, writes[id])
    ensures Grows(reqs, reqs, writes, writes, db, Execute(db, writes[id]))
    ensures Stored(writes, Execute(db, writes[id]), id)
  {
    forall j | Stored(writes, db, j)
      ensures Stored(writes, Execute(db, writes[id]), j)
    {
      CommitKeepsRow(db, writes[id], writes[j]);
    }
  }

  lemma DurableCommit(s: State, id: MsgId)
    requires DurableInv(s) && id in s.writes
    ensures DurableInv(s.(db := Execute(s.db, s.writes[id])))
    ensures Stored(s.writes, Execute(s.db, s.writes[id]), id)
  {
    var db' := Execute(s.db, s.writes[id]);
    CommitCompatible(s.reqs, s.writes, s.db, id);
    CommitRows(s.reqs, s.writes, s.db, id);
    ExecuteKeepsIndex(s.db, s.writes[id]);
    CommitGrows(s.reqs, s.writes, s.db, id);
    AcksGrow(s.reqs, s.reqs, s.writes, s.writes, s.db, db', s.acks, s.h.handed);
    RepliesGrow(s.tasks, s.shots, s.reqs, s.reqs, s.writes, s.writes, s.db, db');
  }

  // ---- Replies and acks ----

  lemma DurableSetTask(s: State, id: MsgId, t: Task)
    requires DurableInv(s) && t.failures <= MAX_RETRIES && (t.phase == Replied(true) ==> Stored(s.writes, s.db, id))
    ensures DurableInv(SetTask(s, id, t))
  {
  }

  lemma DurableResolve(s: State, id: MsgId, r: Status)
    requires DurableInv(s) && (r.Persisted? ==> Stored(s.writes, s.db, id))
    ensures DurableInv(Resolve(s, id, r))
  {
  }

  lemma DurableExecute(s: State, id: MsgId, ok: bool)
    requires DurableInv(s) && id in s.tasks && id in s.writes
    ensures DurableInv(DoExecute(s, id, ok))
  {
    if Accepts(s.writes[id]) && ok {
      DurableCommit(s, id);
      DurableSetTask(s.(db := Execute(s.db, s.writes[id])), id, s.tasks[id].(phase := Replied(true)));
    } else {
      DurableSetTask(s, id, s.tasks[id].(phase := Replied(false)));
    }
  }

  lemma DurableAckPush(s: State, id: MsgId)
    requires DurableInv(s) && id in s.shots && id in s.reqs && s.reqs[id].origin < |s.acks|
    ensures DurableInv(DoAckPush(s, id))
  {
    var c := s.reqs[id].origin;
    var q, k := s.acks[c].queue, Ack(s.reqs[id].client, id, s.shots[id]);
    assert AckQueueOk(s.reqs, s.writes, s.db, c, q);
    assert AckQueueOk(s.reqs, s.writes, s.db, c, q + [k]);
  }

  lemma DurablePopAck(s: State, sid: SessionId)
    requires DurableInv(s) && sid < |s.acks| && |s.acks| == |s.h.handed| && s.acks[sid].queue != []
    ensures DurableInv(PopAck(s, sid))
  {
    var q, p := s.acks[sid].queue, s.h.handed[sid];
    assert AckQueueOk(s.reqs, s.writes, s.db, sid, q) && AckQueueOk(s.reqs, s.writes, s.db, sid, p);
    assert AckQueueOk(s.reqs, s.writes, s.db, sid, q[1..]) && AckQueueOk(s.reqs, s.writes, s.db, sid, p + [q[0]]);
  }

  lemma DurableClose(s: State, sid: SessionId)
    requires DurableInv(s) && sid < |s.acks| && sid < |s.chans|
    ensures DurableInv(CloseSend(s, sid))
  {
  }
}
