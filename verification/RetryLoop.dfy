/** The retry loop around one write call, and why repeating a write is harmless. */
module RetryLoop {
  import opened Types
  import opened Store

  const U32_MAX := 0xFFFF_FFFF

  /** One call as the caller sees it, and whether its batch was carried out. */
  datatype Attempt =
    | Answered(success: bool, committed: bool)
    | Broken(status: string, committed: bool)

  datatype CallResult = Response(success: bool) | StatusError(status: string)

  /**
   What the chat service can do with a call: a refused body touches nothing, a successful answer
   follows a commit, and anything else may or may not have committed.
   */
  predicate Possible(w: Write, a: Attempt) {
    && (a.committed ==> Accepts(w))
    && (a.Answered? && a.success ==> a.committed)
  }

  ghost predicate Commits(server: nat -> Attempt, n: nat) {
    exists i: nat :: i < n && server(i).committed
  }

  function Min(a: nat, b: nat): nat {
    if a < b then a else b
  }

  lemma ExecuteTwice(t: Tables, w: Write)
    ensures Execute(Execute(t, w), w) == Execute(t, w)
  {
    var once, twice := Execute(t, w), Execute(Execute(t, w), w);
    assert twice.dms == once.dms;
    assert twice.convs == once.convs;
    assert twice.roomMsgs == once.roomMsgs;
    assert twice.projectRooms == once.projectRooms;
  }

  /**
   `server(i)` is what happens to the i-th call.  Counters are 32 bits wide, so the loop needs
   room for one more than the last retry.
   */
  method WriteWithRetry(t0: Tables, w: Write, maxRetries: nat, server: nat -> Attempt)
    returns (result: CallResult, t: Tables, calls: nat, slept: nat)
    requires maxRetries < U32_MAX
    requires forall i :: Possible(w, server(i))
    ensures 1 <= calls <= maxRetries + 1
    ensures forall i :: 0 <= i < calls - 1 ==> server(i).Broken?
    ensures result == match server(calls - 1)
                      case Answered(success, _) => Response(success)
                      case Broken(status, _) => StatusError(status)
    ensures result.StatusError? ==> calls == maxRetries + 1
    ensures t == if Commits(server, calls) then Execute(t0, w) else t0
    ensures result == Response(true) ==> t == Execute(t0, w) && RowOf(t, w)
    ensures var failures := if result.Response? then calls - 1 else calls;
            var f := Min(failures, maxRetries);
            slept == 50 * f * (f + 1)
  {
    var attempts: nat := 0;
    var lastError: Option<string> := None;
    t, slept := t0, 0;
    while attempts <= maxRetries
      invariant attempts <= maxRetries + 1
      invariant forall i :: 0 <= i < attempts ==> server(i).Broken?
      invariant attempts > 0 ==> lastError == Some(server(attempts - 1).status)
      invariant t == if Commits(server, attempts) then Execute(t0, w) else t0
      invariant var f := Min(attempts, maxRetries); slept == 50 * f * (f + 1)
      decreases maxRetries + 1 - attempts
    {
      var attempt := server(attempts);
      if attempt.committed {
        ExecuteTwice(t0, w);
        t := Execute(t, w);
      }
      assert Commits(server, attempts + 1) <==> Commits(server, attempts) || attempt.committed;
      match attempt
      case Answered(success, _) =>
        return Response(success), t, attempts + 1, slept;
      case Broken(status, _) =>
        attempts := attempts + 1;
        assert attempts < 0x1_0000_0000;
        lastError := Some(status);
        if attempts <= maxRetries {
          slept := slept + 100 * attempts;
        }
    }
    return StatusError(lastError.value), t, attempts, slept;
  }

  /** The first call that is answered at all says yes. */
  ghost predicate FirstAnswerIsYes(server: nat -> Attempt, n: nat) {
    n <= 3 && server(n) == Answered(true, true) && forall i: nat :: i < n ==> server(i).Broken?
  }

  /** The persist handlers: only an answered success counts as persisted. */
  method Persist(t0: Tables, w: Write, server: nat -> Attempt) returns (status: Status, t: Tables)
    requires forall i :: Possible(w, server(i))
    ensures status == Persisted <==> exists n :: FirstAnswerIsYes(server, n)
    ensures status == Persisted ==> t == Execute(t0, w) && RowOf(t, w)
    ensures t == t0 || (t == Execute(t0, w) && Accepts(w))
  {
    var result, calls, slept;
    result, t, calls, slept := WriteWithRetry(t0, w, MAX_RETRIES, server);
    status := if result == Response(true) then Persisted else Failed;
    if status == Persisted {
      assert FirstAnswerIsYes(server, calls - 1);
    } else {
      forall n
        ensures !FirstAnswerIsYes(server, n)
      {
        assert n < calls - 1 ==> server(n).Broken?;
      }
    }
  }

  // ---- Repeats and reorderings among other writers ----

  /** Whatever else commits and in whatever order, the row of each committed write is there. */
  lemma {:induction false} EveryWriteHasItsRow(ws: seq<Write>, w: Write)
    requires OneMessagePerId(ws) && w in ws
    ensures RowOf(ExecuteAll(EMPTY, ws), w)
  {
    var init, last := ws[..|ws| - 1], ws[|ws| - 1];
    assert ws == init + [last];
    if w != last {
      EveryWriteHasItsRow(init, w);
      assert w.id != last.id by {
        var i :| 0 <= i < |ws| && ws[i] == w;
        assert ws[|ws| - 1] == last;
      }
    }
  }

  lemma MessagesWithin(ws: seq<Write>, ws': seq<Write>)
    requires OneMessagePerId(ws) && OneMessagePerId(ws') && (forall w :: w in ws ==> w in ws')
    ensures var t, t' := ExecuteAll(EMPTY, ws), ExecuteAll(EMPTY, ws');
            && (forall k :: k in t.dms ==> k in t'.dms && t'.dms[k] == t.dms[k])
            && (forall k :: k in t.roomMsgs ==> k in t'.roomMsgs && t'.roomMsgs[k] == t.roomMsgs[k])
  {
    var t, t' := ExecuteAll(EMPTY, ws), ExecuteAll(EMPTY, ws');
    RowsComeFromWrites(ws);
    forall k | k in t.dms
      ensures k in t'.dms && t'.dms[k] == t.dms[k]
    {
      var i :| 0 <= i < |ws| && ws[i].DmWrite? && DmKeyOf(ws[i]) == k && DmRowOf(ws[i]) == t.dms[k];
      EveryWriteHasItsRow(ws', ws[i]);
    }
    forall k | k in t.roomMsgs
      ensures k in t'.roomMsgs && t'.roomMsgs[k] == t.roomMsgs[k]
    {
      var i :| 0 <= i < |ws| && ws[i].RoomWrite? && RoomKeyOf(ws[i]) == k && RoomRowOf(ws[i]) == t.roomMsgs[k];
      EveryWriteHasItsRow(ws', ws[i]);
    }
  }

  /** So the message tables depend only on which writes committed, not on repeats or order. */
  lemma SameWritesSameMessages(ws: seq<Write>, ws': seq<Write>)
    requires OneMessagePerId(ws) && OneMessagePerId(ws') && (forall w :: w in ws <==> w in ws')
    ensures ExecuteAll(EMPTY, ws).dms == ExecuteAll(EMPTY, ws').dms
    ensures ExecuteAll(EMPTY, ws).roomMsgs == ExecuteAll(EMPTY, ws').roomMsgs
  {
    MessagesWithin(ws, ws');
    MessagesWithin(ws', ws);
  }
}
