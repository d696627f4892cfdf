/**
 Channels between tasks.  `Chan` is a bounded channel as a value, its queue and whether its receiver
 still exists; `BoundedChannel` is the shared object that several tasks push into.
 */
module Channels {
  import opened Types

  const CAPACITY := 100

  datatype Chan<T> = Chan(queue: seq<T>, open: bool)

  predicate HasRoom<T>(c: Chan<T>) {
    c.open && |c.queue| < CAPACITY
  }

  /** What `try_send` does: full and closed channels drop the message. */
  function Offer<T>(c: Chan<T>, m: T): (r: Chan<T>)
    ensures |c.queue| <= CAPACITY ==> |r.queue| <= CAPACITY
    ensures r.open == c.open
  {
    if HasRoom(c) then c.(queue := c.queue + [m]) else c
  }

  /** A channel nobody reads takes the first messages that fit, in order, and no others. */
  function Filled<T>(c: Chan<T>, ms: seq<T>): Chan<T> {
    var space := 100 - |c.queue|;
    if !c.open || space <= 0 then c
    else c.(queue := c.queue + if |ms| <= space then ms else ms[..space])
  }

  lemma FilledOffer<T>(c: Chan<T>, ms: seq<T>, m: T)
    ensures Filled(c, ms + [m]) == Offer(Filled(c, ms), m)
  {
    var space := 100 - |c.queue|;
    if c.open && space > 0 {
      if |ms| < space {
        assert c.queue + (ms + [m]) == (c.queue + ms) + [m];
      } else {
        assert (ms + [m])[..space] == ms[..space];
        assert |ms| == space ==> ms[..space] == ms;
      }
    }
  }

  class BoundedChannel<T> {
    var queue: seq<T>
    var open: bool

    constructor ()
      ensures View() == Chan([], true)
    {
      queue, open := [], true;
    }

    ghost function View(): Chan<T>
      reads this
    {
      Chan(queue, open)
    }

    method TrySend(m: T) returns (sent: bool)
      modifies this`queue
      ensures sent == HasRoom(old(View()))
      ensures View() == Offer(old(View()), m)
    {
      if !open || |queue| >= CAPACITY {
        return false;
      }
      queue := queue + [m];
      return true;
    }

    method Receive() returns (m: T)
      requires queue != []
      modifies this`queue
      ensures old(queue) == [m] + queue
    {
      m := queue[0];
      queue := queue[1..];
    }

    /** The receiver is dropped: what was queued goes with it. */
    method Close()
      modifies this
      ensures View() == Chan([], false)
    {
      queue, open := [], false;
    }
  }

  /** What a session is reached through. */
  type Channel = BoundedChannel<ChatMessage>

  ghost function ViewOf(cs: set<Channel>): map<Channel, Chan<ChatMessage>>
    reads cs
  {
    map c | c in cs :: c.View()
  }

  /** An unbounded mailbox. */
  class Mailbox<M> {
    var queue: seq<M>

    constructor ()
      ensures queue == []
    {
      queue := [];
    }

    method Send(m: M)
      modifies this
      ensures queue == old(queue) + [m]
    {
      queue := queue + [m];
    }

    method TakeAll() returns (ms: seq<M>)
      modifies this
      ensures ms == old(queue) && queue == []
    {
      ms, queue := queue, [];
    }
  }
}
