/**
 The fixed-window limiter of the tenant endpoint.  A call is two separate Redis commands, INCR
 and, for the first call of a key's life, EXPIRE; other callers run in between, and either
 command may fail with or without having taken effect.  Times are milliseconds.
 */
module RateLimit {
  import opened Types

  const MAX_REQUESTS := 3
  const WINDOW := 3600 * 1000

  datatype Key = Key(count: int, expiry: Option<int>)

  datatype Outcome = Waiting | Allowed | Refused | Errored

  /**
   One call whose INCR took effect, dated by that INCR; `life` numbers the key's lifetimes.  An EXPIRE
   is `adrift` when its caller has given up and Redis may still carry it out.
   */
  datatype Call = Call(at: int, life: int, count: int, outcome: Outcome, adrift: bool)

  /** What becomes of an EXPIRE: its reply arrives, only its effect, its effect later, or nothing. */
  datatype Delivery = Heard | Unheard | Adrift | Lost

  datatype State = State(now: int, key: Option<Key>, calls: seq<Call>, starts: seq<int>)

  datatype Step =
    | Clock(now: int)
    | Evict
    | Incr(heard: bool)
    | Expire(call: nat, delivery: Delivery)
    | LateExpire(call: nat)

  const INIT := State(0, None, [], [])

  function AfterIncr(key: Option<Key>): Key {
    match key
    case None => Key(1, None)
    case Some(k) => Key(k.count + 1, k.expiry)
  }

  function Verdict(count: int): Outcome {
    if count > MAX_REQUESTS then Refused else Allowed
  }

  /** What a caller knows after INCR: the first of a lifetime still owes an EXPIRE. */
  function AfterReply(count: int, heard: bool): Outcome {
    if !heard then Errored else if count == 1 then Waiting else Verdict(count)
  }

  /** EXPIRE on a missing key does nothing and is not an error. */
  function AfterExpire(key: Option<Key>, now: int): Option<Key> {
    match key
    case None => None
    case Some(k) => Some(k.(expiry := Some(now + WINDOW)))
  }

  /** What happens to a call's commands: whether each takes effect, and whether its reply arrives. */
  datatype Fate = Fate(incrApplied: bool, incrHeard: bool, expireApplied: bool, expireHeard: bool)

  /**
   What one call comes to: the answer is an error when a reply it needs is missing, otherwise it is
   allowed up to the third of a lifetime; the count goes up by one; only the first sets the expiry, an hour
   on.
   */
  predicate OneCall(was: Option<Key>, now: int, fate: Fate, r: Outcome, key: Option<Key>) {
    var n := if was.None? then 1 else was.value.count + 1;
    var answered := fate.incrHeard && (n == 1 ==> fate.expireHeard);
    && r == (if !answered then Errored else if n <= 3 then Allowed else Refused)
    && (!fate.incrApplied ==> key == was)
    && (fate.incrApplied ==> key.Some? && key.value.count == n)
    && (fate.incrApplied && fate.incrHeard && n == 1 && fate.expireApplied ==>
          key.value.expiry == Some(now + 3_600_000))
    && (fate.incrApplied && !(fate.incrHeard && n == 1 && fate.expireApplied) ==>
          key.value.expiry == if was.None? then None else was.value.expiry)
  }

  class Redis {
    var now: int
    var key: Option<Key>

    constructor (now: int)
      ensures this.now == now && key == None
    {
      this.now, key := now, None;
    }

    /** One call with nobody in between. */
    method CheckRateLimit(fate: Fate) returns (r: Outcome)
      requires (fate.incrHeard ==> fate.incrApplied) && (fate.expireHeard ==> fate.expireApplied)
      modifies this`key
      ensures OneCall(old(key), now, fate, r, key)
      ensures old(key).Some? && old(key).value.expiry.Some? && old(key).value.count >= 1 ==>
          key.Some? && key.value.expiry == old(key).value.expiry
    {
      if fate.incrApplied {
        key := Some(AfterIncr(key));
      }
      if !fate.incrHeard {
        return Errored;
      }
      var count := key.value.count;
      if count == 1 {
        if fate.expireApplied {
          key := AfterExpire(key, now);
        }
        if !fate.expireHeard {
          return Errored;
        }
      }
      if count > MAX_REQUESTS {
        return Refused;
      }
      return Allowed;
    }
  }

  /** An overdue key is removed before anything else can see it; at the very instant either may come first. */
  predicate Enabled(s: State, step: Step) {
    match step
    case Clock(now) => s.now <= now
    case Evict => s.key.Some? && s.key.value.expiry.Some? && s.key.value.expiry.value <= s.now
    case Incr(_) => s.key.Some? && s.key.value.expiry.Some? ==> s.now <= s.key.value.expiry.value
    case Expire(i, _) => i < |s.calls| && s.calls[i].outcome.Waiting?
    case LateExpire(i) => i < |s.calls| && s.calls[i].adrift
  }

  function DoIncr(s: State, heard: bool): State {
    var k := AfterIncr(s.key);
    var starts := if s.key.None? then s.starts + [s.now] else s.starts;
    s.(key := Some(k), starts := starts,
        calls := s.calls + [Call(s.now, |starts| - 1, k.count, AfterReply(k.count, heard), false)])
  }

  function DoExpire(s: State, i: nat, d: Delivery): State
    requires i < |s.calls|
  {
    var c := s.calls[i];
    s.(key := if d.Heard? || d.Unheard? then AfterExpire(s.key, s.now) else s.key,
       calls := s.calls[i := c.(outcome := if d.Heard? then Verdict(c.count) else Errored, adrift := d.Adrift?)])
  }

  function DoLateExpire(s: State, i: nat): State
    requires i < |s.calls|
  {
    s.(key := AfterExpire(s.key, s.now), calls := s.calls[i := s.calls[i].(adrift := false)])
  }

  function Apply(s: State, step: Step): State
    requires Enabled(s, step)
  {
    match step
    case Clock(now) => s.(now := now)
    case Evict => s.(key := None)
    case Incr(heard) => DoIncr(s, heard)
    case Expire(i, d) => DoExpire(s, i, d)
    case LateExpire(i) => DoLateExpire(s, i)
  }

  predicate CanRun(s: State, steps: seq<Step>)
    decreases |steps|
  {
    steps == [] || (Enabled(s, steps[0]) && CanRun(Apply(s, steps[0]), steps[1..]))
  }

  function Run(s: State, steps: seq<Step>): State
    requires CanRun(s, steps)
    decreases |steps|
  {
    if steps == [] then s else Run(Apply(s, steps[0]), steps[1..])
  }

  ghost predicate Reachable(s: State) {
    exists steps :: CanRun(INIT, steps) && Run(INIT, steps) == s
  }

  // ---- The invariant ----

  /** Calls are numbered by lifetime and, within one, by count; the clock never runs back. */
  ghost predicate Ordered(calls: seq<Call>) {
    forall i, j :: 0 <= i < j < |calls| ==>
      && calls[i].at <= calls[j].at
      && (calls[i].life < calls[j].life || (calls[i].life == calls[j].life && calls[i].count < calls[j].count))
  }

  /** Lifetimes begin at least a window apart. */
  ghost predicate Spaced(starts: seq<int>) {
    forall i :: 0 <= i < |starts| - 1 ==> starts[i] + WINDOW <= starts[i + 1]
  }

  /** The call's EXPIRE has not been carried out and may yet be. */
  predicate Owes(c: Call) {
    c.outcome.Waiting? || c.adrift
  }

  ghost predicate CallsOk(s: State) {
    forall i :: 0 <= i < |s.calls| ==>
      var c := s.calls[i];
      && 0 <= c.life < |s.starts| && s.starts[c.life] <= c.at <= s.now && 1 <= c.count
      && (c.life + 1 < |s.starts| ==> c.at <= s.starts[c.life + 1])
      && (c.count == 1 ==> c.at == s.starts[c.life])
      && (c.outcome.Allowed? ==> c.count <= MAX_REQUESTS)
      && (c.adrift ==> c.outcome.Errored?)
      // an EXPIRE still to come can only meet the lifetime its own INCR began
      && (Owes(c) ==> c.count == 1 && c.life == |s.starts| - 1 && s.key.Some? && s.key.value.expiry.None?)
  }

  ghost predicate KeyOk(s: State) {
    s.key.Some? ==>
      && s.starts != [] && s.starts[|s.starts| - 1] <= s.now && 1 <= s.key.value.count
      && (forall i :: 0 <= i < |s.calls| && s.calls[i].life == |s.starts| - 1 ==> s.calls[i].count <= s.key.value.count)
      && (s.key.value.expiry.Some? ==> s.starts[|s.starts| - 1] + WINDOW <= s.key.value.expiry.value)
  }

  /** A finished lifetime ended no earlier than a window after it began. */
  ghost predicate GapOk(s: State) {
    s.key.None? && s.starts != [] ==> s.starts[|s.starts| - 1] + WINDOW <= s.now
  }

  ghost predicate Inv(s: State) {
    Ordered(s.calls) && Spaced(s.starts) && CallsOk(s) && KeyOk(s) && GapOk(s)
  }

  lemma IncrKeepsOrder(s: State, heard: bool)
    requires Ordered(s.calls) && CallsOk(s) && KeyOk(s)
    ensures Ordered(DoIncr(s, heard).calls)
  {
    var calls := DoIncr(s, heard).calls;
    forall i | 0 <= i < |s.calls|
      ensures var c, d := calls[i], calls[|s.calls|];
              c.at <= d.at && (c.life < d.life || (c.life == d.life && c.count < d.count))
    {
      assert calls[i] == s.calls[i];
    }
  }

  lemma IncrKeepsCalls(s: State, heard: bool)
    requires CallsOk(s) && KeyOk(s)
    ensures CallsOk(DoIncr(s, heard))
  {
    var t := DoIncr(s, heard);
    forall i | 0 <= i < |s.starts|
      ensures t.starts[i] == s.starts[i]
    {
    }
    assert forall i :: 0 <= i < |s.calls| ==> t.calls[i] == s.calls[i];
  }

  lemma IncrKeeps(s: State, heard: bool)
    requires Inv(s) && Enabled(s, Incr(heard))
    ensures Inv(DoIncr(s, heard))
  {
    IncrKeepsOrder(s, heard);
    IncrKeepsCalls(s, heard);
  }

  lemma OnlyOneOwes(s: State, i: nat, j: nat)
    requires Ordered(s.calls) && CallsOk(s) && i < |s.calls| && j < |s.calls| && Owes(s.calls[i]) && Owes(s.calls[j])
    ensures i == j
  {
    assert s.calls[i].life == s.calls[j].life && s.calls[i].count == s.calls[j].count;
  }

  /** The one call that owes an EXPIRE changes, and the key with it. */
  lemma SettleKeepsCalls(s: State, t: State, i: nat, c: Call)
    requires Ordered(s.calls) && CallsOk(s) && i < |s.calls| && Owes(s.calls[i])
    requires t.now == s.now && t.starts == s.starts && t.calls == s.calls[i := c]
    requires c == s.calls[i].(outcome := c.outcome, adrift := c.adrift) && (Owes(c) ==> t.key == s.key)
    requires (c.outcome.Allowed? ==> c.count <= MAX_REQUESTS) && (c.adrift ==> c.outcome.Errored?)
    ensures CallsOk(t)
  {
    forall j | 0 <= j < |s.calls| && Owes(s.calls[j])
      ensures j == i
    {
      OnlyOneOwes(s, i, j);
    }
  }

  lemma SettleKeepsOrder(calls: seq<Call>, i: nat, c: Call)
    requires Ordered(calls) && i < |calls| && c == calls[i].(outcome := c.outcome, adrift := c.adrift)
    ensures Ordered(calls[i := c])
  {
  }

  lemma ExpireKeeps(s: State, i: nat, d: Delivery)
    requires Inv(s) && Enabled(s, Expire(i, d))
    ensures Inv(DoExpire(s, i, d))
  {
    var t := DoExpire(s, i, d);
    SettleKeepsCalls(s, t, i, t.calls[i]);
    SettleKeepsOrder(s.calls, i, t.calls[i]);
    assert KeyOk(t);
  }

  lemma LateExpireKeeps(s: State, i: nat)
    requires Inv(s) && Enabled(s, LateExpire(i))
    ensures Inv(DoLateExpire(s, i))
  {
    var t := DoLateExpire(s, i);
    SettleKeepsCalls(s, t, i, t.calls[i]);
    SettleKeepsOrder(s.calls, i, t.calls[i]);
    assert KeyOk(t);
  }

  lemma StepKeeps(s: State, step: Step)
    requires Inv(s) && Enabled(s, step)
    ensures Inv(Apply(s, step))
  {
    if step.Incr? {
      IncrKeeps(s, step.heard);
    } else if step.Expire? {
      ExpireKeeps(s, step.call, step.delivery);
    } else if step.LateExpire? {
      LateExpireKeeps(s, step.call);
    }
  }

  lemma {:induction false} RunKeeps(s: State, steps: seq<Step>)
    requires Inv(s) && CanRun(s, steps)
    ensures Inv(Run(s, steps))
    decreases |steps|
  {
    if steps != [] {
      StepKeeps(s, steps[0]);
      RunKeeps(Apply(s, steps[0]), steps[1..]);
    }
  }

  lemma ReachableInv(s: State)
    requires Reachable(s)
    ensures Inv(s)
  {
    var steps :| CanRun(INIT, steps) && Run(INIT, steps) == s;
    RunKeeps(INIT, steps);
  }

  // ---- The bounds ----

  datatype Selection = During(from: int, to: int) | OfLife(life: int)

  predicate Selects(sel: Selection, c: Call) {
    c.outcome.Allowed? && match sel { case During(from, to) => from <= c.at < to case OfLife(life) => c.life == life }
  }

  /** How many of the calls were allowed and fall under the selection. */
  function Count(calls: seq<Call>, sel: Selection): nat {
    if calls == [] then 0 else
      Count(calls[..|calls| - 1], sel) + (if Selects(sel, calls[|calls| - 1]) then 1 else 0)
  }

  /** Lifetime and count together number the allowed calls from lifetime `first` on. */
  function Rank(c: Call, first: int): int {
    MAX_REQUESTS * (c.life - first) + c.count
  }

  lemma {:induction false} CountByRank(calls: seq<Call>, sel: Selection, first: int, low: int, high: int)
    requires Ordered(calls) && low <= high + 1
    requires forall i :: 0 <= i < |calls| && Selects(sel, calls[i]) ==>
               1 <= calls[i].count <= MAX_REQUESTS && low <= Rank(calls[i], first) <= high
    ensures Count(calls, sel) <= high - low + 1
  {
    if calls != [] {
      var init, c := calls[..|calls| - 1], calls[|calls| - 1];
      if Selects(sel, c) {
        CountByRank(init, sel, first, low, Rank(c, first) - 1);
      } else {
        CountByRank(init, sel, first, low, high);
      }
    }
  }

  lemma AtMostThreePerLifetime(s: State, life: int)
    requires Reachable(s)
    ensures Count(s.calls, OfLife(life)) <= 3
  {
    ReachableInv(s);
    CountByRank(s.calls, OfLife(life), life, 1, MAX_REQUESTS);
  }

  lemma {:induction false} StartsSpread(starts: seq<int>, i: nat, j: nat)
    requires Spaced(starts) && i <= j < |starts|
    ensures starts[i] + (j - i) * WINDOW <= starts[j]
    decreases j - i
  {
    if i < j {
      StartsSpread(starts, i, j - 1);
      assert starts[j - 1] + WINDOW <= starts[j - 1 + 1];
    }
  }

  /** The number of windows that cover an interval. */
  function Windows(length: int): int {
    (length + WINDOW - 1) / WINDOW
  }

  lemma FewerWindows(k: int, length: int)
    requires k * WINDOW < length
    ensures k < Windows(length)
  {
    assert length <= Windows(length) * WINDOW;
  }

  /**
   Two calls less than `length` apart are at most that many windows apart in lifetimes, and
   strictly less if the earlier one began its lifetime.
   */
  lemma LifetimesApart(s: State, i: nat, j: nat, length: int)
    requires Inv(s) && i < |s.calls| && j < |s.calls| && s.calls[j].at - s.calls[i].at < length && 1 <= length
    ensures s.calls[j].life - s.calls[i].life <= Windows(length)
    ensures s.calls[i].count == 1 ==> s.calls[j].life - s.calls[i].life < Windows(length)
  {
    var k, l := s.calls[i].life, s.calls[j].life;
    if l > k {
      StartsSpread(s.starts, k + 1, l);
      FewerWindows(l - (k + 1), length);
      if s.calls[i].count == 1 {
        StartsSpread(s.starts, k, l);
        FewerWindows(l - k, length);
      }
    }
  }

  /** The oldest selected call, unless there is none. */
  lemma {:induction false} Oldest(calls: seq<Call>, sel: Selection) returns (i: nat)
    ensures i <= |calls|
    ensures forall j :: 0 <= j < i ==> !Selects(sel, calls[j])
    ensures if i < |calls| then Selects(sel, calls[i]) else Count(calls, sel) == 0
  {
    if calls == [] {
      i := 0;
    } else {
      var init := calls[..|calls| - 1];
      i := Oldest(init, sel);
      if i == |init| && !Selects(sel, calls[|init|]) {
        i := |calls|;
      }
    }
  }

  /**
   The sliding bound: over any half-open interval of length L at most 3 * ceil(L / window) + 2
   calls are allowed.
   */
  lemma SlidingBound(s: State, from: int, length: nat)
    requires Reachable(s) && 1 <= length
    ensures Count(s.calls, During(from, from + length)) <= 3 * Windows(length) + 2
  {
    ReachableInv(s);
    var sel, n := During(from, from + length), Windows(length);
    FewerWindows(0, length);
    var oldest := Oldest(s.calls, sel);
    if oldest < |s.calls| {
      var first, low := s.calls[oldest].life, s.calls[oldest].count;
      var high := if low == 1 then MAX_REQUESTS * n else MAX_REQUESTS * (n + 1);
      forall j | 0 <= j < |s.calls| && Selects(sel, s.calls[j])
        ensures 1 <= s.calls[j].count <= MAX_REQUESTS && low <= Rank(s.calls[j], first) <= high
      {
        LifetimesApart(s, oldest, j, length);
        assert oldest <= j;
        assert first < s.calls[j].life || (first == s.calls[j].life && low <= s.calls[j].count);
      }
      CountByRank(s.calls, sel, first, low, high);
    }
  }

  /** In particular at most five in any half-open window. */
  lemma AtMostFivePerWindow(s: State, from: int)
    requires Reachable(s)
    ensures Count(s.calls, During(from, from + 3_600_000)) <= 5
  {
    SlidingBound(s, from, WINDOW);
  }

  /**
   Counted from the call that began a lifetime, the window it opened is the fixed window the limiter
   promises: at most three calls are allowed in it.
   */
  lemma AtMostThreeFromItsStart(s: State, first: nat)
    requires Reachable(s) && first < |s.calls| && s.calls[first].count == 1
    ensures var from := s.calls[first].at;
            Count(s.calls[first..], During(from, from + 3_600_000)) <= 3
  {
    ReachableInv(s);
    var c, later := s.calls[first], s.calls[first..];
    var sel := During(c.at, c.at + WINDOW);
    forall i | 0 <= i < |later| && Selects(sel, later[i])
      ensures 1 <= later[i].count <= MAX_REQUESTS && 1 <= Rank(later[i], c.life) <= MAX_REQUESTS
    {
      var d := s.calls[first + i];
      assert d.life >= c.life;
      LifetimesApart(s, first, first + i, WINDOW);
    }
    CountByRank(later, sel, c.life, 1, MAX_REQUESTS);
  }

  /** No call moves the end of a window that has been set. */
  lemma WindowEndIsFixed(s: State, step: Step)
    requires Reachable(s) && Enabled(s, step) && s.key.Some? && s.key.value.expiry.Some?
    ensures var t := Apply(s, step); t.key.Some? ==> t.key.value.expiry == s.key.value.expiry
  {
    ReachableInv(s);
  }

  // ---- The two commands of a call ----

  /** The call that has just made its INCR, and its EXPIRE if it owes one, with nobody in between. */
  function Alone(s: State, heard: bool, d: Delivery): State
    requires Enabled(s, Incr(heard))
  {
    var t, i := Apply(s, Incr(heard)), |s.calls|;
    if t.calls[i].outcome.Waiting? then Apply(t, Expire(i, d)) else t
  }

  /** Undisturbed, the two steps of a call are one call of the limiter. */
  lemma TwoStepsAreOneCall(s: State, heard: bool, d: Delivery)
    requires Reachable(s) && Enabled(s, Incr(heard)) && !d.Adrift?
    ensures var t, i := Alone(s, heard, d), |s.calls|;
            && |t.calls| == i + 1 && t.calls[..i] == s.calls && t.calls[i].at == s.now
            && OneCall(s.key, s.now, Fate(true, heard, d.Heard? || d.Unheard?, d.Heard?), t.calls[i].outcome, t.key)
  {
    ReachableInv(s);
  }

  // ---- When a window ends at all ----

  /** Somebody has set, or still owes, the expiry of the present key. */
  ghost predicate WillExpire(s: State) {
    s.key.None? || s.key.value.expiry.Some? || exists i :: 0 <= i < |s.calls| && Owes(s.calls[i])
  }

  ghost predicate Stuck(s: State) {
    !WillExpire(s) && 1 <= s.key.value.count
  }

  lemma StuckStep(s: State, step: Step)
    requires Enabled(s, step) && Stuck(s)
    ensures Stuck(Apply(s, step)) && Apply(s, step).starts == s.starts
  {
    var t := Apply(s, step);
    forall i | 0 <= i < |t.calls|
      ensures !Owes(t.calls[i])
    {
      if i < |s.calls| {
        assert t.calls[i] == s.calls[i];
      }
    }
  }

  /** A first caller whose EXPIRE is lost for good leaves a key that no run ever removes. */
  lemma {:induction false} StuckForever(s: State, steps: seq<Step>)
    requires CanRun(s, steps) && Stuck(s)
    ensures Run(s, steps).key.Some? && Run(s, steps).starts == s.starts
    decreases |steps|
  {
    if steps != [] {
      StuckStep(s, steps[0]);
      StuckForever(Apply(s, steps[0]), steps[1..]);
    }
  }

  /**
   The key can go away, and a new window begin, exactly when its expiry is set, or its first caller
   still waits, or that caller gave up and its EXPIRE is still on the way.
   */
  lemma RecoversIff(s: State)
    requires Reachable(s)
    ensures WillExpire(s) <==> exists steps :: CanRun(s, steps) && Run(s, steps).key.None?
  {
    ReachableInv(s);
    if WillExpire(s) {
      var steps := RunToEviction(s);
      assert CanRun(s, steps) && Run(s, steps).key.None?;
    } else {
      forall steps | CanRun(s, steps)
        ensures Run(s, steps).key.Some?
      {
        StuckForever(s, steps);
      }
    }
  }

  lemma EvictAt(s: State, e: int) returns (steps: seq<Step>)
    requires s.key.Some? && s.key.value.expiry == Some(e)
    ensures CanRun(s, steps) && Run(s, steps).key.None?
  {
    var late := if s.now <= e then e else s.now;
    steps := [Clock(late), Evict];
    var t := Apply(s, steps[0]);
    assert steps[1..] == [Evict] && steps[1..][1..] == [];
    assert CanRun(t, [Evict]) && Run(t, [Evict]) == Apply(t, Evict);
  }

  lemma RunToEviction(s: State) returns (steps: seq<Step>)
    requires Inv(s) && WillExpire(s)
    ensures CanRun(s, steps) && Run(s, steps).key.None?
  {
    if s.key.None? {
      steps := [];
    } else if s.key.value.expiry.Some? {
      steps := EvictAt(s, s.key.value.expiry.value);
    } else {
      var i :| 0 <= i < |s.calls| && Owes(s.calls[i]);
      var first := if s.calls[i].outcome.Waiting? then Expire(i, Heard) else LateExpire(i);
      var rest := EvictAt(Apply(s, first), s.now + WINDOW);
      steps := [first] + rest;
      assert steps[1..] == rest;
    }
  }

  // ---- A window that never ends, and as many calls as the bound allows, do happen ----

  lemma {:induction false} RunOneMore(s: State, steps: seq<Step>, step: Step)
    requires CanRun(s, steps) && Enabled(Run(s, steps), step)
    ensures CanRun(s, steps + [step]) && Run(s, steps + [step]) == Apply(Run(s, steps), step)
    decreases |steps|
  {
    if steps == [] {
      assert steps + [step] == [step] && [step][1..] == [];
    } else {
      assert (steps + [step])[1..] == steps[1..] + [step];
      RunOneMore(Apply(s, steps[0]), steps[1..], step);
    }
  }

  lemma ReachOneMore(s: State, step: Step)
    requires Reachable(s) && Enabled(s, step)
    ensures Reachable(Apply(s, step))
  {
    var steps :| CanRun(INIT, steps) && Run(INIT, steps) == s;
    RunOneMore(INIT, steps, step);
  }

  lemma InitReachable()
    ensures Reachable(INIT)
  {
    assert CanRun(INIT, []) && Run(INIT, []) == INIT;
  }

  /** An EXPIRE that never reaches Redis: after it the window never ends. */
  lemma WindowMayNeverEnd()
    ensures exists s :: Reachable(s) && !WillExpire(s)
  {
    InitReachable();
    var one := DoIncr(INIT, true);
    ReachOneMore(INIT, Incr(true));
    var two := DoExpire(one, 0, Lost);
    ReachOneMore(one, Expire(0, Lost));
    assert two.key == Some(Key(1, None)) && two.calls == [Call(0, 0, 1, Errored, false)];
  }

  lemma CountOneMore(calls: seq<Call>, c: Call, sel: Selection)
    ensures Count(calls + [c], sel) == Count(calls, sel) + if Selects(sel, c) then 1 else 0
  {
    assert (calls + [c])[..|calls|] == calls;
  }

  /** A first caller begins a lifetime, undisturbed. */
  lemma Opening(s: State) returns (t: State)
    requires Reachable(s) && s.key == None
    ensures Reachable(t) && t.now == s.now && t.key == Some(Key(1, Some(s.now + WINDOW)))
    ensures t.calls == s.calls + [Call(s.now, |s.starts|, 1, Allowed, false)]
  {
    var u := DoIncr(s, true);
    ReachOneMore(s, Incr(true));
    assert u.calls[|s.calls|].outcome == Waiting;
    ReachOneMore(u, Expire(|s.calls|, Heard));
    t := DoExpire(u, |s.calls|, Heard);
  }

  /** Another caller is allowed while the count permits and the window lasts. */
  lemma Following(s: State, n: int, e: int) returns (t: State)
    requires Reachable(s) && s.key == Some(Key(n, Some(e))) && 1 <= n < MAX_REQUESTS && s.now <= e
    ensures Reachable(t) && t.now == s.now && t.key == Some(Key(n + 1, Some(e)))
    ensures t.calls == s.calls + [Call(s.now, |s.starts| - 1, n + 1, Allowed, false)]
  {
    ReachOneMore(s, Incr(true));
    t := DoIncr(s, true);
  }

  /** Three callers at once, all allowed. */
  lemma ThreeAtOnce(s: State, sel: Selection) returns (t: State)
    requires Reachable(s) && s.key == None && sel.During? && sel.from <= s.now < sel.to
    ensures Reachable(t) && t.now == s.now && t.key == Some(Key(MAX_REQUESTS, Some(s.now + WINDOW)))
    ensures Count(t.calls, sel) == Count(s.calls, sel) + 3
  {
    var e := s.now + WINDOW;
    var u := Opening(s);
    CountOneMore(s.calls, u.calls[|s.calls|], sel);
    var v := Following(u, 1, e);
    CountOneMore(u.calls, v.calls[|u.calls|], sel);
    t := Following(v, 2, e);
    CountOneMore(v.calls, t.calls[|v.calls|], sel);
  }

  /** One early caller, and two more in the last moment of that window. */
  lemma TwoAtTheEnd(length: nat) returns (t: State)
    requires 1 <= length
    ensures Reachable(t) && t.now == WINDOW && t.key == Some(Key(MAX_REQUESTS, Some(WINDOW)))
    ensures Count(t.calls, During(WINDOW, WINDOW + length)) == 2
  {
    var sel := During(WINDOW, WINDOW + length);
    InitReachable();
    var a := Opening(INIT);
    CountOneMore([], a.calls[0], sel);
    ReachOneMore(a, Clock(WINDOW));
    var b := a.(now := WINDOW);
    var c := Following(b, 1, WINDOW);
    CountOneMore(b.calls, c.calls[|b.calls|], sel);
    t := Following(c, 2, WINDOW);
    CountOneMore(c.calls, t.calls[|c.calls|], sel);
  }

  /** Then three more each time the key expires. */
  lemma {:induction false} LifetimeAfterLifetime(length: nat, n: nat) returns (s: State)
    requires 1 <= length && (n >= 1 ==> n * WINDOW < WINDOW + length)
    ensures Reachable(s) && s.now <= (n + 1) * WINDOW && s.key == Some(Key(MAX_REQUESTS, Some((n + 1) * WINDOW)))
    ensures Count(s.calls, During(WINDOW, WINDOW + length)) == MAX_REQUESTS * n + 2
    decreases n
  {
    if n == 0 {
      s := TwoAtTheEnd(length);
    } else {
      var p := LifetimeAfterLifetime(length, n - 1);
      var e := n * WINDOW;
      ReachOneMore(p, Clock(e));
      var q := p.(now := e);
      ReachOneMore(q, Evict);
      s := ThreeAtOnce(q.(key := None), During(WINDOW, WINDOW + length));
    }
  }

  /** The sliding bound is met, for every length. */
  lemma SlidingBoundIsMet(length: nat) returns (s: State)
    requires 1 <= length
    ensures Reachable(s) && Count(s.calls, During(WINDOW, WINDOW + length)) == 3 * Windows(length) + 2
  {
    var n := Windows(length);
    FewerWindows(0, length);
    assert n * WINDOW < WINDOW + length;
    s := LifetimeAfterLifetime(length, n);
  }
}
