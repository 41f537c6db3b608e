/**
 * The token-bucket limiter, in its queueing and its dropping form.
 *
 * A limiter is driven by `schedule` calls, timer firings and `destroy`; each reads the
 * clock once. The log records every task that ran and when. Tasks are numbered in the
 * order in which they are scheduled.
 */
module RateLimiter {
  import opened Common

  datatype Config = Config(maxRequests: nat, intervalMs: int, maxQueued: nat)

  datatype Execution = Execution(task: nat, time: int)

  /** `scheduled` counts the tasks so far; `rejected` lists those refused or dropped by `destroy`. */
  datatype Limiter = Limiter(
    tokens: nat, lastRefill: int, queue: seq<nat>, armed: bool,
    log: seq<Execution>, rejected: seq<nat>, scheduled: nat)

  function Initial(c: Config, now: int): Limiter {
    Limiter(c.maxRequests, now, [], false, [], [], 0)
  }

  function Refill(c: Config, s: Limiter, now: int): Limiter {
    if now - s.lastRefill <= 0 then s
    else if now - s.lastRefill >= c.intervalMs then s.(tokens := c.maxRequests, lastRefill := now)
    else s
  }

  function Execute(s: Limiter, task: nat, now: int): Limiter
    requires s.tokens > 0
  {
    s.(tokens := s.tokens - 1, log := s.log + [Execution(task, now)])
  }

  /** The drain loop: run queued tasks in order while tokens last. */
  function Drain(s: Limiter, now: int): Limiter
    decreases |s.queue|
  {
    if s.tokens > 0 && |s.queue| > 0 then
      Drain(Execute(s.(queue := s.queue[1..]), s.queue[0], now), now)
    else s
  }

  /** The timer callback; it re-arms itself while tasks are left. */
  function Tick(c: Config, s: Limiter, now: int): Limiter {
    var d := Drain(Refill(c, s.(armed := false), now), now);
    d.(armed := |d.queue| > 0)
  }

  function Schedule(c: Config, s: Limiter, now: int): Limiter {
    var task := s.scheduled;
    var r := Refill(c, s.(scheduled := task + 1), now);
    if r.tokens > 0 && r.queue == [] then Execute(r, task, now)
    else if |r.queue| >= c.maxQueued then r.(rejected := r.rejected + [task])
    else r.(queue := r.queue + [task], armed := true)
  }

  function Destroy(s: Limiter): Limiter {
    s.(armed := false, queue := [], rejected := s.rejected + s.queue)
  }

  /** The dropping strategy: no queue, no timer. */
  function ScheduleOrDrop(c: Config, s: Limiter, now: int): Limiter {
    var task := s.scheduled;
    var r := s.(scheduled := task + 1);
    var r := if now - r.lastRefill >= c.intervalMs then r.(tokens := c.maxRequests, lastRefill := now) else r;
    if r.tokens > 0 then Execute(r, task, now) else r.(rejected := r.rejected + [task])
  }

  // -- Runs ----------------------------------------------------------------------

  datatype Event = Call(now: int) | Timer(now: int) | Kill(now: int)

  datatype Strategy = Queueing | Dropping

  /** A timer fires only while it is armed; the dropping strategy has none and ignores `destroy`. */
  function Step(c: Config, strategy: Strategy, s: Limiter, e: Event): Limiter {
    match (strategy, e)
    case (Queueing, Call(now)) => Schedule(c, s, now)
    case (Queueing, Timer(now)) => if s.armed then Tick(c, s, now) else s
    case (Queueing, Kill(_)) => Destroy(s)
    case (Dropping, Call(now)) => ScheduleOrDrop(c, s, now)
    case (Dropping, _) => s
  }

  function Run(c: Config, strategy: Strategy, start: int, evs: seq<Event>): Limiter {
    if evs == [] then Initial(c, start)
    else Step(c, strategy, Run(c, strategy, start, evs[..|evs| - 1]), evs[|evs| - 1])
  }

  /** The clock readings never go backwards. */
  ghost predicate Monotone(start: int, evs: seq<Event>) {
    && (forall i | 0 <= i < |evs| :: start <= evs[i].now)
    && (forall i, j | 0 <= i < j < |evs| :: evs[i].now <= evs[j].now)
  }

  /** How many logged executions happened at `from` or later, but before `to`. */
  function CountIn(log: seq<Execution>, from: int, to: int): nat {
    if log == [] then 0
    else CountIn(log[..|log| - 1], from, to) + if from <= log[|log| - 1].time < to then 1 else 0
  }

  /** How many happened at `from` or later. */
  function CountFrom(log: seq<Execution>, from: int): nat {
    if log == [] then 0
    else CountFrom(log[..|log| - 1], from) + if from <= log[|log| - 1].time then 1 else 0
  }

  // -- The rate bound ----------------------------------------------------------------

  lemma {:induction false} DrainCount(s: Limiter, now: int, from: int)
    ensures var d := Drain(s, now);
      && d.lastRefill == s.lastRefill && d.tokens <= s.tokens
      && CountFrom(d.log, from) == CountFrom(s.log, from) + if from <= now then s.tokens - d.tokens else 0
    decreases |s.queue|
  {
    if s.tokens > 0 && |s.queue| > 0 {
      ExecuteCount(s.(queue := s.queue[1..]), s.queue[0], now, from);
      DrainCount(Execute(s.(queue := s.queue[1..]), s.queue[0], now), now, from);
    }
  }

  lemma ExecuteCount(s: Limiter, task: nat, now: int, from: int)
    requires s.tokens > 0
    ensures CountFrom(Execute(s, task, now).log, from) == CountFrom(s.log, from) + if from <= now then 1 else 0
  {
    var log := Execute(s, task, now).log;
    assert log[..|log| - 1] == s.log;
  }

  /**
   * What a step does to the budget: spend tokens one execution each, possibly after one
   * refill, and a refill is at least an interval after the previous one.
   */
  lemma StepBudget(c: Config, strategy: Strategy, s: Limiter, e: Event, from: int)
    requires c.intervalMs > 0
    ensures var s' := Step(c, strategy, s, e);
      var spent := CountFrom(s'.log, from) - CountFrom(s.log, from);
      && 0 <= spent
      && (from > e.now ==> spent == 0)
      && (|| (s'.lastRefill == s.lastRefill && spent + s'.tokens <= s.tokens)
          || (s'.lastRefill == e.now >= s.lastRefill + c.intervalMs && spent + s'.tokens <= c.maxRequests))
  {
    hide CountFrom;
    hide Drain;
    var now := e.now;
    match (strategy, e)
    case (Queueing, Call(_)) =>
      var r := Refill(c, s.(scheduled := s.scheduled + 1), now);
      if r.tokens > 0 { ExecuteCount(r, s.scheduled, now, from); }
    case (Queueing, Timer(_)) =>
      DrainCount(Refill(c, s.(armed := false), now), now, from);
    case (Dropping, Call(_)) =>
      var r := if now - s.lastRefill >= c.intervalMs then s.(tokens := c.maxRequests, lastRefill := now) else s;
      if r.tokens > 0 { ExecuteCount(r.(scheduled := s.scheduled + 1), s.scheduled, now, from); }
    case _ =>
  }

  /** The clock reading of the last step. */
  function LastTime(start: int, evs: seq<Event>): int {
    if evs == [] then start else evs[|evs| - 1].now
  }

  lemma MonotonePrefix(start: int, evs: seq<Event>)
    requires Monotone(start, evs) && evs != []
    ensures Monotone(start, evs[..|evs| - 1])
    ensures LastTime(start, evs[..|evs| - 1]) <= LastTime(start, evs)
  {
  }

  /** If the last refill was before `from + j * interval`, at most `j + 1` bucketfuls have gone out since `from`. */
  ghost predicate WithinBudget(c: Config, s: Limiter, last: int, from: int, j: nat) {
    && s.lastRefill <= last
    && s.tokens <= c.maxRequests
    && (from > last ==> CountFrom(s.log, from) == 0)
    && (s.lastRefill < from + j * c.intervalMs ==> CountFrom(s.log, from) + s.tokens <= (j + 1) * c.maxRequests)
  }

  lemma {:induction false} Budget(c: Config, strategy: Strategy, start: int, evs: seq<Event>, from: int, j: nat)
    requires c.intervalMs > 0 && Monotone(start, evs)
    ensures WithinBudget(c, Run(c, strategy, start, evs), LastTime(start, evs), from, j)
    decreases |evs|, j
  {
    if evs == [] {
      assert (j + 1) * c.maxRequests == j * c.maxRequests + c.maxRequests;
    } else {
      var prefix := evs[..|evs| - 1];
      MonotonePrefix(start, evs);
      Budget(c, strategy, start, prefix, from, j);
      if j > 0 {
        Budget(c, strategy, start, prefix, from, j - 1);
      }
      BudgetStep(c, strategy, Run(c, strategy, start, prefix), evs[|evs| - 1], LastTime(start, prefix), from, j);
    }
  }

  lemma BudgetStep(c: Config, strategy: Strategy, s: Limiter, e: Event, last: int, from: int, j: nat)
    requires c.intervalMs > 0 && last <= e.now
    requires WithinBudget(c, s, last, from, j)
    requires j > 0 ==> WithinBudget(c, s, last, from, j - 1)
    ensures WithinBudget(c, Step(c, strategy, s, e), e.now, from, j)
  {
    hide Step;
    hide CountFrom;
    var s' := Step(c, strategy, s, e);
    StepBudget(c, strategy, s, e, from);
    Carry(c, s, CountFrom(s.log, from), s', CountFrom(s'.log, from), last, e.now, from, j);
  }

  /** The arithmetic of one step: the bound for j after a refill comes from the bound for j - 1 before it. */
  lemma Carry(c: Config, s: Limiter, count: nat, s': Limiter, count': nat, last: int, now: int, from: int, j: nat)
    requires c.intervalMs > 0 && s.lastRefill <= last <= now && s.tokens <= c.maxRequests
    requires count <= count' && (from > now ==> count' == count) && (from > last ==> count == 0)
    requires
      || (s'.lastRefill == s.lastRefill && count' + s'.tokens <= count + s.tokens)
      || (s'.lastRefill == now >= s.lastRefill + c.intervalMs && count' - count + s'.tokens <= c.maxRequests)
    requires s.lastRefill < from + j * c.intervalMs ==> count + s.tokens <= (j + 1) * c.maxRequests
    requires j > 0 && s.lastRefill < from + (j - 1) * c.intervalMs ==> count + s.tokens <= j * c.maxRequests
    ensures s'.lastRefill < from + j * c.intervalMs ==> count' + s'.tokens <= (j + 1) * c.maxRequests
  {
    assert (j - 1) * c.intervalMs == j * c.intervalMs - c.intervalMs;
    assert (j + 1) * c.maxRequests == j * c.maxRequests + c.maxRequests;
  }

  lemma {:induction false} CountInWithin(log: seq<Execution>, from: int, to: int)
    ensures CountIn(log, from, to) <= CountFrom(log, from)
  {
    if log != [] {
      CountInWithin(log[..|log| - 1], from, to);
    }
  }

  lemma ExecuteLate(s: Limiter, task: nat, now: int, from: int, to: int)
    requires s.tokens > 0 && now >= to
    ensures CountIn(Execute(s, task, now).log, from, to) == CountIn(s.log, from, to)
  {
    var log := Execute(s, task, now).log;
    assert log[..|log| - 1] == s.log;
  }

  lemma {:induction false} DrainLate(s: Limiter, now: int, from: int, to: int)
    requires now >= to
    ensures CountIn(Drain(s, now).log, from, to) == CountIn(s.log, from, to)
    decreases |s.queue|
  {
    if s.tokens > 0 && |s.queue| > 0 {
      ExecuteLate(s.(queue := s.queue[1..]), s.queue[0], now, from, to);
      DrainLate(Execute(s.(queue := s.queue[1..]), s.queue[0], now), now, from, to);
    }
  }

  lemma StepLate(c: Config, strategy: Strategy, s: Limiter, e: Event, from: int, to: int)
    requires e.now >= to
    ensures CountIn(Step(c, strategy, s, e).log, from, to) == CountIn(s.log, from, to)
  {
    hide CountIn;
    hide Drain;
    var now := e.now;
    match (strategy, e)
    case (Queueing, Call(_)) =>
      var r := Refill(c, s.(scheduled := s.scheduled + 1), now);
      if r.tokens > 0 { ExecuteLate(r, s.scheduled, now, from, to); }
    case (Queueing, Timer(_)) =>
      DrainLate(Refill(c, s.(armed := false), now), now, from, to);
    case (Dropping, Call(_)) =>
      var r := if now - s.lastRefill >= c.intervalMs then s.(tokens := c.maxRequests, lastRefill := now) else s;
      if r.tokens > 0 { ExecuteLate(r.(scheduled := s.scheduled + 1), s.scheduled, now, from, to); }
    case _ =>
  }

  /** Any half-open window of k intervals contains at most (k + 1) * maxRequests executions. */
  lemma {:induction false} RateBound(
      c: Config, strategy: Strategy, start: int, evs: seq<Event>, from: int, k: nat)
    requires c.intervalMs > 0 && Monotone(start, evs)
    ensures CountIn(Run(c, strategy, start, evs).log, from, from + k * c.intervalMs) <= (k + 1) * c.maxRequests
    decreases |evs|
  {
    var to := from + k * c.intervalMs;
    if evs != [] && evs[|evs| - 1].now >= to {
      MonotonePrefix(start, evs);
      RateBound(c, strategy, start, evs[..|evs| - 1], from, k);
      StepLate(c, strategy, Run(c, strategy, start, evs[..|evs| - 1]), evs[|evs| - 1], from, to);
    } else if evs != [] {
      Budget(c, strategy, start, evs, from, k);
      CountInWithin(Run(c, strategy, start, evs).log, from, to);
    }
  }

  // -- Order, fairness and conservation of the queue -----------------------------------

  /** The tasks that ran, in the order in which they ran. */
  function Ran(log: seq<Execution>): seq<nat> {
    seq(|log|, i requires 0 <= i < |log| => log[i].task)
  }

  ghost predicate Ascending(s: seq<nat>) { forall i, j :: 0 <= i < j < |s| ==> s[i] < s[j] }

  /** Accepted tasks keep their order; every scheduled task is in exactly one place; a waiting task has a timer. */
  ghost predicate Inv(c: Config, s: Limiter) {
    && |s.queue| <= c.maxQueued
    && (s.queue != [] ==> s.armed)
    && Ascending(Ran(s.log) + s.queue)
    && (forall t: nat :: Places(s, t) == if t < s.scheduled then 1 else 0)
  }

  lemma {:induction false} DrainSpec(s: Limiter, now: int)
    ensures var d := Drain(s, now); var n := Min(s.tokens, |s.queue|);
      && Ran(d.log) == Ran(s.log) + s.queue[..n]
      && d == s.(tokens := s.tokens - n, queue := s.queue[n..], log := d.log)
    decreases |s.queue|
  {
    if s.tokens > 0 && |s.queue| > 0 {
      var next := Execute(s.(queue := s.queue[1..]), s.queue[0], now);
      DrainSpec(next, now);
      var n := Min(s.tokens, |s.queue|);
      assert Ran(next.log) == Ran(s.log) + [s.queue[0]];
      assert [s.queue[0]] + s.queue[1..][..n - 1] == s.queue[..n];
      assert s.queue[1..][n - 1..] == s.queue[n..];
    }
  }

  lemma RefillKeeps(c: Config, s: Limiter, now: int)
    ensures var r := Refill(c, s, now);
      r == s.(tokens := r.tokens, lastRefill := r.lastRefill)
      && (r.lastRefill != s.lastRefill ==> r.tokens == c.maxRequests)
      && (r.lastRefill == s.lastRefill ==> r.tokens == s.tokens || r.tokens == c.maxRequests)
  {
  }

  /** A step moves tasks from the queue into the log, adds the next number somewhere, or rejects the queue. */
  ghost predicate Shape(s: Limiter, s': Limiter) {
    var line, line' := Ran(s.log) + s.queue, Ran(s'.log) + s'.queue;
    || (line' == line && s'.rejected == s.rejected && s'.scheduled == s.scheduled)
    || (line' == line + [s.scheduled] && s'.rejected == s.rejected && s'.scheduled == s.scheduled + 1)
    || (line' == line && s'.rejected == s.rejected + [s.scheduled] && s'.scheduled == s.scheduled + 1)
    || (line == line' + s.queue && s'.rejected == s.rejected + s.queue && s'.scheduled == s.scheduled)
  }

  lemma ScheduleShape(c: Config, s: Limiter, now: int)
    requires |s.queue| <= c.maxQueued && (s.queue != [] ==> s.armed)
    ensures var s' := Schedule(c, s, now);
      |s'.queue| <= c.maxQueued && (s'.queue != [] ==> s'.armed) && Shape(s, s')
  {
    var r := Refill(c, s.(scheduled := s.scheduled + 1), now);
    RefillKeeps(c, s.(scheduled := s.scheduled + 1), now);
    hide Refill;
    var s' := Schedule(c, s, now);
    if r.tokens > 0 && r.queue == [] {
      assert Ran(s'.log) == Ran(s.log) + [s.scheduled];
    }
  }

  lemma TickShape(c: Config, s: Limiter, now: int)
    requires |s.queue| <= c.maxQueued
    ensures var s' := Tick(c, s, now);
      |s'.queue| <= c.maxQueued && (s'.queue != [] ==> s'.armed) && Shape(s, s')
  {
    hide Refill;
    hide Drain;
    hide Ran;
    var r := Refill(c, s.(armed := false), now);
    RefillKeeps(c, s.(armed := false), now);
    DrainSpec(r, now);
    var n := Min(r.tokens, |r.queue|);
    assert s.queue[..n] + s.queue[n..] == s.queue;
  }

  lemma DestroyShape(c: Config, s: Limiter)
    ensures var s' := Destroy(s); s'.queue == [] && Shape(s, s')
  {
  }

  lemma StepShape(c: Config, s: Limiter, e: Event)
    requires Inv(c, s)
    ensures var s' := Step(c, Queueing, s, e);
      |s'.queue| <= c.maxQueued && (s'.queue != [] ==> s'.armed) && Shape(s, s')
  {
    hide Schedule;
    hide Tick;
    hide Destroy;
    hide Places;
    match e
    case Call(now) => ScheduleShape(c, s, now);
    case Timer(now) =>
      if s.armed {
        TickShape(c, s, now);
      }
    case Kill(_) => DestroyShape(c, s);
  }

  /** How often a task is logged, queued or rejected, all told. */
  function Places(s: Limiter, t: nat): nat {
    multiset(Ran(s.log) + s.queue)[t] + multiset(s.rejected)[t]
  }

  lemma ShapePlaces(s: Limiter, s': Limiter, t: nat)
    requires Shape(s, s')
    ensures s.scheduled <= s'.scheduled <= s.scheduled + 1
    ensures Places(s', t) == Places(s, t) + if s.scheduled <= t < s'.scheduled then 1 else 0
  {
    var line, line' := Ran(s.log) + s.queue, Ran(s'.log) + s'.queue;
    CountAppend(line, [s.scheduled], t);
    CountAppend(s.rejected, [s.scheduled], t);
    CountAppend(line', s.queue, t);
    CountAppend(s.rejected, s.queue, t);
  }

  lemma ShapeAscending(s: Limiter, s': Limiter)
    requires Shape(s, s') && Ascending(Ran(s.log) + s.queue)
    requires forall x <- Ran(s.log) + s.queue :: x < s.scheduled
    ensures Ascending(Ran(s'.log) + s'.queue)
  {
    var line, line' := Ran(s.log) + s.queue, Ran(s'.log) + s'.queue;
    assert forall i :: 0 <= i < |line| ==> line[i] in line;
    if line == line' + s.queue {
      assert forall i :: 0 <= i < |line'| ==> line'[i] == line[i];
    }
  }

  lemma PlacedBelow(c: Config, s: Limiter, x: nat)
    requires Inv(c, s) && x in Ran(s.log) + s.queue
    ensures x < s.scheduled
  {
    assert Places(s, x) > 0;
  }

  lemma StepKeepsInv(c: Config, s: Limiter, e: Event)
    requires Inv(c, s)
    ensures Inv(c, Step(c, Queueing, s, e))
  {
    hide Step;
    hide Shape;
    hide Places;
    hide Ascending;
    hide Ran;
    StepShape(c, s, e);
    var s' := Step(c, Queueing, s, e);
    forall x <- Ran(s.log) + s.queue ensures x < s.scheduled {
      PlacedBelow(c, s, x);
    }
    ShapeAscending(s, s');
    forall t: nat ensures Places(s', t) == if t < s'.scheduled then 1 else 0 {
      ShapePlaces(s, s', t);
      assert Places(s, t) == if t < s.scheduled then 1 else 0;
    }
  }

  /**
   * In every run of the queueing limiter: the queue is bounded, a waiting task has an armed
   * timer, tasks run in the order in which they were accepted, and each scheduled task is in
   * exactly one of log, queue and rejections, once.
   */
  lemma {:induction false} QueueingInvariant(c: Config, start: int, evs: seq<Event>)
    ensures Inv(c, Run(c, Queueing, start, evs))
  {
    if evs == [] {
      assert Ran([]) + [] == [];
    } else {
      QueueingInvariant(c, start, evs[..|evs| - 1]);
      StepKeepsInv(c, Run(c, Queueing, start, evs[..|evs| - 1]), evs[|evs| - 1]);
    }
  }

  // -- Fairness ------------------------------------------------------------------------

  function RunFrom(c: Config, s: Limiter, evs: seq<Event>): Limiter {
    if evs == [] then s else Step(c, Queueing, RunFrom(c, s, evs[..|evs| - 1]), evs[|evs| - 1])
  }

  /** Whether the step found the bucket due for a refill. */
  predicate Refills(c: Config, s: Limiter, now: int) {
    now - s.lastRefill > 0 && now - s.lastRefill >= c.intervalMs
  }

  /**
   * How many timer firings so far drained a bucket that had been refilled since the firing
   * before, and whether a refill is waiting for the next firing.
   */
  function Rounds(c: Config, s: Limiter, evs: seq<Event>): (nat, bool) {
    if evs == [] then (0, false)
    else
      var (n, pending) := Rounds(c, s, evs[..|evs| - 1]);
      var before := RunFrom(c, s, evs[..|evs| - 1]);
      match evs[|evs| - 1]
      case Call(now) => (n, pending || Refills(c, before, now))
      case Timer(now) => if pending || Refills(c, before, now) then (n + 1, false) else (n, false)
      case Kill(_) => (n, pending)
  }

  /** The task has run, or it waits at position p, having moved up by a bucketful for every round. */
  ghost predicate Progress(c: Config, s: Limiter, task: nat, p: nat, i: nat, n: nat, pending: bool) {
    || task in Ran(s.log)
    || (&& p < |s.queue| && s.queue[p] == task && p + n * c.maxRequests <= i
        && (pending ==> s.tokens == c.maxRequests))
  }

  lemma CallProgress(c: Config, s: Limiter, now: int, task: nat, p: nat, i: nat, n: nat, pending: bool)
    requires Progress(c, s, task, p, i, n, pending)
    ensures Progress(c, Schedule(c, s, now), task, p, i, n, pending || Refills(c, s, now))
  {
    RefillKeeps(c, s.(scheduled := s.scheduled + 1), now);
    if task in Ran(s.log) {
      var k :| 0 <= k < |Ran(s.log)| && Ran(s.log)[k] == task;
      assert Ran(Schedule(c, s, now).log)[k] == task;
    }
  }

  lemma TickProgress(c: Config, s: Limiter, now: int, task: nat, p: nat, i: nat, n: nat, pending: bool)
    returns (p': nat)
    requires Progress(c, s, task, p, i, n, pending)
    ensures Progress(c, Tick(c, s, now), task, p', i, if pending || Refills(c, s, now) then n + 1 else n, false)
  {
    var r := Refill(c, s.(armed := false), now);
    RefillKeeps(c, s.(armed := false), now);
    DrainSpec(r, now);
    var m := Min(r.tokens, |r.queue|);
    hide Drain;
    p' := if p >= m then p - m else 0;
    if task !in Ran(s.log) {
      if p < m {
        assert s.queue[..m][p] == task;
      } else {
        assert Tick(c, s, now).queue[p - m] == task;
        assert (n + 1) * c.maxRequests == n * c.maxRequests + c.maxRequests;
      }
    }
  }

  lemma {:induction false} ProgressMade(c: Config, s: Limiter, evs: seq<Event>, i: nat) returns (p: nat)
    requires Inv(c, s) && i < |s.queue|
    requires forall e <- evs :: !e.Kill?
    ensures Inv(c, RunFrom(c, s, evs))
    ensures Progress(c, RunFrom(c, s, evs), s.queue[i], p, i, Rounds(c, s, evs).0, Rounds(c, s, evs).1)
    decreases |evs|
  {
    if evs == [] {
      p := i;
    } else {
      var prefix, e := evs[..|evs| - 1], evs[|evs| - 1];
      p := ProgressMade(c, s, prefix, i);
      var (n, pending) := Rounds(c, s, prefix);
      var before := RunFrom(c, s, prefix);
      StepKeepsInv(c, before, e);
      if e.Call? {
        CallProgress(c, before, e.now, s.queue[i], p, i, n, pending);
      } else if before.armed {
        p := TickProgress(c, before, e.now, s.queue[i], p, i, n, pending);
      }
    }
  }

  /** A task at position i has run once ceil((i + 1) / maxRequests) refills were each followed by a firing. */
  lemma NoStarvation(c: Config, s: Limiter, evs: seq<Event>, i: nat)
    requires Inv(c, s) && i < |s.queue|
    requires forall e <- evs :: !e.Kill?
    ensures Rounds(c, s, evs).0 * c.maxRequests >= i + 1 ==> s.queue[i] in Ran(RunFrom(c, s, evs).log)
  {
    var p := ProgressMade(c, s, evs, i);
  }

  // -- What each call does -------------------------------------------------------------------

  /** The tokens a call finds: a bucketful if an interval has passed since the last refill. */
  function Available(c: Config, s: Limiter, now: int): nat {
    if now > s.lastRefill && now - s.lastRefill >= c.intervalMs then c.maxRequests else s.tokens
  }

  /**
   * A call runs its task at once exactly if it finds a token and no one waiting; otherwise the
   * task waits at the end, with the timer armed, exactly if there is room, and else it is rejected.
   */
  lemma CallEffect(c: Config, s: Limiter, now: int)
    ensures var t := Step(c, Queueing, s, Call(now)); var tokens := Available(c, s, now);
      && t.scheduled == s.scheduled + 1
      && if tokens > 0 && s.queue == [] then
           && t.log == s.log + [Execution(s.scheduled, now)] && t.tokens == tokens - 1
           && t.queue == [] && t.rejected == s.rejected && t.armed == s.armed
         else if |s.queue| < c.maxQueued then
           && t.queue == s.queue + [s.scheduled] && t.armed && t.tokens == tokens
           && t.log == s.log && t.rejected == s.rejected
         else t.rejected == s.rejected + [s.scheduled] && t.tokens == tokens && t.log == s.log && t.queue == s.queue
  {
  }

  /** A firing runs as many of the waiting tasks as it finds tokens, in order, and re-arms exactly if some are left. */
  lemma FiringEffect(c: Config, s: Limiter, now: int)
    requires s.armed
    ensures var t := Step(c, Queueing, s, Timer(now)); var n := Min(Available(c, s, now), |s.queue|);
      && |t.log| == |s.log| + n && t.log[..|s.log|] == s.log
      && (forall i :: 0 <= i < n ==> t.log[|s.log| + i] == Execution(s.queue[i], now))
      && t.queue == s.queue[n..] && t.tokens == Available(c, s, now) - n
      && (t.armed <==> t.queue != []) && t.rejected == s.rejected
  {
    hide Drain;
    var r := Refill(c, s.(armed := false), now);
    DrainSpec(r, now);
    DrainTimes(r, now);
  }

  lemma {:induction false} DrainTimes(s: Limiter, now: int)
    ensures var d := Drain(s, now); var n := Min(s.tokens, |s.queue|);
      && |d.log| == |s.log| + n && d.log[..|s.log|] == s.log
      && (forall i :: 0 <= i < n ==> d.log[|s.log| + i] == Execution(s.queue[i], now))
    decreases |s.queue|
  {
    if s.tokens > 0 && |s.queue| > 0 {
      var next := Execute(s.(queue := s.queue[1..]), s.queue[0], now);
      DrainTimes(next, now);
      var d, n := Drain(s, now), Min(s.tokens, |s.queue|);
      assert d.log[..|s.log|] == d.log[..|next.log|][..|s.log|] == s.log;
      forall i | 0 <= i < n ensures d.log[|s.log| + i] == Execution(s.queue[i], now) {
        if i == 0 {
          assert d.log[..|next.log|][|s.log|] == Execution(s.queue[0], now);
        } else {
          assert d.log[|next.log| + (i - 1)] == Execution(next.queue[i - 1], now);
        }
      }
    }
  }

  /** A fresh limiter runs a bucketful of calls at once, whichever the strategy. */
  lemma {:induction false} FirstCallsRun(c: Config, strategy: Strategy, start: int, evs: seq<Event>)
    requires |evs| <= c.maxRequests
    requires forall e <- evs :: e.Call? && start <= e.now < start + c.intervalMs
    ensures var s := Run(c, strategy, start, evs);
      && |s.log| == |evs| && s.rejected == [] && s.queue == []
      && (forall i :: 0 <= i < |evs| ==> s.log[i] == Execution(i, evs[i].now))
      && s.scheduled == |evs| && s.tokens == c.maxRequests - |evs| && s.lastRefill == start
  {
    if evs != [] {
      var n := |evs| - 1;
      assert evs[n] in evs;
      FirstCallsRun(c, strategy, start, evs[..n]);
    }
  }

  /** Destroying rejects every waiting task, in order, and disarms the timer; a stray firing does nothing. */
  lemma DestroyEffect(c: Config, s: Limiter, now: int)
    ensures var t := Step(c, Queueing, s, Kill(now));
      && t.rejected == s.rejected + s.queue && t.queue == [] && !t.armed && t.log == s.log
      && Step(c, Queueing, t, Timer(now)) == t
  {
  }

  /** The dropping strategy runs a task exactly if it finds a token, and rejects it otherwise. */
  lemma DropCallEffect(c: Config, s: Limiter, now: int)
    requires c.intervalMs > 0
    ensures var t := Step(c, Dropping, s, Call(now)); var tokens := Available(c, s, now);
      if tokens > 0 then
        t.log == s.log + [Execution(s.scheduled, now)] && t.tokens == tokens - 1 && t.rejected == s.rejected
      else t.log == s.log && t.tokens == 0 && t.rejected == s.rejected + [s.scheduled]
  {
  }

  // -- The two limiter objects -----------------------------------------------------------

  class QueueLimiter {
    const config: Config
    var remainingTokens: nat
    var lastRefillTimestamp: int
    var queue: seq<nat>
    var timerArmed: bool
    var log: seq<Execution>
    var rejected: seq<nat>
    var scheduled: nat

    function View(): Limiter
      reads this
    {
      Limiter(remainingTokens, lastRefillTimestamp, queue, timerArmed, log, rejected, scheduled)
    }

    constructor (config: Config, now: int)
      ensures this.config == config && View() == Initial(config, now)
    {
      this.config := config;
      remainingTokens, lastRefillTimestamp, queue, timerArmed := config.maxRequests, now, [], false;
      log, rejected, scheduled := [], [], 0;
    }

    method RefillTokens(now: int)
      modifies this
      ensures View() == Refill(config, old(View()), now)
    {
      var elapsed := now - lastRefillTimestamp;
      if elapsed <= 0 { return; }
      if elapsed >= config.intervalMs {
        remainingTokens := config.maxRequests;
        lastRefillTimestamp := now;
      }
    }

    method ProcessQueue(now: int)
      modifies this
      ensures View() == Tick(config, old(View()), now)
    {
      timerArmed := false;
      RefillTokens(now);
      ghost var drained := Drain(View(), now);
      while remainingTokens > 0 && |queue| > 0
        invariant Drain(View(), now) == drained && !timerArmed
        decreases |queue|
      {
        var task := queue[0];
        queue := queue[1..];
        remainingTokens := remainingTokens - 1;
        log := log + [Execution(task, now)];
      }
      if |queue| > 0 {
        timerArmed := true;
      }
    }

    method ScheduleTask(now: int)
      modifies this
      ensures View() == Schedule(config, old(View()), now)
      ensures Ran(log) + queue == Ran(old(log)) + old(queue) + [old(scheduled)]
           || (Ran(log) + queue == Ran(old(log)) + old(queue) && rejected == old(rejected) + [old(scheduled)])
    {
      var task := scheduled;
      scheduled := scheduled + 1;
      RefillTokens(now);
      if remainingTokens > 0 && |queue| == 0 {
        remainingTokens := remainingTokens - 1;
        log := log + [Execution(task, now)];
        return;
      }
      if |queue| >= config.maxQueued {
        rejected := rejected + [task];
        return;
      }
      queue := queue + [task];
      if !timerArmed {
        timerArmed := true;
      }
    }

    method DestroyQueue()
      modifies this
      ensures View() == Destroy(old(View()))
    {
      if timerArmed {
        timerArmed := false;
      }
      ghost var q := queue;
      while |queue| > 0
        invariant View() == old(View()).(armed := false, queue := queue, rejected := rejected)
        invariant rejected + queue == old(rejected) + q
        decreases |queue|
      {
        rejected := rejected + [queue[0]];
        queue := queue[1..];
      }
    }
  }

  class DropLimiter {
    const config: Config
    var remainingTokens: nat
    var lastRefillTimestamp: int
    var log: seq<Execution>
    var rejected: seq<nat>
    var scheduled: nat

    function View(): Limiter
      reads this
    {
      Limiter(remainingTokens, lastRefillTimestamp, [], false, log, rejected, scheduled)
    }

    constructor (config: Config, now: int)
      ensures this.config == config && View() == Initial(config, now)
    {
      this.config := config;
      remainingTokens, lastRefillTimestamp := config.maxRequests, now;
      log, rejected, scheduled := [], [], 0;
    }

    method ScheduleTask(now: int)
      modifies this
      ensures View() == ScheduleOrDrop(config, old(View()), now)
      ensures (log == old(log) + [Execution(old(scheduled), now)] && rejected == old(rejected))
           || (log == old(log) && rejected == old(rejected) + [old(scheduled)])
      ensures log == old(log) ==> remainingTokens == 0 && (config.maxRequests > 0 ==> now - lastRefillTimestamp < config.intervalMs)
    {
      var task := scheduled;
      scheduled := scheduled + 1;
      if now - lastRefillTimestamp >= config.intervalMs {
        remainingTokens := config.maxRequests;
        lastRefillTimestamp := now;
      }
      if remainingTokens > 0 {
        remainingTokens := remainingTokens - 1;
        log := log + [Execution(task, now)];
      } else {
        rejected := rejected + [task];
      }
    }
  }
}
