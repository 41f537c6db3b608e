/**
 * The producing end of a subscription method: `handleSubscription`. Every started
 * subscription is cleaned up exactly once, by whatever ends it first.
 *
 * A handler invocation is numbered; `cleaned` records which invocations' cleanups have run,
 * `out` what was posted to the other end. Handlers and cleanups do not re-enter the transport
 * on behalf of other invocations.
 */
module TransportProducer {
  import opened Common

  type Value = nat

  /** Stands for method and payload of a subscription: what the handler is invoked with. */
  type Key = nat

  datatype Down = Receive(id: nat, value: Value) | Interrupted(id: nat)

  /** One invocation of the handler: its id, what it was invoked with, and the flag its `interrupt` callback guards. */
  datatype Invocation = Invocation(id: nat, key: Key, interrupted: bool)

  /** What a handler can call, during its invocation or later. */
  datatype Call = Send(value: Value) | Interrupt

  datatype State = State(
    registered: bool,
    invocations: seq<Invocation>,
    live: map<nat, nat>,
    cleaned: seq<nat>,
    out: seq<Down>)

  const Initial := State(true, [], map[], [], [])

  function InterruptCall(p: State, n: nat): (r: State)
    requires n < |p.invocations|
    ensures |r.invocations| == |p.invocations|
  {
    var id := p.invocations[n].id;
    if p.invocations[n].interrupted then p
    else
      var t := p.(invocations := p.invocations[n := p.invocations[n].(interrupted := true)]);
      var t := if id in t.live then t.(live := t.live - {id}, cleaned := t.cleaned + [t.live[id]]) else t;
      t.(out := t.out + [Interrupted(id)])
  }

  /** `send` is not guarded: it posts even after the subscription has ended. */
  function Perform(p: State, n: nat, call: Call): (r: State)
    requires n < |p.invocations|
    ensures |r.invocations| == |p.invocations|
  {
    match call
    case Send(v) => p.(out := p.out + [Receive(p.invocations[n].id, v)])
    case Interrupt => InterruptCall(p, n)
  }

  function PerformAll(p: State, n: nat, calls: seq<Call>): (r: State)
    requires n < |p.invocations|
    ensures |r.invocations| == |p.invocations|
  {
    if calls == [] then p
    else Perform(PerformAll(p, n, calls[..|calls| - 1]), n, calls[|calls| - 1])
  }

  /** `script` is what the handler calls before it returns its cleanup. */
  function OnStart(p: State, id: nat, key: Key, script: seq<Call>): State {
    if !p.registered then p.(out := p.out + [Interrupted(id)])
    else if id in p.live then p
    else
      var n := |p.invocations|;
      var t := PerformAll(p.(invocations := p.invocations + [Invocation(id, key, false)]), n, script);
      if t.invocations[n].interrupted then t.(cleaned := t.cleaned + [n]) else t.(live := t.live[id := n])
  }

  function OnStop(p: State, id: nat): State {
    if id in p.live then p.(cleaned := p.cleaned + [p.live[id]], live := p.live - {id}) else p
  }

  /** The live invocations among the first k, oldest first: the order of insertion into the map. */
  function LiveInOrder(p: State, k: nat): seq<nat>
    requires k <= |p.invocations|
  {
    if k == 0 then []
    else LiveInOrder(p, k - 1) + if Get(p.live, p.invocations[k - 1].id) == Some(k - 1) then [k - 1] else []
  }

  function Get<K, V>(m: map<K, V>, k: K): Option<V> { if k in m then Some(m[k]) else None }

  function Unregister(p: State): State {
    p.(cleaned := p.cleaned + LiveInOrder(p, |p.invocations|), live := map[], registered := false)
  }

  datatype Event =
    | StartMessage(id: nat, key: Key, script: seq<Call>)
    | StopMessage(id: nat)
    | Calls(n: nat, call: Call)
    | Unregistration

  function Step(p: State, e: Event): State {
    match e
    case StartMessage(id, key, script) => OnStart(p, id, key, script)
    case StopMessage(id) => OnStop(p, id)
    case Calls(n, call) => if n < |p.invocations| then Perform(p, n, call) else p
    case Unregistration => Unregister(p)
  }

  function Run(evs: seq<Event>): State {
    if evs == [] then Initial else Step(Run(evs[..|evs| - 1]), evs[|evs| - 1])
  }

  // -- Exactly once ---------------------------------------------------------------------------

  ghost predicate IsLive(p: State, n: nat) {
    n < |p.invocations| && Get(p.live, p.invocations[n].id) == Some(n)
  }

  /** Every started invocation is live and not cleaned up, or cleaned up once; live ones are not interrupted. */
  ghost predicate Accounted(p: State) {
    && (forall id <- p.live :: p.live[id] < |p.invocations| && p.invocations[p.live[id]].id == id && !p.invocations[p.live[id]].interrupted)
    && (forall n: nat :: Count(p.cleaned, n) == if n < |p.invocations| && !IsLive(p, n) then 1 else 0)
    && (!p.registered ==> p.live == map[])
  }

  /** The event ends the invocation: a stop, an interrupt under its id, or the handler's removal. */
  ghost predicate Ends(p: State, e: Event, n: nat)
    requires n < |p.invocations|
  {
    match e
    case StopMessage(id) => id == p.invocations[n].id
    case Calls(m, Interrupt) =>
      m == n ||
      (m < |p.invocations| && p.invocations[m].id == p.invocations[n].id && !p.invocations[m].interrupted)
    case Unregistration => true
    case _ => false
  }

  /** The invocation interrupted itself before it returned, or an event has ended it since. */
  ghost predicate Ended(evs: seq<Event>, n: nat) {
    evs != [] &&
    var before, e := evs[..|evs| - 1], evs[|evs| - 1];
    if n < |Run(before).invocations| then Ended(before, n) || Ends(Run(before), e, n)
    else n < |Run(evs).invocations| && e.StartMessage? && Interrupt in e.script
  }

  lemma {:induction false} ScriptEffect(p: State, n: nat, calls: seq<Call>)
    requires n < |p.invocations| && p.invocations[n].id !in p.live && !p.invocations[n].interrupted
    ensures var r := PerformAll(p, n, calls);
      r == p.(invocations := p.invocations[n := p.invocations[n].(interrupted := Interrupt in calls)], out := r.out)
  {
    if calls != [] {
      var last := calls[|calls| - 1];
      ScriptEffect(p, n, calls[..|calls| - 1]);
      assert calls == calls[..|calls| - 1] + [last];
    }
  }

  lemma CleanOne(cleaned: seq<nat>, n: nat, m: nat)
    ensures Count(cleaned + [n], m) == Count(cleaned, m) + if n == m then 1 else 0
  {
    CountConcat(cleaned, [n], m);
    CountOne(n, m);
  }

  lemma StartAccounted(p: State, id: nat, key: Key, script: seq<Call>)
    requires Accounted(p)
    ensures var p' := OnStart(p, id, key, script); var n := |p.invocations|;
      && Accounted(p') && (p'.invocations == p.invocations || |p'.invocations| == n + 1)
      && (|p'.invocations| == n + 1 ==> IsLive(p', n) == (Interrupt !in script))
      && (forall m: nat | m < n :: IsLive(p', m) == IsLive(p, m))
  {
    if p.registered && id !in p.live {
      var n := |p.invocations|;
      var t := p.(invocations := p.invocations + [Invocation(id, key, false)]);
      ScriptEffect(t, n, script);
      var p' := OnStart(p, id, key, script);
      forall m: nat ensures Count(p'.cleaned, m) == if m < |p'.invocations| && !IsLive(p', m) then 1 else 0 {
        CleanOne(p.cleaned, n, m);
        assert m < n ==> IsLive(p', m) == IsLive(p, m);
      }
    }
  }

  lemma InterruptAccounted(p: State, n: nat)
    requires Accounted(p) && n < |p.invocations|
    ensures var p' := InterruptCall(p, n);
      && Accounted(p') && |p'.invocations| == |p.invocations|
      && (forall m: nat | m < |p.invocations| :: IsLive(p', m) == (IsLive(p, m) && !Ends(p, Calls(n, Interrupt), m)))
  {
    if !p.invocations[n].interrupted {
      var p' := InterruptCall(p, n);
      var id := p.invocations[n].id;
      forall m: nat | m < |p.invocations| ensures IsLive(p', m) == (IsLive(p, m) && p.invocations[m].id != id) {
      }
      forall m: nat ensures Count(p'.cleaned, m) == if m < |p'.invocations| && !IsLive(p', m) then 1 else 0 {
        if id in p.live {
          CleanOne(p.cleaned, p.live[id], m);
        }
      }
    }
  }

  lemma StopAccounted(p: State, id: nat)
    requires Accounted(p)
    ensures Accounted(OnStop(p, id)) && OnStop(p, id).invocations == p.invocations
    ensures forall m: nat | m < |p.invocations| ::
      IsLive(OnStop(p, id), m) == (IsLive(p, m) && !Ends(p, StopMessage(id), m))
  {
    var p' := OnStop(p, id);
    if id in p.live {
      forall m: nat ensures Count(p'.cleaned, m) == if m < |p'.invocations| && !IsLive(p', m) then 1 else 0 {
        CleanOne(p.cleaned, p.live[id], m);
      }
    }
  }

  lemma {:induction false} LiveInOrderCounts(p: State, k: nat, n: nat)
    requires k <= |p.invocations|
    ensures Count(LiveInOrder(p, k), n) == if n < k && IsLive(p, n) then 1 else 0
  {
    if k > 0 {
      LiveInOrderCounts(p, k - 1, n);
      CleanOne(LiveInOrder(p, k - 1), k - 1, n);
      assert LiveInOrder(p, k - 1) + [] == LiveInOrder(p, k - 1);
    }
  }

  lemma UnregisterAccounted(p: State)
    requires Accounted(p)
    ensures Accounted(Unregister(p)) && forall m: nat :: !IsLive(Unregister(p), m)
  {
    var p' := Unregister(p);
    forall m: nat ensures Count(p'.cleaned, m) == if m < |p'.invocations| && !IsLive(p', m) then 1 else 0 {
      LiveInOrderCounts(p, |p.invocations|, m);
      CountConcat(p.cleaned, LiveInOrder(p, |p.invocations|), m);
    }
  }

  lemma StepAccounted(p: State, e: Event)
    requires Accounted(p)
    ensures var p' := Step(p, e);
      && Accounted(p') && |p'.invocations| >= |p.invocations|
      && (forall m: nat | m < |p.invocations| :: IsLive(p', m) == (IsLive(p, m) && !Ends(p, e, m)))
      && (forall m: nat | |p.invocations| <= m < |p'.invocations| ::
            e.StartMessage? && IsLive(p', m) == (Interrupt !in e.script))
  {
    match e
    case StartMessage(id, key, script) => StartAccounted(p, id, key, script);
    case StopMessage(id) => StopAccounted(p, id);
    case Calls(n, call) =>
      if n < |p.invocations| && call.Interrupt? {
        InterruptAccounted(p, n);
      }
    case Unregistration => UnregisterAccounted(p);
  }

  lemma {:induction false} RunAccounted(evs: seq<Event>, n: nat)
    ensures Accounted(Run(evs)) && (n < |Run(evs).invocations| ==> IsLive(Run(evs), n) == !Ended(evs, n))
  {
    if evs != [] {
      RunAccounted(evs[..|evs| - 1], n);
      StepAccounted(Run(evs[..|evs| - 1]), evs[|evs| - 1]);
    }
  }

  /**
   * In every run, reused ids included: a started subscription's cleanup has run exactly once
   * if something has ended it, and has not run otherwise.
   */
  lemma CleanupExactlyOnce(evs: seq<Event>, n: nat)
    requires n < |Run(evs).invocations|
    ensures Count(Run(evs).cleaned, n) == if Ended(evs, n) then 1 else 0
  {
    RunAccounted(evs, n);
  }

  // -- Interrupts are posted once ------------------------------------------------------------------

  /** The invocation has called its `interrupt`, before it returned or since. */
  ghost predicate InterruptCalled(evs: seq<Event>, n: nat) {
    evs != [] &&
    var before, e := evs[..|evs| - 1], evs[|evs| - 1];
    if n < |Run(before).invocations| then InterruptCalled(before, n) || e == Calls(n, Interrupt)
    else n < |Run(evs).invocations| && e.StartMessage? && Interrupt in e.script
  }

  /** How often a start for the id found no handler. */
  function Refused(evs: seq<Event>, id: nat): nat {
    if evs == [] then 0
    else
      var before, e := evs[..|evs| - 1], evs[|evs| - 1];
      Refused(before, id) + if e.StartMessage? && e.id == id && !Run(before).registered then 1 else 0
  }

  function Interrupting(invocations: seq<Invocation>, id: nat): nat {
    if invocations == [] then 0
    else
      var last := invocations[|invocations| - 1];
      Interrupting(invocations[..|invocations| - 1], id) + if last.id == id && last.interrupted then 1 else 0
  }

  lemma {:induction false} InterruptingUpdate(invocations: seq<Invocation>, n: nat, id: nat)
    requires n < |invocations| && !invocations[n].interrupted
    ensures Interrupting(invocations[n := invocations[n].(interrupted := true)], id)
         == Interrupting(invocations, id) + if invocations[n].id == id then 1 else 0
  {
    var k := |invocations| - 1;
    var flagged := invocations[n := invocations[n].(interrupted := true)];
    if n == k {
      assert flagged[..k] == invocations[..k];
    } else {
      InterruptingUpdate(invocations[..k], n, id);
      assert flagged[..k] == invocations[..k][n := invocations[n].(interrupted := true)];
    }
  }

  lemma InterruptingSnoc(invocations: seq<Invocation>, i: Invocation, id: nat)
    ensures Interrupting(invocations + [i], id) == Interrupting(invocations, id) + if i.id == id && i.interrupted then 1 else 0
  {
    assert (invocations + [i])[..|invocations|] == invocations;
  }

  /** Interrupts posted for the id, beyond those of the invocations that have called it. */
  function Surplus(p: State, id: nat): int { Count(p.out, Interrupted(id)) - Interrupting(p.invocations, id) }

  lemma PerformSurplus(p: State, n: nat, call: Call, id: nat)
    requires n < |p.invocations|
    ensures Surplus(Perform(p, n, call), id) == Surplus(p, id)
  {
    var m := if call.Send? then Receive(p.invocations[n].id, call.value) else Interrupted(p.invocations[n].id);
    CountConcat(p.out, [m], Interrupted(id));
    CountOne(m, Interrupted(id));
    if call.Interrupt? && !p.invocations[n].interrupted {
      InterruptingUpdate(p.invocations, n, id);
    }
  }

  lemma {:induction false} PerformAllSurplus(p: State, n: nat, calls: seq<Call>, id: nat)
    requires n < |p.invocations|
    ensures Surplus(PerformAll(p, n, calls), id) == Surplus(p, id)
  {
    hide Surplus;
    hide Perform;
    if calls != [] {
      PerformAllSurplus(p, n, calls[..|calls| - 1], id);
      PerformSurplus(PerformAll(p, n, calls[..|calls| - 1]), n, calls[|calls| - 1], id);
    }
  }

  lemma StepSurplus(p: State, e: Event, id: nat)
    ensures Surplus(Step(p, e), id)
         == Surplus(p, id) + if e.StartMessage? && e.id == id && !p.registered then 1 else 0
  {
    hide Perform;
    hide PerformAll;
    match e
    case StartMessage(i, key, script) =>
      if !p.registered {
        CountConcat(p.out, [Interrupted(i)], Interrupted(id));
        CountOne(Interrupted(i), Interrupted(id));
      } else if i !in p.live {
        var t := p.(invocations := p.invocations + [Invocation(i, key, false)]);
        InterruptingSnoc(p.invocations, Invocation(i, key, false), id);
        PerformAllSurplus(t, |p.invocations|, script, id);
      }
    case Calls(n, call) =>
      if n < |p.invocations| {
        PerformSurplus(p, n, call, id);
      }
    case _ =>
  }

  /**
   * In every run exactly as many interrupts are posted for an id as invocations under it have
   * called `interrupt`, however often, and starts for it have found no handler.
   */
  lemma {:induction false} InterruptsPostedOnce(evs: seq<Event>, id: nat)
    ensures Count(Run(evs).out, Interrupted(id)) == Interrupting(Run(evs).invocations, id) + Refused(evs, id)
  {
    hide Step;
    if evs != [] {
      InterruptsPostedOnce(evs[..|evs| - 1], id);
      StepSurplus(Run(evs[..|evs| - 1]), evs[|evs| - 1], id);
    }
  }

  lemma StepFlags(p: State, e: Event, n: nat)
    requires Accounted(p) && n < |Step(p, e).invocations|
    ensures Step(p, e).invocations[n].interrupted ==
      if n < |p.invocations| then p.invocations[n].interrupted || e == Calls(n, Interrupt)
      else e.StartMessage? && Interrupt in e.script
    ensures |Step(p, e).invocations| >= |p.invocations|
  {
    if e.StartMessage? && p.registered && e.id !in p.live {
      ScriptEffect(p.(invocations := p.invocations + [Invocation(e.id, e.key, false)]), |p.invocations|, e.script);
    }
  }

  /** An invocation counts as interrupted exactly if it has called its `interrupt`. */
  lemma {:induction false} InterruptedIffCalled(evs: seq<Event>, n: nat)
    requires n < |Run(evs).invocations|
    ensures Run(evs).invocations[n].interrupted <==> InterruptCalled(evs, n)
  {
    hide Step;
    hide Accounted;
    var before := evs[..|evs| - 1];
    RunAccounted(before, n);
    StepFlags(Run(before), evs[|evs| - 1], n);
    if n < |Run(before).invocations| {
      InterruptedIffCalled(before, n);
    }
  }

  // -- The handler registration as an object ---------------------------------------------------

  class SubscriptionHandler {
    var registered: bool
    var invocations: seq<Invocation>
    var subscriptions: map<nat, nat>
    var cleaned: seq<nat>
    var out: seq<Down>

    ghost function Value(): State
      reads this
    {
      State(registered, invocations, subscriptions, cleaned, out)
    }

    constructor ()
      ensures Value() == Initial
    {
      registered, invocations, subscriptions, cleaned, out := true, [], map[], [], [];
    }

    method CallInterrupt(n: nat)
      requires n < |invocations|
      modifies this
      ensures Value() == InterruptCall(old(Value()), n)
    {
      if invocations[n].interrupted {
        return;
      }
      var id := invocations[n].id;
      invocations := invocations[n := invocations[n].(interrupted := true)];
      if id in subscriptions {
        var stored := subscriptions[id];
        subscriptions := subscriptions - {id};
        cleaned := cleaned + [stored];
      }
      out := out + [Interrupted(id)];
    }

    method OnStartMessage(id: nat, key: Key, script: seq<Call>)
      modifies this
      ensures Value() == OnStart(old(Value()), id, key, script)
    {
      if !registered {
        out := out + [Interrupted(id)];
        return;
      }
      if id in subscriptions {
        return;
      }
      var n := |invocations|;
      invocations := invocations + [Invocation(id, key, false)];
      ghost var started := Value();
      for i := 0 to |script|
        invariant |invocations| == n + 1
        invariant Value() == PerformAll(started, n, script[..i])
      {
        match script[i] {
          case Send(v) => out := out + [Receive(invocations[n].id, v)];
          case Interrupt => CallInterrupt(n);
        }
        assert script[..i + 1][..i] == script[..i];
      }
      assert script[..|script|] == script;
      if invocations[n].interrupted {
        cleaned := cleaned + [n];
      } else {
        subscriptions := subscriptions[id := n];
      }
    }

    method OnStopMessage(id: nat)
      modifies this
      ensures Value() == OnStop(old(Value()), id)
    {
      if id in subscriptions {
        cleaned := cleaned + [subscriptions[id]];
      }
      subscriptions := subscriptions - {id};
    }

    method Remove()
      modifies this
      ensures Value() == Unregister(old(Value()))
    {
      ghost var before := Value();
      for n := 0 to |invocations|
        invariant Value() == before.(cleaned := before.cleaned + LiveInOrder(before, n))
      {
        if invocations[n].id in subscriptions && subscriptions[invocations[n].id] == n {
          cleaned := cleaned + [n];
        }
      }
      subscriptions := map[];
      registered := false;
    }
  }
}
