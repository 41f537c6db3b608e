/**
 * A consuming and a producing transport joined by two FIFO channels: their subscriptions
 * agree, whatever the interleaving of subscribing, unsubscribing, sending, interrupting and
 * delivery, and whether or not the handler has been registered yet.
 */
module TransportPair {
  import opened Common
  import opened P = TransportProducer
  import opened TransportConsumer

  /** Of each side's posts, how many the other side has read: the rest is in the channel. */
  datatype Pair = Pair(c: Consumer, p: P.State, up: nat, down: nat)

  const Fresh := Pair(Consumer(map[], 0, []), P.Initial.(registered := false), 0, 0)

  datatype Move =
    | Joins(key: Key, callback: nat)
    | Leaves(key: Key, callback: nat)
    | Registers
    | Performs(n: nat, call: Call)
    | ReadUp(script: seq<Call>)
    | ReadDown

  function OnUp(p: P.State, m: Up, script: seq<Call>): P.State {
    match m
    case Start(id, key) => OnStart(p, id, key, script)
    case Stop(id) => OnStop(p, id)
  }

  function PairStep(s: Pair, move: Move): Pair {
    match move
    case Joins(key, callback) => s.(c := Subscribe(s.c, key, callback))
    case Leaves(key, callback) => s.(c := Unsubscribe(s.c, key, callback))
    case Registers => s.(p := s.p.(registered := true))
    case Performs(n, call) => if n < |s.p.invocations| then s.(p := Perform(s.p, n, call)) else s
    case ReadUp(script) =>
      if s.up < |s.c.out| then s.(p := OnUp(s.p, s.c.out[s.up], script), up := s.up + 1) else s
    case ReadDown =>
      if s.down < |s.p.out| then s.(c := OnMessage(s.c, s.p.out[s.down]), down := s.down + 1) else s
  }

  function PairRun(moves: seq<Move>): Pair {
    if moves == [] then Fresh else PairStep(PairRun(moves[..|moves| - 1]), moves[|moves| - 1])
  }

  /** What is in a channel: all that was posted after what was read. */
  function Unread<T>(out: seq<T>, read: nat): seq<T> { out[Min(read, |out|)..] }

  /** The values among some messages that belong to an id. */
  function Values(out: seq<Down>, id: nat): seq<Value> {
    if out == [] then []
    else
      Values(out[..|out| - 1], id) +
      match out[|out| - 1]
      case Receive(i, v) => if i == id then [v] else []
      case Interrupted(_) => []
  }

  lemma ValuesSnoc(out: seq<Down>, m: Down, id: nat)
    ensures Values(out + [m], id) == Values(out, id) + if m.Receive? && m.id == id then [m.value] else []
  {
    assert (out + [m])[..|out|] == out;
  }

  // -- What the producer has made of the messages it has read ---------------------------------------

  /**
   * `read` are the messages the producer has handled. It posts only about ids that were
   * started; an id that was started and not stopped is live, or an interrupt for it was
   * posted, but not both; a stopped id is not live.
   */
  ghost predicate Producing(p: P.State, read: seq<Up>) {
    && (forall n :: 0 <= n < |p.invocations| ==>
          Opened(read, p.invocations[n].id) && Start(p.invocations[n].id, p.invocations[n].key) in read)
    && (forall i :: 0 <= i < |p.out| ==> Opened(read, p.out[i].id))
    && (forall id <- p.live :: Opened(read, id) && Stop(id) !in read && Interrupted(id) !in p.out)
    && (forall id: nat | Opened(read, id) && Stop(id) !in read :: id in p.live || Interrupted(id) in p.out)
    && (!p.registered ==> p.invocations == [] && p.live == map[])
  }

  /** The ids under which something was posted go no further than those started. */
  lemma PerformProducing(p: P.State, n: nat, call: Call, read: seq<Up>)
    requires Accounted(p) && Producing(p, read) && n < |p.invocations|
    ensures var p' := Perform(p, n, call);
      Producing(p', read) && |p'.out| >= |p.out| && p'.out[..|p.out|] == p.out
  {
    var p' := Perform(p, n, call);
    var id := p.invocations[n].id;
    if p'.out != p.out {
      assert p'.out == p.out + [p'.out[|p.out|]];
    }
  }

  lemma {:induction false} ScriptOut(p: P.State, n: nat, calls: seq<Call>)
    requires n < |p.invocations| && p.invocations[n].id !in p.live && !p.invocations[n].interrupted
    ensures var out := PerformAll(p, n, calls).out; var id := p.invocations[n].id;
      && |p.out| <= |out| && out[..|p.out|] == p.out
      && (forall i :: |p.out| <= i < |out| ==> out[i].id == id)
      && (forall other: nat :: Interrupted(other) in out <==>
            Interrupted(other) in p.out || (other == id && Interrupt in calls))
  {
    if calls != [] {
      var init, last := calls[..|calls| - 1], calls[|calls| - 1];
      ScriptOut(p, n, init);
      ScriptEffect(p, n, init);
      assert calls == init + [last];
      var t := PerformAll(p, n, init);
      var out := PerformAll(p, n, calls).out;
      if out != t.out {
        assert out == t.out + [out[|t.out|]];
      }
    }
  }

  lemma StartProducing(p: P.State, id: nat, key: Key, script: seq<Call>, read: seq<Up>)
    requires Accounted(p) && Producing(p, read) && !Opened(read, id) && Stop(id) !in read
    ensures var p' := OnStart(p, id, key, script);
      Producing(p', read + [Start(id, key)]) && |p'.out| >= |p.out| && p'.out[..|p.out|] == p.out
  {
    var p' := OnStart(p, id, key, script);
    forall other: nat ensures Opened(read + [Start(id, key)], other) <==> Opened(read, other) || other == id {
      OpenedAppend(read, Start(id, key), other);
    }
    if p.registered {
      var n := |p.invocations|;
      var t := p.(invocations := p.invocations + [Invocation(id, key, false)]);
      assert id !in p.live;
      ScriptEffect(t, n, script);
      ScriptOut(t, n, script);
      forall i | 0 <= i < |p'.out| ensures p'.out[i].id == id || Opened(read, p'.out[i].id) {
        if i < |p.out| {
          assert p'.out[i] == p.out[i];
        }
      }
      assert Interrupted(id) !in p.out;
    }
  }

  lemma StopProducing(p: P.State, id: nat, read: seq<Up>)
    requires Accounted(p) && Producing(p, read)
    ensures Producing(OnStop(p, id), read + [Stop(id)]) && OnStop(p, id).out == p.out
  {
    forall other: nat ensures Opened(read + [Stop(id)], other) <==> Opened(read, other) {
      OpenedAppend(read, Stop(id), other);
    }
  }

  // -- What the consumer has made of the messages it has read ----------------------------------------

  /**
   * An active subscription is interrupted exactly if it has read an interrupt; until then it
   * has received every value read under its id, and afterwards an initial part of them.
   */
  ghost predicate Reflects(sub: Sub, read: seq<Down>) {
    && (sub.interrupted <==> Interrupted(sub.id) in read)
    && sub.received <= Values(read, sub.id)
    && (!sub.interrupted ==> sub.received == Values(read, sub.id))
  }

  ghost predicate Consuming(c: Consumer, read: seq<Down>) {
    forall key <- c.subs :: Reflects(c.subs[key], read)
  }

  lemma HandleReflects(sub: Sub, read: seq<Down>, m: Down)
    requires Reflects(sub, read)
    ensures Reflects(Handle(sub, m), read + [m])
  {
    ValuesSnoc(read, m, sub.id);
  }

  /** Nothing was read under an id before it was handed out. */
  lemma {:induction false} NothingYet(read: seq<Down>, id: nat)
    requires forall i :: 0 <= i < |read| ==> read[i].id < id
    ensures Values(read, id) == [] && Interrupted(id) !in read
  {
    if read != [] {
      NothingYet(read[..|read| - 1], id);
    }
  }

  // -- The pair ------------------------------------------------------------------------------------------

  ghost predicate PairInv(s: Pair) {
    && s.up <= |s.c.out| && s.down <= |s.p.out|
    && Shared(s.c) && Accounted(s.p)
    && Producing(s.p, s.c.out[..s.up])
    && Consuming(s.c, s.p.out[..s.down])
  }

  /** Every id the producer has posted under was handed out by the consumer. */
  lemma PostedIdsKnown(s: Pair)
    requires PairInv(s)
    ensures forall i :: 0 <= i < |s.p.out| ==> s.p.out[i].id < s.c.nextId
  {
    forall i | 0 <= i < |s.p.out| ensures s.p.out[i].id < s.c.nextId {
      var read := s.c.out[..s.up];
      assert Opened(read, s.p.out[i].id);
      var j :| 0 <= j < |read| && read[j].Start? && read[j].id == s.p.out[i].id;
      assert s.c.out[j] == read[j];
    }
  }

  lemma JoinKeepsInv(s: Pair, key: Key, callback: nat)
    requires PairInv(s)
    ensures PairInv(PairStep(s, Joins(key, callback)))
  {
    hide Producing;
    hide Accounted;
    hide Served;
    SubscribeShared(s.c, key, callback);
    var c' := Subscribe(s.c, key, callback);
    assert c'.out[..s.up] == s.c.out[..s.up];
    PostedIdsKnown(s);
    NothingYet(s.p.out[..s.down], s.c.nextId);
  }

  lemma LeaveKeepsInv(s: Pair, key: Key, callback: nat)
    requires PairInv(s)
    ensures PairInv(PairStep(s, Leaves(key, callback)))
  {
    UnsubscribeShared(s.c, key, callback);
    hide Shared;
    hide Producing;
    hide Accounted;
    hide Without;
    var c' := Unsubscribe(s.c, key, callback);
    assert c'.out[..s.up] == s.c.out[..s.up];
  }

  lemma PerformKeepsInv(s: Pair, n: nat, call: Call)
    requires PairInv(s)
    ensures PairInv(PairStep(s, Performs(n, call)))
  {
    hide Shared;
    hide Producing;
    hide Accounted;
    hide Consuming;
    hide Perform;
    if n < |s.p.invocations| {
      PerformProducing(s.p, n, call, s.c.out[..s.up]);
      StepAccounted(s.p, Calls(n, call));
      var p' := Perform(s.p, n, call);
      assert p'.out[..s.down] == p'.out[..|s.p.out|][..s.down];
    }
  }

  lemma ReadUpKeepsInv(s: Pair, script: seq<Call>)
    requires PairInv(s)
    ensures PairInv(PairStep(s, ReadUp(script)))
  {
    if s.up < |s.c.out| {
      var m, read := s.c.out[s.up], s.c.out[..s.up];
      assert s.c.out[..s.up + 1] == read + [m];
      match m {
        case Start(id, key) =>
          FirstStart(s.c.out, s.up);
          StartProducing(s.p, id, key, script, read);
          StepAccounted(s.p, StartMessage(id, key, script));
        case Stop(id) =>
          StopProducing(s.p, id, read);
          StepAccounted(s.p, StopMessage(id));
      }
      var p' := OnUp(s.p, m, script);
      assert p'.out[..s.down] == p'.out[..|s.p.out|][..s.down];
    }
  }

  /** A start is the first message under its id. */
  lemma FirstStart(out: seq<Up>, k: nat)
    requires Ordered(out) && k < |out| && out[k].Start?
    ensures !Opened(out[..k], out[k].id) && Stop(out[k].id) !in out[..k]
  {
    forall i | 0 <= i < k ensures out[..k][i].id != out[k].id {
      assert out[..k][i] == out[i];
    }
  }

  lemma ReadDownKeepsInv(s: Pair)
    requires PairInv(s)
    ensures PairInv(PairStep(s, ReadDown))
  {
    if s.down < |s.p.out| {
      var m := s.p.out[s.down];
      assert s.p.out[..s.down + 1] == s.p.out[..s.down] + [m];
      OnMessageShared(s.c, m);
      forall key | key in s.c.subs ensures Reflects(Handle(s.c.subs[key], m), s.p.out[..s.down + 1]) {
        HandleReflects(s.c.subs[key], s.p.out[..s.down], m);
      }
    }
  }

  lemma {:induction false} PairInvariant(moves: seq<Move>)
    ensures PairInv(PairRun(moves))
  {
    if moves != [] {
      var s := PairRun(moves[..|moves| - 1]);
      PairInvariant(moves[..|moves| - 1]);
      match moves[|moves| - 1] {
        case Joins(key, callback) => JoinKeepsInv(s, key, callback);
        case Leaves(key, callback) => LeaveKeepsInv(s, key, callback);
        case Registers =>
        case Performs(n, call) => PerformKeepsInv(s, n, call);
        case ReadUp(script) => ReadUpKeepsInv(s, script);
        case ReadDown => ReadDownKeepsInv(s);
      }
    }
  }

  // -- Agreement ------------------------------------------------------------------------------------------

  /** The subscription is active and its consumer has not read an interrupt for it. */
  ghost predicate Running(c: Consumer, id: nat) {
    exists key :: key in c.subs && c.subs[key].id == id && !c.subs[key].interrupted
  }

  /** What the producer serves is wanted, or a stop for it is in the channel. */
  lemma LiveIsWanted(moves: seq<Move>, id: nat)
    requires id in PairRun(moves).p.live
    ensures var s := PairRun(moves); Active(s.c, id) || Stop(id) in Unread(s.c.out, s.up)
  {
    PairInvariant(moves);
    var s := PairRun(moves);
    hide PairRun;
    hide Served;
    hide Consuming;
    assert s.c.out == s.c.out[..s.up] + Unread(s.c.out, s.up);
    OpenedPrefix(s.c.out, s.up, id);
  }

  lemma OpenedPrefix(out: seq<Up>, k: nat, id: nat)
    requires k <= |out| && Opened(out[..k], id)
    ensures exists i :: 0 <= i < |out| && out[i].id == id
  {
    var i :| 0 <= i < |out[..k]| && out[..k][i].Start? && out[..k][i].id == id;
    assert out[i].id == id;
  }

  /** What is wanted is served, or its start or an interrupt for it is in a channel. */
  lemma WantedIsServed(moves: seq<Move>, id: nat)
    requires Running(PairRun(moves).c, id)
    ensures var s := PairRun(moves);
      Opened(Unread(s.c.out, s.up), id) || id in s.p.live || Interrupted(id) in Unread(s.p.out, s.down)
  {
    PairInvariant(moves);
    var s := PairRun(moves);
    hide PairRun;
    assert Active(s.c, id) && id < s.c.nextId;
    RunningUnread(s, id);
    hide Shared;
    hide Consuming;
    hide Accounted;
    SplitMember(s.c.out, s.up, id);
  }

  /** No interrupt for a running subscription has been read. */
  lemma RunningUnread(s: Pair, id: nat)
    requires PairInv(s) && Running(s.c, id)
    ensures Opened(s.c.out, id) && Stop(id) !in s.c.out[..s.up]
    ensures Interrupted(id) in s.p.out ==> Interrupted(id) in Unread(s.p.out, s.down)
  {
    hide Producing;
    hide Accounted;
    hide Served;
    var key :| key in s.c.subs && s.c.subs[key].id == id && !s.c.subs[key].interrupted;
    assert Active(s.c, id);
    assert Reflects(s.c.subs[key], s.p.out[..s.down]);
    assert s.p.out == s.p.out[..s.down] + Unread(s.p.out, s.down);
  }

  /** A start that was posted has been read or is in the channel. */
  lemma SplitMember(out: seq<Up>, k: nat, id: nat)
    requires k <= |out| && Opened(out, id)
    ensures Opened(out[..k], id) || Opened(Unread(out, k), id)
  {
    var i :| 0 <= i < |out| && out[i].Start? && out[i].id == id;
    if i < k {
      assert out[..k][i] == out[i];
    } else {
      assert Unread(out, k)[i - k] == out[i];
    }
  }

  /** With both channels empty the two ends serve and want exactly the same subscriptions. */
  lemma QuietAgreement(moves: seq<Move>, id: nat)
    requires var s := PairRun(moves); s.up == |s.c.out| && s.down == |s.p.out|
    ensures id in PairRun(moves).p.live <==> Running(PairRun(moves).c, id)
  {
    PairInvariant(moves);
    var s := PairRun(moves);
    assert Unread(s.c.out, s.up) == [] && Unread(s.p.out, s.down) == [];
    assert s.p.out[..s.down] == s.p.out;
    if id in s.p.live {
      LiveIsWanted(moves, id);
      var key :| key in s.c.subs && s.c.subs[key].id == id;
      assert !s.c.subs[key].interrupted;
    } else if Running(s.c, id) {
      WantedIsServed(moves, id);
    }
  }

  // -- What handlers have sent ---------------------------------------------------------------------------

  /** The start that a move lets the producer read while its handler is registered, if it does. */
  function StartRead(before: seq<Move>, move: Move): Option<nat> {
    var s := PairRun(before);
    if move.ReadUp? && Registers in before && s.up < |s.c.out| && s.c.out[s.up].Start? then Some(s.c.out[s.up].id)
    else None
  }

  function Invokes(before: seq<Move>, move: Move): seq<nat> {
    if StartRead(before, move).Some? then [StartRead(before, move).value] else []
  }

  /** The ids of the handler's invocations, in order. */
  function HandlerIds(moves: seq<Move>): seq<nat> {
    if moves == [] then []
    else
      var before := moves[..|moves| - 1];
      HandlerIds(before) + Invokes(before, moves[|moves| - 1])
  }

  /** The values that some calls send. */
  function SendsOf(calls: seq<Call>): seq<Value> {
    if calls == [] then []
    else
      SendsOf(calls[..|calls| - 1]) +
      match calls[|calls| - 1]
      case Send(v) => [v]
      case Interrupt => []
  }

  /** What a move makes handlers invoked under the id send. */
  function MoveSends(before: seq<Move>, move: Move, id: nat): seq<Value> {
    match move
    case Performs(n, call) => if n < |HandlerIds(before)| && HandlerIds(before)[n] == id then SendsOf([call]) else []
    case ReadUp(script) => if StartRead(before, move) == Some(id) then SendsOf(script) else []
    case _ => []
  }

  /** The values that handlers invoked under the id have sent, during their invocation and since, in order. */
  function SentTo(moves: seq<Move>, id: nat): seq<Value> {
    if moves == [] then []
    else
      var before := moves[..|moves| - 1];
      SentTo(before, id) + MoveSends(before, moves[|moves| - 1], id)
  }

  lemma PerformValues(p: P.State, n: nat, call: Call, id: nat)
    requires n < |p.invocations|
    ensures Values(Perform(p, n, call).out, id)
         == Values(p.out, id) + if p.invocations[n].id == id then SendsOf([call]) else []
    ensures forall k :: 0 <= k < |p.invocations| ==> Perform(p, n, call).invocations[k].id == p.invocations[k].id
  {
    var i := p.invocations[n].id;
    assert SendsOf([call]) == if call.Send? then [call.value] else [] by {
      assert [call][..0] == [];
    }
    ValuesSnoc(p.out, if call.Send? then Receive(i, call.value) else Interrupted(i), id);
    assert Values(p.out, id) + [] == Values(p.out, id);
  }

  lemma {:induction false} ScriptValues(p: P.State, n: nat, calls: seq<Call>, id: nat)
    requires n < |p.invocations|
    ensures Values(PerformAll(p, n, calls).out, id)
         == Values(p.out, id) + if p.invocations[n].id == id then SendsOf(calls) else []
    ensures forall k :: 0 <= k < |p.invocations| ==> PerformAll(p, n, calls).invocations[k].id == p.invocations[k].id
  {
    hide Perform;
    hide Values;
    if calls == [] {
      assert Values(p.out, id) + [] == Values(p.out, id);
    } else {
      var init, last := calls[..|calls| - 1], calls[|calls| - 1];
      ScriptValues(p, n, init, id);
      PerformValues(PerformAll(p, n, init), n, last, id);
      assert [last][..0] == [];
    }
  }

  lemma {:induction false} ScriptRegistered(p: P.State, n: nat, calls: seq<Call>)
    requires n < |p.invocations|
    ensures PerformAll(p, n, calls).registered == p.registered
  {
    if calls != [] {
      ScriptRegistered(p, n, calls[..|calls| - 1]);
    }
  }

  /** What a step of the producer posts for an id, and whom it invokes. */
  lemma StartValues(p: P.State, i: nat, key: Key, script: seq<Call>, id: nat)
    requires i !in p.live
    ensures var p' := OnStart(p, i, key, script);
      && Values(p'.out, id) == Values(p.out, id) + (if p.registered && i == id then SendsOf(script) else [])
      && |p'.invocations| == |p.invocations| + (if p.registered then 1 else 0)
      && (forall k :: 0 <= k < |p.invocations| ==> p'.invocations[k].id == p.invocations[k].id)
      && (p.registered ==> p'.invocations[|p.invocations|].id == i)
      && p'.registered == p.registered
  {
    hide PerformAll;
    assert Values(p.out, id) + [] == Values(p.out, id);
    if p.registered {
      ScriptValues(p.(invocations := p.invocations + [Invocation(i, key, false)]), |p.invocations|, script, id);
      ScriptRegistered(p.(invocations := p.invocations + [Invocation(i, key, false)]), |p.invocations|, script);
    } else {
      ValuesSnoc(p.out, Interrupted(i), id);
    }
  }

  ghost predicate Tallied(moves: seq<Move>, id: nat) {
    var p := PairRun(moves).p;
    && (p.registered <==> Registers in moves)
    && |p.invocations| == |HandlerIds(moves)|
    && (forall k :: 0 <= k < |p.invocations| ==> p.invocations[k].id == HandlerIds(moves)[k])
    && Values(p.out, id) == SentTo(moves, id)
  }

  /** Every value a handler sends is posted under its id, in order, and nothing else is. */
  lemma {:induction false} HandlersSend(moves: seq<Move>, id: nat)
    ensures Tallied(moves, id)
  {
    hide Tallied;
    hide PairInv;
    hide PairRun;
    if moves == [] {
      NothingTallied(id);
    } else {
      var before, move := moves[..|moves| - 1], moves[|moves| - 1];
      HandlersSend(before, id);
      PairInvariant(before);
      MoveTallied(before, move, id);
      assert moves == before + [move];
    }
  }

  lemma NothingTallied(id: nat)
    ensures Tallied([], id)
  {
  }

  /** One more move: what it adds to the tallies, and what it makes of the pair. */
  lemma MoveSnoc(before: seq<Move>, move: Move, id: nat)
    ensures var moves := before + [move];
      && PairRun(moves) == PairStep(PairRun(before), move)
      && HandlerIds(moves) == HandlerIds(before) + Invokes(before, move)
      && SentTo(moves, id) == SentTo(before, id) + MoveSends(before, move, id)
      && (Registers in moves <==> Registers in before || move.Registers?)
  {
    hide PairStep;
    assert (before + [move])[..|before|] == before;
  }

  lemma MoveTallied(before: seq<Move>, move: Move, id: nat)
    requires Tallied(before, id) && PairInv(PairRun(before))
    ensures Tallied(before + [move], id)
  {
    MoveSnoc(before, move, id);
    hide PairRun;
    hide HandlerIds;
    hide SentTo;
    hide Values;
    hide SendsOf;
    hide OnStart;
    hide Perform;
    var s := PairRun(before);
    assert SentTo(before, id) + [] == SentTo(before, id) && HandlerIds(before) + [] == HandlerIds(before);
    if move.ReadUp? && s.up < |s.c.out| {
      NextIsNotLive(s);
      if s.c.out[s.up].Start? {
        StartValues(s.p, s.c.out[s.up].id, s.c.out[s.up].key, move.script, id);
      }
    } else if move.Performs? && move.n < |s.p.invocations| {
      PerformValues(s.p, move.n, move.call, id);
      PerformRegistered(s.p, move.n, move.call);
    }
  }

  lemma PerformRegistered(p: P.State, n: nat, call: Call)
    requires n < |p.invocations|
    ensures Perform(p, n, call).registered == p.registered
  {
  }

  /** A start that is read next is for an id that is not live. */
  lemma NextIsNotLive(s: Pair)
    requires PairInv(s) && s.up < |s.c.out|
    ensures s.c.out[s.up].Start? ==> s.c.out[s.up].id !in s.p.live
  {
    hide Accounted;
    hide Consuming;
    hide Served;
    if s.c.out[s.up].Start? {
      FirstStart(s.c.out, s.up);
    }
  }

  // -- From send to callback ---------------------------------------------------------------------------------

  /**
   * No value is lost, duplicated or reordered: what a running subscription has received,
   * followed by what is in the channel for it, is all that handlers have sent under its id; and
   * each of its callbacks has been called with exactly what was received since it joined.
   */
  lemma ValuesConserved(moves: seq<Move>, key: Key)
    requires key in PairRun(moves).c.subs && !PairRun(moves).c.subs[key].interrupted
    ensures var s := PairRun(moves); var sub := s.c.subs[key];
      && sub.received + Values(Unread(s.p.out, s.down), sub.id) == SentTo(moves, sub.id)
      && forall i :: 0 <= i < |sub.listeners| ==>
           sub.listeners[i].since <= |sub.received| && sub.listeners[i].got == sub.received[sub.listeners[i].since..]
  {
    PairInvariant(moves);
    var s := PairRun(moves);
    HandlersSend(moves, s.c.subs[key].id);
    ValuesSplit(s.p.out, s.down, s.c.subs[key].id);
  }

  /** Even an interrupted subscription has received only an initial part of what was sent. */
  lemma NothingInvented(moves: seq<Move>, key: Key)
    requires key in PairRun(moves).c.subs
    ensures var s := PairRun(moves); s.c.subs[key].received <= SentTo(moves, s.c.subs[key].id)
  {
    PairInvariant(moves);
    var s := PairRun(moves);
    HandlersSend(moves, s.c.subs[key].id);
    ValuesSplit(s.p.out, s.down, s.c.subs[key].id);
  }

  /** The handler serving a subscription was invoked with what the subscription asked for. */
  lemma HandlerGetsKey(moves: seq<Move>, n: nat, key: Key)
    requires n < |PairRun(moves).p.invocations| && key in PairRun(moves).c.subs
    requires PairRun(moves).p.invocations[n].id == PairRun(moves).c.subs[key].id
    ensures PairRun(moves).p.invocations[n].key == key
  {
    PairInvariant(moves);
    OneStart(PairRun(moves), n, key);
  }

  lemma OneStart(s: Pair, n: nat, key: Key)
    requires PairInv(s) && n < |s.p.invocations| && key in s.c.subs && s.p.invocations[n].id == s.c.subs[key].id
    ensures s.p.invocations[n].key == key
  {
    hide Accounted;
    hide Consuming;
    hide Served;
    hide Opened;
    var m, m' := Start(s.p.invocations[n].id, s.p.invocations[n].key), Start(s.c.subs[key].id, key);
    assert m in s.c.out[..s.up] && m' in s.c.out;
    assert Ordered(s.c.out);
    SameStart(s.c.out, m, m');
  }

  lemma SameStart(out: seq<Up>, m: Up, m': Up)
    requires Ordered(out) && m in out && m' in out && m.Start? && m'.Start? && m.id == m'.id
    ensures m == m'
  {
    var a :| 0 <= a < |out| && out[a] == m;
    var b :| 0 <= b < |out| && out[b] == m';
  }

  lemma {:induction false} ValuesSplit(out: seq<Down>, k: nat, id: nat)
    requires k <= |out|
    ensures Values(out, id) == Values(out[..k], id) + Values(out[k..], id)
    decreases |out|
  {
    if k == |out| {
      assert out[..k] == out && out[k..] == [];
    } else {
      var init := out[..|out| - 1];
      ValuesSplit(init, k, id);
      assert init[..k] == out[..k] && out[k..][..|out[k..]| - 1] == init[k..];
    }
  }
}
