/** The overflow queue: batches stay within bounds, the queue is never stuck, and nothing in it starves. */
module SessionQueue {
  import opened Common
  import opened SessionState
  import opened SessionConservation
  import Dedup

  // -- Bounded batches, no stuck queue ------------------------------------------------

  ghost predicate Sized(c: Config, s: State, bound: nat) {
    && (forall i :: 0 <= i < |s.queue| ==> |s.queue[i].encoded| <= c.maxSize)
    && (s.outgoing.Some? ==> Size(s.outgoing.value.messages) <= bound)
  }

  /** The head of a waiting queue does not fit the batch in flight. */
  ghost predicate HeadBlocked(c: Config, s: State) {
    s.queue != [] ==> s.outgoing.Some? && !Fits(c, s.outgoing.value, s.queue[0].encoded)
  }

  ghost predicate Unstuck(c: Config, s: State) { s.phase.Active? ==> HeadBlocked(c, s) }

  lemma SizeAppend(messages: seq<Payload>, m: Payload)
    ensures Size(messages + [m]) == Size(messages) + |m|
  {
    assert (messages + [m])[..|messages|] == messages;
  }

  lemma ProcessNewSized(c: Config, s: State, encoded: Payload, token: Id, bound: nat)
    requires Sized(c, s, bound) && |encoded| <= c.maxSize <= bound
    ensures Sized(c, ProcessNewMessage(c, s, encoded, token), bound)
    ensures HeadBlocked(c, s) ==> HeadBlocked(c, ProcessNewMessage(c, s, encoded, token))
  {
    hide Size;
    hide NextExpiry;
    SizeAppend([], encoded);
    NoSize();
    if s.outgoing.Some? {
      SizeAppend(s.outgoing.value.messages, encoded);
    }
    assert [] + [encoded] == [encoded];
  }

  lemma NoSize()
    ensures Size([]) == 0
  {
  }

  lemma {:induction false} DrainSized(c: Config, s: State, bound: nat)
    requires Sized(c, s, bound) && c.maxSize <= bound
    ensures Sized(c, ProcessMessageQueue(c, s), bound) && HeadBlocked(c, ProcessMessageQueue(c, s))
    decreases |s.queue|
  {
    if s.queue != [] && (s.outgoing.None? || Fits(c, s.outgoing.value, s.queue[0].encoded)) {
      var u := s.(queue := s.queue[1..]);
      ProcessNewSized(c, u, s.queue[0].encoded, s.queue[0].token, bound);
      JoinsBatch(c, u, s.queue[0].encoded, s.queue[0].token);
      DrainSized(c, ProcessNewMessage(c, u, s.queue[0].encoded, s.queue[0].token), bound);
    }
  }

  /** The size of the batch an initialization would restore. */
  function Recovered(c: Config, e: Event): nat {
    if !e.Init? then 0
    else
      match Find(Decoded(c, e.own), true)
      case Some(Request(_, data)) => Size(data)
      case _ => 0
  }

  function MaxRecovered(c: Config, evs: seq<Event>): nat {
    if evs == [] then 0 else Max(MaxRecovered(c, evs[..|evs| - 1]), Recovered(c, evs[|evs| - 1]))
  }

  lemma SubmitSized(c: Config, s: State, encoded: Option<Payload>, bound: nat)
    requires Sized(c, s, bound) && Unstuck(c, s) && c.maxSize <= bound
    ensures var s' := SubmitRequest(c, s, encoded).0; Sized(c, s', bound) && Unstuck(c, s')
  {
    hide ProcessNewMessage;
    hide Fits;
    if !s.phase.Disposed? && encoded.Some? && |encoded.value| <= c.maxSize {
      var token := Id(c.self, s.nextId);
      var t := EnsureListening(s).(nextId := s.nextId + 1, issued := s.issued[token := encoded.value],
                                   pending := s.pending + [token]);
      ProcessNewSized(c, t, encoded.value, token, bound);
      ProcessNewBooks(c, t, encoded.value, token, token);
    }
  }

  lemma InitSized(c: Config, s: State, own: seq<Statement>, peer: seq<Statement>, bound: nat)
    requires Sized(c, s, bound) && Unstuck(c, s) && c.maxSize <= bound && Recovered(c, Init(own, peer)) <= bound
    requires Phased(s)
    ensures var s' := FinishInit(c, s, own, peer); Sized(c, s', bound) && Unstuck(c, s')
  {
    hide ProcessMessageQueue;
    hide RestoreOutgoing;
    hide RestoreIncoming;
    hide Decoded;
    hide Find;
    if s.phase.Initialization? {
      var t := s.(expiry := MaxExpiry(own), seen := Dedup.AddAll(s.seen, DataKeys(own + peer)));
      RecoveryShape(c, t, own, peer);
      var u := RestoreIncoming(c, RestoreOutgoing(c, t, own), peer).(phase := Active);
      DrainSized(c, u, bound);
    }
  }

  /** A statement that is not an accepted ACK leaves batch, queue, phase and issued tokens alone. */
  lemma QuietReceive(c: Config, s: State, e: Event)
    requires e.Receive? && !AcceptsAck(c, s, e)
    ensures var s' := Step(c, s, e);
      && s'.queue == s.queue && s'.outgoing == s.outgoing && s'.phase == s.phase && s'.issued == s.issued
      && s'.settled == s.settled && s'.pending == s.pending && s'.nextId == s.nextId
  {
    hide TryDecode;
  }

  /** A statement that is not an accepted ACK delivers at most a request, and not the one that came last. */
  lemma QuietShape(c: Config, s: State, e: Event)
    requires e.Receive? && !AcceptsAck(c, s, e)
    ensures var s' := Step(c, s, e); var d := TryDecode(c, e.statement, e.responsesOnly);
      || s' == s.(seen := s'.seen)
      || (d.Some? && d.value.Request? && s.incoming != Some(d.value.requestId)
          && s' == Deliver(s.(seen := s'.seen, incoming := Some(d.value.requestId), responded := false), d.value))
  {
    hide TryDecode;
    hide Dedup.AddCapped;
    hide ProcessMessageQueue;
  }

  lemma AckSized(c: Config, s: State, e: Event, bound: nat)
    requires AcceptsAck(c, s, e) && Sized(c, s, bound) && c.maxSize <= bound
    ensures var s' := ProcessMessageQueue(c, AfterAck(c, s, e)); Sized(c, s', bound) && Unstuck(c, s')
  {
    AckDrains(c, s, e);
    hide AcceptsAck;
    hide AfterAck;
    hide Step;
    DrainSized(c, AfterAck(c, s, e), bound);
  }

  lemma StepSized(c: Config, s: State, e: Event, bound: nat)
    requires Sized(c, s, bound) && Unstuck(c, s) && c.maxSize <= bound && Recovered(c, e) <= bound
    requires Phased(s)
    ensures Sized(c, Step(c, s, e), bound) && Unstuck(c, Step(c, s, e))
  {
    match e
    case Submit(encoded) => SubmitSized(c, s, encoded, bound);
    case Receive(statement, responsesOnly) =>
      if AcceptsAck(c, s, e) {
        AckDrains(c, s, e);
        AckSized(c, s, e, bound);
      } else {
        QuietReceive(c, s, e);
      }
    case Init(own, peer) => InitSized(c, s, own, peer, bound);
    case _ =>
  }

  /** In every run: no batch outgrows the limit or a recovered batch, and a queue waits only behind a full batch. */
  lemma {:induction false} QueueInvariant(c: Config, evs: seq<Event>)
    ensures Sized(c, Run(c, evs), Max(c.maxSize, MaxRecovered(c, evs))) && Unstuck(c, Run(c, evs))
  {
    if evs != [] {
      var prefix := evs[..|evs| - 1];
      QueueInvariant(c, prefix);
      Conservation(c, prefix, Id(c.self, 0));
      StepSized(c, Run(c, prefix), evs[|evs| - 1], Max(c.maxSize, MaxRecovered(c, evs)));
    }
  }

  // -- No starvation -------------------------------------------------------------------

  /** The step receives a response to the current wire id of the batch in flight. */
  predicate AcceptsAck(c: Config, s: State, e: Event) {
    && e.Receive? && s.listening
    && e.statement.data.Some? && e.statement.data.value !in s.seen
    && TryDecode(c, e.statement, e.responsesOnly).Some?
    && TryDecode(c, e.statement, e.responsesOnly).value.Response?
    && s.outgoing.Some?
    && s.outgoing.value.requestId == TryDecode(c, e.statement, e.responsesOnly).value.requestId
  }

  /** The state in which an accepted ACK starts to drain the queue. */
  function AfterAck(c: Config, s: State, e: Event): State
    requires AcceptsAck(c, s, e)
  {
    var d := TryDecode(c, e.statement, e.responsesOnly).value;
    var t := s.(seen := Dedup.AddCapped(s.seen, e.statement.data.value));
    Deliver(ResolveAll(t, s.outgoing.value.tokens, d.code).(outgoing := None), d)
  }

  lemma AckDrains(c: Config, s: State, e: Event)
    requires AcceptsAck(c, s, e)
    ensures Step(c, s, e) == ProcessMessageQueue(c, AfterAck(c, s, e))
    ensures AfterAck(c, s, e).queue == s.queue && AfterAck(c, s, e).outgoing.None?
    ensures AfterAck(c, s, e).phase == s.phase
  {
    hide ProcessMessageQueue;
    hide TryDecode;
    var d := TryDecode(c, e.statement, e.responsesOnly).value;
    ResolvePhase(s.(seen := Dedup.AddCapped(s.seen, e.statement.data.value)), s.outgoing.value.tokens, d.code);
  }

  function Payloads(queue: seq<Queued>): seq<Payload> {
    seq(|queue|, i requires 0 <= i < |queue| => queue[i].encoded)
  }

  function BatchMessages(s: State): seq<Payload> {
    if s.outgoing.Some? then s.outgoing.value.messages else []
  }

  /** The first k entries of the queue have joined the batch, in order, and the last statement carries it. */
  ghost predicate Drained(s: State, s': State, k: nat) {
    && k <= |s.queue| && s'.queue == s.queue[k..]
    && BatchMessages(s') == BatchMessages(s) + Payloads(s.queue[..k])
    && BatchTokens(s') == BatchTokens(s) + QueueTokens(s.queue[..k])
    && |s'.sent| == |s.sent| + k
    && (if k == 0 then s'.outgoing == s.outgoing && s'.sent == s.sent
        else s'.outgoing.Some? && Says(s'.sent[|s'.sent| - 1], Request(s'.outgoing.value.requestId, BatchMessages(s'))))
  }

  lemma NothingDrained(s: State)
    ensures Drained(s, s, 0)
  {
    assert s.queue[0..] == s.queue && s.queue[..0] == [];
  }

  lemma OneMoreDrained(s: State, v: State, s': State, k: nat)
    requires s.queue != [] && v.queue == s.queue[1..] && v.outgoing.Some? && Drained(v, s', k)
    requires BatchMessages(v) == BatchMessages(s) + [s.queue[0].encoded] && BatchTokens(v) == BatchTokens(s) + [s.queue[0].token]
    requires |v.sent| == |s.sent| + 1 && Says(v.sent[|s.sent|], Request(v.outgoing.value.requestId, BatchMessages(v)))
    ensures Drained(s, s', k + 1)
  {
    hide Says;
    hide QueueTokens;
    hide Payloads;
    PrefixTail(s.queue, k);
    if k == 0 {
      NoneFirst(v.queue);
    }
  }

  lemma NoneFirst(queue: seq<Queued>)
    ensures Payloads(queue[..0]) == [] && QueueTokens(queue[..0]) == []
  {
  }

  /** Draining takes a prefix off the queue, and at least the head when nothing is in flight. */
  lemma {:induction false} DrainTakesPrefix(c: Config, s: State) returns (k: nat)
    ensures Drained(s, ProcessMessageQueue(c, s), k)
    ensures s.outgoing.None? && s.queue != [] ==> k >= 1
    decreases |s.queue|
  {
    hide ProcessNewMessage;
    hide Fits;
    hide Says;
    hide Drained;
    if s.queue != [] && (s.outgoing.None? || Fits(c, s.outgoing.value, s.queue[0].encoded)) {
      var q, u := s.queue[0], s.(queue := s.queue[1..]);
      JoinsBatch(c, u, q.encoded, q.token);
      JoinIsSent(c, u, q.encoded, q.token);
      var v := ProcessNewMessage(c, u, q.encoded, q.token);
      k := DrainTakesPrefix(c, v);
      OneMoreDrained(s, v, ProcessMessageQueue(c, s), k);
      k := k + 1;
    } else {
      k := 0;
      NothingDrained(s);
    }
  }

  /** What joins the batch is submitted with it at once. */
  lemma JoinIsSent(c: Config, s: State, encoded: Payload, token: Id)
    requires s.outgoing.None? || Fits(c, s.outgoing.value, encoded)
    ensures var s' := ProcessNewMessage(c, s, encoded, token);
      && s'.outgoing.Some? && BatchMessages(s') == BatchMessages(s) + [encoded]
      && |s'.sent| == |s.sent| + 1 && s'.sent[..|s.sent|] == s.sent
      && Says(s'.sent[|s.sent|], Request(s'.outgoing.value.requestId, BatchMessages(s')))
      && s'.sent[|s.sent|].channel == RequestChannel && s'.sent[|s.sent|].signer == Some(c.self)
  {
    assert [] + [encoded] == [encoded];
  }

  lemma PrefixTail(queue: seq<Queued>, k: nat)
    requires queue != [] && k <= |queue| - 1
    ensures queue[1..][k..] == queue[k + 1..]
    ensures Payloads(queue[..k + 1]) == [queue[0].encoded] + Payloads(queue[1..][..k])
    ensures QueueTokens(queue[..k + 1]) == [queue[0].token] + QueueTokens(queue[1..][..k])
  {
    assert queue[..k + 1][1..] == queue[1..][..k];
  }

  /** The queue lost its first k entries and may have gained one with a token never issued before. */
  ghost predicate Shifted(c: Config, s: State, s': State, k: nat) {
    && k <= |s.queue|
    && (|| s'.queue == s.queue[k..]
        || (&& |s'.queue| == |s.queue| - k + 1
            && s'.queue[..|s.queue| - k] == s.queue[k..]
            && s'.queue[|s.queue| - k].token == Id(c.self, s.nextId)))
  }

  lemma StepShifts(c: Config, s: State, e: Event) returns (k: nat)
    requires s.phase.Active? && !e.Close?
    ensures Shifted(c, s, Step(c, s, e), k) && Step(c, s, e).phase.Active?
    ensures AcceptsAck(c, s, e) && s.queue != [] ==> k >= 1
  {
    hide ProcessMessageQueue;
    hide TryDecode;
    hide ResolveAll;
    k := 0;
    assert s.queue[0..] == s.queue;
    if AcceptsAck(c, s, e) {
      AckDrains(c, s, e);
      k := DrainTakesPrefix(c, AfterAck(c, s, e));
      DrainBooks(c, AfterAck(c, s, e), Id(c.self, 0));
    } else if e.Submit? {
      var s' := Step(c, s, e);
      if s'.queue != s.queue {
        assert s'.queue == s.queue[0..] + [Queued(e.encoded.value, Id(c.self, s.nextId))];
      }
    }
  }

  function Acks(c: Config, s: State, evs: seq<Event>): nat {
    if evs == [] then 0
    else
      var prefix := evs[..|evs| - 1];
      Acks(c, s, prefix) + if AcceptsAck(c, RunFrom(c, s, prefix), evs[|evs| - 1]) then 1 else 0
  }

  lemma {:induction false} QueueTokensSplit(queue: seq<Queued>, k: nat, t: Id)
    requires k <= |queue|
    ensures Count(QueueTokens(queue), t) == Count(QueueTokens(queue[..k]), t) + Count(QueueTokens(queue[k..]), t)
    decreases k
  {
    if k == 0 {
      assert queue[..0] == [] && queue[0..] == queue;
    } else {
      QueueTokensSplit(queue[1..], k - 1, t);
      assert queue[1..][..k - 1] == queue[..k][1..] && queue[1..][k - 1..] == queue[k..];
      CountConcat([queue[0].token], QueueTokens(queue[1..]), t);
      CountConcat([queue[0].token], QueueTokens(queue[..k][1..]), t);
    }
  }

  lemma {:induction false} QueueTokenCounted(queue: seq<Queued>, i: nat)
    requires i < |queue|
    ensures Count(QueueTokens(queue), queue[i].token) >= 1
  {
    if i > 0 {
      QueueTokenCounted(queue[1..], i - 1);
    }
  }

  /** The token waits at position `i - d`, or it has left the queue for good. */
  ghost predicate MovedUp(s: State, token: Id, i: nat, d: nat) {
    || (d <= i < d + |s.queue| && s.queue[i - d].token == token)
    || Count(QueueTokens(s.queue), token) == 0
  }

  lemma ShiftMovesUp(c: Config, s: State, s': State, k: nat, token: Id, i: nat, d: nat)
    requires Shifted(c, s, s', k) && MovedUp(s, token, i, d)
    requires Count(QueueTokens(s.queue), token) <= 1 && token != Id(c.self, s.nextId)
    ensures MovedUp(s', token, i, d + k)
  {
    QueueTokensSplit(s.queue, k, token);
    if s'.queue != s.queue[k..] {
      var q := s'.queue[|s.queue| - k];
      assert s'.queue == s.queue[k..] + [q];
      QueueTokensAppend(s.queue[k..], q);
      CountConcat(QueueTokens(s.queue[k..]), [q.token], token);
      CountOne(q.token, token);
    }
    if d <= i < d + |s.queue| && s.queue[i - d].token == token && i - d < k {
      QueueTokenCounted(s.queue[..k], i - d);
    }
  }

  lemma SubmitIssued(c: Config, s: State, encoded: Option<Payload>)
    ensures s.issued.Keys <= SubmitRequest(c, s, encoded).0.issued.Keys
  {
    hide ProcessNewMessage;
    if encoded.Some? {
      var token := Id(c.self, s.nextId);
      var t := EnsureListening(s).(nextId := s.nextId + 1, issued := s.issued[token := encoded.value],
                                   pending := s.pending + [token]);
      ProcessNewBooks(c, t, encoded.value, token, token);
    }
  }

  lemma ReceiveIssued(c: Config, s: State, e: Event)
    requires e.Receive?
    ensures Step(c, s, e).issued == s.issued
  {
    hide Step;
    hide AcceptsAck;
    hide AfterAck;
    if AcceptsAck(c, s, e) {
      AckDrains(c, s, e);
      AckIssued(c, s, e);
      DrainBooks(c, AfterAck(c, s, e), Id(c.self, 0));
    } else {
      QuietReceive(c, s, e);
    }
  }

  lemma InitIssued(c: Config, s: State, own: seq<Statement>, peer: seq<Statement>)
    ensures FinishInit(c, s, own, peer).issued == s.issued
  {
    hide ProcessMessageQueue;
    hide RestoreOutgoing;
    hide RestoreIncoming;
    var t := s.(expiry := MaxExpiry(own), seen := Dedup.AddAll(s.seen, DataKeys(own + peer)));
    RestoreIssued(c, t, own, peer);
    DrainBooks(c, RestoreIncoming(c, RestoreOutgoing(c, t, own), peer).(phase := Active), Id(c.self, 0));
  }

  lemma RestoreIssued(c: Config, s: State, own: seq<Statement>, peer: seq<Statement>)
    ensures RestoreIncoming(c, RestoreOutgoing(c, s, own), peer).issued == s.issued
  {
    hide Find;
    hide Decoded;
  }

  lemma StepIssued(c: Config, s: State, e: Event)
    ensures s.issued.Keys <= Step(c, s, e).issued.Keys
  {
    hide SubmitRequest;
    hide FinishInit;
    hide ReceiveStatement;
    match e
    case Submit(encoded) => SubmitIssued(c, s, encoded);
    case Receive(_, _) => ReceiveIssued(c, s, e);
    case Init(own, peer) => InitIssued(c, s, own, peer);
    case _ =>
  }

  lemma AckIssued(c: Config, s: State, e: Event)
    requires AcceptsAck(c, s, e)
    ensures AfterAck(c, s, e).issued == s.issued
  {
    var d := TryDecode(c, e.statement, e.responsesOnly).value;
    ResolvePhase(s.(seen := Dedup.AddCapped(s.seen, e.statement.data.value)), s.outgoing.value.tokens, d.code);
  }

  lemma {:induction false} RunAppend(c: Config, history: seq<Event>, evs: seq<Event>)
    ensures RunFrom(c, Run(c, history), evs) == Run(c, history + evs)
  {
    hide Step;
    if evs == [] {
      assert history + evs == history;
    } else {
      RunAppend(c, history, evs[..|evs| - 1]);
      assert (history + evs)[..|history + evs| - 1] == history + evs[..|evs| - 1];
    }
  }

  lemma WaitsOnce(c: Config, s: State, token: Id)
    requires Balanced(c, s, token) && token in s.issued
    ensures Count(QueueTokens(s.queue), token) <= 1 && token != Id(c.self, s.nextId)
  {
  }

  lemma MoveUpOnce(c: Config, s: State, e: Event, token: Id, i: nat, d: nat, acks: nat) returns (d': nat)
    requires s.phase.Active? && !e.Close? && token in s.issued
    requires Balanced(c, s, token) && MovedUp(s, token, i, d)
    requires d >= acks || Count(QueueTokens(s.queue), token) == 0
    ensures var s' := Step(c, s, e);
      && s'.phase.Active? && MovedUp(s', token, i, d') && token in s'.issued
      && (d' >= acks + (if AcceptsAck(c, s, e) then 1 else 0) || Count(QueueTokens(s'.queue), token) == 0)
  {
    hide Step;
    hide AcceptsAck;
    hide Balanced;
    hide Shifted;
    hide MovedUp;
    var k := StepShifts(c, s, e);
    StepIssued(c, s, e);
    WaitsOnce(c, s, token);
    ShiftMovesUp(c, s, Step(c, s, e), k, token, i, d);
    if Count(QueueTokens(s.queue), token) == 0 {
      GoneStaysGone(c, s, Step(c, s, e), k, token);
    }
    d' := d + k;
  }

  lemma GoneStaysGone(c: Config, s: State, s': State, k: nat, token: Id)
    requires Shifted(c, s, s', k) && token != Id(c.self, s.nextId) && Count(QueueTokens(s.queue), token) == 0
    ensures Count(QueueTokens(s'.queue), token) == 0
  {
    QueueTokensSplit(s.queue, k, token);
    if s'.queue != s.queue[k..] {
      var q := s'.queue[|s.queue| - k];
      assert s'.queue == s.queue[k..] + [q];
      QueueTokensAppend(s.queue[k..], q);
      CountConcat(QueueTokens(s.queue[k..]), [q.token], token);
      CountOne(q.token, token);
    }
  }

  lemma {:induction false} MovesUpWithAcks(c: Config, history: seq<Event>, evs: seq<Event>, i: nat) returns (d: nat)
    requires var s := Run(c, history); s.phase.Active? && i < |s.queue|
    requires forall e <- evs :: !e.Close?
    ensures var s := Run(c, history); var s' := RunFrom(c, s, evs);
      && s'.phase.Active?
      && MovedUp(s', s.queue[i].token, i, d)
      && (d >= Acks(c, s, evs) || Count(QueueTokens(s'.queue), s.queue[i].token) == 0)
      && s.queue[i].token in s'.issued
    decreases |evs|
  {
    var s := Run(c, history);
    var token := s.queue[i].token;
    if evs == [] {
      d := 0;
      QueueTokenCounted(s.queue, i);
      Conservation(c, history, token);
    } else {
      var prefix, e := evs[..|evs| - 1], evs[|evs| - 1];
      d := MovesUpWithAcks(c, history, prefix, i);
      var before := RunFrom(c, s, prefix);
      RunAppend(c, history, prefix);
      Conservation(c, history + prefix, token);
      Conservation(c, history + prefix, Id(c.self, before.nextId));
      d := MoveUpOnce(c, before, e, token, i, d, Acks(c, s, prefix));
    }
  }

  /** A payload at queue position i has joined a batch by the time i + 1 ACKs have been accepted. */
  lemma NoStarvation(c: Config, history: seq<Event>, evs: seq<Event>, i: nat)
    requires var s := Run(c, history); s.phase.Active? && i < |s.queue|
    requires forall e <- evs :: !e.Close?
    requires Acks(c, Run(c, history), evs) >= i + 1
    ensures var token := Run(c, history).queue[i].token; var s' := Run(c, history + evs);
      && Count(QueueTokens(s'.queue), token) == 0
      && Count(BatchTokens(s'), token) + Count(SettledTokens(s'.settled), token) == 1
  {
    var token := Run(c, history).queue[i].token;
    var d := MovesUpWithAcks(c, history, evs, i);
    RunAppend(c, history, evs);
    Conservation(c, history + evs, token);
  }
}
