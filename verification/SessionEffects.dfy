/** What each operation of a session does, said from the outside: in terms of bytes, statements and messages. */
module SessionEffects {
  import opened Common
  import opened SessionState
  import opened SessionConservation
  import opened SessionQueue
  import Dedup

  // -- Submitting requests -------------------------------------------------------------------------

  /** The size of a batch is the number of its bytes. */
  lemma {:induction false} SizeIsTotal(messages: seq<Payload>)
    ensures Size(messages) == |Flatten(messages)|
  {
    if messages != [] {
      var n := |messages| - 1;
      SizeIsTotal(messages[..n]);
      FlattenAppend(messages[..n], messages[n]);
      assert messages == messages[..n] + [messages[n]];
    }
  }

  /** Nothing was submitted, and the batch in flight is the same. */
  ghost predicate SameBatch(s: State, s': State) { s'.outgoing == s.outgoing && s'.sent == s.sent }

  /** One statement more: the batch with the new payload and token, under a wire id never used before. */
  ghost predicate Sends(c: Config, s: State, s': State, messages: seq<Payload>, tokens: seq<Id>) {
    && s'.outgoing.Some? && s'.outgoing.value.messages == messages && s'.outgoing.value.tokens == tokens
    && s'.outgoing.value.requestId.session == c.self && s.nextId < s'.outgoing.value.requestId.n < s'.nextId
    && |s'.sent| == |s.sent| + 1 && s'.sent[..|s.sent|] == s.sent
    && Says(s'.sent[|s.sent|], Request(s'.outgoing.value.requestId, messages))
    && s'.sent[|s.sent|].channel == RequestChannel && s'.sent[|s.sent|].signer == Some(c.self)
  }

  /** A payload is refused exactly if the session is disposed, it cannot be encoded, or it is over the limit. */
  lemma SubmitRefusedIff(c: Config, s: State, encoded: Option<Payload>)
    ensures var (s', r) := SubmitRequest(c, s, encoded);
      && (r.Err? <==> s.phase.Disposed? || encoded.None? || |encoded.value| > c.maxSize)
      && (r.Err? ==> s' == s)
      && (s.phase.Disposed? ==> r == Err(DisposedError))
      && (!s.phase.Disposed? && encoded.None? ==> r == Err(CodecEncodeFailed))
      && (!s.phase.Disposed? && encoded.Some? && |encoded.value| > c.maxSize ==>
            r == Err(MessageTooBig(|encoded.value|, c.maxSize)))
  {
  }

  /**
   * A payload that is taken gets a token and a pending promise, and the session listens. Before
   * initialization it waits. After it, it is sent at once if nothing is in flight or if the batch
   * in flight still has room for its bytes; otherwise it waits behind all that waits already.
   */
  lemma SubmitEffect(c: Config, s: State, encoded: Payload)
    requires !s.phase.Disposed? && |encoded| <= c.maxSize
    ensures var (s', r) := SubmitRequest(c, s, Some(encoded));
      && r == Ok(Id(c.self, s.nextId)) && s'.nextId > s.nextId
      && s'.pending == s.pending + [r.value] && s'.issued == s.issued[r.value := encoded]
      && s'.listening && s'.phase == s.phase && s'.settled == s.settled && s'.delivered == s.delivered
      && if s.phase.Initialization? then SameBatch(s, s') && s'.queue == s.queue + [Queued(encoded, r.value)]
         else if s.outgoing.None? then Sends(c, s, s', [encoded], [r.value]) && s'.queue == s.queue
         else if |Flatten(s.outgoing.value.messages)| + |encoded| <= c.maxSize then
           Sends(c, s, s', s.outgoing.value.messages + [encoded], s.outgoing.value.tokens + [r.value])
           && s'.queue == s.queue
         else SameBatch(s, s') && s'.queue == s.queue + [Queued(encoded, r.value)]
  {
    hide NextExpiry;
    if s.outgoing.Some? {
      SizeIsTotal(s.outgoing.value.messages);
    }
    hide Size;
  }

  // -- Acknowledging -----------------------------------------------------------------------------------

  /** The current request is answered once, with the code given; anything else submits nothing. */
  lemma RespondEffect(c: Config, s: State, id: Id, code: ResponseCode)
    ensures var (s', r) := SubmitResponse(c, s, id, code);
      if !s.phase.Disposed? && !s.responded && s.incoming == Some(id) then
        && r == Ok(()) && s'.responded && s'.incoming == Some(id)
        && |s'.sent| == |s.sent| + 1 && s'.sent[..|s.sent|] == s.sent
        && Says(s'.sent[|s.sent|], Response(id, code))
        && s'.sent[|s.sent|].channel == ResponseChannel && s'.sent[|s.sent|].signer == Some(c.self)
      else
        && s' == s
        && r == (if s.phase.Disposed? then Err(DisposedError) else if s.responded then Ok(())
                 else Err(NoIncomingRequest(id)))
  {
  }

  // -- Receiving ----------------------------------------------------------------------------------------

  /** The statement is new, seals this body, and the prover accepts it. */
  predicate Carries(c: Config, s: State, st: Statement, d: StatementData) {
    s.listening && Says(st, d) && st.data.value !in s.seen && c.verify(st)
  }

  /** The messages of a request: one for each payload, with its index. */
  ghost predicate MessagesOf(d: StatementData, messages: seq<Message>)
    requires d.Request?
  {
    && |messages| == |d.data|
    && forall k :: 0 <= k < |d.data| ==> messages[k] == RequestMessage((d.requestId, k), d.requestId, d.data[k])
  }

  ghost predicate HandedOver(s: State, s': State, messages: seq<Message>) {
    s'.inboxes.Keys == s.inboxes.Keys && forall sub <- s.inboxes :: s'.inboxes[sub] == s.inboxes[sub] + messages
  }

  /** Only the cache may have changed. */
  ghost predicate Unmoved(s: State, s': State) { s' == s.(seen := s'.seen) }

  /** A request is delivered to everyone exactly if it is new, was not the last one, and came on the incoming topic. */
  lemma RequestEffect(c: Config, s: State, st: Statement, responsesOnly: bool, d: StatementData)
    requires Carries(c, s, st, d) && d.Request?
    ensures var s' := Step(c, s, Receive(st, responsesOnly));
      if responsesOnly || s.incoming == Some(d.requestId) then Unmoved(s, s')
      else
        && s'.delivered == s.delivered + [d] && s'.buffered == s.buffered + [d]
        && s'.incoming == Some(d.requestId) && !s'.responded
        && HandedOver(s, s', ToMessages(d)) && MessagesOf(d, ToMessages(d))
        && SameBatch(s, s') && s'.queue == s.queue && s'.pending == s.pending && s'.settled == s.settled
  {
  }

  /** A statement that brings nothing: no data, seen before, refused, not decipherable, or answering no batch of ours. */
  lemma IgnoredEffect(c: Config, s: State, st: Statement, responsesOnly: bool)
    requires forall d :: Carries(c, s, st, d) ==>
      d.Response? && (s.outgoing.None? || s.outgoing.value.requestId != d.requestId)
    ensures Unmoved(s, Step(c, s, Receive(st, responsesOnly)))
  {
    if s.listening && st.data.Some? && st.data.value.Sealed? {
      assert Says(st, st.data.value.body);
    }
  }

  lemma {:induction false} ResolveInOrder(s: State, tokens: seq<Id>, code: ResponseCode)
    requires forall t :: Count(tokens, t) <= Count(s.pending, t)
    ensures ResolveAll(s, tokens, code).settled
         == s.settled + seq(|tokens|, i requires 0 <= i < |tokens| => Settlement(tokens[i], Resolved(code)))
    decreases |tokens|
  {
    if tokens != [] {
      var x := tokens[0];
      CountPositive(s.pending, x);
      assert Count(tokens, x) >= 1;
      var u := s.(pending := Remove(s.pending, x), settled := s.settled + [Settlement(x, Resolved(code))]);
      forall t ensures Count(tokens[1..], t) <= Count(u.pending, t) {
        CountRemove(s.pending, x, t);
        assert Count(tokens, t) <= Count(s.pending, t);
      }
      hide Count;
      hide Remove;
      ResolveInOrder(u, tokens[1..], code);
    }
  }

  /** In every run the tokens of the batch are all pending. */
  lemma BatchIsPending(c: Config, history: seq<Event>)
    ensures var s := Run(c, history); s.outgoing.Some? ==> forall t :: Count(s.outgoing.value.tokens, t) <= Count(s.pending, t)
  {
    forall t ensures var s := Run(c, history); s.outgoing.Some? ==> Count(s.outgoing.value.tokens, t) <= Count(s.pending, t) {
      Conservation(c, history, t);
    }
  }

  /**
   * The acknowledgement of the batch in flight resolves all its promises, in order, with its
   * code; everyone is told; and the next batch is a prefix of the queue, as long as possible.
   */
  lemma AckEffect(c: Config, history: seq<Event>, st: Statement, responsesOnly: bool, d: StatementData) returns (k: nat)
    requires var s := Run(c, history);
      Carries(c, s, st, d) && d.Response? && s.outgoing.Some? && s.outgoing.value.requestId == d.requestId
    ensures var s := Run(c, history); var s' := Step(c, s, Receive(st, responsesOnly)); var tokens := s.outgoing.value.tokens;
      && s'.settled == s.settled + seq(|tokens|, i requires 0 <= i < |tokens| => Settlement(tokens[i], Resolved(d.code)))
      && s'.delivered == s.delivered + [d] && HandedOver(s, s', [ResponseMessage(d.requestId, d.code)])
      && s'.buffered == s.buffered
      && k <= |s.queue| && s'.queue == s.queue[k..] && (s.queue != [] ==> k >= 1)
      && BatchMessages(s') == Payloads(s.queue[..k]) && BatchTokens(s') == QueueTokens(s.queue[..k])
      && (s'.outgoing.Some? <==> k > 0)
      && (k < |s.queue| ==> |Flatten(BatchMessages(s'))| + |s.queue[k].encoded| > c.maxSize)
  {
    hide Run;
    var s := Run(c, history);
    var e := Receive(st, responsesOnly);
    CarriedAck(c, s, e, d);
    BatchIsPending(c, history);
    Conservation(c, history, Id(c.self, 0));
    hide Step;
    hide AcceptsAck;
    hide Carries;
    AckDrains(c, s, e);
    AfterAckEffect(c, s, e, d);
    var u := AfterAck(c, s, e);
    hide AfterAck;
    k := DrainTakesPrefix(c, u);
    DrainKeepsRest(c, u);
    DrainBlocked(c, u);
    assert [] + Payloads(s.queue[..k]) == Payloads(s.queue[..k]);
    assert [] + QueueTokens(s.queue[..k]) == QueueTokens(s.queue[..k]);
    SizeIsTotal(BatchMessages(Step(c, s, e)));
  }

  lemma CarriedAck(c: Config, s: State, e: Event, d: StatementData)
    requires e.Receive? && Carries(c, s, e.statement, d) && d.Response?
    requires s.outgoing.Some? && s.outgoing.value.requestId == d.requestId
    ensures AcceptsAck(c, s, e) && TryDecode(c, e.statement, e.responsesOnly) == Some(d)
  {
  }

  lemma AfterAckEffect(c: Config, s: State, e: Event, d: StatementData)
    requires AcceptsAck(c, s, e) && TryDecode(c, e.statement, e.responsesOnly) == Some(d) && Phased(s)
    requires forall t :: Count(s.outgoing.value.tokens, t) <= Count(s.pending, t)
    ensures var u := AfterAck(c, s, e); var tokens := s.outgoing.value.tokens;
      && u.settled == s.settled + seq(|tokens|, i requires 0 <= i < |tokens| => Settlement(tokens[i], Resolved(d.code)))
      && u.delivered == s.delivered + [d] && HandedOver(s, u, [ResponseMessage(d.requestId, d.code)])
      && u.buffered == s.buffered && u.outgoing.None? && u.queue == s.queue
  {
    hide TryDecode;
    hide Dedup.AddCapped;
    hide ResolveAll;
    var t := s.(seen := Dedup.AddCapped(s.seen, e.statement.data.value));
    ResolvePhase(t, s.outgoing.value.tokens, d.code);
    ResolveInOrder(t, s.outgoing.value.tokens, d.code);
  }

  lemma {:induction false} DrainKeepsRest(c: Config, s: State)
    ensures var s' := ProcessMessageQueue(c, s);
      && s'.settled == s.settled && s'.delivered == s.delivered && s'.inboxes == s.inboxes && s'.buffered == s.buffered
      && s'.incoming == s.incoming && s'.responded == s.responded && s'.listening == s.listening && s'.phase == s.phase
    decreases |s.queue|
  {
    hide ProcessNewMessage;
    hide Fits;
    if s.queue != [] && (s.outgoing.None? || Fits(c, s.outgoing.value, s.queue[0].encoded)) {
      ProcessNewKeepsRest(c, s.(queue := s.queue[1..]), s.queue[0].encoded, s.queue[0].token);
      JoinsBatch(c, s.(queue := s.queue[1..]), s.queue[0].encoded, s.queue[0].token);
      DrainKeepsRest(c, ProcessNewMessage(c, s.(queue := s.queue[1..]), s.queue[0].encoded, s.queue[0].token));
    }
  }

  lemma ProcessNewKeepsRest(c: Config, s: State, encoded: Payload, token: Id)
    ensures var s' := ProcessNewMessage(c, s, encoded, token);
      && s'.settled == s.settled && s'.delivered == s.delivered && s'.inboxes == s.inboxes && s'.buffered == s.buffered
      && s'.incoming == s.incoming && s'.responded == s.responded && s'.listening == s.listening && s'.phase == s.phase
  {
    hide NextExpiry;
    hide Fits;
  }

  /** After draining, whatever heads the queue does not fit the bytes in flight. */
  lemma {:induction false} DrainBlocked(c: Config, s: State)
    ensures HeadBlocked(c, ProcessMessageQueue(c, s))
    decreases |s.queue|
  {
    hide ProcessNewMessage;
    if s.queue != [] && (s.outgoing.None? || Fits(c, s.outgoing.value, s.queue[0].encoded)) {
      JoinsBatch(c, s.(queue := s.queue[1..]), s.queue[0].encoded, s.queue[0].token);
      DrainBlocked(c, ProcessNewMessage(c, s.(queue := s.queue[1..]), s.queue[0].encoded, s.queue[0].token));
    }
  }

  // -- Listening and disposal ------------------------------------------------------------------------------

  /**
   * The session listens from the first subscriber, accepted payload or initialization on, until
   * it is disposed; nothing else changes that.
   */
  lemma ListensIff(c: Config, s: State, e: Event)
    requires Phased(s)
    ensures Step(c, s, e).listening <==>
      && !s.phase.Disposed? && !e.Close?
      && (s.listening
          || (e.Attach? && e.sub !in s.inboxes)
          || (e.Submit? && e.encoded.Some? && |e.encoded.value| <= c.maxSize)
          || (e.Init? && s.phase.Initialization?))
  {
    hide ProcessNewMessage;
    hide ProcessMessageQueue;
    hide RestoreOutgoing;
    hide RestoreIncoming;
    hide ReceiveStatement;
    match e
    case Submit(encoded) =>
      if encoded.Some? {
        var token := Id(c.self, s.nextId);
        var t := EnsureListening(s).(nextId := s.nextId + 1, issued := s.issued[token := encoded.value],
                                     pending := s.pending + [token]);
        ProcessNewKeepsRest(c, t, encoded.value, token);
      }
    case Receive(st, responsesOnly) => ReceiveListens(c, s, e);
    case Init(own, peer) =>
      var t := s.(expiry := MaxExpiry(own), seen := Dedup.AddAll(s.seen, DataKeys(own + peer)));
      DrainKeepsRest(c, RestoreIncoming(c, RestoreOutgoing(c, t, own), peer).(phase := Active));
    case _ =>
  }

  lemma ReceiveListens(c: Config, s: State, e: Event)
    requires e.Receive?
    ensures Step(c, s, e).listening == s.listening
  {
    hide Step;
    hide AcceptsAck;
    if AcceptsAck(c, s, e) {
      AckDrains(c, s, e);
      AckListens(c, s, e);
      DrainKeepsRest(c, AfterAck(c, s, e));
    } else {
      QuietShape(c, s, e);
    }
  }

  lemma AckListens(c: Config, s: State, e: Event)
    requires AcceptsAck(c, s, e)
    ensures AfterAck(c, s, e).listening == s.listening
  {
    hide TryDecode;
    var d := TryDecode(c, e.statement, e.responsesOnly).value;
    ResolvePhase(s.(seen := Dedup.AddCapped(s.seen, e.statement.data.value)), s.outgoing.value.tokens, d.code);
  }

  /** A subscriber is attached from `subscribe` until it is detached, and others are not affected. */
  lemma SubscriberEffect(c: Config, s: State, sub: SubscriberId)
    ensures var t := Step(c, s, Attach(sub));
      && t.inboxes.Keys == s.inboxes.Keys + {sub}
      && forall other <- s.inboxes :: t.inboxes[other] == s.inboxes[other]
    ensures var t := Step(c, s, Detach(sub));
      && t.inboxes.Keys == s.inboxes.Keys - {sub}
      && forall other <- t.inboxes :: t.inboxes[other] == s.inboxes[other]
  {
  }

  /** Disposal rejects every pending promise, once and in order, and lets go of everything else. */
  lemma CloseEffect(c: Config, s: State)
    requires !s.phase.Disposed?
    ensures var s' := Step(c, s, Close);
      && s'.phase.Disposed? && s'.inboxes == map[] && s'.buffered == [] && s'.queue == [] && s'.outgoing.None?
      && s'.settled == s.settled + seq(|s.pending|, i requires 0 <= i < |s.pending| => Settlement(s.pending[i], Rejected))
      && s'.sent == s.sent && s'.delivered == s.delivered
  {
  }

  ghost predicate Silent(s: State, t: State) {
    && t.phase.Disposed? && !t.listening && t.buffered == []
    && t.sent == s.sent && t.settled == s.settled && t.delivered == s.delivered
    && forall sub <- t.inboxes :: t.inboxes[sub] == []
  }

  /** After disposal nothing is ever submitted, settled, delivered or handed over again. */
  lemma {:induction false} DisposedForGood(c: Config, evs: seq<Event>, later: seq<Event>)
    requires !Run(c, evs).phase.Disposed?
    ensures Silent(Step(c, Run(c, evs), Close), Run(c, evs + [Close] + later))
    decreases |later|
  {
    var t := Step(c, Run(c, evs), Close);
    if later == [] {
      assert evs + [Close] + later == evs + [Close] && (evs + [Close])[..|evs|] == evs;
    } else {
      var n := |later| - 1;
      DisposedForGood(c, evs, later[..n]);
      assert (evs + [Close] + later)[..|evs + [Close] + later| - 1] == evs + [Close] + later[..n];
      StepSilent(c, t, Run(c, evs + [Close] + later[..n]), later[n]);
    }
  }

  lemma StepSilent(c: Config, s: State, t: State, e: Event)
    requires Silent(s, t)
    ensures Silent(s, Step(c, t, e))
  {
    hide ProcessNewMessage;
    hide ProcessMessageQueue;
    assert Replay([]) == [];
  }
}
