/**
 * End-to-end soundness of acknowledgements: two sessions and a store that may reorder,
 * duplicate, delay or drop statements, but cannot forge a signature.
 */
module SessionPair {
  import opened Common
  import opened SessionState
  import opened SessionConservation
  import opened SessionQueue
  import Dedup

  // -- What one session says on its own account ---------------------------------------------

  /** A statement with this body was submitted. */
  ghost predicate Sent(s: State, d: StatementData) {
    exists i :: 0 <= i < |s.sent| && Says(s.sent[i], d)
  }

  /** A request with this wire id was delivered. */
  ghost predicate Heard(s: State, id: Id) {
    exists i :: 0 <= i < |s.delivered| && s.delivered[i].Request? && s.delivered[i].requestId == id
  }

  ghost predicate IsRequest(st: Statement) {
    st.data.Some? && st.data.value.Sealed? && st.data.value.body.Request?
  }

  ghost predicate IsResponse(st: Statement) {
    st.data.Some? && st.data.value.Sealed? && st.data.value.body.Response?
  }

  ghost predicate Signed(c: Config, s: State) {
    forall i :: 0 <= i < |s.sent| ==> s.sent[i].signer == Some(c.self)
  }

  /** No wire id is used for two different requests. */
  ghost predicate Numbered(c: Config, s: State) {
    && (forall i :: 0 <= i < |s.sent| && IsRequest(s.sent[i]) ==>
          s.sent[i].data.value.body.requestId.session == c.self && s.sent[i].data.value.body.requestId.n < s.nextId)
    && (forall i, j :: 0 <= i < j < |s.sent| && IsRequest(s.sent[i]) && IsRequest(s.sent[j]) ==>
          s.sent[i].data.value.body.requestId != s.sent[j].data.value.body.requestId)
  }

  /** The messages end with the payloads of the tokens, in order. */
  ghost predicate Carries(messages: seq<Payload>, tokens: seq<Id>, issued: map<Id, Payload>) {
    && |tokens| <= |messages|
    && forall i :: 0 <= i < |tokens| ==>
         tokens[i] in issued && issued[tokens[i]] == messages[|messages| - |tokens| + i]
  }

  /** A batch that holds tokens was sent under its current wire id and carries their payloads. */
  ghost predicate InFlight(c: Config, s: State) {
    s.outgoing.Some? && s.outgoing.value.tokens != [] ==>
      && s.outgoing.value.requestId.session == c.self
      && Sent(s, Request(s.outgoing.value.requestId, s.outgoing.value.messages))
      && Carries(s.outgoing.value.messages, s.outgoing.value.tokens, s.issued)
  }

  ghost predicate Known(c: Config, s: State) {
    && (forall t <- s.issued :: t.session == c.self && t.n < s.nextId)
    && (forall i :: 0 <= i < |s.queue| ==>
          s.queue[i].token in s.issued && s.issued[s.queue[i].token] == s.queue[i].encoded)
  }

  ghost predicate Outbound(c: Config, s: State) {
    Signed(c, s) && Numbered(c, s) && InFlight(c, s) && Known(c, s)
  }

  /** Only requests that were delivered are answered, or may still be. */
  ghost predicate Inbound(s: State) {
    && (forall i | 0 <= i < |s.sent| && IsResponse(s.sent[i]) :: Heard(s, s.sent[i].data.value.body.requestId))
    && (s.incoming.Some? && !s.responded ==> Heard(s, s.incoming.value))
  }

  /** History only grows. */
  ghost predicate Grows(s: State, s': State) {
    && |s.sent| <= |s'.sent| && s'.sent[..|s.sent|] == s.sent
    && |s.delivered| <= |s'.delivered| && s'.delivered[..|s.delivered|] == s.delivered
    && (forall t <- s.issued :: t in s'.issued && s'.issued[t] == s.issued[t])
  }

  lemma GrowsSent(s: State, s': State, d: StatementData)
    requires Grows(s, s') && Sent(s, d)
    ensures Sent(s', d)
  {
    var i :| 0 <= i < |s.sent| && Says(s.sent[i], d);
    assert s'.sent[i] == s.sent[i];
  }

  lemma GrowsHeard(s: State, s': State, id: Id)
    requires Grows(s, s') && Heard(s, id)
    ensures Heard(s', id)
  {
    var i :| 0 <= i < |s.delivered| && s.delivered[i].Request? && s.delivered[i].requestId == id;
    assert s'.delivered[i] == s.delivered[i];
  }

  // -- Sending keeps both halves --------------------------------------------------------------

  /** Only requests were added; nothing else that the inbound half speaks of has changed. */
  ghost predicate Requested(s: State, s': State) {
    && |s.sent| <= |s'.sent| && s'.sent[..|s.sent|] == s.sent
    && (forall i :: |s.sent| <= i < |s'.sent| ==> IsRequest(s'.sent[i]))
    && s'.delivered == s.delivered && s'.incoming == s.incoming && s'.responded == s.responded
    && s'.issued == s.issued && s'.settled == s.settled
  }

  lemma RequestedInbound(s: State, s': State)
    requires Requested(s, s') && Inbound(s)
    ensures Inbound(s')
  {
    forall i | 0 <= i < |s'.sent| && IsResponse(s'.sent[i])
      ensures Heard(s', s'.sent[i].data.value.body.requestId)
    {
      assert s'.sent[i] == s.sent[i];
    }
  }

  lemma RequestedTwice(s: State, t: State, u: State)
    requires Requested(s, t) && Requested(t, u)
    ensures Requested(s, u)
  {
    assert u.sent[..|s.sent|] == u.sent[..|t.sent|][..|s.sent|];
    forall i | |s.sent| <= i < |u.sent| ensures IsRequest(u.sent[i]) {
      if i < |t.sent| {
        assert u.sent[i] == t.sent[i];
      }
    }
  }

  lemma SendBatchOutbound(c: Config, s: State, messages: seq<Payload>, tokens: seq<Id>)
    requires Outbound(c, s) && Carries(messages, tokens, s.issued)
    ensures Outbound(c, SendBatch(c, s, messages, tokens)) && Requested(s, SendBatch(c, s, messages, tokens))
    ensures SendBatch(c, s, messages, tokens).queue == s.queue
  {
    hide NextExpiry;
    var s' := SendBatch(c, s, messages, tokens);
    var n := |s.sent|;
    assert s'.sent[..n] == s.sent;
    assert Says(s'.sent[n], Request(Id(c.self, s.nextId), messages));
    assert forall i :: 0 <= i < n ==> s'.sent[i] == s.sent[i];
  }

  lemma ProcessNewOutbound(c: Config, s: State, encoded: Payload, token: Id)
    requires Outbound(c, s) && token in s.issued && s.issued[token] == encoded
    ensures var s' := ProcessNewMessage(c, s, encoded, token); Outbound(c, s') && Requested(s, s')
  {
    if s.outgoing.None? {
      SendBatchOutbound(c, s, [encoded], [token]);
    } else if Fits(c, s.outgoing.value, encoded) {
      SendBatchOutbound(c, s, s.outgoing.value.messages + [encoded], s.outgoing.value.tokens + [token]);
    }
  }

  lemma {:induction false} DrainOutbound(c: Config, s: State)
    requires Outbound(c, s)
    ensures var s' := ProcessMessageQueue(c, s); Outbound(c, s') && Requested(s, s')
    decreases |s.queue|
  {
    if s.queue != [] && (s.outgoing.None? || Fits(c, s.outgoing.value, s.queue[0].encoded)) {
      var u := s.(queue := s.queue[1..]);
      JoinsBatch(c, u, s.queue[0].encoded, s.queue[0].token);
      ProcessNewOutbound(c, u, s.queue[0].encoded, s.queue[0].token);
      var v := ProcessNewMessage(c, u, s.queue[0].encoded, s.queue[0].token);
      DrainOutbound(c, v);
      RequestedTwice(s, v, ProcessMessageQueue(c, v));
    }
  }

  // -- What one step adds ---------------------------------------------------------------------

  /** The event brought a statement that decodes to d. */
  ghost predicate Brings(c: Config, e: Event, d: StatementData) {
    match e
    case Receive(statement, responsesOnly) => TryDecode(c, statement, responsesOnly) == Some(d)
    case Init(_, peer) => exists i :: 0 <= i < |peer| && TryDecode(c, peer[i], false) == Some(d)
    case _ => false
  }

  /** All that a step adds to the deliveries was brought by its event. */
  ghost predicate Brought(c: Config, s: State, e: Event, s': State) {
    s'.delivered == s.delivered ||
    exists d | Brings(c, e, d) :: s'.delivered == s.delivered + [d]
  }

  /** A step resolves promises only as an accepted ACK: the tokens of the batch, with its code. */
  ghost predicate Resolves(c: Config, s: State, e: Event, s': State) {
    forall x <- s'.settled | x !in s.settled && x.outcome.Resolved? ::
      && AcceptsAck(c, s, e)
      && x.token in s.outgoing.value.tokens
      && x.outcome.code == TryDecode(c, e.statement, e.responsesOnly).value.code
  }

  ghost predicate Kept(c: Config, s: State, e: Event, s': State) {
    Outbound(c, s') && Inbound(s') && Grows(s, s') && Brought(c, s, e, s') && Resolves(c, s, e, s')
  }

  lemma RequestedKept(c: Config, s: State, e: Event, s': State)
    requires Outbound(c, s') && Inbound(s) && Requested(s, s')
    ensures Kept(c, s, e, s')
  {
    RequestedInbound(s, s');
  }

  lemma SubmitKept(c: Config, s: State, encoded: Option<Payload>)
    requires Outbound(c, s) && Inbound(s)
    ensures Kept(c, s, Submit(encoded), Step(c, s, Submit(encoded)))
  {
    hide ProcessNewMessage;
    var (s', r) := SubmitRequest(c, s, encoded);
    if r.Ok? {
      var token := r.value;
      var t := EnsureListening(s).(nextId := s.nextId + 1, issued := s.issued[token := encoded.value],
                                   pending := s.pending + [token]);
      IssueOutbound(c, s, t, encoded.value);
      if s.phase.Initialization? {
        QueueOutbound(c, t, encoded.value, token);
      } else {
        ProcessNewOutbound(c, t, encoded.value, token);
        assert s' == ProcessNewMessage(c, t, encoded.value, token);
        RequestedKept(c, t, Submit(encoded), s');
      }
      KeptAfterIssue(c, s, t, Submit(encoded), s');
    }
  }

  lemma KeptAfterIssue(c: Config, s: State, t: State, e: Event, s': State)
    requires Kept(c, t, e, s') && Grows(s, t) && !e.Receive?
    requires t.sent == s.sent && t.delivered == s.delivered && t.settled == s.settled
    ensures Kept(c, s, e, s')
  {
  }

  lemma QueueOutbound(c: Config, t: State, encoded: Payload, token: Id)
    requires Outbound(c, t) && token in t.issued && t.issued[token] == encoded
    ensures Outbound(c, t.(queue := t.queue + [Queued(encoded, token)]))
  {
  }

  lemma IssueOutbound(c: Config, s: State, t: State, encoded: Payload)
    requires Outbound(c, s) && Inbound(s)
    requires t == s.(nextId := s.nextId + 1, issued := s.issued[Id(c.self, s.nextId) := encoded],
                     pending := t.pending, listening := t.listening)
    ensures Outbound(c, t) && Inbound(t) && Grows(s, t)
  {
    assert Id(c.self, s.nextId) !in s.issued;
  }

  lemma RespondKept(c: Config, s: State, id: Id, code: ResponseCode)
    requires Outbound(c, s) && Inbound(s)
    ensures Kept(c, s, Respond(id, code), Step(c, s, Respond(id, code)))
  {
    hide NextExpiry;
    var s' := SubmitResponse(c, s, id, code).0;
    if s'.sent != s.sent {
      var n := |s.sent|;
      assert s'.sent[..n] == s.sent;
      assert Says(s'.sent[n], Response(id, code));
      assert forall i :: 0 <= i < n ==> s'.sent[i] == s.sent[i];
      GrowsOutbound(c, s, s');
    }
  }

  /** A response added to what was sent leaves the outbound half as it was. */
  lemma GrowsOutbound(c: Config, s: State, s': State)
    requires Outbound(c, s) && Grows(s, s') && |s'.sent| == |s.sent| + 1
    requires !IsRequest(s'.sent[|s.sent|]) && s'.sent[|s.sent|].signer == Some(c.self)
    requires s'.nextId == s.nextId && s'.outgoing == s.outgoing && s'.queue == s.queue && s'.issued == s.issued
    ensures Outbound(c, s')
  {
    assert forall i :: 0 <= i < |s.sent| ==> s'.sent[i] == s.sent[i];
    if s.outgoing.Some? && s.outgoing.value.tokens != [] {
      GrowsSent(s, s', Request(s.outgoing.value.requestId, s.outgoing.value.messages));
    }
  }

  /** Delivering a request makes it one that may be answered. */
  lemma DeliverInbound(s: State, d: StatementData)
    requires Inbound(s.(incoming := None))
    requires (d.Request? && s.incoming == Some(d.requestId)) || Inbound(s)
    ensures Inbound(Deliver(s, d)) && Grows(s, Deliver(s, d)) && Deliver(s, d).delivered == s.delivered + [d]
  {
    DeliverShape(s, d);
    var s' := Deliver(s, d);
    hide Deliver;
    assert s'.delivered[|s.delivered|] == d;
    forall id | Heard(s, id) ensures Heard(s', id) {
      GrowsHeard(s, s', id);
    }
  }

  /** What is settled after the batch's promises have been resolved. */
  lemma {:induction false} ResolvedTokens(s: State, tokens: seq<Id>, code: ResponseCode)
    ensures forall x <- ResolveAll(s, tokens, code).settled | x !in s.settled ::
      x.token in tokens && x.outcome == Resolved(code)
    decreases |tokens|
  {
    if tokens != [] {
      var t := if tokens[0] in s.pending
               then s.(pending := Remove(s.pending, tokens[0]),
                       settled := s.settled + [Settlement(tokens[0], Resolved(code))])
               else s;
      ResolvedTokens(t, tokens[1..], code);
    }
  }

  lemma AfterAckKept(c: Config, s: State, e: Event)
    requires AcceptsAck(c, s, e) && Outbound(c, s) && Inbound(s)
    ensures Kept(c, s, e, AfterAck(c, s, e))
  {
    var d := TryDecode(c, e.statement, e.responsesOnly).value;
    var t := s.(seen := Dedup.AddCapped(s.seen, e.statement.data.value));
    ResolvePhase(t, s.outgoing.value.tokens, d.code);
    ResolvedTokens(t, s.outgoing.value.tokens, d.code);
    var u := ResolveAll(t, s.outgoing.value.tokens, d.code).(outgoing := None);
    hide TryDecode;
    hide ResolveAll;
    hide Dedup.AddCapped;
    DeliverInbound(u, d);
    DeliverShape(u, d);
    hide Deliver;
    assert Outbound(c, AfterAck(c, s, e));
  }

  lemma KeptThenRequested(c: Config, s: State, e: Event, t: State, u: State)
    requires Kept(c, s, e, t) && Requested(t, u) && Outbound(c, u)
    ensures Kept(c, s, e, u)
  {
    RequestedInbound(t, u);
    assert u.sent[..|s.sent|] == u.sent[..|t.sent|][..|s.sent|];
  }

  lemma ReceiveKept(c: Config, s: State, e: Event)
    requires e.Receive? && Outbound(c, s) && Inbound(s)
    ensures Kept(c, s, e, Step(c, s, e))
  {
    if AcceptsAck(c, s, e) {
      AckDrains(c, s, e);
      AfterAckKept(c, s, e);
      DrainOutbound(c, AfterAck(c, s, e));
      KeptThenRequested(c, s, e, AfterAck(c, s, e), Step(c, s, e));
    } else {
      QuietKept(c, s, e);
    }
  }

  /** A new request is delivered: it may be answered from then on. */
  lemma DeliverKept(c: Config, s: State, e: Event, v: State, d: StatementData)
    requires Outbound(c, s) && Inbound(s) && d.Request? && Brings(c, e, d)
    requires v == s.(seen := v.seen, incoming := Some(d.requestId), responded := false)
    ensures Kept(c, s, e, Deliver(v, d))
  {
    DeliverInbound(v, d);
    DeliverShape(v, d);
    hide Deliver;
    hide Brings;
    assert Outbound(c, Deliver(v, d));
  }

  lemma QuietKept(c: Config, s: State, e: Event)
    requires e.Receive? && !AcceptsAck(c, s, e) && Outbound(c, s) && Inbound(s)
    ensures Kept(c, s, e, Step(c, s, e))
  {
    QuietShape(c, s, e);
    hide Step;
    hide AcceptsAck;
    hide TryDecode;
    var s' := Step(c, s, e);
    var d := TryDecode(c, e.statement, e.responsesOnly);
    if s' != s.(seen := s'.seen) {
      var t := s.(seen := s'.seen, incoming := Some(d.value.requestId), responded := false);
      DeliverKept(c, s, e, t, d.value);
    }
  }

  lemma {:induction false} DecodedComesFrom(c: Config, statements: seq<Statement>)
    ensures forall d <- Decoded(c, statements) ::
      exists i :: 0 <= i < |statements| && TryDecode(c, statements[i], false) == Some(d)
  {
    if statements != [] {
      var n := |statements| - 1;
      DecodedComesFrom(c, statements[..n]);
      forall d | d in Decoded(c, statements)
        ensures exists i :: 0 <= i < |statements| && TryDecode(c, statements[i], false) == Some(d)
      {
        if d in Decoded(c, statements[..n]) {
          var i :| 0 <= i < n && TryDecode(c, statements[..n][i], false) == Some(d);
          assert statements[i] == statements[..n][i];
        } else {
          assert TryDecode(c, statements[n], false) == Some(d);
        }
      }
    }
  }

  lemma {:induction false} FoundIn(decoded: seq<StatementData>, wantRequest: bool)
    ensures var f := Find(decoded, wantRequest); f.Some? ==> f.value in decoded && f.value.Request? == wantRequest
  {
    if decoded != [] && decoded[0].Request? != wantRequest {
      FoundIn(decoded[1..], wantRequest);
    }
  }

  /** A restored batch has no tokens, so it promises nothing. */
  lemma RestoreOutgoingKept(c: Config, s: State, own: seq<Statement>)
    requires Outbound(c, s) && Inbound(s) && s.outgoing.None?
    ensures var t := RestoreOutgoing(c, s, own);
      Outbound(c, t) && Inbound(t) && t == s.(outgoing := t.outgoing)
  {
    hide Decoded;
    hide Find;
    hide Answers;
  }

  lemma RestoreIncomingKept(c: Config, s: State, own: seq<Statement>, peer: seq<Statement>)
    requires Outbound(c, s) && Inbound(s)
    ensures Kept(c, s, Init(own, peer), RestoreIncoming(c, s, peer))
  {
    var request := Find(Decoded(c, peer), true);
    if request.Some? {
      DecodedComesFrom(c, peer);
      FoundIn(Decoded(c, peer), true);
      assert Brings(c, Init(own, peer), request.value);
      var answered := Answers(Find(Decoded(c, peer), false), request.value);
      var v := s.(incoming := Some(request.value.requestId), responded := answered);
      if answered {
        assert Outbound(c, v) && Inbound(v);
      } else {
        DeliverKept(c, s, Init(own, peer), v, request.value);
      }
    }
  }

  /** The history of two states is the same. */
  ghost predicate SameHistory(s: State, t: State) {
    s.sent == t.sent && s.delivered == t.delivered && s.issued == t.issued && s.settled == t.settled
  }

  lemma KeptFromSame(c: Config, s: State, r: State, e: Event, t: State)
    requires Kept(c, r, e, t) && SameHistory(s, r) && e.Init?
    ensures Kept(c, s, e, t)
  {
  }

  lemma KeptToSame(c: Config, s: State, e: Event, t: State, u: State)
    requires Kept(c, s, e, t) && u == t.(phase := u.phase, listening := u.listening)
    ensures Kept(c, s, e, u)
  {
  }

  /** Initialization first takes note of the expiry and of what it has read. */
  lemma NotedKept(c: Config, s: State, own: seq<Statement>, peer: seq<Statement>)
    requires Outbound(c, s) && Inbound(s)
    ensures var r := s.(expiry := MaxExpiry(own), seen := Dedup.AddAll(s.seen, DataKeys(own + peer)));
      Outbound(c, r) && Inbound(r)
  {
  }

  lemma InitKept(c: Config, s: State, own: seq<Statement>, peer: seq<Statement>)
    requires Outbound(c, s) && Inbound(s) && Phased(s)
    ensures Kept(c, s, Init(own, peer), Step(c, s, Init(own, peer)))
  {
    hide Outbound;
    hide Inbound;
    hide RestoreIncoming;
    hide RestoreOutgoing;
    hide ProcessMessageQueue;
    hide Grows;
    var e := Init(own, peer);
    if s.phase.Initialization? {
      NotedKept(c, s, own, peer);
      var r := s.(expiry := MaxExpiry(own), seen := Dedup.AddAll(s.seen, DataKeys(own + peer)));
      RestoreOutgoingKept(c, r, own);
      var t := RestoreOutgoing(c, r, own);
      RestoreIncomingKept(c, t, own, peer);
      var u := RestoreIncoming(c, t, peer);
      var v := ProcessMessageQueue(c, u.(phase := Active));
      assert Step(c, s, e) == EnsureListening(v);
      KeptFromSame(c, s, t, e, u);
      KeptToSame(c, s, e, u, u.(phase := Active));
      DrainOutbound(c, u.(phase := Active));
      KeptThenRequested(c, s, e, u.(phase := Active), v);
      KeptToSame(c, s, e, v, EnsureListening(v));
    } else {
      NothingKept(c, s, e);
    }
  }

  lemma NothingKept(c: Config, s: State, e: Event)
    requires Outbound(c, s) && Inbound(s)
    ensures Kept(c, s, e, s)
  {
  }

  lemma CloseKept(c: Config, s: State)
    requires Outbound(c, s) && Inbound(s)
    ensures Kept(c, s, Close, Step(c, s, Close))
  {
  }

  lemma SubscriberKept(c: Config, s: State, e: Event)
    requires Outbound(c, s) && Inbound(s) && (e.Attach? || e.Detach?)
    ensures Kept(c, s, e, Step(c, s, e))
  {
    hide Outbound;
    hide Inbound;
    var s' := Step(c, s, e);
    assert s' == s.(inboxes := s'.inboxes, listening := s'.listening);
    SubscribersApart(c, s, s');
    assert Resolves(c, s, e, s') && Grows(s, s') && Brought(c, s, e, s');
  }

  lemma SubscribersApart(c: Config, s: State, s': State)
    requires Outbound(c, s) && Inbound(s) && s' == s.(inboxes := s'.inboxes, listening := s'.listening)
    ensures Outbound(c, s') && Inbound(s')
  {
  }

  lemma StepKept(c: Config, s: State, e: Event)
    requires Outbound(c, s) && Inbound(s) && Phased(s)
    ensures Kept(c, s, e, Step(c, s, e))
  {
    hide *;
    match e
    case Submit(encoded) => SubmitKept(c, s, encoded);
    case Respond(id, code) => RespondKept(c, s, id, code);
    case Receive(_, _) => ReceiveKept(c, s, e);
    case Init(own, peer) => InitKept(c, s, own, peer);
    case Close => CloseKept(c, s);
    case _ => SubscriberKept(c, s, e);
  }

  // -- Two sessions and a store -----------------------------------------------------------------

  datatype Pair = Pair(a: State, b: State)

  /** `others` are statements of other accounts, and of the two accounts' earlier sessions. */
  datatype World = World(a: Config, b: Config, others: iset<Statement>)

  datatype Move = AtA(e: Event) | AtB(e: Event)

  /**
   * Signatures cannot be forged: each prover accepts only what the peer signed; and what the
   * two accounts signed outside the two sessions does not mention wire ids of these sessions.
   */
  ghost predicate Trusted(w: World) {
    && w.a.self != w.b.self
    && (forall st | w.a.verify(st) :: st.signer == Some(w.b.self))
    && (forall st | w.b.verify(st) :: st.signer == Some(w.a.self))
    && (forall st <- w.others | st.signer == Some(w.a.self) || st.signer == Some(w.b.self) :: Elsewhere(w, st))
  }

  ghost predicate Elsewhere(w: World, st: Statement) {
    st.data.Some? && st.data.value.Sealed? ==>
      var session := st.data.value.body.requestId.session;
      session != w.a.self && session != w.b.self
  }

  /** The store can hand out whatever has been submitted to it, at any time, any number of times. */
  ghost predicate InStore(w: World, p: Pair, st: Statement) {
    st in w.others || st in p.a.sent || st in p.b.sent
  }

  ghost predicate Offered(w: World, p: Pair, e: Event) {
    match e
    case Receive(st, _) => InStore(w, p, st)
    case Init(own, peer) =>
      && (forall i :: 0 <= i < |own| ==> InStore(w, p, own[i]))
      && (forall i :: 0 <= i < |peer| ==> InStore(w, p, peer[i]))
    case _ => true
  }

  ghost predicate Possible(w: World, p: Pair, m: Move) { Offered(w, p, m.e) }

  function PairStep(w: World, p: Pair, m: Move): Pair {
    match m
    case AtA(e) => p.(a := Step(w.a, p.a, e))
    case AtB(e) => p.(b := Step(w.b, p.b, e))
  }

  function PairRun(w: World, moves: seq<Move>): Pair {
    if moves == [] then Pair(Initial, Initial)
    else PairStep(w, PairRun(w, moves[..|moves| - 1]), moves[|moves| - 1])
  }

  ghost predicate Legal(w: World, moves: seq<Move>) {
    moves != [] ==>
      && Legal(w, moves[..|moves| - 1])
      && Possible(w, PairRun(w, moves[..|moves| - 1]), moves[|moves| - 1])
  }

  // -- Invariant of the pair ----------------------------------------------------------------------

  /** Every delivered request with a wire id of the peer's session was sent by the peer. */
  ghost predicate Believes(s: State, peer: Account, p: State) {
    forall i :: 0 <= i < |s.delivered| && s.delivered[i].Request? && s.delivered[i].requestId.session == peer ==>
      Sent(p, s.delivered[i])
  }

  ghost predicate Local(c: Config, s: State) { Outbound(c, s) && Inbound(s) && Phased(s) }

  ghost predicate PairInv(w: World, p: Pair) {
    && Local(w.a, p.a) && Local(w.b, p.b)
    && Believes(p.a, w.b.self, p.b) && Believes(p.b, w.a.self, p.a)
  }

  /** One side of the world as a side sees it: what it is offered comes from itself, its peer or elsewhere. */
  ghost predicate Genuine(c: Config, s: State, peer: Config, p: State, st: Statement) {
    st.signer == Some(peer.self) && st.data.Some? && st.data.value.Sealed? ==>
      || (st.data.value.body.requestId.session != c.self && st.data.value.body.requestId.session != peer.self)
      || Sent(p, st.data.value.body)
  }

  ghost predicate AllGenuine(c: Config, s: State, peer: Config, p: State, e: Event) {
    match e
    case Receive(st, _) => Genuine(c, s, peer, p, st)
    case Init(_, read) => forall i :: 0 <= i < |read| ==> Genuine(c, s, peer, p, read[i])
    case _ => true
  }

  lemma BringsGenuine(c: Config, s: State, peer: Config, p: State, e: Event, d: StatementData)
    requires forall st | c.verify(st) :: st.signer == Some(peer.self)
    requires AllGenuine(c, s, peer, p, e) && Brings(c, e, d)
    requires d.requestId.session == c.self || d.requestId.session == peer.self
    ensures Sent(p, d)
  {
  }

  lemma SideBelieves(c: Config, s: State, peer: Config, p: State, e: Event, s': State)
    requires forall st | c.verify(st) :: st.signer == Some(peer.self)
    requires AllGenuine(c, s, peer, p, e) && Brought(c, s, e, s') && Believes(s, peer.self, p)
    ensures Believes(s', peer.self, p)
  {
    if s'.delivered != s.delivered {
      var d :| Brings(c, e, d) && s'.delivered == s.delivered + [d];
      if d.requestId.session == peer.self {
        BringsGenuine(c, s, peer, p, e, d);
      }
    }
  }

  /** The heart: an accepted ACK of a batch with tokens answers what the peer really delivered. */
  lemma AckIsSound(c: Config, s: State, peer: Config, p: State, e: Event, token: Id) returns (i: nat)
    requires forall st | c.verify(st) :: st.signer == Some(peer.self)
    requires AllGenuine(c, s, peer, p, e) && AcceptsAck(c, s, e)
    requires Outbound(c, s) && Inbound(p) && Believes(p, c.self, s)
    requires token in s.outgoing.value.tokens
    ensures i < |p.delivered|
    ensures p.delivered[i] == Request(s.outgoing.value.requestId, s.outgoing.value.messages)
    ensures token in s.issued && s.issued[token] in s.outgoing.value.messages
    ensures Sent(p, TryDecode(c, e.statement, e.responsesOnly).value)
  {
    var d := TryDecode(c, e.statement, e.responsesOnly).value;
    var b := s.outgoing.value;
    assert Brings(c, e, d);
    BringsGenuine(c, s, peer, p, e, d);
    assert Heard(p, b.requestId);
    i :| 0 <= i < |p.delivered| && p.delivered[i].Request? && p.delivered[i].requestId == b.requestId;
    SameIdSameRequest(c, s, p.delivered[i], Request(b.requestId, b.messages));
  }

  lemma SameIdSameRequest(c: Config, s: State, d: StatementData, d': StatementData)
    requires Numbered(c, s) && Sent(s, d) && Sent(s, d')
    requires d.Request? && d'.Request? && d.requestId == d'.requestId
    ensures d == d'
  {
    var i :| 0 <= i < |s.sent| && Says(s.sent[i], d);
    var j :| 0 <= j < |s.sent| && Says(s.sent[j], d');
    assert IsRequest(s.sent[i]) && IsRequest(s.sent[j]);
  }

  lemma GrowsItself(s: State)
    ensures Grows(s, s)
  {
  }

  /** What the peer believed stays so while this side moves on. */
  lemma PeerUnaffected(c: Config, s: State, p: State, s': State)
    requires Grows(s, s') && Believes(p, c.self, s)
    ensures Believes(p, c.self, s')
  {
    forall i | 0 <= i < |p.delivered| && p.delivered[i].Request? && p.delivered[i].requestId.session == c.self
      ensures Sent(s', p.delivered[i])
    {
      GrowsSent(s, s', p.delivered[i]);
    }
  }

  lemma SideStep(c: Config, s: State, peer: Config, p: State, e: Event)
    requires forall st | c.verify(st) :: st.signer == Some(peer.self)
    requires AllGenuine(c, s, peer, p, e) && Local(c, s) && Local(peer, p)
    requires Believes(s, peer.self, p) && Believes(p, c.self, s)
    ensures var s' := Step(c, s, e);
      && Local(c, s') && Believes(s', peer.self, p) && Believes(p, c.self, s')
  {
    StepKept(c, s, e);
    StepPhased(c, s, e);
    hide Step;
    hide Outbound;
    hide Inbound;
    SideBelieves(c, s, peer, p, e, Step(c, s, e));
    PeerUnaffected(c, s, p, Step(c, s, e));
  }

  lemma StoredGenuineForA(w: World, p: Pair, st: Statement)
    requires Trusted(w) && PairInv(w, p) && InStore(w, p, st)
    ensures Genuine(w.a, p.a, w.b, p.b, st)
  {
  }

  lemma StoredGenuineForB(w: World, p: Pair, st: Statement)
    requires Trusted(w) && PairInv(w, p) && InStore(w, p, st)
    ensures Genuine(w.b, p.b, w.a, p.a, st)
  {
  }

  lemma MoveKeepsInv(w: World, p: Pair, m: Move)
    requires Trusted(w) && PairInv(w, p) && Possible(w, p, m)
    ensures PairInv(w, PairStep(w, p, m))
  {
    forall st | InStore(w, p, st) ensures Genuine(w.a, p.a, w.b, p.b, st) && Genuine(w.b, p.b, w.a, p.a, st) {
      StoredGenuineForA(w, p, st);
      StoredGenuineForB(w, p, st);
    }
    hide Genuine;
    hide InStore;
    hide Local;
    hide Believes;
    hide Step;
    match m
    case AtA(e) => SideStep(w.a, p.a, w.b, p.b, e);
    case AtB(e) => SideStep(w.b, p.b, w.a, p.a, e);
  }

  lemma {:induction false} PairInvariant(w: World, moves: seq<Move>)
    requires Trusted(w) && Legal(w, moves)
    ensures PairInv(w, PairRun(w, moves))
  {
    if moves != [] {
      PairInvariant(w, moves[..|moves| - 1]);
      MoveKeepsInv(w, PairRun(w, moves[..|moves| - 1]), moves[|moves| - 1]);
    }
  }

  // -- What a resolved promise means ----------------------------------------------------------------

  datatype Side = SideA | SideB

  function Mine(p: Pair, side: Side): State { if side.SideA? then p.a else p.b }

  function Theirs(p: Pair, side: Side): State { if side.SideA? then p.b else p.a }

  function Settings(w: World, side: Side): Config { if side.SideA? then w.a else w.b }

  /** The batch holds the token, and its payload at the token's place among the messages. */
  ghost predicate CarriesToken(b: Batch, token: Id, issued: map<Id, Payload>) {
    && token in issued && |b.tokens| <= |b.messages|
    && exists j :: 0 <= j < |b.tokens| && b.tokens[j] == token
                   && b.messages[|b.messages| - |b.tokens| + j] == issued[token]
  }

  /** The peer delivered, as its i-th delivery, the very request this batch was sent as, and answered it. */
  ghost predicate BatchAnswered(p: State, b: Batch, i: nat, code: ResponseCode) {
    && i < |p.delivered| && p.delivered[i] == Request(b.requestId, b.messages)
    && Sent(p, Response(b.requestId, code))
  }

  lemma MoveGrows(w: World, p: Pair, m: Move, side: Side)
    requires PairInv(w, p)
    ensures var p' := PairStep(w, p, m); Grows(Mine(p, side), Mine(p', side)) && Grows(Theirs(p, side), Theirs(p', side))
  {
    hide Step;
    hide Outbound;
    hide Inbound;
    hide Phased;
    GrowsItself(p.a);
    GrowsItself(p.b);
    match m
    case AtA(e) => StepKept(w.a, p.a, e);
    case AtB(e) => StepKept(w.b, p.b, e);
  }

  /** A promise resolves in a step only when the peer has answered the batch then in flight, which carries it. */
  lemma NewlyResolved(w: World, p: Pair, m: Move, side: Side, x: Settlement) returns (i: nat)
    requires Trusted(w) && PairInv(w, p) && Possible(w, p, m) && x.outcome.Resolved?
    requires x in Mine(PairStep(w, p, m), side).settled && x !in Mine(p, side).settled
    ensures Mine(p, side).outgoing.Some?
    ensures CarriesToken(Mine(p, side).outgoing.value, x.token, Mine(p, side).issued)
    ensures Sent(Mine(p, side), Request(Mine(p, side).outgoing.value.requestId, Mine(p, side).outgoing.value.messages))
    ensures BatchAnswered(Theirs(p, side), Mine(p, side).outgoing.value, i, x.outcome.code)
  {
    hide Step;
    hide AcceptsAck;
    hide Signed;
    hide Numbered;
    hide Phased;
    var s, c := Mine(p, side), Settings(w, side);
    var peer := if side.SideA? then w.b else w.a;
    StepKept(c, s, m.e);
    OfferedGenuine(w, p, side, m.e);
    AckNamesBatch(c, s, m.e);
    i := AckIsSound(c, s, peer, Theirs(p, side), m.e, x.token);
    TokenCarried(s.outgoing.value, x.token, s.issued);
  }

  lemma AckNamesBatch(c: Config, s: State, e: Event)
    ensures AcceptsAck(c, s, e) ==>
      && s.outgoing.Some? && TryDecode(c, e.statement, e.responsesOnly).Some?
      && var d := TryDecode(c, e.statement, e.responsesOnly).value;
         d.Response? && d == Response(s.outgoing.value.requestId, d.code)
  {
  }

  lemma TokenCarried(b: Batch, token: Id, issued: map<Id, Payload>)
    requires Carries(b.messages, b.tokens, issued) && token in b.tokens
    ensures CarriesToken(b, token, issued)
  {
    var j :| 0 <= j < |b.tokens| && b.tokens[j] == token;
    assert b.messages[|b.messages| - |b.tokens| + j] == issued[token];
  }

  lemma OfferedGenuine(w: World, p: Pair, side: Side, e: Event)
    requires Trusted(w) && PairInv(w, p) && Offered(w, p, e)
    ensures AllGenuine(Settings(w, side), Mine(p, side), if side.SideA? then w.b else w.a, Theirs(p, side), e)
  {
    hide Genuine;
    hide InStore;
    hide PairInv;
    forall st | InStore(w, p, st) ensures Genuine(w.a, p.a, w.b, p.b, st) && Genuine(w.b, p.b, w.a, p.a, st) {
      StoredGenuineForA(w, p, st);
      StoredGenuineForB(w, p, st);
    }
  }

  /**
   * In every run of the pair: when a promise has resolved with a code, there was a moment at
   * which its token was in the batch in flight and at which that batch had been submitted, with
   * the token's payload at the token's place; and the peer delivered that very request and
   * answered it with that code.
   */
  lemma {:induction false} ResolvedMeansDelivered(w: World, moves: seq<Move>, side: Side, x: Settlement)
    returns (k: nat, i: nat)
    requires Trusted(w) && Legal(w, moves)
    requires x in Mine(PairRun(w, moves), side).settled && x.outcome.Resolved?
    ensures k < |moves|
    ensures var s := Mine(PairRun(w, moves[..k]), side);
      && s.outgoing.Some? && CarriesToken(s.outgoing.value, x.token, Mine(PairRun(w, moves), side).issued)
      && Sent(s, Request(s.outgoing.value.requestId, s.outgoing.value.messages))
      && BatchAnswered(Theirs(PairRun(w, moves), side), s.outgoing.value, i, x.outcome.code)
    decreases |moves|
  {
    hide PairStep;
    hide PairInv;
    hide Possible;
    hide Sent;
    if moves != [] {
      var n := |moves| - 1;
      var prefix := moves[..n];
      var p := PairRun(w, prefix);
      PairInvariant(w, prefix);
      MoveGrows(w, p, moves[n], side);
      if x in Mine(p, side).settled {
        k, i := ResolvedMeansDelivered(w, prefix, side, x);
        assert prefix[..k] == moves[..k];
      } else {
        i := NewlyResolved(w, p, moves[n], side, x);
        k := n;
      }
      StillAnswered(Mine(PairRun(w, moves[..k]), side).outgoing.value, x.token, Mine(p, side), Mine(PairRun(w, moves), side),
                    Theirs(p, side), Theirs(PairRun(w, moves), side), i, x.outcome.code);
    }
  }

  lemma StillAnswered(b: Batch, token: Id, s: State, s': State, p: State, p': State, i: nat, code: ResponseCode)
    requires Grows(s, s') && Grows(p, p') && CarriesToken(b, token, s.issued) && BatchAnswered(p, b, i, code)
    ensures CarriesToken(b, token, s'.issued) && BatchAnswered(p', b, i, code)
  {
    GrowsSent(p, p', Response(b.requestId, code));
    assert p'.delivered[i] == p.delivered[i];
  }
}
