/** The session object: closures over mutable state, proved to compute the steps of `SessionState`. */
module Session {
  import opened Common
  import opened SessionState
  import Dedup

  class Session {
    const c: Config
    var phase: Phase
    var expiry: int
    var outgoing: Option<Batch>
    var incoming: Option<Id>
    var responded: bool
    var queue: seq<Queued>
    var pending: seq<Id>
    var seen: seq<Cipher>
    var buffered: seq<StatementData>
    var inboxes: map<SubscriberId, seq<Message>>
    var listening: bool
    var sent: seq<Statement>
    var settled: seq<Settlement>
    var issued: map<Id, Payload>
    var delivered: seq<StatementData>
    var nextId: nat
    var ticks: nat

    function View(): State
      reads this
    {
      State(phase, expiry, outgoing, incoming, responded, queue, pending, seen, buffered, inboxes, listening,
            sent, settled, issued, delivered, nextId, ticks)
    }

    constructor (config: Config)
      ensures c == config && View() == Initial
    {
      c := config;
      phase, expiry, outgoing, incoming, responded := Initialization, 0, None, None, false;
      queue, pending, seen, buffered, inboxes, listening := [], [], [], [], map[], false;
      sent, settled, issued, delivered, nextId, ticks := [], [], map[], [], 0, 0;
    }

    method NanoId() returns (id: Id)
      modifies this`nextId
      ensures id == Id(c.self, old(nextId)) && nextId == old(nextId) + 1
    {
      id := Id(c.self, nextId);
      nextId := nextId + 1;
    }

    method SubmitStatementData(channel: Channel, body: StatementData)
      modifies this`expiry, this`ticks, this`sent
      ensures View() == SubmitData(c, old(View()), channel, body)
      ensures expiry > old(expiry) && |sent| == |old(sent)| + 1 && sent[..|old(sent)|] == old(sent)
      ensures Soonest(c.clock(old(ticks)), c.durationSecs, old(expiry), expiry)
      ensures sent[|old(sent)|].expiry == Some(expiry) && Says(sent[|old(sent)|], body)
      ensures sent[|old(sent)|].signer == Some(c.self) && sent[|old(sent)|].channel == channel
    {
      var soonest := (c.clock(ticks) / 1000 + c.durationSecs) * 0x1_0000_0000;
      ticks := ticks + 1;
      var candidate := if soonest > expiry then soonest else expiry + 1;
      expiry := candidate;
      sent := sent + [Statement(Some(c.self), Some(candidate), channel, Some(Sealed(Id(c.self, ticks - 1), body)))];
    }

    method TotalSize(messages: seq<Payload>) returns (size: nat)
      ensures size == Size(messages)
    {
      size := 0;
      for i := 0 to |messages|
        invariant size == Size(messages[..i])
      {
        assert messages[..i + 1][..i] == messages[..i];
        size := size + |messages[i]|;
      }
      assert messages[..|messages|] == messages;
    }

    method ProcessNew(encoded: Payload, token: Id)
      modifies this
      ensures View() == ProcessNewMessage(c, old(View()), encoded, token)
    {
      if outgoing.None? {
        var requestId := NanoId();
        outgoing := Some(Batch(requestId, [encoded], [token]));
        SubmitStatementData(RequestChannel, Request(requestId, [encoded]));
        return;
      }
      var batch := outgoing.value;
      var currentSize := TotalSize(batch.messages);
      if currentSize + |encoded| <= c.maxSize {
        var requestId := NanoId();
        batch := Batch(requestId, batch.messages + [encoded], batch.tokens + [token]);
        outgoing := Some(batch);
        SubmitStatementData(RequestChannel, Request(requestId, batch.messages));
      } else {
        queue := queue + [Queued(encoded, token)];
      }
    }

    method DrainQueue()
      modifies this
      ensures View() == ProcessMessageQueue(c, old(View()))
    {
      while |queue| > 0
        invariant ProcessMessageQueue(c, View()) == ProcessMessageQueue(c, old(View()))
        decreases |queue|
      {
        var head := queue[0];
        if outgoing.Some? {
          var currentSize := TotalSize(outgoing.value.messages);
          if currentSize + |head.encoded| > c.maxSize { break; }
        }
        queue := queue[1..];
        ProcessNew(head.encoded, head.token);
      }
    }

    method EnsureStoreSubscriptions()
      modifies this`listening
      ensures View() == EnsureListening(old(View()))
    {
      if listening || phase.Disposed? { return; }
      listening := true;
    }

    /** A token and its delivery promise. */
    method RegisterDelivery(encoded: Payload) returns (token: Id)
      modifies this`nextId, this`issued, this`pending
      ensures token == Id(c.self, old(nextId)) && nextId == old(nextId) + 1
      ensures issued == old(issued)[token := encoded] && pending == old(pending) + [token]
    {
      token := NanoId();
      issued := issued[token := encoded];
      pending := pending + [token];
    }

    method SubmitRequestMessage(encoded: Option<Payload>) returns (r: Result<Id, SessionError>)
      modifies this
      ensures (View(), r) == SubmitRequest(c, old(View()), encoded)
    {
      hide ProcessNewMessage;
      if phase.Disposed? { return Err(DisposedError); }
      if encoded.None? { return Err(CodecEncodeFailed); }
      if |encoded.value| > c.maxSize { return Err(MessageTooBig(|encoded.value|, c.maxSize)); }
      EnsureStoreSubscriptions();
      var token := RegisterDelivery(encoded.value);
      if phase.Initialization? {
        queue := queue + [Queued(encoded.value, token)];
      } else {
        ProcessNew(encoded.value, token);
      }
      return Ok(token);
    }

    method SubmitResponseMessage(requestId: Id, code: ResponseCode) returns (r: Result<(), SessionError>)
      modifies this
      ensures (View(), r) == SubmitResponse(c, old(View()), requestId, code)
      ensures r.Err? ==> View() == old(View())
      ensures r.Ok? ==> responded && |sent| == |old(sent)| + if old(responded) then 0 else 1
    {
      if phase.Disposed? { return Err(DisposedError); }
      if responded { return Ok(()); }
      if incoming != Some(requestId) { return Err(NoIncomingRequest(requestId)); }
      responded := true;
      SubmitStatementData(ResponseChannel, Response(requestId, code));
      return Ok(());
    }

    /** Hand the messages to every subscriber's callback; an empty list is not handed over. */
    method CallSubscribers(messages: seq<Message>)
      modifies this`inboxes
      ensures inboxes == map sub <- old(inboxes) :: old(inboxes)[sub] + messages
    {
      var waiting := inboxes.Keys;
      while waiting != {}
        invariant waiting <= inboxes.Keys == old(inboxes).Keys
        invariant forall sub <- inboxes ::
          (inboxes[sub] == if sub in waiting then old(inboxes)[sub] else old(inboxes)[sub] + messages)
        decreases |waiting|
      {
        var sub :| sub in waiting;
        if |messages| > 0 {
          inboxes := inboxes[sub := inboxes[sub] + messages];
        }
        waiting := waiting - {sub};
      }
    }

    method DeliverStatementData(d: StatementData)
      modifies this`buffered, this`inboxes, this`delivered
      ensures View() == Deliver(old(View()), d)
    {
      if d.Request? || (inboxes == map[] && phase.Initialization?) {
        buffered := buffered + [d];
      }
      delivered := delivered + [d];
      CallSubscribers(ToMessages(d));
    }

    method ResolveTokens(tokens: seq<Id>, code: ResponseCode)
      modifies this`pending, this`settled
      ensures View() == ResolveAll(old(View()), tokens, code)
    {
      ghost var resolved := ResolveAll(View(), tokens, code);
      for i := 0 to |tokens|
        invariant ResolveAll(View(), tokens[i..], code) == resolved
      {
        assert tokens[i..][0] == tokens[i] && tokens[i..][1..] == tokens[i + 1..];
        if tokens[i] in pending {
          settled := settled + [Settlement(tokens[i], Resolved(code))];
          pending := Remove(pending, tokens[i]);
        }
      }
    }

    /** The ACK of the batch in flight. */
    method FinishBatch(d: StatementData)
      requires d.Response? && outgoing.Some?
      modifies this
      ensures View() == ProcessMessageQueue(c, Deliver(
        ResolveAll(old(View()), old(outgoing).value.tokens, d.code).(outgoing := None), d))
    {
      hide ProcessMessageQueue;
      hide ResolveAll;
      hide Deliver;
      ResolveTokens(outgoing.value.tokens, d.code);
      outgoing := None;
      DeliverStatementData(d);
      DrainQueue();
    }

    method RouteStatementData(d: StatementData)
      modifies this
      ensures View() == Route(c, old(View()), d)
    {
      hide ProcessMessageQueue;
      hide ResolveAll;
      hide Deliver;
      match d {
        case Request(requestId, _) =>
          if incoming == Some(requestId) { return; }
          incoming := Some(requestId);
          responded := false;
          DeliverStatementData(d);
        case Response(requestId, _) =>
          if outgoing.None? || outgoing.value.requestId != requestId { return; }
          FinishBatch(d);
      }
    }

    method ProcessIncomingStatement(statement: Statement, responsesOnly: bool)
      modifies this
      ensures View() == ReceiveStatement(c, old(View()), statement, responsesOnly)
    {
      if statement.data.None? { return; }
      var key := statement.data.value;
      if key in seen { return; }
      seen := seen + [key];
      if |seen| > Dedup.CACHE_LIMIT {
        seen := seen[1..];
      }
      var data := TryDecode(c, statement, responsesOnly);
      if data.Some? {
        RouteStatementData(data.value);
      }
    }

    /** Every statement already on chain counts as seen; this seeding is not capped. */
    method SeedSeen(keys: seq<Cipher>)
      modifies this`seen
      ensures seen == Dedup.AddAll(old(seen), keys)
    {
      ghost var seeded := Dedup.AddAll(seen, keys);
      for i := 0 to |keys|
        invariant Dedup.AddAll(seen, keys[i..]) == seeded
      {
        assert keys[i..][0] == keys[i] && keys[i..][1..] == keys[i + 1..];
        seen := Dedup.Add(seen, keys[i]);
      }
    }

    method RestoreOutgoingRequest(own: seq<Statement>)
      modifies this`outgoing
      ensures View() == RestoreOutgoing(c, old(View()), own)
    {
      var decoded := DecodeAll(own);
      var request, response := Find(decoded, true), Find(decoded, false);
      if request.Some? && request.value.Request? {
        var hasAck := response.Some? && response.value.requestId == request.value.requestId;
        if !hasAck {
          outgoing := Some(Batch(request.value.requestId, request.value.data, []));
        }
      }
    }

    method RestoreIncomingRequest(peer: seq<Statement>)
      modifies this`incoming, this`responded, this`buffered, this`inboxes, this`delivered
      ensures View() == RestoreIncoming(c, old(View()), peer)
    {
      hide Deliver;
      var decoded := DecodeAll(peer);
      var request, response := Find(decoded, true), Find(decoded, false);
      if request.Some? {
        incoming := Some(request.value.requestId);
        responded := response.Some? && response.value.requestId == request.value.requestId;
        if !responded {
          DeliverStatementData(request.value);
        }
      }
    }

    /** Take over what the store remembers, before the session becomes active. */
    method Recover(own: seq<Statement>, peer: seq<Statement>)
      modifies this
      ensures View() == var t := old(View()).(expiry := MaxExpiry(own), seen := Dedup.AddAll(old(seen), DataKeys(own + peer)));
        RestoreIncoming(c, RestoreOutgoing(c, t, own), peer)
    {
      hide RestoreOutgoing;
      hide RestoreIncoming;
      hide Dedup.AddAll;
      expiry := ObservedMaxExpiry(own);
      SeedSeen(DataKeys(own + peer));
      RestoreOutgoingRequest(own);
      RestoreIncomingRequest(peer);
    }

    method CompleteInit(own: seq<Statement>, peer: seq<Statement>)
      modifies this
      ensures View() == FinishInit(c, old(View()), own, peer)
    {
      hide ProcessMessageQueue;
      hide RestoreOutgoing;
      hide RestoreIncoming;
      hide Dedup.AddAll;
      if !phase.Initialization? { return; }
      Recover(own, peer);
      phase := Active;
      DrainQueue();
      EnsureStoreSubscriptions();
    }

    method ObservedMaxExpiry(statements: seq<Statement>) returns (maxExpiry: int)
      ensures maxExpiry == MaxExpiry(statements)
    {
      maxExpiry := 0;
      for i := 0 to |statements|
        invariant maxExpiry == MaxExpiry(statements[..i])
      {
        assert statements[..i + 1][..i] == statements[..i];
        if statements[i].expiry.Some? && statements[i].expiry.value > maxExpiry {
          maxExpiry := statements[i].expiry.value;
        }
      }
      assert statements[..|statements|] == statements;
    }

    method DecodeAll(statements: seq<Statement>) returns (decoded: seq<StatementData>)
      ensures decoded == Decoded(c, statements)
    {
      decoded := [];
      for i := 0 to |statements|
        invariant decoded == Decoded(c, statements[..i])
      {
        assert statements[..i + 1][..i] == statements[..i];
        var v := TryDecode(c, statements[i], false);
        if v.Some? {
          decoded := decoded + [v.value];
        }
      }
      assert statements[..|statements|] == statements;
    }

    method AddSubscriber(sub: SubscriberId)
      modifies this
      ensures View() == Subscribe(old(View()), sub)
      ensures inboxes.Keys == old(inboxes).Keys + {sub} && inboxes[sub] == Replay(old(buffered))
      ensures forall other <- old(inboxes) | other != sub :: inboxes[other] == old(inboxes)[other]
      ensures phase.Disposed? || listening
    {
      inboxes := inboxes[sub := []];
      EnsureStoreSubscriptions();
      if |buffered| > 0 {
        var replay := Replay(buffered);
        if |replay| > 0 {
          inboxes := inboxes[sub := replay];
        }
      }
    }

    method RemoveSubscriber(sub: SubscriberId)
      modifies this`inboxes
      ensures View() == Unsubscribe(old(View()), sub)
      ensures sub !in inboxes && forall other <- old(inboxes) | other != sub :: other in inboxes
    {
      inboxes := inboxes - {sub};
    }

    method RejectPending()
      modifies this`settled
      ensures settled == old(settled) + RejectAll(pending)
    {
      for i := 0 to |pending|
        invariant settled == old(settled) + RejectAll(pending)[..i]
      {
        settled := settled + [Settlement(pending[i], Rejected)];
      }
    }

    method StopListening()
      modifies this`phase, this`listening, this`inboxes
      ensures phase == Disposed && !listening && inboxes == map[]
    {
      phase, listening, inboxes := Disposed, false, map[];
    }

    method ClearState()
      modifies this`queue, this`outgoing, this`incoming, this`buffered
      ensures queue == [] && outgoing == None && incoming == None && buffered == []
    {
      queue, outgoing, incoming, buffered := [], None, None, [];
    }

    method DisposeSession()
      modifies this
      ensures View() == Dispose(old(View()))
    {
      if phase.Disposed? { return; }
      StopListening();
      RejectPending();
      ClearState();
    }
  }
}
