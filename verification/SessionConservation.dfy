/** Every issued token is in the batch, in the queue or settled, exactly once, in every run. */
module SessionConservation {
  import opened Common
  import opened SessionState

  function QueueTokens(queue: seq<Queued>): seq<Id> {
    if queue == [] then [] else [queue[0].token] + QueueTokens(queue[1..])
  }

  function BatchTokens(s: State): seq<Id> {
    if s.outgoing.Some? then s.outgoing.value.tokens else []
  }

  function SettledTokens(settled: seq<Settlement>): seq<Id> {
    if settled == [] then [] else SettledTokens(settled[..|settled| - 1]) + [settled[|settled| - 1].token]
  }

  /** How often a token occurs in the batch in flight and in the queue. */
  function Waiting(s: State, t: Id): nat { Count(BatchTokens(s), t) + Count(QueueTokens(s.queue), t) }

  /**
   * The books balance for a token: if it was issued it is waiting or settled, once; and
   * until dispose it has a pending promise exactly while it waits.
   */
  ghost predicate Balanced(c: Config, s: State, t: Id) {
    && Waiting(s, t) + Count(SettledTokens(s.settled), t) == (if t in s.issued then 1 else 0)
    && (!s.phase.Disposed? ==> Count(s.pending, t) == Waiting(s, t))
    && (t in s.issued ==> t.session == c.self && t.n < s.nextId)
  }

  /** Everything the books are about, apart from where tokens wait. */
  ghost predicate SameLedger(s: State, s': State) {
    && s'.settled == s.settled && s'.pending == s.pending && s'.issued == s.issued
    && s'.phase == s.phase && s'.nextId >= s.nextId
  }

  lemma {:induction false} QueueTokensAppend(queue: seq<Queued>, q: Queued)
    ensures QueueTokens(queue + [q]) == QueueTokens(queue) + [q.token]
  {
    if queue == [] {
      assert QueueTokens([q]) == [q.token] + QueueTokens([]);
    } else {
      QueueTokensAppend(queue[1..], q);
      assert (queue + [q])[1..] == queue[1..] + [q];
    }
  }

  /** What fits, or finds nothing in flight, joins a batch under a new wire id and is never queued. */
  lemma JoinsBatch(c: Config, s: State, encoded: Payload, token: Id)
    requires s.outgoing.None? || Fits(c, s.outgoing.value, encoded)
    ensures var s' := ProcessNewMessage(c, s, encoded, token);
      && s'.queue == s.queue && s'.outgoing.Some?
      && s'.outgoing.value.tokens == BatchTokens(s) + [token]
      && s'.outgoing.value.requestId == Id(c.self, s.nextId)
      && SameLedger(s, s')
  {
  }

  lemma ProcessNewBooks(c: Config, s: State, encoded: Payload, token: Id, t: Id)
    ensures var s' := ProcessNewMessage(c, s, encoded, token);
      SameLedger(s, s') && Waiting(s', t) == Waiting(s, t) + if t == token then 1 else 0
  {
    CountOne(token, t);
    if s.outgoing.None? || Fits(c, s.outgoing.value, encoded) {
      JoinsBatch(c, s, encoded, token);
      CountConcat(BatchTokens(s), [token], t);
    } else {
      QueueTokensAppend(s.queue, Queued(encoded, token));
      CountConcat(QueueTokens(s.queue), [token], t);
    }
  }

  lemma {:induction false} DrainBooks(c: Config, s: State, t: Id)
    ensures var s' := ProcessMessageQueue(c, s); SameLedger(s, s') && Waiting(s', t) == Waiting(s, t)
    decreases |s.queue|
  {
    hide ProcessNewMessage;
    hide Fits;
    hide Count;
    if s.queue != [] && (s.outgoing.None? || Fits(c, s.outgoing.value, s.queue[0].encoded)) {
      var u := s.(queue := s.queue[1..]);
      var token := s.queue[0].token;
      JoinsBatch(c, u, s.queue[0].encoded, token);
      ProcessNewBooks(c, u, s.queue[0].encoded, token, t);
      assert QueueTokens(s.queue) == [token] + QueueTokens(u.queue);
      CountConcat([token], QueueTokens(u.queue), t);
      CountOne(token, t);
      DrainBooks(c, ProcessNewMessage(c, u, s.queue[0].encoded, s.queue[0].token), t);
    }
  }

  lemma SettledAppend(settled: seq<Settlement>, x: Settlement)
    ensures SettledTokens(settled + [x]) == SettledTokens(settled) + [x.token]
  {
    assert (settled + [x])[..|settled|] == settled;
  }

  /** Resolving a batch whose tokens are all pending moves exactly them from pending to settled. */
  lemma {:induction false} ResolveBooks(s: State, tokens: seq<Id>, code: ResponseCode, t: Id)
    requires Count(tokens, t) <= Count(s.pending, t)
    ensures var s' := ResolveAll(s, tokens, code);
      && s' == s.(pending := s'.pending, settled := s'.settled)
      && Count(s'.pending, t) == Count(s.pending, t) - Count(tokens, t)
      && Count(SettledTokens(s'.settled), t) == Count(SettledTokens(s.settled), t) + Count(tokens, t)
    decreases |tokens|
  {
    if tokens != [] {
      var x := tokens[0];
      CountPositive(s.pending, t);
      CountRemove(s.pending, x, t);
      SettledAppend(s.settled, Settlement(x, Resolved(code)));
      CountConcat(SettledTokens(s.settled), [x], t);
      CountOne(x, t);
      if x in s.pending {
        var u := s.(pending := Remove(s.pending, x), settled := s.settled + [Settlement(x, Resolved(code))]);
        ResolveBooks(u, tokens[1..], code, t);
      } else {
        ResolveBooks(s, tokens[1..], code, t);
      }
    }
  }

  lemma {:induction false} RejectTokens(settled: seq<Settlement>, tokens: seq<Id>)
    ensures SettledTokens(settled + RejectAll(tokens)) == SettledTokens(settled) + tokens
  {
    if tokens == [] {
      assert settled + RejectAll([]) == settled;
    } else {
      var init := tokens[..|tokens| - 1];
      RejectTokens(settled, init);
      SettledAppend(settled + RejectAll(init), Settlement(tokens[|tokens| - 1], Rejected));
      assert settled + RejectAll(tokens) == settled + RejectAll(init) + [Settlement(tokens[|tokens| - 1], Rejected)];
    }
  }

  lemma SubmitBalanced(c: Config, s: State, encoded: Option<Payload>, t: Id)
    requires Balanced(c, s, t) && Balanced(c, s, Id(c.self, s.nextId))
    ensures Balanced(c, SubmitRequest(c, s, encoded).0, t)
  {
    hide ProcessNewMessage;
    var (s', r) := SubmitRequest(c, s, encoded);
    if r.Ok? {
      var token := r.value;
      var u := EnsureListening(s).(nextId := s.nextId + 1, issued := s.issued[token := encoded.value],
                                   pending := s.pending + [token]);
      CountConcat(s.pending, [token], t);
      CountOne(token, t);
      if s.phase.Initialization? {
        QueueTokensAppend(s.queue, Queued(encoded.value, token));
        CountConcat(QueueTokens(s.queue), [token], t);
      } else {
        ProcessNewBooks(c, u, encoded.value, token, t);
      }
    }
  }

  lemma RouteBalanced(c: Config, s: State, d: StatementData, t: Id)
    requires Balanced(c, s, t) && !s.phase.Disposed?
    ensures Balanced(c, Route(c, s, d), t)
  {
    hide ProcessMessageQueue;
    hide ResolveAll;
    if d.Response? && s.outgoing.Some? && s.outgoing.value.requestId == d.requestId {
      ResolveBooks(s, s.outgoing.value.tokens, d.code, t);
      var u := ResolveAll(s, s.outgoing.value.tokens, d.code);
      DrainBooks(c, Deliver(u.(outgoing := None), d), t);
    }
  }

  lemma DeliverShape(s: State, d: StatementData)
    ensures var s' := Deliver(s, d);
      s' == s.(buffered := s'.buffered, inboxes := s'.inboxes, delivered := s.delivered + [d])
  {
  }

  /** What recovery can change; a restored batch has no tokens. */
  lemma RecoveryShape(c: Config, s: State, own: seq<Statement>, peer: seq<Statement>)
    requires s.outgoing.None?
    ensures var s' := RestoreIncoming(c, RestoreOutgoing(c, s, own), peer);
      && s' == s.(outgoing := s'.outgoing, incoming := s'.incoming, responded := s'.responded,
                  buffered := s'.buffered, inboxes := s'.inboxes, delivered := s'.delivered)
      && BatchTokens(s') == []
      && (s'.outgoing.Some? ==>
            Find(Decoded(c, own), true) == Some(Request(s'.outgoing.value.requestId, s'.outgoing.value.messages)))
  {
    hide Decoded;
    hide Find;
    hide Deliver;
    var t := RestoreOutgoing(c, s, own);
    var request := Find(Decoded(c, peer), true);
    if request.Some? {
      var answered := Answers(Find(Decoded(c, peer), false), request.value);
      DeliverShape(t.(incoming := Some(request.value.requestId), responded := answered), request.value);
    }
  }

  lemma InitBalanced(c: Config, s: State, own: seq<Statement>, peer: seq<Statement>, t: Id)
    requires Balanced(c, s, t) && (s.phase.Initialization? ==> s.outgoing.None?)
    ensures Balanced(c, FinishInit(c, s, own, peer), t)
  {
    hide RestoreOutgoing;
    hide RestoreIncoming;
    hide ProcessMessageQueue;
    if s.phase.Initialization? {
      var u := s.(expiry := MaxExpiry(own), seen := Dedup.AddAll(s.seen, DataKeys(own + peer)));
      RecoveryShape(c, u, own, peer);
      assert BatchTokens(u) == [];
      DrainBooks(c, RestoreIncoming(c, RestoreOutgoing(c, u, own), peer).(phase := Active), t);
    }
  }

  /** A batch is in flight only once the session is active; after dispose nothing waits and nothing arrives. */
  ghost predicate Phased(s: State) {
    && (s.phase.Initialization? ==> s.outgoing.None?)
    && (s.phase.Disposed? ==> !s.listening && s.outgoing.None? && s.queue == [])
  }

  lemma {:induction false} DrainPhase(c: Config, s: State)
    ensures ProcessMessageQueue(c, s).phase == s.phase && ProcessMessageQueue(c, s).listening == s.listening
    decreases |s.queue|
  {
    if s.queue != [] && (s.outgoing.None? || Fits(c, s.outgoing.value, s.queue[0].encoded)) {
      var t := s.(queue := s.queue[1..]);
      DrainPhase(c, ProcessNewMessage(c, t, s.queue[0].encoded, s.queue[0].token));
    }
  }

  lemma {:induction false} ResolvePhase(s: State, tokens: seq<Id>, code: ResponseCode)
    ensures var s' := ResolveAll(s, tokens, code); s' == s.(pending := s'.pending, settled := s'.settled)
    decreases |tokens|
  {
    if tokens != [] {
      var t := if tokens[0] in s.pending
               then s.(pending := Remove(s.pending, tokens[0]),
                       settled := s.settled + [Settlement(tokens[0], Resolved(code))])
               else s;
      ResolvePhase(t, tokens[1..], code);
    }
  }

  lemma RoutePhased(c: Config, s: State, d: StatementData)
    requires Phased(s) && !s.phase.Disposed?
    ensures Phased(Route(c, s, d))
  {
    hide ProcessMessageQueue;
    hide ResolveAll;
    if d.Response? && s.outgoing.Some? && s.outgoing.value.requestId == d.requestId {
      ResolvePhase(s, s.outgoing.value.tokens, d.code);
      var u := ResolveAll(s, s.outgoing.value.tokens, d.code);
      DrainPhase(c, Deliver(u.(outgoing := None), d));
    }
  }

  lemma InitPhased(c: Config, s: State, own: seq<Statement>, peer: seq<Statement>)
    requires Phased(s)
    ensures Phased(FinishInit(c, s, own, peer))
  {
    hide ProcessMessageQueue;
    hide RestoreOutgoing;
    hide RestoreIncoming;
    if s.phase.Initialization? {
      var t := s.(expiry := MaxExpiry(own), seen := Dedup.AddAll(s.seen, DataKeys(own + peer)));
      DrainPhase(c, RestoreIncoming(c, RestoreOutgoing(c, t, own), peer).(phase := Active));
    }
  }

  lemma StepPhased(c: Config, s: State, e: Event)
    requires Phased(s)
    ensures Phased(Step(c, s, e))
  {
    hide FinishInit;
    hide Route;
    hide TryDecode;
    match e
    case Receive(statement, responsesOnly) =>
      if s.listening && statement.data.Some? && statement.data.value !in s.seen {
        var t := s.(seen := Dedup.AddCapped(s.seen, statement.data.value));
        var d := TryDecode(c, statement, responsesOnly);
        if d.Some? {
          RoutePhased(c, t, d.value);
        }
      }
    case Init(own, peer) => InitPhased(c, s, own, peer);
    case _ =>
  }

  lemma ReceiveBalanced(c: Config, s: State, statement: Statement, responsesOnly: bool, t: Id)
    requires Balanced(c, s, t) && !s.phase.Disposed?
    ensures Balanced(c, ReceiveStatement(c, s, statement, responsesOnly), t)
  {
    hide Route;
    hide TryDecode;
    if statement.data.Some? && statement.data.value !in s.seen {
      var d := TryDecode(c, statement, responsesOnly);
      if d.Some? {
        RouteBalanced(c, s.(seen := Dedup.AddCapped(s.seen, statement.data.value)), d.value, t);
      }
    }
  }

  lemma CloseBalanced(c: Config, s: State, t: Id)
    requires Balanced(c, s, t) && Phased(s)
    ensures Balanced(c, Dispose(s), t)
  {
    if !s.phase.Disposed? {
      RejectTokens(s.settled, s.pending);
      CountConcat(SettledTokens(s.settled), s.pending, t);
    }
  }

  lemma StepBalanced(c: Config, s: State, e: Event, t: Id)
    requires Balanced(c, s, t) && Balanced(c, s, Id(c.self, s.nextId)) && Phased(s)
    ensures Balanced(c, Step(c, s, e), t)
  {
    hide SubmitRequest;
    hide FinishInit;
    hide ReceiveStatement;
    hide Dispose;
    match e
    case Submit(encoded) => SubmitBalanced(c, s, encoded, t);
    case Receive(statement, responsesOnly) =>
      if s.listening {
        ReceiveBalanced(c, s, statement, responsesOnly, t);
      }
    case Init(own, peer) => InitBalanced(c, s, own, peer, t);
    case Close => CloseBalanced(c, s, t);
    case _ =>
  }

  /** In every run the books balance for every token, and work waits only as the phase allows. */
  lemma {:induction false} Conservation(c: Config, evs: seq<Event>, t: Id)
    ensures Balanced(c, Run(c, evs), t) && Phased(Run(c, evs))
    decreases |evs|
  {
    if evs != [] {
      var prefix := evs[..|evs| - 1];
      Conservation(c, prefix, t);
      Conservation(c, prefix, Id(c.self, Run(c, prefix).nextId));
      StepBalanced(c, Run(c, prefix), evs[|evs| - 1], t);
      StepPhased(c, Run(c, prefix), evs[|evs| - 1]);
    }
  }

  /** No token is settled twice, and once the session is disposed every issued token has been settled. */
  lemma SettledExactlyOnce(c: Config, evs: seq<Event>, t: Id)
    ensures var s := Run(c, evs); var settlements := Count(SettledTokens(s.settled), t);
      && settlements <= 1
      && (settlements == 1 ==> t in s.issued)
      && (s.phase.Disposed? ==> settlements == if t in s.issued then 1 else 0)
  {
    Conservation(c, evs, t);
  }
}
