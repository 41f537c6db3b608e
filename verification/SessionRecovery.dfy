/**
 * What a session recovers from the two histories when it initializes, said with places in
 * those histories: an unanswered request of the peer reaches every subscriber and can be
 * answered; an unanswered batch of its own is taken up again.
 */
module SessionRecovery {
  import opened Common
  import opened SessionState
  import opened SessionConservation
  import opened SessionQueue
  import opened SessionExpiry
  import opened SessionEffects
  import opened SessionSubscribers
  import opened SessionPair
  import opened SessionAnswers
  import Dedup

  // -- Places in a history ----------------------------------------------------------------------------

  /** The prover accepts the statement, and it seals a request or, respectively, a response. */
  predicate Tells(c: Config, st: Statement, request: bool) {
    st.data.Some? && st.data.value.Sealed? && st.data.value.body.Request? == request && c.verify(st)
  }

  ghost predicate FirstAt(c: Config, statements: seq<Statement>, request: bool, i: nat) {
    && i < |statements| && Tells(c, statements[i], request)
    && forall j :: 0 <= j < i ==> !Tells(c, statements[j], request)
  }

  ghost predicate NoneTells(c: Config, statements: seq<Statement>, request: bool) {
    forall j :: 0 <= j < |statements| ==> !Tells(c, statements[j], request)
  }

  /** The first response of the history answers the request. */
  ghost predicate AnsweredIn(c: Config, statements: seq<Statement>, id: Id) {
    exists j: nat :: FirstAt(c, statements, false, j) && statements[j].data.value.body.requestId == id
  }

  lemma {:induction false} FindAppend(a: seq<StatementData>, b: seq<StatementData>, request: bool)
    ensures Find(a + b, request) == if Find(a, request).Some? then Find(a, request) else Find(b, request)
  {
    if a == [] {
      assert a + b == b;
    } else {
      FindAppend(a[1..], b, request);
      assert (a + b)[0] == a[0] && (a + b)[1..] == a[1..] + b;
    }
  }

  /** What is found among the decoded statements is what the first one to tell it seals. */
  lemma {:induction false} FindIsFirst(c: Config, statements: seq<Statement>, request: bool)
    ensures Find(Decoded(c, statements), request).None? <==> NoneTells(c, statements, request)
    ensures forall i: nat | FirstAt(c, statements, request, i) ::
      Find(Decoded(c, statements), request) == Some(statements[i].data.value.body)
    ensures Find(Decoded(c, statements), request).Some? ==> exists i: nat :: FirstAt(c, statements, request, i)
  {
    if statements != [] {
      var n := |statements| - 1;
      var init, last := statements[..n], statements[n];
      FindIsFirst(c, init, request);
      var d := TryDecode(c, last, false);
      FindAppend(Decoded(c, init), if d.Some? then [d.value] else [], request);
      FindInLast(d, request);
      hide Find;
      hide Decoded;
      assert forall j :: 0 <= j < n ==> init[j] == statements[j];
      FirstInLonger(c, statements, request);
      if Find(Decoded(c, statements), request).Some? && NoneTells(c, init, request) {
        assert FirstAt(c, statements, request, n);
      }
      assert Decoded(c, statements) == Decoded(c, init) + (if d.Some? then [d.value] else []) by {
        DecodedSnoc(c, statements);
      }
    }
  }

  lemma DecodedSnoc(c: Config, statements: seq<Statement>)
    requires statements != []
    ensures var n := |statements| - 1; var d := TryDecode(c, statements[n], false);
      Decoded(c, statements) == Decoded(c, statements[..n]) + if d.Some? then [d.value] else []
  {
    hide TryDecode;
  }

  lemma FindInLast(d: Option<StatementData>, request: bool)
    ensures Find(if d.Some? then [d.value] else [], request) ==
      if d.Some? && d.value.Request? == request then d else None
  {
  }

  lemma FirstInLonger(c: Config, statements: seq<Statement>, request: bool)
    requires statements != []
    ensures var n := |statements| - 1;
      forall i: nat :: FirstAt(c, statements, request, i) <==>
        FirstAt(c, statements[..n], request, i)
        || (i == n && NoneTells(c, statements[..n], request) && Tells(c, statements[n], request))
  {
    var n := |statements| - 1;
    assert forall j :: 0 <= j < n ==> statements[..n][j] == statements[j];
  }

  lemma AnswersIffAnswered(c: Config, statements: seq<Statement>, request: StatementData)
    ensures Answers(Find(Decoded(c, statements), false), request) <==> AnsweredIn(c, statements, request.requestId)
  {
    FindIsFirst(c, statements, false);
    hide Find;
    hide Decoded;
    if Find(Decoded(c, statements), false).Some? {
      var j: nat :| FirstAt(c, statements, false, j);
    }
  }

  // -- The peer's request ---------------------------------------------------------------------------------

  /** The request was delivered to everyone and waits for its answer. */
  ghost predicate TakenUp(s: State, s': State, d: StatementData)
    requires d.Request?
  {
    && s'.delivered == s.delivered + [d] && s'.buffered == s.buffered + [d]
    && s'.incoming == Some(d.requestId) && !s'.responded
    && HandedOver(s, s', ToMessages(d)) && MessagesOf(d, ToMessages(d))
  }

  ghost predicate NothingDelivered(s: State, s': State) {
    s'.delivered == s.delivered && s'.buffered == s.buffered && s'.inboxes == s.inboxes
  }

  lemma RestoresIncoming(c: Config, s: State, peer: seq<Statement>)
    ensures var s' := RestoreIncoming(c, s, peer);
      && (NoneTells(c, peer, true) ==> s' == s)
      && (forall i: nat | FirstAt(c, peer, true, i) ::
            var d := peer[i].data.value.body;
            if AnsweredIn(c, peer, d.requestId)
            then NothingDelivered(s, s') && s'.incoming == Some(d.requestId) && s'.responded
            else TakenUp(s, s', d))
  {
    FindIsFirst(c, peer, true);
    hide Find;
    hide Decoded;
    hide Answers;
    hide AnsweredIn;
    forall i: nat | FirstAt(c, peer, true, i)
      ensures Answers(Find(Decoded(c, peer), false), peer[i].data.value.body)
         <==> AnsweredIn(c, peer, peer[i].data.value.body.requestId)
    {
      AnswersIffAnswered(c, peer, peer[i].data.value.body);
    }
  }

  /**
   * An initialization that takes effect delivers the first request of the peer's history to
   * everyone, unless the first response there answers it; then it only knows it as answered.
   * Without a request there, nothing of this changes.
   */
  lemma InitTakesUpRequest(c: Config, s: State, own: seq<Statement>, peer: seq<Statement>)
    requires s.phase.Initialization? && Phased(s)
    ensures var s' := Step(c, s, Init(own, peer));
      && s'.phase.Active? && s'.listening
      && (NoneTells(c, peer, true) ==>
            NothingDelivered(s, s') && s'.incoming == s.incoming && s'.responded == s.responded)
      && (forall i: nat | FirstAt(c, peer, true, i) ::
            var d := peer[i].data.value.body;
            if AnsweredIn(c, peer, d.requestId)
            then NothingDelivered(s, s') && s'.incoming == Some(d.requestId) && s'.responded
            else TakenUp(s, s', d))
  {
    hide ProcessMessageQueue;
    hide RestoreIncoming;
    hide NoneTells;
    hide AnsweredIn;
    hide ToMessages;
    var r := s.(expiry := MaxExpiry(own), seen := Dedup.AddAll(s.seen, DataKeys(own + peer)));
    var t := RestoreOutgoing(c, r, own);
    OutgoingOnly(c, r, own);
    hide RestoreOutgoing;
    RestoresIncoming(c, t, peer);
    RestoreLeavesPhase(c, t, peer);
    DrainKeepsRest(c, RestoreIncoming(c, t, peer).(phase := Active));
  }

  lemma OutgoingOnly(c: Config, s: State, own: seq<Statement>)
    ensures RestoreOutgoing(c, s, own) == s.(outgoing := RestoreOutgoing(c, s, own).outgoing)
  {
    hide Find;
    hide Decoded;
  }

  lemma RestoreLeavesPhase(c: Config, s: State, peer: seq<Statement>)
    ensures var s' := RestoreIncoming(c, s, peer);
      s' == s.(incoming := s'.incoming, responded := s'.responded, buffered := s'.buffered, inboxes := s'.inboxes,
               delivered := s'.delivered)
  {
    hide Find;
    hide Decoded;
  }

  // -- Everyone gets it, for good -----------------------------------------------------------------------------

  lemma {:induction false} DeliveredStays(c: Config, evs: seq<Event>, later: seq<Event>)
    ensures var d := Run(c, evs).delivered; d <= Run(c, evs + later).delivered
    decreases |later|
  {
    hide Step;
    if later == [] {
      assert evs + later == evs;
    } else {
      var n := |later| - 1;
      DeliveredStays(c, evs, later[..n]);
      var t := Run(c, evs + later[..n]);
      assert (evs + later)[..|evs + later| - 1] == evs + later[..n];
      RunCredits(c, evs + later[..n], Id(c.self, 0));
      Conservation(c, evs + later[..n], Id(c.self, 0));
      StepKept(c, t, later[n]);
      assert t.delivered <= Run(c, evs + later).delivered;
    }
  }

  lemma {:induction false} RequestsOfHolds(delivered: seq<StatementData>, j: nat)
    requires j < |delivered| && delivered[j].Request?
    ensures delivered[j] in RequestsOf(delivered)
  {
    if j < |delivered| - 1 {
      RequestsOfHolds(delivered[..|delivered| - 1], j);
    }
  }

  lemma {:induction false} ReplayHolds(buffered: seq<StatementData>, d: StatementData, m: Message)
    requires d in buffered && m in ToMessages(d)
    ensures m in Replay(buffered)
  {
    hide ToMessages;
    var n := |buffered| - 1;
    if d != buffered[n] {
      assert buffered == buffered[..n] + [buffered[n]];
      ReplayHolds(buffered[..n], d, m);
    }
  }

  lemma {:induction false} RequestMessagesWithin(inbox: seq<Message>, m: Message)
    requires m in RequestMessages(inbox)
    ensures m in inbox
  {
    if inbox[0] != m {
      RequestMessagesWithin(inbox[1..], m);
    }
  }

  /** Until dispose every attached subscriber has every payload of every request delivered, under its place. */
  lemma EveryPayloadHandedOver(c: Config, evs: seq<Event>, sub: SubscriberId, j: nat, k: nat)
    requires var s := Run(c, evs);
      && !s.phase.Disposed? && sub in s.inboxes
      && j < |s.delivered| && s.delivered[j].Request? && k < |s.delivered[j].data|
    ensures var s := Run(c, evs); var d := s.delivered[j];
      d in s.buffered && RequestMessage((d.requestId, k), d.requestId, d.data[k]) in s.inboxes[sub]
  {
    LateSubscribersLoseNothing(c, evs);
    var s := Run(c, evs);
    hide Run;
    var d := s.delivered[j];
    var m := RequestMessage((d.requestId, k), d.requestId, d.data[k]);
    assert ToMessages(d)[k] == m;
    RequestsOfHolds(s.delivered, j);
    ReplayHolds(s.buffered, d, m);
    RequestMessagesWithin(s.inboxes[sub], m);
  }

  /**
   * In every run: the request taken up at initialization stays delivered, and until dispose each
   * of its payloads is in the inbox of every attached subscriber, however late it attached.
   */
  lemma RecoveredReachesEveryone(
      c: Config, evs: seq<Event>, own: seq<Statement>, peer: seq<Statement>, later: seq<Event>, i: nat, k: nat)
    requires Run(c, evs).phase.Initialization? && FirstAt(c, peer, true, i)
    requires var d := peer[i].data.value.body; !AnsweredIn(c, peer, d.requestId) && k < |d.data|
    ensures var t := Run(c, evs + [Init(own, peer)] + later); var d := peer[i].data.value.body;
      && d in t.delivered
      && forall sub <- t.inboxes :: !t.phase.Disposed? ==>
           d in t.buffered && RequestMessage((d.requestId, k), d.requestId, d.data[k]) in t.inboxes[sub]
  {
    hide Step;
    hide AnsweredIn;
    var s, history, d := Run(c, evs), evs + [Init(own, peer)], peer[i].data.value.body;
    Conservation(c, evs, Id(c.self, 0));
    InitTakesUpRequest(c, s, own, peer);
    RunSnoc(c, evs, Init(own, peer));
    hide Run;
    var j := |s.delivered|;
    assert Run(c, history).delivered[j] == d;
    DeliveredStays(c, history, later);
    var t := Run(c, history + later);
    assert t.delivered[j] == d;
    forall sub | sub in t.inboxes && !t.phase.Disposed?
      ensures d in t.buffered && RequestMessage((d.requestId, k), d.requestId, d.data[k]) in t.inboxes[sub]
    {
      EveryPayloadHandedOver(c, history + later, sub, j, k);
    }
  }

  /** It can be answered at once: the response with the code given is submitted. */
  lemma RecoveredIsAnswerable(c: Config, s: State, own: seq<Statement>, peer: seq<Statement>, i: nat, code: ResponseCode)
    requires s.phase.Initialization? && Phased(s) && FirstAt(c, peer, true, i)
    requires !AnsweredIn(c, peer, peer[i].data.value.body.requestId)
    ensures var id := peer[i].data.value.body.requestId;
      var t := Step(c, s, Init(own, peer)); var u := Step(c, t, Respond(id, code));
      |u.sent| == |t.sent| + 1 && Says(u.sent[|t.sent|], Response(id, code)) && u.sent[|t.sent|].channel == ResponseChannel
  {
    InitTakesUpRequest(c, s, own, peer);
    var t := Step(c, s, Init(own, peer));
    hide FinishInit;
    hide AnsweredIn;
    RespondEffect(c, t, peer[i].data.value.body.requestId, code);
  }

  // -- The session's own batch ----------------------------------------------------------------------------------

  /** The payloads of the first request in the session's own history, unless the first response there answers it. */
  ghost predicate Leftover(c: Config, own: seq<Statement>, id: Option<Id>, messages: seq<Payload>) {
    || (id.None? && messages == [] && NoneTells(c, own, true))
    || (exists i: nat :: FirstAt(c, own, true, i) &&
          var d := own[i].data.value.body;
          if AnsweredIn(c, own, d.requestId) then id.None? && messages == []
          else id == Some(d.requestId) && messages == d.data)
  }

  lemma RestoresOutgoing(c: Config, s: State, own: seq<Statement>, id: Option<Id>, messages: seq<Payload>)
    requires s.outgoing.None? && Leftover(c, own, id, messages)
    ensures RestoreOutgoing(c, s, own).outgoing == if id.Some? then Some(Batch(id.value, messages, [])) else None
  {
    FindIsFirst(c, own, true);
    hide Find;
    hide Decoded;
    hide Answers;
    hide AnsweredIn;
    if i: nat :| FirstAt(c, own, true, i) {
      AnswersIffAnswered(c, own, own[i].data.value.body);
    }
  }

  lemma NothingLeftover(c: Config, own: seq<Statement>, id: Option<Id>, messages: seq<Payload>)
    requires Leftover(c, own, id, messages)
    ensures id.None? ==> messages == []
  {
  }

  /** The state from which initialization drains the queue: the leftover batch, without tokens, is in flight. */
  lemma InitBase(c: Config, s: State, own: seq<Statement>, peer: seq<Statement>, id: Option<Id>, messages: seq<Payload>)
    returns (u: State)
    requires s.phase.Initialization? && Phased(s) && Leftover(c, own, id, messages)
    ensures Step(c, s, Init(own, peer)) == EnsureListening(ProcessMessageQueue(c, u))
    ensures u.queue == s.queue && u.sent == s.sent && (u.outgoing.Some? <==> id.Some?)
    ensures BatchMessages(u) == messages && BatchTokens(u) == []
    ensures id.Some? ==> u.outgoing.value.requestId == id.value
  {
    hide ProcessMessageQueue;
    hide RestoreIncoming;
    hide RestoreOutgoing;
    hide Leftover;
    var r := s.(expiry := MaxExpiry(own), seen := Dedup.AddAll(s.seen, DataKeys(own + peer)));
    RestoresOutgoing(c, r, own, id, messages);
    NothingLeftover(c, own, id, messages);
    OutgoingOnly(c, r, own);
    var t := RestoreOutgoing(c, r, own);
    RestoreLeavesPhase(c, t, peer);
    u := RestoreIncoming(c, t, peer).(phase := Active);
  }

  /** Draining stops exactly at the first payload whose bytes do not fit. */
  lemma DrainStops(c: Config, u: State) returns (k: nat)
    ensures var s' := ProcessMessageQueue(c, u);
      Drained(u, s', k) && (k < |u.queue| ==> |Flatten(BatchMessages(s'))| + |u.queue[k].encoded| > c.maxSize)
  {
    hide ProcessMessageQueue;
    k := DrainTakesPrefix(c, u);
    DrainBlocked(c, u);
    SizeIsTotal(BatchMessages(ProcessMessageQueue(c, u)));
  }

  /**
   * An initialization that takes effect restores the leftover batch and adds as much of the
   * queue as fits, in order, with its tokens; while nothing is added it keeps its wire id.
   */
  lemma InitTakesUpBatch(
      c: Config, s: State, own: seq<Statement>, peer: seq<Statement>, id: Option<Id>, messages: seq<Payload>)
    returns (k: nat)
    requires s.phase.Initialization? && Phased(s) && Leftover(c, own, id, messages)
    ensures var s' := Step(c, s, Init(own, peer));
      && k <= |s.queue| && s'.queue == s.queue[k..]
      && (s'.outgoing.Some? <==> id.Some? || k > 0)
      && BatchMessages(s') == messages + Payloads(s.queue[..k]) && BatchTokens(s') == QueueTokens(s.queue[..k])
      && (k == 0 && id.Some? ==> s'.outgoing.value.requestId == id.value)
      && (k < |s.queue| ==> |Flatten(BatchMessages(s'))| + |s.queue[k].encoded| > c.maxSize)
      && |s'.sent| == |s.sent| + k
  {
    hide Step;
    hide ProcessMessageQueue;
    hide Leftover;
    hide QueueTokens;
    hide Payloads;
    hide Flatten;
    hide Says;
    var u := InitBase(c, s, own, peer, id, messages);
    k := DrainStops(c, u);
    assert [] + QueueTokens(s.queue[..k]) == QueueTokens(s.queue[..k]);
  }

  // -- The cache ----------------------------------------------------------------------------------------------

  lemma {:induction false} AddAllHolds(keys: seq<Cipher>, more: seq<Cipher>, k: Cipher)
    ensures k in Dedup.AddAll(keys, more) <==> k in keys || k in more
    decreases |more|
  {
    if more != [] {
      AddAllHolds(Dedup.Add(keys, more[0]), more[1..], k);
      assert more == [more[0]] + more[1..];
    }
  }

  lemma {:induction false} DataKeysHold(statements: seq<Statement>, k: Cipher)
    ensures k in DataKeys(statements) <==> exists i :: 0 <= i < |statements| && statements[i].data == Some(k)
  {
    if statements != [] {
      var n := |statements| - 1;
      DataKeysHold(statements[..n], k);
      assert forall i :: 0 <= i < n ==> statements[..n][i] == statements[i];
    }
  }

  /** What initialization has read counts as seen, whether or not the prover accepts it, and nothing else does anew. */
  lemma InitSeesHistory(c: Config, s: State, own: seq<Statement>, peer: seq<Statement>, k: Cipher)
    requires s.phase.Initialization? && Phased(s)
    ensures k in Step(c, s, Init(own, peer)).seen <==>
      || k in s.seen
      || (exists i :: 0 <= i < |own| && own[i].data == Some(k))
      || (exists i :: 0 <= i < |peer| && peer[i].data == Some(k))
  {
    hide ProcessMessageQueue;
    hide RestoreOutgoing;
    hide RestoreIncoming;
    var r := s.(expiry := MaxExpiry(own), seen := Dedup.AddAll(s.seen, DataKeys(own + peer)));
    RecoveryShape(c, r, own, peer);
    DrainKeepsInboxes(c, RestoreIncoming(c, RestoreOutgoing(c, r, own), peer).(phase := Active));
    AddAllHolds(s.seen, DataKeys(own + peer), k);
    DataKeysHold(own + peer, k);
    BothHistories(own, peer, k);
  }

  lemma BothHistories(own: seq<Statement>, peer: seq<Statement>, k: Cipher)
    ensures (exists i :: 0 <= i < |own + peer| && (own + peer)[i].data == Some(k)) <==>
      || (exists i :: 0 <= i < |own| && own[i].data == Some(k))
      || (exists i :: 0 <= i < |peer| && peer[i].data == Some(k))
  {
    forall i | 0 <= i < |peer| ensures (own + peer)[|own| + i] == peer[i] {
    }
    forall i | 0 <= i < |own| ensures (own + peer)[i] == own[i] {
    }
  }
}
