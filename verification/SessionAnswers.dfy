/** Acknowledgements: no delivery of a request is answered twice, and nothing else is answered. */
module SessionAnswers {
  import opened Common
  import opened SessionState
  import opened SessionConservation
  import opened SessionQueue
  import opened SessionPair
  import Dedup

  predicate IsReply(st: Statement, id: Id) {
    st.data.Some? && st.data.value.Sealed? && st.data.value.body.Response? && st.data.value.body.requestId == id
  }

  /** How many responses to a request id were submitted. */
  function Replies(sent: seq<Statement>, id: Id): nat {
    if sent == [] then 0 else Replies(sent[..|sent| - 1], id) + if IsReply(sent[|sent| - 1], id) then 1 else 0
  }

  /** How many times a request with the id was delivered. */
  function Deliveries(delivered: seq<StatementData>, id: Id): nat {
    if delivered == [] then 0
    else
      var d := delivered[|delivered| - 1];
      Deliveries(delivered[..|delivered| - 1], id) + if d.Request? && d.requestId == id then 1 else 0
  }

  function Unanswered(s: State, id: Id): nat {
    if s.incoming == Some(id) && !s.responded then 1 else 0
  }

  /** Every response used up a delivery of its own; an unanswered request still has one to its credit. */
  ghost predicate Credited(s: State, id: Id) {
    Replies(s.sent, id) + Unanswered(s, id) <= Deliveries(s.delivered, id)
  }

  lemma {:induction false} RequestsAreNoReplies(sent: seq<Statement>, sent': seq<Statement>, id: Id)
    requires |sent| <= |sent'| && sent'[..|sent|] == sent
    requires forall i :: |sent| <= i < |sent'| ==> IsRequest(sent'[i])
    ensures Replies(sent', id) == Replies(sent, id)
    decreases |sent'|
  {
    if |sent'| > |sent| {
      RequestsAreNoReplies(sent, sent'[..|sent'| - 1], id);
    } else {
      assert sent' == sent;
    }
  }

  lemma DeliverCredits(s: State, d: StatementData, id: Id)
    ensures Deliveries(Deliver(s, d).delivered, id)
         == Deliveries(s.delivered, id) + if d.Request? && d.requestId == id then 1 else 0
    ensures Replies(Deliver(s, d).sent, id) == Replies(s.sent, id)
    ensures Unanswered(Deliver(s, d), id) == Unanswered(s, id)
  {
    assert Deliver(s, d).delivered[..|s.delivered|] == s.delivered;
  }

  lemma RequestedCredits(s: State, s': State, id: Id)
    requires Requested(s, s') && Credited(s, id)
    ensures Credited(s', id)
  {
    RequestsAreNoReplies(s.sent, s'.sent, id);
  }

  lemma AfterAckCredits(c: Config, s: State, e: Event, id: Id)
    requires AcceptsAck(c, s, e) && Credited(s, id)
    ensures Credited(AfterAck(c, s, e), id)
  {
    hide TryDecode;
    hide Deliver;
    hide Replies;
    hide Deliveries;
    var d := TryDecode(c, e.statement, e.responsesOnly).value;
    var t := s.(seen := Dedup.AddCapped(s.seen, e.statement.data.value));
    ResolvePhase(t, s.outgoing.value.tokens, d.code);
    DeliverCredits(ResolveAll(t, s.outgoing.value.tokens, d.code).(outgoing := None), d, id);
  }

  lemma ReceiveCredits(c: Config, s: State, e: Event, id: Id)
    requires e.Receive? && Outbound(c, s) && Inbound(s) && Credited(s, id)
    ensures Credited(Step(c, s, e), id)
  {
    hide Step;
    hide AfterAck;
    hide AcceptsAck;
    hide Outbound;
    hide Inbound;
    hide Replies;
    hide Deliveries;
    if AcceptsAck(c, s, e) {
      AckDrains(c, s, e);
      AfterAckKept(c, s, e);
      AfterAckCredits(c, s, e, id);
      DrainOutbound(c, AfterAck(c, s, e));
      RequestedCredits(AfterAck(c, s, e), Step(c, s, e), id);
    } else {
      QuietShape(c, s, e);
      var s' := Step(c, s, e);
      var d := TryDecode(c, e.statement, e.responsesOnly);
      if s' != s.(seen := s'.seen) {
        DeliverCredits(s.(seen := s'.seen, incoming := Some(d.value.requestId), responded := false), d.value, id);
      }
    }
  }

  lemma RestoreCredits(c: Config, s: State, peer: seq<Statement>, id: Id)
    requires Credited(s, id)
    ensures Credited(RestoreIncoming(c, s, peer), id)
  {
    hide Deliver;
    hide Decoded;
    hide Find;
    hide Replies;
    hide Deliveries;
    var request := Find(Decoded(c, peer), true);
    if request.Some? {
      FoundIn(Decoded(c, peer), true);
      var answered := Answers(Find(Decoded(c, peer), false), request.value);
      DeliverCredits(s.(incoming := Some(request.value.requestId), responded := answered), request.value, id);
    }
  }

  lemma InitCredits(c: Config, s: State, own: seq<Statement>, peer: seq<Statement>, id: Id)
    requires Outbound(c, s) && Inbound(s) && Phased(s) && Credited(s, id)
    ensures Credited(FinishInit(c, s, own, peer), id)
  {
    hide Outbound;
    hide Inbound;
    hide RestoreIncoming;
    hide RestoreOutgoing;
    hide ProcessMessageQueue;
    hide Replies;
    hide Deliveries;
    if s.phase.Initialization? {
      NotedKept(c, s, own, peer);
      var r := s.(expiry := MaxExpiry(own), seen := Dedup.AddAll(s.seen, DataKeys(own + peer)));
      RestoreOutgoingKept(c, r, own);
      var t := RestoreOutgoing(c, r, own);
      RestoreIncomingKept(c, t, own, peer);
      RestoreCredits(c, t, peer, id);
      var u := RestoreIncoming(c, t, peer);
      KeptToSame(c, t, Init(own, peer), u, u.(phase := Active));
      DrainOutbound(c, u.(phase := Active));
      RequestedCredits(u.(phase := Active), ProcessMessageQueue(c, u.(phase := Active)), id);
    }
  }

  lemma SubmitCredits(c: Config, s: State, encoded: Option<Payload>, id: Id)
    requires Outbound(c, s) && Inbound(s) && Credited(s, id)
    ensures Credited(SubmitRequest(c, s, encoded).0, id)
  {
    hide Outbound;
    hide Inbound;
    hide ProcessNewMessage;
    hide Replies;
    hide Deliveries;
    if !s.phase.Disposed? && encoded.Some? && |encoded.value| <= c.maxSize {
      var token := Id(c.self, s.nextId);
      var t := EnsureListening(s).(nextId := s.nextId + 1, issued := s.issued[token := encoded.value],
                                   pending := s.pending + [token]);
      IssueOutbound(c, s, t, encoded.value);
      ProcessNewOutbound(c, t, encoded.value, token);
      if !s.phase.Initialization? {
        RequestedCredits(t, ProcessNewMessage(c, t, encoded.value, token), id);
      }
    }
  }

  lemma RespondCredits(c: Config, s: State, requestId: Id, code: ResponseCode, id: Id)
    requires Credited(s, id)
    ensures Credited(SubmitResponse(c, s, requestId, code).0, id)
  {
    var s' := SubmitResponse(c, s, requestId, code).0;
    if s'.sent != s.sent {
      assert s'.sent[..|s'.sent| - 1] == s.sent;
    }
  }

  lemma StepCredits(c: Config, s: State, e: Event, id: Id)
    requires Outbound(c, s) && Inbound(s) && Phased(s) && Credited(s, id)
    ensures Credited(Step(c, s, e), id)
  {
    hide Outbound;
    hide Inbound;
    hide ProcessMessageQueue;
    hide Replies;
    hide Deliveries;
    match e
    case Submit(encoded) => SubmitCredits(c, s, encoded, id);
    case Respond(requestId, code) => RespondCredits(c, s, requestId, code, id);
    case Receive(_, _) => ReceiveCredits(c, s, e, id);
    case Init(own, peer) => InitCredits(c, s, own, peer, id);
    case _ =>
  }

  lemma {:induction false} RunCredits(c: Config, evs: seq<Event>, id: Id)
    ensures var s := Run(c, evs); Outbound(c, s) && Inbound(s) && Credited(s, id)
    decreases |evs|
  {
    if evs != [] {
      var prefix := evs[..|evs| - 1];
      RunCredits(c, prefix, id);
      Conservation(c, prefix, id);
      StepKept(c, Run(c, prefix), evs[|evs| - 1]);
      StepCredits(c, Run(c, prefix), evs[|evs| - 1], id);
    }
  }

  /** In every run a request id is answered at most as often as a request with that id was delivered. */
  lemma AnsweredAtMostOnce(c: Config, evs: seq<Event>, id: Id)
    ensures Replies(Run(c, evs).sent, id) <= Deliveries(Run(c, evs).delivered, id)
  {
    RunCredits(c, evs, id);
  }
}
