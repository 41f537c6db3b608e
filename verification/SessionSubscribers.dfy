/** Late subscribers lose nothing: every subscriber is handed every request delivered, in order. */
module SessionSubscribers {
  import opened Common
  import opened SessionState
  import opened SessionConservation
  import opened SessionQueue
  import Dedup

  /** The request messages a subscriber has been handed, in order. */
  function RequestMessages(inbox: seq<Message>): seq<Message> {
    if inbox == [] then []
    else (if inbox[0].RequestMessage? then [inbox[0]] else []) + RequestMessages(inbox[1..])
  }

  function RequestsOf(delivered: seq<StatementData>): seq<StatementData> {
    if delivered == [] then []
    else
      RequestsOf(delivered[..|delivered| - 1]) +
      if delivered[|delivered| - 1].Request? then [delivered[|delivered| - 1]] else []
  }

  /** Until dispose: the buffer is what was delivered, requests only, and every subscriber has all of it. */
  ghost predicate InSync(s: State) {
    !s.phase.Disposed? ==>
      && s.buffered == RequestsOf(s.delivered)
      && forall sub <- s.inboxes :: RequestMessages(s.inboxes[sub]) == Replay(s.buffered)
  }

  lemma {:induction false} RequestMessagesConcat(a: seq<Message>, b: seq<Message>)
    ensures RequestMessages(a + b) == RequestMessages(a) + RequestMessages(b)
  {
    if a == [] {
      assert a + b == b;
    } else {
      var head := if a[0].RequestMessage? then [a[0]] else [];
      RequestMessagesConcat(a[1..], b);
      assert (a + b)[0] == a[0] && (a + b)[1..] == a[1..] + b;
      assert RequestMessages(a + b) == head + (RequestMessages(a[1..]) + RequestMessages(b));
    }
  }

  lemma {:induction false} AllRequestMessages(m: seq<Message>)
    requires forall i :: 0 <= i < |m| ==> m[i].RequestMessage?
    ensures RequestMessages(m) == m
  {
    if m != [] {
      AllRequestMessages(m[1..]);
      assert m == [m[0]] + m[1..];
    }
  }

  lemma {:induction false} ReplayIsRequests(buffered: seq<StatementData>)
    requires forall d <- buffered :: d.Request?
    ensures RequestMessages(Replay(buffered)) == Replay(buffered)
  {
    if buffered != [] {
      var n := |buffered| - 1;
      ReplayIsRequests(buffered[..n]);
      AllRequestMessages(ToMessages(buffered[n]));
      RequestMessagesConcat(Replay(buffered[..n]), ToMessages(buffered[n]));
    }
  }

  lemma {:induction false} RequestsOfAreRequests(delivered: seq<StatementData>)
    ensures forall d <- RequestsOf(delivered) :: d.Request?
  {
    if delivered != [] {
      RequestsOfAreRequests(delivered[..|delivered| - 1]);
    }
  }

  /** Delivering keeps everyone in step; a response gets through only to a session past initialization. */
  lemma DeliverInSync(s: State, d: StatementData)
    requires InSync(s) && (d.Response? ==> !s.phase.Initialization?)
    ensures InSync(Deliver(s, d))
  {
    var s' := Deliver(s, d);
    assert s'.delivered[..|s.delivered|] == s.delivered;
    if d.Request? {
      assert (s.buffered + [d])[..|s.buffered|] == s.buffered;
      AllRequestMessages(ToMessages(d));
    } else {
      assert RequestMessages(ToMessages(d)) == [] + RequestMessages([]);
    }
    forall sub <- s'.inboxes ensures !s.phase.Disposed? ==> RequestMessages(s'.inboxes[sub]) == Replay(s'.buffered) {
      RequestMessagesConcat(s.inboxes[sub], ToMessages(d));
    }
  }

  lemma {:induction false} DrainKeepsInboxes(c: Config, s: State)
    ensures var s' := ProcessMessageQueue(c, s);
      s'.inboxes == s.inboxes && s'.buffered == s.buffered && s'.delivered == s.delivered && s'.phase == s.phase
      && s'.seen == s.seen
    decreases |s.queue|
  {
    if s.queue != [] && (s.outgoing.None? || Fits(c, s.outgoing.value, s.queue[0].encoded)) {
      var u := s.(queue := s.queue[1..]);
      JoinsBatch(c, u, s.queue[0].encoded, s.queue[0].token);
      ProcessNewKeepsInboxes(c, u, s.queue[0].encoded, s.queue[0].token);
      DrainKeepsInboxes(c, ProcessNewMessage(c, u, s.queue[0].encoded, s.queue[0].token));
    }
  }

  lemma ProcessNewKeepsInboxes(c: Config, s: State, encoded: Payload, token: Id)
    ensures var s' := ProcessNewMessage(c, s, encoded, token);
      s'.inboxes == s.inboxes && s'.buffered == s.buffered && s'.delivered == s.delivered && s'.phase == s.phase
      && s'.seen == s.seen
  {
  }

  lemma AckInSync(c: Config, s: State, e: Event)
    requires AcceptsAck(c, s, e) && InSync(s) && Phased(s)
    ensures InSync(Step(c, s, e))
  {
    AckDrains(c, s, e);
    AfterAckInSync(c, s, e);
    hide AcceptsAck;
    hide AfterAck;
    hide Step;
    DrainKeepsInboxes(c, AfterAck(c, s, e));
  }

  lemma AfterAckInSync(c: Config, s: State, e: Event)
    requires AcceptsAck(c, s, e) && InSync(s) && Phased(s)
    ensures InSync(AfterAck(c, s, e))
  {
    var d := TryDecode(c, e.statement, e.responsesOnly).value;
    var t := s.(seen := Dedup.AddCapped(s.seen, e.statement.data.value));
    ResolvePhase(t, s.outgoing.value.tokens, d.code);
    hide TryDecode;
    hide ResolveAll;
    hide Dedup.AddCapped;
    var u := ResolveAll(t, s.outgoing.value.tokens, d.code).(outgoing := None);
    assert InSync(u);
    hide InSync;
    DeliverInSync(u, d);
  }

  lemma ReceiveInSync(c: Config, s: State, e: Event)
    requires e.Receive? && InSync(s) && Phased(s)
    ensures InSync(Step(c, s, e))
  {
    if AcceptsAck(c, s, e) {
      AckInSync(c, s, e);
    } else {
      QuietShape(c, s, e);
      var s' := Step(c, s, e);
      var d := TryDecode(c, e.statement, e.responsesOnly);
      if s' == s.(seen := s'.seen) {
        SeenIrrelevant(s, s');
      } else {
        var t := s.(seen := s'.seen, incoming := Some(d.value.requestId), responded := false);
        SeenIrrelevant(s, t);
        DeliverInSync(t, d.value);
      }
    }
  }

  lemma SeenIrrelevant(s: State, t: State)
    requires InSync(s) && t == s.(seen := t.seen, incoming := t.incoming, responded := t.responded)
    ensures InSync(t)
  {
  }

  lemma RestoreInSync(c: Config, s: State, peer: seq<Statement>)
    requires InSync(s)
    ensures InSync(RestoreIncoming(c, s, peer))
  {
    hide Decoded;
    hide Find;
    hide Deliver;
    var request := Find(Decoded(c, peer), true);
    if request.Some? {
      FoundIsRequest(Decoded(c, peer));
      var answered := Answers(Find(Decoded(c, peer), false), request.value);
      var v := s.(incoming := Some(request.value.requestId), responded := answered);
      DeliverInSync(v, request.value);
    }
  }

  lemma InitInSync(c: Config, s: State, own: seq<Statement>, peer: seq<Statement>)
    requires InSync(s) && s.phase.Initialization?
    ensures InSync(FinishInit(c, s, own, peer))
  {
    hide ProcessMessageQueue;
    hide RestoreIncoming;
    hide Decoded;
    hide Find;
    var t := RestoreOutgoing(c, s.(expiry := MaxExpiry(own), seen := Dedup.AddAll(s.seen, DataKeys(own + peer))), own);
    RestoreInSync(c, t, peer);
    RestorePhase(c, t, peer);
    DrainKeepsInboxes(c, RestoreIncoming(c, t, peer).(phase := Active));
  }

  lemma RestorePhase(c: Config, s: State, peer: seq<Statement>)
    ensures RestoreIncoming(c, s, peer).phase == s.phase
  {
    hide Decoded;
    hide Find;
  }

  lemma {:induction false} FoundIsRequest(decoded: seq<StatementData>)
    ensures Find(decoded, true).Some? ==> Find(decoded, true).value.Request?
  {
    if decoded != [] {
      FoundIsRequest(decoded[1..]);
    }
  }

  lemma SubmitInSync(c: Config, s: State, encoded: Option<Payload>)
    requires InSync(s)
    ensures InSync(SubmitRequest(c, s, encoded).0)
  {
    hide ProcessNewMessage;
    if encoded.Some? {
      var token := Id(c.self, s.nextId);
      var t := EnsureListening(s).(nextId := s.nextId + 1, issued := s.issued[token := encoded.value],
                                   pending := s.pending + [token]);
      ProcessNewKeepsInboxes(c, t, encoded.value, token);
    }
  }

  lemma AttachInSync(s: State, sub: SubscriberId)
    requires InSync(s)
    ensures InSync(Subscribe(s, sub))
  {
    RequestsOfAreRequests(s.delivered);
    if !s.phase.Disposed? {
      ReplayIsRequests(s.buffered);
    }
  }

  lemma StepInSync(c: Config, s: State, e: Event)
    requires InSync(s) && Phased(s)
    ensures InSync(Step(c, s, e))
  {
    hide SubmitRequest;
    hide FinishInit;
    hide Subscribe;
    hide ReceiveStatement;
    hide NextExpiry;
    match e
    case Submit(encoded) => SubmitInSync(c, s, encoded);
    case Receive(_, _) => ReceiveInSync(c, s, e);
    case Init(own, peer) => StepInit(c, s, own, peer);
    case Attach(sub) => AttachInSync(s, sub);
    case _ =>
  }

  lemma StepInit(c: Config, s: State, own: seq<Statement>, peer: seq<Statement>)
    requires InSync(s)
    ensures InSync(FinishInit(c, s, own, peer))
  {
    if s.phase.Initialization? {
      InitInSync(c, s, own, peer);
    }
  }

  /**
   * In every run, until dispose, each attached subscriber has been handed exactly the messages
   * of all requests delivered so far, in order, however late it attached; the buffer holds no
   * response.
   */
  lemma {:induction false} LateSubscribersLoseNothing(c: Config, evs: seq<Event>)
    ensures InSync(Run(c, evs))
    ensures !Run(c, evs).phase.Disposed? ==> forall d <- Run(c, evs).buffered :: d.Request?
    decreases |evs|
  {
    if evs != [] {
      var prefix := evs[..|evs| - 1];
      LateSubscribersLoseNothing(c, prefix);
      Conservation(c, prefix, Id(c.self, 0));
      StepInSync(c, Run(c, prefix), evs[|evs| - 1]);
    }
    RequestsOfAreRequests(Run(c, evs).delivered);
  }
}
