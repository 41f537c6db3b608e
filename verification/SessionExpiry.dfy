/** Expiries on the request channel only go up, so replacement converges to the newest batch. */
module SessionExpiry {
  import opened Common
  import opened SessionState
  import opened SessionConservation
  import opened SessionQueue
  import Dedup

  /** The statements submitted on the request channel, in order. */
  function Requests(sent: seq<Statement>): seq<Statement> {
    if sent == [] then []
    else
      Requests(sent[..|sent| - 1]) +
      if sent[|sent| - 1].channel.RequestChannel? then [sent[|sent| - 1]] else []
  }

  /** Expiries are present, strictly ascending, above `floor` and at most `top`. */
  ghost predicate Climbing(statements: seq<Statement>, floor: int, top: int) {
    && floor <= top
    && (forall i :: 0 <= i < |statements| ==>
          statements[i].expiry.Some? && floor < statements[i].expiry.value <= top)
    && (forall i, j :: 0 <= i < j < |statements| ==> statements[i].expiry.value < statements[j].expiry.value)
  }

  /** Once active: all requests were submitted above the floor; before that there are none. */
  ghost predicate Rising(s: State, floor: int) {
    match s.phase
    case Initialization => Requests(s.sent) == []
    case Active => Climbing(Requests(s.sent), floor, s.expiry)
    case Disposed => Requests(s.sent) == [] || Climbing(Requests(s.sent), floor, s.expiry)
  }

  /** The batch in flight, unless it was restored, is what the last request statement carries. */
  ghost predicate NewestOnTop(c: Config, s: State) {
    s.outgoing.Some? && s.outgoing.value.tokens != [] ==>
      && Requests(s.sent) != []
      && Says(Requests(s.sent)[|Requests(s.sent)| - 1], Request(s.outgoing.value.requestId, s.outgoing.value.messages))
  }

  lemma NextExpiryRises(c: Config, s: State)
    ensures NextExpiry(c, s) > s.expiry
  {
  }

  lemma SubmitDataRises(c: Config, s: State, channel: Channel, body: StatementData, floor: int)
    requires !s.phase.Initialization? && Climbing(Requests(s.sent), floor, s.expiry)
    ensures var s' := SubmitData(c, s, channel, body);
      && Climbing(Requests(s'.sent), floor, s'.expiry)
      && |s'.sent| == |s.sent| + 1
      && Says(s'.sent[|s.sent|], body) && s'.sent[|s.sent|].expiry == Some(s'.expiry)
      && Requests(s'.sent) == Requests(s.sent) + (if channel.RequestChannel? then [s'.sent[|s.sent|]] else [])
  {
    var s' := SubmitData(c, s, channel, body);
    assert s'.sent[..|s'.sent| - 1] == s.sent;
    NextExpiryRises(c, s);
    assert forall i :: 0 <= i < |Requests(s.sent)| ==> Requests(s'.sent)[i] == Requests(s.sent)[i];
  }

  lemma SendBatchRises(c: Config, s: State, messages: seq<Payload>, tokens: seq<Id>, floor: int)
    requires !s.phase.Initialization? && Climbing(Requests(s.sent), floor, s.expiry)
    ensures var s' := SendBatch(c, s, messages, tokens);
      Climbing(Requests(s'.sent), floor, s'.expiry) && NewestOnTop(c, s') && s'.phase == s.phase
  {
    var id := Id(c.self, s.nextId);
    SubmitDataRises(c, s.(nextId := s.nextId + 1, outgoing := Some(Batch(id, messages, tokens))),
                    RequestChannel, Request(id, messages), floor);
    hide Requests;
    hide Climbing;
    hide NextExpiry;
    var s' := SendBatch(c, s, messages, tokens);
    assert Says(Requests(s'.sent)[|Requests(s'.sent)| - 1], Request(id, messages));
  }

  lemma ProcessNewRises(c: Config, s: State, encoded: Payload, token: Id, floor: int)
    requires !s.phase.Initialization? && Climbing(Requests(s.sent), floor, s.expiry) && NewestOnTop(c, s)
    ensures var s' := ProcessNewMessage(c, s, encoded, token);
      Climbing(Requests(s'.sent), floor, s'.expiry) && NewestOnTop(c, s') && s'.phase == s.phase
  {
    if s.outgoing.None? {
      SendBatchRises(c, s, [encoded], [token], floor);
    } else if Fits(c, s.outgoing.value, encoded) {
      SendBatchRises(c, s, s.outgoing.value.messages + [encoded], s.outgoing.value.tokens + [token], floor);
    }
  }

  lemma {:induction false} DrainRises(c: Config, s: State, floor: int)
    requires !s.phase.Initialization? && Climbing(Requests(s.sent), floor, s.expiry) && NewestOnTop(c, s)
    ensures var s' := ProcessMessageQueue(c, s);
      Climbing(Requests(s'.sent), floor, s'.expiry) && NewestOnTop(c, s') && s'.phase == s.phase
    decreases |s.queue|
  {
    if s.queue != [] && (s.outgoing.None? || Fits(c, s.outgoing.value, s.queue[0].encoded)) {
      var u := s.(queue := s.queue[1..]);
      JoinsBatch(c, u, s.queue[0].encoded, s.queue[0].token);
      ProcessNewRises(c, u, s.queue[0].encoded, s.queue[0].token, floor);
      DrainRises(c, ProcessNewMessage(c, u, s.queue[0].encoded, s.queue[0].token), floor);
    }
  }

  lemma {:induction false} MaxExpiryNonNegative(statements: seq<Statement>)
    ensures MaxExpiry(statements) >= 0
    ensures forall i :: 0 <= i < |statements| && statements[i].expiry.Some? ==>
      statements[i].expiry.value <= MaxExpiry(statements)
  {
    if statements != [] {
      MaxExpiryNonNegative(statements[..|statements| - 1]);
    }
  }

  /** The floor an event sets: what an initialization reads back. */
  ghost predicate FloorHolds(s: State, e: Event, floor: int) {
    e.Init? && s.phase.Initialization? ==> MaxExpiry(e.own) >= floor
  }

  lemma AckRises(c: Config, s: State, e: Event, floor: int)
    requires AcceptsAck(c, s, e) && Rising(s, floor) && Phased(s)
    ensures Rising(Step(c, s, e), floor) && NewestOnTop(c, Step(c, s, e))
  {
    AckDrains(c, s, e);
    AckSent(c, s, e);
    hide AfterAck;
    hide AcceptsAck;
    hide Step;
    DrainRises(c, AfterAck(c, s, e), floor);
  }

  lemma AckSent(c: Config, s: State, e: Event)
    requires AcceptsAck(c, s, e)
    ensures AfterAck(c, s, e).sent == s.sent && AfterAck(c, s, e).expiry == s.expiry
  {
    hide TryDecode;
    var d := TryDecode(c, e.statement, e.responsesOnly).value;
    ResolvePhase(s.(seen := Dedup.AddCapped(s.seen, e.statement.data.value)), s.outgoing.value.tokens, d.code);
  }

  lemma InitRises(c: Config, s: State, own: seq<Statement>, peer: seq<Statement>, floor: int)
    requires s.phase.Initialization? && Requests(s.sent) == [] && Phased(s) && MaxExpiry(own) >= floor
    ensures var s' := FinishInit(c, s, own, peer); Rising(s', floor) && NewestOnTop(c, s')
  {
    hide ProcessMessageQueue;
    hide RestoreOutgoing;
    hide RestoreIncoming;
    hide Requests;
    var t := s.(expiry := MaxExpiry(own), seen := Dedup.AddAll(s.seen, DataKeys(own + peer)));
    RecoveryShape(c, t, own, peer);
    DrainRises(c, RestoreIncoming(c, RestoreOutgoing(c, t, own), peer).(phase := Active), floor);
  }

  lemma SubmitRises(c: Config, s: State, encoded: Option<Payload>, floor: int)
    requires Rising(s, floor) && NewestOnTop(c, s) && Phased(s)
    ensures var s' := SubmitRequest(c, s, encoded).0; Rising(s', floor) && NewestOnTop(c, s')
  {
    hide ProcessNewMessage;
    hide Requests;
    if s.phase.Active? && encoded.Some? && |encoded.value| <= c.maxSize {
      var token := Id(c.self, s.nextId);
      var t := EnsureListening(s).(nextId := s.nextId + 1, issued := s.issued[token := encoded.value],
                                   pending := s.pending + [token]);
      ProcessNewRises(c, t, encoded.value, token, floor);
    }
  }

  lemma RespondRises(c: Config, s: State, requestId: Id, code: ResponseCode, floor: int)
    requires Rising(s, floor) && NewestOnTop(c, s) && Phased(s)
    ensures var s' := SubmitResponse(c, s, requestId, code).0; Rising(s', floor) && NewestOnTop(c, s')
  {
    var t := s.(responded := true);
    var s' := SubmitData(c, t, ResponseChannel, Response(requestId, code));
    assert s'.sent[..|s'.sent| - 1] == s.sent;
    if s.phase.Active? {
      SubmitDataRises(c, t, ResponseChannel, Response(requestId, code), floor);
    }
  }

  lemma StepRises(c: Config, s: State, e: Event, floor: int)
    requires Rising(s, floor) && NewestOnTop(c, s) && Phased(s) && FloorHolds(s, e, floor)
    ensures Rising(Step(c, s, e), floor) && NewestOnTop(c, Step(c, s, e))
  {
    hide Requests;
    match e
    case Submit(encoded) => SubmitRises(c, s, encoded, floor);
    case Respond(id, code) => RespondRises(c, s, id, code, floor);
    case Receive(_, _) =>
      if AcceptsAck(c, s, e) {
        AckRises(c, s, e, floor);
      } else {
        QuietReceive(c, s, e);
        QuietSent(c, s, e);
      }
    case Init(own, peer) =>
      if s.phase.Initialization? {
        InitRises(c, s, own, peer, floor);
      }
    case _ =>
  }

  lemma QuietSent(c: Config, s: State, e: Event)
    requires e.Receive? && !AcceptsAck(c, s, e)
    ensures Step(c, s, e).sent == s.sent && Step(c, s, e).expiry == s.expiry
  {
    hide TryDecode;
  }

  /** No initialization of the run reads back less than the floor. */
  ghost predicate FloorsHold(c: Config, evs: seq<Event>, floor: int) {
    forall k :: 0 <= k < |evs| ==> FloorHolds(Run(c, evs[..k]), evs[k], floor)
  }

  lemma FloorsPrefix(c: Config, evs: seq<Event>, floor: int)
    requires FloorsHold(c, evs, floor) && evs != []
    ensures FloorsHold(c, evs[..|evs| - 1], floor)
    ensures FloorHolds(Run(c, evs[..|evs| - 1]), evs[|evs| - 1], floor)
  {
    hide Run;
    hide FloorHolds;
    var n := |evs| - 1;
    forall k | 0 <= k < n ensures FloorHolds(Run(c, evs[..n][..k]), evs[..n][k], floor) {
      assert evs[..n][..k] == evs[..k];
      assert FloorHolds(Run(c, evs[..k]), evs[k], floor);
    }
  }

  /** In every run, whatever the clock does, request expiries rise strictly above the floor. */
  lemma {:induction false} RequestsRise(c: Config, evs: seq<Event>, floor: int)
    requires FloorsHold(c, evs, floor)
    ensures Rising(Run(c, evs), floor) && NewestOnTop(c, Run(c, evs))
    decreases |evs|
  {
    if evs != [] {
      var prefix := evs[..|evs| - 1];
      FloorsPrefix(c, evs, floor);
      RequestsRise(c, prefix, floor);
      Conservation(c, prefix, Id(c.self, 0));
      StepRises(c, Run(c, prefix), evs[|evs| - 1], floor);
    }
  }

  /** Initialization ends once. */
  lemma PhaseLeft(c: Config, s: State, e: Event)
    ensures !s.phase.Initialization? || e.Init? ==> !Step(c, s, e).phase.Initialization?
  {
    hide ProcessNewMessage;
    hide TryDecode;
    hide ProcessMessageQueue;
    match e
    case Submit(encoded) =>
      if encoded.Some? {
        var token := Id(c.self, s.nextId);
        var t := EnsureListening(s).(nextId := s.nextId + 1, issued := s.issued[token := encoded.value],
                                     pending := s.pending + [token]);
        ProcessNewBooks(c, t, encoded.value, token, token);
      }
    case Receive(_, _) =>
      if AcceptsAck(c, s, e) {
        AckDrains(c, s, e);
        DrainPhase(c, AfterAck(c, s, e));
      } else {
        QuietReceive(c, s, e);
      }
    case Init(own, peer) =>
      var t := s.(expiry := MaxExpiry(own), seen := Dedup.AddAll(s.seen, DataKeys(own + peer)));
      DrainPhase(c, RestoreIncoming(c, RestoreOutgoing(c, t, own), peer).(phase := Active));
    case _ =>
  }

  lemma {:induction false} PhaseStaysLeft(c: Config, evs: seq<Event>, i: nat, j: nat)
    requires i <= j <= |evs| && !Run(c, evs[..i]).phase.Initialization?
    ensures !Run(c, evs[..j]).phase.Initialization?
    decreases j
  {
    if i < j {
      PhaseStaysLeft(c, evs, i, j - 1);
      assert evs[..j][..j - 1] == evs[..j - 1];
      PhaseLeft(c, Run(c, evs[..j - 1]), evs[j - 1]);
    }
  }

  /** At most one initialization of a run finds the session in its initial phase. */
  lemma InitializedOnce(c: Config, evs: seq<Event>, j: nat, k: nat)
    requires j < k < |evs| && evs[j].Init?
    ensures !Run(c, evs[..k]).phase.Initialization?
  {
    assert evs[..j + 1][..j] == evs[..j];
    PhaseLeft(c, Run(c, evs[..j]), evs[j]);
    PhaseStaysLeft(c, evs, j + 1, k);
  }

  /** Every request of a run exceeds every expiry that its initialization read back. */
  lemma RequestsExceedHistory(c: Config, evs: seq<Event>, k: nat)
    requires k < |evs| && evs[k].Init? && Run(c, evs[..k]).phase.Initialization?
    ensures Rising(Run(c, evs), MaxExpiry(evs[k].own))
    ensures forall i | 0 <= i < |evs[k].own| && evs[k].own[i].expiry.Some? ::
      evs[k].own[i].expiry.value <= MaxExpiry(evs[k].own)
  {
    MaxExpiryNonNegative(evs[k].own);
    hide Run;
    forall j | 0 <= j < |evs| ensures FloorHolds(Run(c, evs[..j]), evs[j], MaxExpiry(evs[k].own)) {
      if j < k && evs[j].Init? {
        InitializedOnce(c, evs, j, k);
      } else if k < j {
        InitializedOnce(c, evs, k, j);
      }
    }
    RequestsRise(c, evs, MaxExpiry(evs[k].own));
  }

  // -- Replacement -----------------------------------------------------------------------

  /** The store keeps, per account and channel, the statement of highest expiry. */
  function Arrive(slot: Option<Statement>, s: Statement): Option<Statement>
    requires s.expiry.Some? && (slot.Some? ==> slot.value.expiry.Some?)
  {
    if slot.None? || s.expiry.value > slot.value.expiry.value then Some(s) else slot
  }

  ghost predicate AllDated(arrivals: seq<Statement>, slot: Option<Statement>) {
    && (forall i :: 0 <= i < |arrivals| ==> arrivals[i].expiry.Some?)
    && (slot.Some? ==> slot.value.expiry.Some?)
  }

  function SlotAfter(slot: Option<Statement>, arrivals: seq<Statement>): (r: Option<Statement>)
    requires AllDated(arrivals, slot)
    ensures r.Some? ==> r.value.expiry.Some?
    decreases |arrivals|
  {
    if arrivals == [] then slot else Arrive(SlotAfter(slot, arrivals[..|arrivals| - 1]), arrivals[|arrivals| - 1])
  }

  lemma {:induction false} SlotIsMaximum(slot: Option<Statement>, arrivals: seq<Statement>, top: Statement)
    requires AllDated(arrivals, slot) && top in arrivals && top.expiry.Some?
    requires slot.Some? ==> slot.value.expiry.value < top.expiry.value
    requires forall i :: 0 <= i < |arrivals| ==> arrivals[i] == top || arrivals[i].expiry.value < top.expiry.value
    ensures SlotAfter(slot, arrivals) == Some(top)
    decreases |arrivals|
  {
    var n := |arrivals| - 1;
    if top in arrivals[..n] {
      SlotIsMaximum(slot, arrivals[..n], top);
    } else {
      SlotBelow(slot, arrivals[..n], top);
      assert arrivals == arrivals[..n] + [arrivals[n]];
    }
  }

  lemma {:induction false} SlotBelow(slot: Option<Statement>, arrivals: seq<Statement>, top: Statement)
    requires AllDated(arrivals, slot) && top !in arrivals && top.expiry.Some?
    requires slot.Some? ==> slot.value.expiry.value < top.expiry.value
    requires forall i :: 0 <= i < |arrivals| ==> arrivals[i].expiry.value < top.expiry.value
    ensures SlotAfter(slot, arrivals).Some? ==> SlotAfter(slot, arrivals).value.expiry.value < top.expiry.value
    decreases |arrivals|
  {
    if arrivals != [] {
      SlotBelow(slot, arrivals[..|arrivals| - 1], top);
    }
  }

  /**
   * Replacement converges: let the submissions of a run arrive in any order, any number of
   * times, some perhaps not at all, as long as the newest arrives; the slot then holds the
   * newest, which carries the batch in flight.
   */
  lemma ReplacementConverges(c: Config, evs: seq<Event>, floor: int, slot: Option<Statement>, arrivals: seq<Statement>)
    requires FloorsHold(c, evs, floor)
    requires Requests(Run(c, evs).sent) != []
    requires slot.Some? ==> slot.value.expiry.Some? && slot.value.expiry.value <= floor
    requires forall a <- arrivals :: a in Requests(Run(c, evs).sent)
    requires Requests(Run(c, evs).sent)[|Requests(Run(c, evs).sent)| - 1] in arrivals
    ensures AllDated(arrivals, slot)
    ensures var s := Run(c, evs); var newest := Requests(s.sent)[|Requests(s.sent)| - 1];
      && SlotAfter(slot, arrivals) == Some(newest)
      && (s.outgoing.Some? && s.outgoing.value.tokens != [] ==>
            Says(newest, Request(s.outgoing.value.requestId, s.outgoing.value.messages)))
  {
    RequestsRise(c, evs, floor);
    var requests := Requests(Run(c, evs).sent);
    var newest := requests[|requests| - 1];
    forall i | 0 <= i < |arrivals|
      ensures arrivals[i].expiry.Some? && (arrivals[i] == newest || arrivals[i].expiry.value < newest.expiry.value)
    {
      assert arrivals[i] in arrivals && arrivals[i] in requests;
      var k :| 0 <= k < |requests| && requests[k] == arrivals[i];
    }
    SlotIsMaximum(slot, arrivals, newest);
  }

  // -- Where monotonicity stops ------------------------------------------------------------

  /** A clock that is set back after its first reading. */
  const SetBack := Config(1, 10, 0, t => if t == 0 then 5000 else 0, _ => true)

  const FirstRequest := Statement(Some(2), Some(1), RequestChannel, Some(Sealed(Id(2, 0), Request(Id(2, 0), []))))
  const SecondRequest := Statement(Some(2), Some(2), RequestChannel, Some(Sealed(Id(2, 1), Request(Id(2, 1), []))))

  lemma RunSnoc(c: Config, evs: seq<Event>, e: Event)
    ensures Run(c, evs + [e]) == Step(c, Run(c, evs), e)
  {
    assert (evs + [e])[..|evs|] == evs;
  }

  /** A request arrives during initialization and is acknowledged. */
  lemma EarlyAck()
    ensures var s := Run(SetBack, [Attach(0), Receive(FirstRequest, false), Respond(Id(2, 0), Success)]);
      && s.phase.Initialization? && s.outgoing.None? && s.queue == [] && s.seen == [FirstRequest.data.value]
      && s.sent == [Statement(Some(1), Some(5 * 0x1_0000_0000), ResponseChannel,
                              Some(Sealed(Id(1, 0), Response(Id(2, 0), Success))))]
      && s.incoming == Some(Id(2, 0)) && s.ticks == 1
  {
    var e1, e2, e3 := Attach(0), Receive(FirstRequest, false), Respond(Id(2, 0), Success);
    RunSnoc(SetBack, [], e1);
    RunSnoc(SetBack, [e1], e2);
    RunSnoc(SetBack, [e1, e2], e3);
    assert [] + [e1] == [e1] && [e1] + [e2] == [e1, e2] && [e1, e2] + [e3] == [e1, e2, e3];
    assert Run(SetBack, []) == Initial;
    hide Run;
    var s := Run(SetBack, [e1]);
    assert s == Initial.(listening := true, inboxes := map[0 := []]) by {
      assert Replay([]) == [];
    }
    assert TryDecode(SetBack, FirstRequest, false) == Some(Request(Id(2, 0), []));
    var t := Run(SetBack, [e1, e2]);
    assert t.incoming == Some(Id(2, 0)) && !t.responded && t.phase.Initialization? && t.expiry == 0 && t.ticks == 0
        && t.outgoing.None? && t.queue == [] && t.sent == [] && t.seen == [FirstRequest.data.value];
    assert SetBack.clock(0) == 5000;
  }

  /** Initialization finds nothing on chain; the next request is acknowledged after the clock was set back. */
  lemma LateAck(s: State)
    requires s.phase.Initialization? && s.outgoing.None? && s.queue == [] && s.seen == [FirstRequest.data.value]
    requires s.incoming == Some(Id(2, 0)) && s.ticks == 1
    ensures var t := Step(SetBack, s, Init([], []));
      var u := Step(SetBack, t, Receive(SecondRequest, false));
      Step(SetBack, u, Respond(Id(2, 1), Success)).sent
        == s.sent + [Statement(Some(1), Some(1), ResponseChannel, Some(Sealed(Id(1, 1), Response(Id(2, 1), Success))))]
  {
    assert DataKeys([] + []) == [];
    var t := Step(SetBack, s, Init([], []));
    assert t == s.(expiry := 0, phase := Active, listening := true);
    assert TryDecode(SetBack, SecondRequest, false) == Some(Request(Id(2, 1), []));
    var u := Step(SetBack, t, Receive(SecondRequest, false));
    assert u.incoming == Some(Id(2, 1)) && !u.responded && u.expiry == 0 && u.ticks == 1 && u.sent == s.sent;
    assert SetBack.clock(1) == 0;
  }

  /** So an ACK sent during initialization can be followed, on the same channel, by one of lower expiry. */
  lemma ResponseExpiryCanFall()
    ensures var evs := [Attach(0), Receive(FirstRequest, false), Respond(Id(2, 0), Success)]
                       + [Init([], [])] + [Receive(SecondRequest, false)] + [Respond(Id(2, 1), Success)];
      var sent := Run(SetBack, evs).sent;
      && |sent| == 2
      && sent[0].channel == sent[1].channel == ResponseChannel
      && sent[0].expiry == Some(5 * 0x1_0000_0000) && sent[1].expiry == Some(1)
  {
    EarlyAck();
    var evs := [Attach(0), Receive(FirstRequest, false), Respond(Id(2, 0), Success)];
    LateAck(Run(SetBack, evs));
    hide Run;
    hide Step;
    RunSnoc(SetBack, evs, Init([], []));
    RunSnoc(SetBack, evs + [Init([], [])], Receive(SecondRequest, false));
    RunSnoc(SetBack, evs + [Init([], [])] + [Receive(SecondRequest, false)], Respond(Id(2, 1), Success));
  }
}
