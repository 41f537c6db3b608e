/** How submissions are dated: strictly forward, on both channels, between initializations. */
module SessionDates {
  import opened Common
  import opened SessionState
  import opened SessionConservation
  import opened SessionQueue
  import opened SessionExpiry
  import Dedup

  // -- How submissions are dated ------------------------------------------------------------------

  /** Every statement has an expiry, and each a greater one than all before. */
  ghost predicate Forward(sent: seq<Statement>) {
    && (forall i :: 0 <= i < |sent| ==> sent[i].expiry.Some?)
    && (forall i, j :: 0 <= i < j < |sent| ==> sent[i].expiry.value < sent[j].expiry.value)
  }

  ghost predicate Ascending(sent: seq<Statement>, top: int) {
    Forward(sent) && forall i :: 0 <= i < |sent| ==> sent[i].expiry.value <= top
  }

  /** The expiry after k submissions, from the expiry and the number of readings before them. */
  function Date(c: Config, expiry: int, tick: nat, k: nat): int {
    if k == 0 then expiry else Later(c, Date(c, expiry, tick, k - 1), tick + k - 1)
  }

  ghost predicate NonceIs(st: Statement, nonce: Id) {
    st.data.Some? && st.data.value.Sealed? && st.data.value.nonce == nonce
  }

  /** Between the two states, statements were submitted one after another, each with the next date. */
  ghost predicate Dated(c: Config, s: State, s': State) {
    && s.ticks <= s'.ticks && |s'.sent| - |s.sent| == s'.ticks - s.ticks
    && s'.sent[..|s.sent|] == s.sent
    && s'.expiry == Date(c, s.expiry, s.ticks, s'.ticks - s.ticks)
    && (forall i :: |s.sent| <= i < |s'.sent| ==>
          && s'.sent[i].expiry == Some(Date(c, s.expiry, s.ticks, i - |s.sent| + 1))
          && NonceIs(s'.sent[i], Id(c.self, s.ticks + i - |s.sent|)))
  }

  lemma {:induction false} DateSplit(c: Config, expiry: int, tick: nat, j: nat, k: nat)
    ensures Date(c, expiry, tick, j + k) == Date(c, Date(c, expiry, tick, j), tick + j, k)
  {
    if k > 0 {
      DateSplit(c, expiry, tick, j, k - 1);
    }
  }

  lemma {:induction false} DatesRise(c: Config, expiry: int, tick: nat, j: nat, k: nat)
    requires j < k
    ensures Date(c, expiry, tick, j) < Date(c, expiry, tick, k)
  {
    if j < k - 1 {
      DatesRise(c, expiry, tick, j, k - 1);
    }
  }

  lemma DatedTwice(c: Config, s: State, t: State, u: State)
    requires Dated(c, s, t) && Dated(c, t, u)
    ensures Dated(c, s, u)
  {
    hide Date;
    var j := t.ticks - s.ticks;
    DateSplit(c, s.expiry, s.ticks, j, u.ticks - t.ticks);
    assert u.sent[..|s.sent|] == u.sent[..|t.sent|][..|s.sent|];
    forall i | |s.sent| <= i < |u.sent|
      ensures u.sent[i].expiry == Some(Date(c, s.expiry, s.ticks, i - |s.sent| + 1))
      ensures NonceIs(u.sent[i], Id(c.self, s.ticks + i - |s.sent|))
    {
      if i < |t.sent| {
        assert u.sent[i] == t.sent[i];
      } else {
        DateSplit(c, s.expiry, s.ticks, j, i - |t.sent| + 1);
      }
    }
  }

  lemma Undisturbed(c: Config, s: State, t: State)
    requires t.sent == s.sent && t.expiry == s.expiry && t.ticks == s.ticks
    ensures Dated(c, s, t)
  {
  }

  lemma SubmitDated(c: Config, s: State, channel: Channel, body: StatementData)
    ensures Dated(c, s, SubmitData(c, s, channel, body))
  {
    var s' := SubmitData(c, s, channel, body);
    assert s'.sent[..|s.sent|] == s.sent;
    assert Date(c, s.expiry, s.ticks, 1) == Later(c, Date(c, s.expiry, s.ticks, 0), s.ticks);
  }

  lemma ProcessNewDated(c: Config, s: State, encoded: Payload, token: Id)
    ensures Dated(c, s, ProcessNewMessage(c, s, encoded, token))
  {
    hide Dated;
    hide SubmitData;
    if s.outgoing.None? || Fits(c, s.outgoing.value, encoded) {
      var messages := if s.outgoing.None? then [encoded] else s.outgoing.value.messages + [encoded];
      var tokens := if s.outgoing.None? then [token] else s.outgoing.value.tokens + [token];
      var id := Id(c.self, s.nextId);
      var t := s.(nextId := s.nextId + 1, outgoing := Some(Batch(id, messages, tokens)));
      Undisturbed(c, s, t);
      SubmitDated(c, t, RequestChannel, Request(id, messages));
      DatedTwice(c, s, t, SubmitData(c, t, RequestChannel, Request(id, messages)));
    } else {
      Undisturbed(c, s, ProcessNewMessage(c, s, encoded, token));
    }
  }

  lemma {:induction false} DrainDated(c: Config, s: State)
    ensures Dated(c, s, ProcessMessageQueue(c, s))
    decreases |s.queue|
  {
    hide Dated;
    hide ProcessNewMessage;
    if s.queue != [] && (s.outgoing.None? || Fits(c, s.outgoing.value, s.queue[0].encoded)) {
      var t := s.(queue := s.queue[1..]);
      var u := ProcessNewMessage(c, t, s.queue[0].encoded, s.queue[0].token);
      Undisturbed(c, s, t);
      JoinsBatch(c, t, s.queue[0].encoded, s.queue[0].token);
      ProcessNewDated(c, t, s.queue[0].encoded, s.queue[0].token);
      DrainDated(c, u);
      DatedTwice(c, s, t, u);
      DatedTwice(c, s, u, ProcessMessageQueue(c, u));
    } else {
      Undisturbed(c, s, s);
    }
  }

  /** The state whose expiry the submissions of a step start from: initialization overwrites it. */
  function Base(s: State, e: Event): State {
    if e.Init? && s.phase.Initialization? then s.(expiry := MaxExpiry(e.own)) else s
  }

  lemma SubmitRequestDated(c: Config, s: State, encoded: Option<Payload>)
    ensures Dated(c, s, SubmitRequest(c, s, encoded).0)
  {
    hide Dated;
    hide ProcessNewMessage;
    var s' := SubmitRequest(c, s, encoded).0;
    if s.phase.Active? && encoded.Some? && |encoded.value| <= c.maxSize {
      var token := Id(c.self, s.nextId);
      var t := EnsureListening(s).(nextId := s.nextId + 1, issued := s.issued[token := encoded.value],
                                   pending := s.pending + [token]);
      Undisturbed(c, s, t);
      ProcessNewDated(c, t, encoded.value, token);
      DatedTwice(c, s, t, s');
    } else {
      Undisturbed(c, s, s');
    }
  }

  lemma ReceiveDated(c: Config, s: State, e: Event)
    requires e.Receive?
    ensures Dated(c, s, Step(c, s, e))
  {
    hide Dated;
    hide Step;
    hide AcceptsAck;
    hide AfterAck;
    if AcceptsAck(c, s, e) {
      AckDrains(c, s, e);
      AckSent(c, s, e);
      AckTicks(c, s, e);
      Undisturbed(c, s, AfterAck(c, s, e));
      DrainDated(c, AfterAck(c, s, e));
      DatedTwice(c, s, AfterAck(c, s, e), Step(c, s, e));
    } else {
      QuietShape(c, s, e);
      Undisturbed(c, s, Step(c, s, e));
    }
  }

  lemma AckTicks(c: Config, s: State, e: Event)
    requires AcceptsAck(c, s, e)
    ensures AfterAck(c, s, e).ticks == s.ticks
  {
    hide TryDecode;
    var d := TryDecode(c, e.statement, e.responsesOnly).value;
    ResolvePhase(s.(seen := Dedup.AddCapped(s.seen, e.statement.data.value)), s.outgoing.value.tokens, d.code);
  }

  lemma InitDated(c: Config, s: State, own: seq<Statement>, peer: seq<Statement>)
    requires s.phase.Initialization? && Phased(s)
    ensures Dated(c, s.(expiry := MaxExpiry(own)), FinishInit(c, s, own, peer))
  {
    hide Dated;
    hide ProcessMessageQueue;
    hide RestoreOutgoing;
    hide RestoreIncoming;
    var t := s.(expiry := MaxExpiry(own), seen := Dedup.AddAll(s.seen, DataKeys(own + peer)));
    RecoveryShape(c, t, own, peer);
    var u := RestoreIncoming(c, RestoreOutgoing(c, t, own), peer).(phase := Active);
    var v := ProcessMessageQueue(c, u);
    Undisturbed(c, s.(expiry := MaxExpiry(own)), u);
    DrainDated(c, u);
    DatedTwice(c, s.(expiry := MaxExpiry(own)), u, v);
    Undisturbed(c, v, EnsureListening(v));
    DatedTwice(c, s.(expiry := MaxExpiry(own)), v, EnsureListening(v));
  }

  lemma StepDated(c: Config, s: State, e: Event)
    requires Phased(s)
    ensures Dated(c, Base(s, e), Step(c, s, e))
  {
    hide Dated;
    match e
    case Submit(encoded) => SubmitRequestDated(c, s, encoded);
    case Respond(id, code) =>
      var s' := SubmitResponse(c, s, id, code).0;
      if s'.sent != s.sent {
        var t := s.(responded := true);
        Undisturbed(c, s, t);
        SubmitDated(c, t, ResponseChannel, Response(id, code));
        DatedTwice(c, s, t, s');
      } else {
        RespondQuiet(c, s, id, code);
        Undisturbed(c, s, s');
      }
    case Receive(_, _) => ReceiveDated(c, s, e);
    case Init(own, peer) =>
      if s.phase.Initialization? {
        InitDated(c, s, own, peer);
      } else {
        Undisturbed(c, s, s);
      }
    case _ => Undisturbed(c, s, Step(c, s, e));
  }

  lemma RespondQuiet(c: Config, s: State, id: Id, code: ResponseCode)
    requires SubmitResponse(c, s, id, code).0.sent == s.sent
    ensures SubmitResponse(c, s, id, code).0 == s
  {
  }

  // -- Every run that reads back enough ---------------------------------------------------------------

  /** An initialization that takes effect reads back at least the expiry reached. */
  ghost predicate ReadsEnough(s: State, e: Event) {
    e.Init? && s.phase.Initialization? ==> s.expiry <= MaxExpiry(e.own)
  }

  lemma DatedAscends(c: Config, s: State, s': State, top: int)
    requires Dated(c, s, s') && Ascending(s.sent, top) && top <= s.expiry
    ensures Ascending(s'.sent, s'.expiry)
  {
    hide Date;
    forall i | 0 <= i < |s'.sent| ensures s'.sent[i].expiry.Some? && s'.sent[i].expiry.value <= s'.expiry {
      OneAscends(c, s, s', top, i);
    }
    forall i, j | 0 <= i < j < |s'.sent| ensures s'.sent[i].expiry.value < s'.sent[j].expiry.value {
      OneAscends(c, s, s', top, i);
      if |s.sent| <= j {
        if i < |s.sent| {
          DatesRise(c, s.expiry, s.ticks, 0, j - |s.sent| + 1);
          assert Date(c, s.expiry, s.ticks, 0) == s.expiry by { DateZero(c, s.expiry, s.ticks); }
        } else {
          DatesRise(c, s.expiry, s.ticks, i - |s.sent| + 1, j - |s.sent| + 1);
        }
      } else {
        assert s'.sent[j] == s.sent[j];
      }
    }
  }

  lemma DateZero(c: Config, expiry: int, tick: nat)
    ensures Date(c, expiry, tick, 0) == expiry
  {
  }

  lemma OneAscends(c: Config, s: State, s': State, top: int, i: nat)
    requires Dated(c, s, s') && Ascending(s.sent, top) && top <= s.expiry && i < |s'.sent|
    ensures i < |s.sent| ==> s'.sent[i] == s.sent[i]
    ensures s'.sent[i].expiry.Some? && s'.sent[i].expiry.value <= s'.expiry
  {
    hide Date;
    var k := s'.ticks - s.ticks;
    DateZero(c, s.expiry, s.ticks);
    if k > 0 {
      DatesRise(c, s.expiry, s.ticks, 0, k);
    }
    if i < |s.sent| {
      assert s'.sent[i] == s.sent[i];
    } else if i - |s.sent| + 1 < k {
      DatesRise(c, s.expiry, s.ticks, i - |s.sent| + 1, k);
    }
  }

  /**
   * In every run whose initialization, if any, reads back at least the expiry reached before:
   * all submissions, on both channels and for every clock, have strictly rising expiries.
   */
  lemma {:induction false} SubmissionsRise(c: Config, evs: seq<Event>)
    requires forall k :: 0 <= k < |evs| ==> ReadsEnough(Run(c, evs[..k]), evs[k])
    ensures Ascending(Run(c, evs).sent, Run(c, evs).expiry)
    decreases |evs|
  {
    hide Step;
    hide Dated;
    hide Ascending;
    if evs != [] {
      var n := |evs| - 1;
      var s := Run(c, evs[..n]);
      forall k | 0 <= k < n ensures ReadsEnough(Run(c, evs[..n][..k]), evs[..n][k]) {
        assert evs[..n][..k] == evs[..k];
        assert ReadsEnough(Run(c, evs[..k]), evs[k]);
      }
      SubmissionsRise(c, evs[..n]);
      Conservation(c, evs[..n], Id(c.self, 0));
      StepDated(c, s, evs[n]);
      assert ReadsEnough(s, evs[n]);
      DatedAscends(c, Base(s, evs[n]), Step(c, s, evs[n]), s.expiry);
    } else {
      NothingAscends();
    }
  }

  lemma NothingAscends()
    ensures Ascending([], 0)
  {
  }
}
