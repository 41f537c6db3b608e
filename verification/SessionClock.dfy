/**
 * Exactly when all submissions of a session move the expiry forward, whatever the clock reads:
 * unless something is submitted both before and after an initialization that reads back less
 * than the expiry reached.
 */
module SessionClock {
  import opened Common
  import opened SessionState
  import opened SessionConservation
  import opened SessionQueue
  import opened SessionExpiry
  import opened SessionDates
  import Dedup

  // -- The clock only dates ------------------------------------------------------------------------

  /** The two settings differ at most in the clock. */
  ghost predicate Alike(c: Config, c': Config) { c' == c.(clock := c'.clock) }

  function Undated(sent: seq<Statement>): seq<Statement> {
    seq(|sent|, i requires 0 <= i < |sent| => sent[i].(expiry := None))
  }

  /** The states differ at most in the dates of what was submitted. */
  ghost predicate AlikeButDates(s: State, s': State) {
    Undated(s.sent) == Undated(s'.sent) && s' == s.(expiry := s'.expiry, sent := s'.sent)
  }

  lemma SubmitAlike(c: Config, c': Config, s: State, s': State, channel: Channel, body: StatementData)
    requires Alike(c, c') && AlikeButDates(s, s')
    ensures AlikeButDates(SubmitData(c, s, channel, body), SubmitData(c', s', channel, body))
  {
    var t, t' := SubmitData(c, s, channel, body), SubmitData(c', s', channel, body);
    var m, m' := t.sent[|s.sent|], t'.sent[|s'.sent|];
    assert m.(expiry := None) == m'.(expiry := None);
    assert |s.sent| == |Undated(s.sent)| == |s'.sent|;
    assert Undated(t.sent) == Undated(s.sent) + [m.(expiry := None)];
    assert Undated(t'.sent) == Undated(s'.sent) + [m'.(expiry := None)];
  }

  lemma ProcessNewAlike(c: Config, c': Config, s: State, s': State, encoded: Payload, token: Id)
    requires Alike(c, c') && AlikeButDates(s, s')
    ensures AlikeButDates(ProcessNewMessage(c, s, encoded, token), ProcessNewMessage(c', s', encoded, token))
  {
    hide SubmitData;
    hide Undated;
    if s.outgoing.None? || Fits(c, s.outgoing.value, encoded) {
      var messages := if s.outgoing.None? then [encoded] else s.outgoing.value.messages + [encoded];
      var tokens := if s.outgoing.None? then [token] else s.outgoing.value.tokens + [token];
      var b := Batch(Id(c.self, s.nextId), messages, tokens);
      SubmitAlike(c, c', s.(nextId := s.nextId + 1, outgoing := Some(b)), s'.(nextId := s.nextId + 1, outgoing := Some(b)),
                  RequestChannel, Request(b.requestId, messages));
    }
  }

  lemma {:induction false} DrainAlike(c: Config, c': Config, s: State, s': State)
    requires Alike(c, c') && AlikeButDates(s, s')
    ensures AlikeButDates(ProcessMessageQueue(c, s), ProcessMessageQueue(c', s'))
    decreases |s.queue|
  {
    hide ProcessNewMessage;
    hide Undated;
    if s.queue != [] && (s.outgoing.None? || Fits(c, s.outgoing.value, s.queue[0].encoded)) {
      var q := s.queue[0];
      var t, t' := s.(queue := s.queue[1..]), s'.(queue := s.queue[1..]);
      JoinsBatch(c, t, q.encoded, q.token);
      ProcessNewAlike(c, c', t, t', q.encoded, q.token);
      DrainAlike(c, c', ProcessNewMessage(c, t, q.encoded, q.token), ProcessNewMessage(c', t', q.encoded, q.token));
    }
  }

  lemma {:induction false} ResolveAlike(s: State, s': State, tokens: seq<Id>, code: ResponseCode)
    requires AlikeButDates(s, s')
    ensures AlikeButDates(ResolveAll(s, tokens, code), ResolveAll(s', tokens, code))
    decreases |tokens|
  {
    hide Undated;
    if tokens != [] {
      var t := if tokens[0] in s.pending
               then s.(pending := Remove(s.pending, tokens[0]),
                       settled := s.settled + [Settlement(tokens[0], Resolved(code))])
               else s;
      ResolveAlike(t, t.(expiry := s'.expiry, sent := s'.sent), tokens[1..], code);
    }
  }

  lemma {:induction false} DecodedAlike(c: Config, c': Config, statements: seq<Statement>)
    requires Alike(c, c')
    ensures Decoded(c, statements) == Decoded(c', statements)
  {
    if statements != [] {
      DecodedAlike(c, c', statements[..|statements| - 1]);
    }
  }

  lemma ReceiveAlike(c: Config, c': Config, s: State, s': State, e: Event)
    requires Alike(c, c') && AlikeButDates(s, s') && e.Receive?
    ensures AlikeButDates(Step(c, s, e), Step(c', s', e))
  {
    hide Undated;
    hide ProcessMessageQueue;
    hide ResolveAll;
    hide Dedup.AddCapped;
    assert TryDecode(c, e.statement, e.responsesOnly) == TryDecode(c', e.statement, e.responsesOnly);
    hide TryDecode;
    if AcceptsAck(c, s, e) {
      AckDrains(c, s, e);
      AckDrains(c', s', e);
      var d := TryDecode(c, e.statement, e.responsesOnly).value;
      var seen := Dedup.AddCapped(s.seen, e.statement.data.value);
      ResolveAlike(s.(seen := seen), s'.(seen := seen), s.outgoing.value.tokens, d.code);
      DrainAlike(c, c', AfterAck(c, s, e), AfterAck(c', s', e));
    }
  }

  lemma InitAlike(c: Config, c': Config, s: State, s': State, own: seq<Statement>, peer: seq<Statement>)
    requires Alike(c, c') && AlikeButDates(s, s')
    ensures AlikeButDates(FinishInit(c, s, own, peer), FinishInit(c', s', own, peer))
  {
    hide Undated;
    hide ProcessMessageQueue;
    hide Deliver;
    hide Find;
    hide Dedup.AddAll;
    hide Decoded;
    DecodedAlike(c, c', own);
    DecodedAlike(c, c', peer);
    if s.phase.Initialization? {
      var seen := Dedup.AddAll(s.seen, DataKeys(own + peer));
      var t, t' := s.(expiry := MaxExpiry(own), seen := seen), s'.(expiry := MaxExpiry(own), seen := seen);
      var u, u' := RestoreOutgoing(c, t, own), RestoreOutgoing(c', t', own);
      assert AlikeButDates(u, u');
      RestoreAlike(c, c', u, u', peer);
      DrainAlike(c, c', RestoreIncoming(c, u, peer).(phase := Active), RestoreIncoming(c', u', peer).(phase := Active));
    }
  }

  lemma RestoreAlike(c: Config, c': Config, s: State, s': State, peer: seq<Statement>)
    requires Alike(c, c') && AlikeButDates(s, s')
    ensures AlikeButDates(RestoreIncoming(c, s, peer), RestoreIncoming(c', s', peer))
  {
    hide Undated;
    hide Find;
    hide Decoded;
    DecodedAlike(c, c', peer);
  }

  lemma SubmitRequestAlike(c: Config, c': Config, s: State, s': State, encoded: Option<Payload>)
    requires Alike(c, c') && AlikeButDates(s, s')
    ensures AlikeButDates(SubmitRequest(c, s, encoded).0, SubmitRequest(c', s', encoded).0)
  {
    hide Undated;
    hide ProcessNewMessage;
    if s.phase.Active? && encoded.Some? && |encoded.value| <= c.maxSize {
      var token := Id(c.self, s.nextId);
      var t := EnsureListening(s).(nextId := s.nextId + 1, issued := s.issued[token := encoded.value],
                                   pending := s.pending + [token]);
      ProcessNewAlike(c, c', t, t.(expiry := s'.expiry, sent := s'.sent), encoded.value, token);
    }
  }

  lemma StepAlike(c: Config, c': Config, s: State, s': State, e: Event)
    requires Alike(c, c') && AlikeButDates(s, s')
    ensures AlikeButDates(Step(c, s, e), Step(c', s', e))
  {
    hide Undated;
    hide SubmitRequest;
    hide FinishInit;
    hide SubmitData;
    match e
    case Submit(encoded) => SubmitRequestAlike(c, c', s, s', encoded);
    case Respond(id, code) =>
      SubmitAlike(c, c', s.(responded := true), s'.(responded := true), ResponseChannel, Response(id, code));
    case Receive(_, _) => ReceiveAlike(c, c', s, s', e);
    case Init(own, peer) => InitAlike(c, c', s, s', own, peer);
    case _ =>
  }

  /** Runs of the same events under two clocks differ in nothing but the dates of what they submit. */
  lemma {:induction false} ClockOnlyDates(c: Config, c': Config, evs: seq<Event>)
    requires Alike(c, c')
    ensures AlikeButDates(Run(c, evs), Run(c', evs))
    decreases |evs|
  {
    if evs != [] {
      ClockOnlyDates(c, c', evs[..|evs| - 1]);
      StepAlike(c, c', Run(c, evs[..|evs| - 1]), Run(c', evs[..|evs| - 1]), evs[|evs| - 1]);
    }
  }

  // -- The same readings, the same run -----------------------------------------------------------------

  /** The settings differ at most in readings of the clock that are still to come. */
  ghost predicate SameReadings(c: Config, c': Config, n: nat) {
    Alike(c, c') && forall t: nat | t < n :: c'.clock(t) == c.clock(t)
  }

  lemma {:induction false} DatesAgree(c: Config, c': Config, expiry: int, n: nat, k: nat)
    requires SameReadings(c, c', n) && k <= n
    ensures Date(c, expiry, 0, k) == Date(c', expiry, 0, k)
  {
    if k > 0 {
      DatesAgree(c, c', expiry, n, k - 1);
    }
  }

  /** Until initialization takes effect, submissions are dated one after another from the start. */
  lemma {:induction false} DatedFromStart(c: Config, evs: seq<Event>)
    requires Run(c, evs).phase.Initialization?
    ensures Dated(c, Initial, Run(c, evs))
    decreases |evs|
  {
    hide Step;
    hide Dated;
    if evs == [] {
      Undisturbed(c, Initial, Initial);
    } else {
      var n := |evs| - 1;
      var s := Run(c, evs[..n]);
      PhaseLeft(c, s, evs[n]);
      DatedFromStart(c, evs[..n]);
      Conservation(c, evs[..n], Id(c.self, 0));
      StepDated(c, s, evs[n]);
      DatedTwice(c, Initial, s, Run(c, evs));
    }
  }

  /** A clock that reads the same so far has led to the same state. */
  lemma SameSoFar(c: Config, c': Config, evs: seq<Event>)
    requires Run(c, evs).phase.Initialization? && SameReadings(c, c', Run(c, evs).ticks)
    ensures Run(c', evs) == Run(c, evs)
  {
    ClockOnlyDates(c, c', evs);
    DatedFromStart(c, evs);
    DatedFromStart(c', evs);
    hide Run;
    hide Date;
    var s, s' := Run(c, evs), Run(c', evs);
    assert |s.sent| == |Undated(s.sent)| == |s'.sent|;
    DatesAgree(c, c', 0, s.ticks, s.ticks);
    forall i | 0 <= i < |s.sent| ensures s.sent[i] == s'.sent[i] {
      DatesAgree(c, c', 0, s.ticks, i + 1);
      assert Undated(s.sent)[i] == Undated(s'.sent)[i];
    }
  }

  /** From initialization on, submissions are dated one after another from what was read back. */
  lemma {:induction false} DatedFromInit(c: Config, evs: seq<Event>, own: seq<Statement>, peer: seq<Statement>, later: seq<Event>)
    requires Run(c, evs).phase.Initialization?
    ensures var t := Run(c, evs + [Init(own, peer)] + later);
      !t.phase.Initialization? && Dated(c, Run(c, evs).(expiry := MaxExpiry(own)), t)
    decreases |later|
  {
    hide Step;
    hide Dated;
    var history := evs + [Init(own, peer)];
    var base := Run(c, evs).(expiry := MaxExpiry(own));
    if later == [] {
      assert history + later == history && history[..|evs|] == evs;
      PhaseLeft(c, Run(c, evs), Init(own, peer));
      Conservation(c, evs, Id(c.self, 0));
      StepDated(c, Run(c, evs), Init(own, peer));
    } else {
      var n := |later| - 1;
      DatedFromInit(c, evs, own, peer, later[..n]);
      var t := Run(c, history + later[..n]);
      assert (history + later)[..|history + later| - 1] == history + later[..n];
      PhaseLeft(c, t, later[n]);
      Conservation(c, history + later[..n], Id(c.self, 0));
      StepDated(c, t, later[n]);
      DatedTwice(c, base, t, Run(c, history + later));
    }
  }

  // -- The exact condition ---------------------------------------------------------------------------------

  /** After n readings the clock stands still. */
  function Stalled(c: Config, n: nat): Config {
    c.(clock := (t: nat) => if t < n || n == 0 then c.clock(t) else c.clock(n - 1))
  }

  /** A clock that stands still dates the next submission no later than the last, unless it starts from there. */
  lemma StalledDate(c: Config, n: nat, base: int)
    requires n > 0 && base < Date(c, 0, 0, n)
    ensures SameReadings(c, Stalled(c, n), n) && Date(Stalled(c, n), base, n, 1) <= Date(c, 0, 0, n)
  {
    var c' := Stalled(c, n);
    DateZero(c', base, n);
    assert Date(c', base, n, 1) == Later(c', Date(c', base, n, 0), n);
    assert Date(c, 0, 0, n) == Later(c, Date(c, 0, 0, n - 1), n - 1);
  }

  lemma NotForward(c: Config, s: State, base: State, t: State)
    requires Dated(c, Initial, s) && base == s.(expiry := base.expiry) && Dated(c, base, t)
    requires Date(c, base.expiry, base.ticks, 1) <= s.expiry
    requires s.ticks > 0 && |t.sent| > |s.sent|
    ensures !Forward(t.sent)
  {
    hide Date;
    var n := |s.sent|;
    assert s.sent[n - 1].expiry == Some(s.expiry);
    assert t.sent[..n][n - 1] == t.sent[n - 1];
    assert t.sent[n].expiry == Some(Date(c, base.expiry, base.ticks, 1));
  }

  lemma ForwardUnder(c: Config, evs: seq<Event>, own: seq<Statement>, peer: seq<Statement>, later: seq<Event>)
    requires Run(c, evs).phase.Initialization?
    requires
      || Run(c, evs).expiry <= MaxExpiry(own)
      || |Run(c, evs + [Init(own, peer)] + later).sent| == |Run(c, evs).sent|
    ensures Forward(Run(c, evs + [Init(own, peer)] + later).sent)
  {
    DatedFromStart(c, evs);
    DatedFromInit(c, evs, own, peer, later);
    hide Run;
    hide Date;
    var s, t := Run(c, evs), Run(c, evs + [Init(own, peer)] + later);
    DatedAscends(c, Initial, s, 0);
    if s.expiry <= MaxExpiry(own) {
      DatedAscends(c, s.(expiry := MaxExpiry(own)), t, s.expiry);
    } else {
      assert t.sent == s.sent;
    }
  }

  /**
   * The promise that every submission moves forward, for every way the clock may go on after
   * what it has read when initialization takes effect: it holds exactly if the expiry reached
   * is read back or exceeded, or nothing is submitted any more.
   */
  lemma SubmissionsRiseIff(c: Config, evs: seq<Event>, own: seq<Statement>, peer: seq<Statement>, later: seq<Event>)
    requires Run(c, evs).phase.Initialization?
    ensures var s := Run(c, evs); var all := evs + [Init(own, peer)] + later;
      (forall c' | SameReadings(c, c', s.ticks) :: Forward(Run(c', all).sent)) <==>
      s.expiry <= MaxExpiry(own) || |Run(c, all).sent| == |s.sent|
  {
    hide Run;
    hide Forward;
    hide Dated;
    hide SameReadings;
    var s, all := Run(c, evs), evs + [Init(own, peer)] + later;
    if s.expiry <= MaxExpiry(own) || |Run(c, all).sent| == |s.sent| {
      forall c' | SameReadings(c, c', s.ticks) ensures Forward(Run(c', all).sent) {
        SameSoFar(c, c', evs);
        SameCount(c, c', s.ticks, all);
        ForwardUnder(c', evs, own, peer, later);
      }
    } else {
      StalledIsNotForward(c, evs, own, peer, later);
    }
  }

  /** The witness: the clock stands still after initialization, and something more is submitted. */
  lemma StalledIsNotForward(c: Config, evs: seq<Event>, own: seq<Statement>, peer: seq<Statement>, later: seq<Event>)
    requires Run(c, evs).phase.Initialization? && Run(c, evs).expiry > MaxExpiry(own)
    requires |Run(c, evs + [Init(own, peer)] + later).sent| != |Run(c, evs).sent|
    ensures var c' := Stalled(c, Run(c, evs).ticks);
      SameReadings(c, c', Run(c, evs).ticks) && !Forward(Run(c', evs + [Init(own, peer)] + later).sent)
  {
    var s, all := Run(c, evs), evs + [Init(own, peer)] + later;
    var c' := Stalled(c, s.ticks);
    var base := s.(expiry := MaxExpiry(own));
    MaxExpiryNonNegative(own);
    DatedFromStart(c, evs);
    hide Run;
    hide Forward;
    ReachedDate(c, s);
    StalledDate(c, s.ticks, MaxExpiry(own));
    SameSoFar(c, c', evs);
    SameCount(c, c', s.ticks, all);
    DatedFromStart(c', evs);
    DatedFromInit(c', evs, own, peer, later);
    OnlyMore(c', base, Run(c', all));
    NotForward(c', s, base, Run(c', all));
  }

  lemma ReachedDate(c: Config, s: State)
    requires Dated(c, Initial, s)
    ensures s.expiry == Date(c, 0, 0, s.ticks) && (s.expiry > 0 ==> s.ticks > 0)
  {
  }

  // -- Whatever follows --------------------------------------------------------------------------------------

  /** Right after initialization an empty payload is submitted at once, if what was restored is within the limit. */
  lemma EmptyIsSubmitted(c: Config, evs: seq<Event>, own: seq<Statement>, peer: seq<Statement>)
    requires Run(c, evs).phase.Initialization? && Recovered(c, Init(own, peer)) <= c.maxSize
    ensures |Run(c, evs + [Init(own, peer)] + [Submit(Some([]))]).sent| > |Run(c, evs).sent|
  {
    hide Run;
    hide FinishInit;
    hide SubmitRequest;
    var s, history := Run(c, evs), evs + [Init(own, peer)];
    SizedBeforeInit(c, evs);
    Conservation(c, evs, Id(c.self, 0));
    InitSized(c, s, own, peer, c.maxSize);
    InitIsActive(c, s, own, peer);
    DatedFromInit(c, evs, own, peer, []);
    assert history + [] == history;
    RunSnoc(c, evs, Init(own, peer));
    RunSnoc(c, history, Submit(Some([])));
    OnlyMore(c, s.(expiry := MaxExpiry(own)), Run(c, history));
    EmptyJoins(c, Run(c, history));
  }

  lemma SizedBeforeInit(c: Config, evs: seq<Event>)
    requires Run(c, evs).phase.Initialization?
    ensures Sized(c, Run(c, evs), c.maxSize) && Unstuck(c, Run(c, evs))
  {
    QueueInvariant(c, evs);
    Conservation(c, evs, Id(c.self, 0));
  }

  lemma InitIsActive(c: Config, s: State, own: seq<Statement>, peer: seq<Statement>)
    requires s.phase.Initialization?
    ensures FinishInit(c, s, own, peer).phase.Active?
  {
    hide RestoreIncoming;
    hide RestoreOutgoing;
    hide ProcessMessageQueue;
    var t := s.(expiry := MaxExpiry(own), seen := Dedup.AddAll(s.seen, DataKeys(own + peer)));
    DrainPhase(c, RestoreIncoming(c, RestoreOutgoing(c, t, own), peer).(phase := Active));
  }

  lemma EmptyJoins(c: Config, t: State)
    requires t.phase.Active? && Sized(c, t, c.maxSize)
    ensures |SubmitRequest(c, t, Some([])).0.sent| == |t.sent| + 1
  {
  }

  /**
   * The promise for everything that may follow an initialization, under every clock that goes
   * on from what has been read: it holds if and only if the expiry reached is read back or
   * exceeded, in any session whose restored batch, if any, is within its size limit.
   */
  lemma AlwaysRiseIff(c: Config, evs: seq<Event>, own: seq<Statement>, peer: seq<Statement>)
    requires Run(c, evs).phase.Initialization? && Recovered(c, Init(own, peer)) <= c.maxSize
    ensures var s := Run(c, evs);
      (forall c', later | SameReadings(c, c', s.ticks) :: Forward(Run(c', evs + [Init(own, peer)] + later).sent)) <==>
      s.expiry <= MaxExpiry(own)
  {
    var s := Run(c, evs);
    if s.expiry <= MaxExpiry(own) {
      forall c', later | SameReadings(c, c', s.ticks) ensures Forward(Run(c', evs + [Init(own, peer)] + later).sent) {
        SubmissionsRiseIff(c, evs, own, peer, later);
      }
    } else {
      EmptyIsSubmitted(c, evs, own, peer);
      StalledIsNotForward(c, evs, own, peer, [Submit(Some([]))]);
    }
  }

  lemma OnlyMore(c: Config, s: State, t: State)
    requires Dated(c, s, t)
    ensures |t.sent| >= |s.sent|
  {
  }

  lemma SameCount(c: Config, c': Config, n: nat, evs: seq<Event>)
    requires SameReadings(c, c', n)
    ensures |Run(c, evs).sent| == |Run(c', evs).sent|
  {
    ClockOnlyDates(c, c', evs);
    assert |Run(c, evs).sent| == |Undated(Run(c, evs).sent)|;
  }
}
