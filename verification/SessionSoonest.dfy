/** Every submission of every run bears the soonest expiry allowed: neither earlier nor later. */
module SessionSoonest {
  import opened Common
  import opened SessionState
  import opened SessionConservation
  import opened SessionExpiry
  import opened SessionDates
  import opened SessionClock

  lemma LaterIsSoonest(c: Config, expiry: int, tick: nat)
    ensures Soonest(c.clock(tick), c.durationSecs, expiry, Later(c, expiry, tick))
  {
  }

  /** The expiry that precedes the i-th submission's, if `base` precedes the first of those that follow `from`. */
  function Previous(sent: seq<Statement>, from: nat, base: int, i: nat): int
    requires from <= i < |sent|
  {
    if i == from || sent[i - 1].expiry.None? then base else sent[i - 1].expiry.value
  }

  lemma DatedSoonest(c: Config, s: State, s': State, i: nat)
    requires Dated(c, s, s') && |s.sent| <= i < |s'.sent|
    ensures s'.sent[i].expiry.Some?
    ensures Soonest(c.clock(s.ticks + i - |s.sent|), c.durationSecs,
                    Previous(s'.sent, |s.sent|, s.expiry, i), s'.sent[i].expiry.value)
  {
    hide Date;
    hide Later;
    hide Soonest;
    var k := i - |s.sent|;
    DateZero(c, s.expiry, s.ticks);
    NextDate(c, s.expiry, s.ticks, k);
    LaterIsSoonest(c, Date(c, s.expiry, s.ticks, k), s.ticks + k);
  }

  lemma NextDate(c: Config, expiry: int, tick: nat, k: nat)
    ensures Date(c, expiry, tick, k + 1) == Later(c, Date(c, expiry, tick, k), tick + k)
  {
  }

  /** The greatest expiry among the statements, or 0. */
  ghost predicate IsNewest(statements: seq<Statement>, m: int) {
    && m >= 0
    && (forall i :: 0 <= i < |statements| && statements[i].expiry.Some? ==> statements[i].expiry.value <= m)
    && (m == 0 || exists i :: 0 <= i < |statements| && statements[i].expiry == Some(m))
  }

  lemma {:induction false} MaxExpiryIsNewest(statements: seq<Statement>)
    ensures IsNewest(statements, MaxExpiry(statements))
  {
    if statements != [] {
      var n := |statements| - 1;
      MaxExpiryIsNewest(statements[..n]);
      MaxExpiryNonNegative(statements);
      var m := MaxExpiry(statements);
      if m != 0 && statements[n].expiry != Some(m) {
        var i :| 0 <= i < n && statements[..n][i].expiry == Some(m);
        assert statements[i].expiry == Some(m);
      }
    }
  }

  /** Before initialization: the i-th submission has the soonest expiry after the one before, from the i-th reading. */
  lemma SoonestFromStart(c: Config, evs: seq<Event>, i: nat)
    requires Run(c, evs).phase.Initialization? && i < |Run(c, evs).sent|
    ensures Run(c, evs).sent[i].expiry.Some?
    ensures Soonest(c.clock(i), c.durationSecs, Previous(Run(c, evs).sent, 0, 0, i), Run(c, evs).sent[i].expiry.value)
  {
    DatedFromStart(c, evs);
    hide Run;
    DatedSoonest(c, Initial, Run(c, evs), i);
  }

  /**
   * After an initialization that takes effect, in everything that follows: the first submission
   * has the soonest expiry after the newest one read back, every further one the soonest after
   * the one before it; and the submissions made before are as they were.
   */
  lemma SoonestFromInit(c: Config, evs: seq<Event>, own: seq<Statement>, peer: seq<Statement>, later: seq<Event>,
                        newest: int, i: nat)
    requires Run(c, evs).phase.Initialization? && IsNewest(own, newest)
    requires i < |Run(c, evs + [Init(own, peer)] + later).sent|
    ensures var s, t := Run(c, evs), Run(c, evs + [Init(own, peer)] + later);
      && t.sent[i].expiry.Some?
      && if i < |s.sent| then t.sent[i] == s.sent[i]
         else Soonest(c.clock(i), c.durationSecs, Previous(t.sent, |s.sent|, newest, i), t.sent[i].expiry.value)
  {
    DatedFromStart(c, evs);
    DatedFromInit(c, evs, own, peer, later);
    MaxExpiryIsNewest(own);
    hide Run;
    hide Soonest;
    var s, t := Run(c, evs), Run(c, evs + [Init(own, peer)] + later);
    assert newest == MaxExpiry(own);
    if i < |s.sent| {
      assert t.sent[i] == t.sent[..|s.sent|][i];
      DatedSoonest(c, Initial, s, i);
    } else {
      DatedSoonest(c, s.(expiry := newest), t, i);
    }
  }

  // -- No ciphertext twice --------------------------------------------------------------------------

  /** What was submitted up to now is sealed under nonces of its own. */
  ghost predicate SealedApart(s: State) {
    forall i, j :: 0 <= i < j < |s.sent| ==> s.sent[i].data.Some? && s.sent[i].data != s.sent[j].data
  }

  ghost predicate Numbered(c: Config, s: State) {
    && s.ticks == |s.sent|
    && forall i :: 0 <= i < |s.sent| ==> NonceIs(s.sent[i], Id(c.self, i))
  }

  lemma {:induction false} NoncesCount(c: Config, evs: seq<Event>)
    ensures Numbered(c, Run(c, evs))
    decreases |evs|
  {
    hide Step;
    hide Date;
    if evs != [] {
      var n := |evs| - 1;
      var s := Run(c, evs[..n]);
      NoncesCount(c, evs[..n]);
      Conservation(c, evs[..n], Id(c.self, 0));
      StepDated(c, s, evs[n]);
      var s' := Run(c, evs);
      assert forall i :: 0 <= i < |s.sent| ==> s'.sent[i] == s'.sent[..|s.sent|][i];
    }
  }

  /** In every run no two submissions carry the same ciphertext, so none is ever taken for a repeat of another. */
  lemma NeverTheSameCiphertext(c: Config, evs: seq<Event>)
    ensures SealedApart(Run(c, evs))
  {
    NoncesCount(c, evs);
    hide Run;
    var s := Run(c, evs);
    forall i, j | 0 <= i < j < |s.sent| ensures s.sent[i].data.Some? && s.sent[i].data != s.sent[j].data {
      assert NonceIs(s.sent[i], Id(c.self, i)) && NonceIs(s.sent[j], Id(c.self, j));
    }
  }
}
