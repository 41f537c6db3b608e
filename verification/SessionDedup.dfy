/** The session acts on a received statement exactly when its bounded cache takes the statement as new. */
module SessionDedup {
  import opened Common
  import opened SessionState
  import opened SessionConservation
  import opened SessionQueue
  import opened SessionSubscribers
  import opened SessionExpiry
  import Dedup

  // -- The cache of a run --------------------------------------------------------------------------

  /** The event hands the session a statement with data. */
  predicate Arrives(s: State, e: Event) { e.Receive? && s.listening && e.statement.data.Some? }

  /** A step changes the cache only by what it receives, or by what initialization reads. */
  lemma StepSeen(c: Config, s: State, e: Event)
    requires Phased(s)
    ensures Step(c, s, e).seen ==
      if Arrives(s, e) then Dedup.AddCapped(s.seen, e.statement.data.value)
      else if e.Init? && s.phase.Initialization? then Dedup.AddAll(s.seen, DataKeys(e.own + e.peer))
      else s.seen
  {
    hide ProcessNewMessage;
    hide ProcessMessageQueue;
    hide RestoreOutgoing;
    hide RestoreIncoming;
    hide TryDecode;
    hide ResolveAll;
    match e
    case Submit(encoded) =>
      if encoded.Some? {
        var token := Id(c.self, s.nextId);
        var t := EnsureListening(s).(nextId := s.nextId + 1, issued := s.issued[token := encoded.value],
                                     pending := s.pending + [token]);
        ProcessNewKeepsInboxes(c, t, encoded.value, token);
      }
    case Receive(_, _) => ReceiveSeen(c, s, e);
    case Init(own, peer) =>
      if s.phase.Initialization? {
        var t := s.(expiry := MaxExpiry(own), seen := Dedup.AddAll(s.seen, DataKeys(own + peer)));
        RecoveryShape(c, t, own, peer);
        DrainKeepsInboxes(c, RestoreIncoming(c, RestoreOutgoing(c, t, own), peer).(phase := Active));
      }
    case _ =>
  }

  lemma ReceiveSeen(c: Config, s: State, e: Event)
    requires e.Receive?
    ensures Step(c, s, e).seen == if Arrives(s, e) then Dedup.AddCapped(s.seen, e.statement.data.value) else s.seen
  {
    hide ProcessMessageQueue;
    hide TryDecode;
    hide ResolveAll;
    if AcceptsAck(c, s, e) {
      AckDrains(c, s, e);
      var d := TryDecode(c, e.statement, e.responsesOnly).value;
      ResolvePhase(s.(seen := Dedup.AddCapped(s.seen, e.statement.data.value)), s.outgoing.value.tokens, d.code);
      DrainKeepsInboxes(c, AfterAck(c, s, e));
    }
  }

  lemma {:induction false} AddAllDistinct<K>(keys: seq<K>, more: seq<K>)
    requires Distinct(keys)
    ensures Distinct(Dedup.AddAll(keys, more))
    decreases |more|
  {
    if more != [] {
      AddAllDistinct(Dedup.Add(keys, more[0]), more[1..]);
    }
  }

  /** The cache of a session never holds a key twice. */
  lemma {:induction false} SeenDistinct(c: Config, evs: seq<Event>)
    ensures Distinct(Run(c, evs).seen)
    decreases |evs|
  {
    hide Step;
    if evs != [] {
      var s, e := Run(c, evs[..|evs| - 1]), evs[|evs| - 1];
      SeenDistinct(c, evs[..|evs| - 1]);
      Conservation(c, evs[..|evs| - 1], Id(c.self, 0));
      StepSeen(c, s, e);
      if e.Init? {
        AddAllDistinct(s.seen, DataKeys(e.own + e.peer));
      }
    }
  }

  // -- The decisions of a run ----------------------------------------------------------------------

  /** The keys of the statements that arrive. */
  function ArrivedKeys(c: Config, s: State, evs: seq<Event>): seq<Cipher> {
    if evs == [] then []
    else
      var prefix, e := evs[..|evs| - 1], evs[|evs| - 1];
      ArrivedKeys(c, s, prefix) + if Arrives(RunFrom(c, s, prefix), e) then [e.statement.data.value] else []
  }

  /** For each statement that arrives, whether it changes anything at all. */
  ghost function Decisions(c: Config, s: State, evs: seq<Event>): seq<bool> {
    if evs == [] then []
    else
      var prefix, e := evs[..|evs| - 1], evs[|evs| - 1];
      var before := RunFrom(c, s, prefix);
      Decisions(c, s, prefix) + if Arrives(before, e) then [Step(c, before, e) != before] else []
  }

  /** A statement is ignored altogether exactly if its key is in the cache. */
  lemma ActsIffNew(c: Config, s: State, e: Event)
    requires Arrives(s, e)
    ensures Step(c, s, e) != s <==> e.statement.data.value !in s.seen
  {
    ReceiveSeen(c, s, e);
    var k := e.statement.data.value;
    if k !in s.seen {
      var cache := Dedup.AddCapped(s.seen, k);
      assert cache[|cache| - 1] == k;
      assert k in Step(c, s, e).seen;
    }
  }

  /** Whether the cache takes the key as new. */
  function Verdict(cache: seq<Cipher>, k: Cipher): seq<bool> { [k !in cache] }

  lemma {:induction false} CappedSnoc(cache: seq<Cipher>, input: seq<Cipher>, k: Cipher)
    ensures Dedup.FinalCache(cache, input + [k]) == Dedup.AddCapped(Dedup.FinalCache(cache, input), k)
    ensures Dedup.AcceptsCapped(cache, input + [k])
         == Dedup.AcceptsCapped(cache, input) + Verdict(Dedup.FinalCache(cache, input), k)
    decreases |input|
  {
    hide Dedup.AddCapped;
    if input == [] {
      assert [] + [k] == [k] && [k][1..] == [];
      assert Dedup.FinalCache(cache, [k]) == Dedup.FinalCache(Dedup.AddCapped(cache, k), []);
      assert Dedup.AcceptsCapped(cache, [k]) == Verdict(cache, k) + Dedup.AcceptsCapped(Dedup.AddCapped(cache, k), []);
    } else {
      CappedSnoc(Dedup.AddCapped(cache, input[0]), input[1..], k);
      assert (input + [k])[1..] == input[1..] + [k];
    }
  }

  /** After initialization the session decides as the bounded cache does, statement by statement. */
  lemma {:induction false} DecidesAsCapped(c: Config, history: seq<Event>, evs: seq<Event>)
    requires !Run(c, history).phase.Initialization?
    ensures var s := Run(c, history); var keys := ArrivedKeys(c, s, evs);
      && Decisions(c, s, evs) == Dedup.AcceptsCapped(s.seen, keys)
      && RunFrom(c, s, evs).seen == Dedup.FinalCache(s.seen, keys)
      && !RunFrom(c, s, evs).phase.Initialization?
    decreases |evs|
  {
    hide Step;
    hide Arrives;
    if evs != [] {
      var s, prefix, e := Run(c, history), evs[..|evs| - 1], evs[|evs| - 1];
      var before, keys := RunFrom(c, s, prefix), ArrivedKeys(c, s, prefix);
      DecidesAsCapped(c, history, prefix);
      RunAppend(c, history, prefix);
      Conservation(c, history + prefix, Id(c.self, 0));
      StepSeen(c, before, e);
      PhaseLeft(c, before, e);
      if Arrives(before, e) {
        ArrivesWithData(before, e);
        ActsIffNew(c, before, e);
        CappedSnoc(s.seen, keys, e.statement.data.value);
      } else {
        assert keys + [] == keys;
      }
    }
  }

  lemma ArrivesWithData(s: State, e: Event)
    requires Arrives(s, e)
    ensures e.Receive? && e.statement.data.Some?
  {
  }

  /**
   * Deduplication over a whole run: from any moment after initialization, the session acts on
   * exactly the statements that an unbounded set of keys would take as new if and only if every
   * repeat arrives within the window; and its cache never outgrows that window.
   */
  lemma SessionDeduplicates(c: Config, history: seq<Event>, evs: seq<Event>)
    requires !Run(c, history).phase.Initialization?
    ensures var s := Run(c, history); var keys := ArrivedKeys(c, s, evs);
      && (Decisions(c, s, evs) == Dedup.AcceptsUnbounded(s.seen, keys) <==>
          Dedup.CloseRepeats(s.seen, keys, Dedup.Window(s.seen)))
      && |Run(c, history + evs).seen| <= Dedup.Window(s.seen)
  {
    var s := Run(c, history);
    var keys := ArrivedKeys(c, s, evs);
    SeenDistinct(c, history);
    DecidesAsCapped(c, history, evs);
    RunAppend(c, history, evs);
    Dedup.CacheBounded(s.seen, keys);
    Dedup.BoundedRefinesUnbounded(s.seen, keys);
  }
}
