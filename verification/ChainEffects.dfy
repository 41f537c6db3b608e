/**
 * What each request to the chain wiring, and each answer of the node, does in every run: what
 * is sent on which connection, what then waits for an answer, and what the answer brings about.
 */
module ChainEffects {
  import opened Common
  import opened ChainState
  import opened ChainInvariants
  import opened ChainRuns

  /** Exactly one message more was sent. */
  ghost predicate SendsOne(s: State, t: State, m: Sent) { t.sent == s.sent + [m] }

  /** On the chain's connection one request more waits, under an id never used before; on others nothing changes. */
  ghost predicate WaitsFor(s: State, t: State, g: Genesis, waiting: map<nat, Pending>, p: Pending)
    requires g in t.chains
  {
    && (exists id: nat | s.nextId <= id < t.nextId :: t.chains[g].pending == waiting[id := p] && id !in waiting)
    && (forall h <- s.chains | h != g :: h in t.chains && t.chains[h] == s.chains[h])
  }

  /** The follow's own request was answered f on the chain's connection, and it has not been stopped. */
  ghost predicate Follows(s: State, g: Genesis, sub: nat, f: FollowId) {
    g in s.chains && Owns(s, sub, s.chains[g].conn, f) && !s.subs[sub].stopped
  }

  // -- Chain-head operations -------------------------------------------------------------------------

  /** A chain-head operation of a running follow is sent under its node id, on its connection, and waits. */
  lemma HeadCallIsSent(supported: set<Genesis>, evs: seq<Event>, g: Genesis, sub: nat, f: FollowId)
    requires !Run(supported, evs).disposed && Follows(Run(supported, evs), g, sub, f)
    ensures var s := Run(supported, evs); var t := Step(s, supported, CallsHead(g, sub, false));
      && SendsOne(s, t, HeadCall(s.chains[g].conn, sub, f))
      && g in t.chains && WaitsFor(s, t, g, s.chains[g].pending, HeadRequest)
      && t.chains[g].follows == s.chains[g].follows && t.chains[g].refCount == s.chains[g].refCount
      && t.subs == s.subs && t.ops == s.ops
  {
    RunKeeps(supported, evs);
    HeadEffect(Run(supported, evs), g, sub, f);
  }

  lemma HeadEffect(s: State, g: Genesis, sub: nat, f: FollowId)
    requires Good(s) && Follows(s, g, sub, f)
    ensures var t := HeadOperation(s, g, sub, false);
      && SendsOne(s, t, HeadCall(s.chains[g].conn, sub, f))
      && g in t.chains && WaitsFor(s, t, g, s.chains[g].pending, HeadRequest)
      && t.chains[g].follows == s.chains[g].follows && t.chains[g].refCount == s.chains[g].refCount
      && t.subs == s.subs && t.ops == s.ops
  {
    ResolveSpec(s, g, sub, f);
    NextIsNew(s, g);
    hide Good;
    hide Owns;
    var t := HeadOperation(s, g, sub, false);
    assert t.chains[g].pending == s.chains[g].pending[s.nextId := HeadRequest];
  }

  /** Without a running follow, or when sending fails, nothing is sent and nothing waits. */
  lemma HeadCallIsNotSent(supported: set<Genesis>, evs: seq<Event>, g: Genesis, sub: nat, fails: bool)
    requires fails || Run(supported, evs).disposed || forall f: FollowId :: !Follows(Run(supported, evs), g, sub, f)
    ensures var s := Run(supported, evs);
      Step(s, supported, CallsHead(g, sub, fails)) == s.(nextId := Step(s, supported, CallsHead(g, sub, fails)).nextId)
  {
    RunKeeps(supported, evs);
    var s := Run(supported, evs);
    hide Run;
    if !s.disposed && !fails && ResolveFollow(s, g, sub).Some? {
      ResolvedFollows(s, g, sub);
    }
  }

  lemma ResolvedFollows(s: State, g: Genesis, sub: nat)
    requires Good(s) && ResolveFollow(s, g, sub).Some?
    ensures exists f: FollowId :: Follows(s, g, sub, f)
  {
    var f := ResolveFollow(s, g, sub).value;
    ResolveSpec(s, g, sub, f);
    assert Follows(s, g, sub, f);
  }

  // -- Operations and follows ---------------------------------------------------------------------------

  /** The chain's connection is used, or one is opened for it. */
  ghost predicate Connects(s: State, t: State, g: Genesis) {
    && g in t.chains
    && (if g in s.chains then t.connections == s.connections && t.chains[g].conn == s.chains[g].conn
        else t.connections == s.connections + [g] && t.chains[g].conn == |s.connections|)
  }

  function Waiting(s: State, g: Genesis): map<nat, Pending> { if g in s.chains then s.chains[g].pending else map[] }

  /** An operation on a supported chain, or on one that is connected, is sent there, waits, and holds a reference. */
  lemma OperationIsSent(supported: set<Genesis>, evs: seq<Event>, g: Genesis)
    requires !Run(supported, evs).disposed && (g in supported || g in Run(supported, evs).chains)
    ensures var s := Run(supported, evs); var t := Step(s, supported, StartsOperation(g, false));
      && Connects(s, t, g) && SendsOne(s, t, OperationCall(t.chains[g].conn))
      && WaitsFor(s, t, g, Waiting(s, g), OperationRequest(|s.ops|))
      && t.ops == s.ops + [Operation(g, Phase.Waiting)] && t.subs == s.subs
  {
    RunKeeps(supported, evs);
    var s := Run(supported, evs);
    hide Run;
    IdsBelow(s, g);
    hide Good;
    hide Inv;
    var t := Step(s, supported, StartsOperation(g, false));
    assert t.chains[g].pending == Waiting(s, g)[s.nextId := OperationRequest(|s.ops|)];
  }

  lemma IdsBelow(s: State, g: Genesis)
    requires Good(s)
    ensures s.nextId !in Waiting(s, g)
  {
    if g in s.chains {
      NextIsNew(s, g);
    }
  }

  /** A follow likewise; it is live, and neither answered nor stopped. */
  lemma FollowIsSent(supported: set<Genesis>, evs: seq<Event>, g: Genesis)
    requires !Run(supported, evs).disposed && (g in supported || g in Run(supported, evs).chains)
    ensures var s := Run(supported, evs); var t := Step(s, supported, StartsFollow(g, false));
      && Connects(s, t, g) && SendsOne(s, t, ChainState.Follow(t.chains[g].conn))
      && WaitsFor(s, t, g, Waiting(s, g), FollowRequest(|s.subs|))
      && t.subs == s.subs + [Subscription(g, t.chains[g].conn, false, None, true)] && t.ops == s.ops
  {
    RunKeeps(supported, evs);
    var s := Run(supported, evs);
    hide Run;
    IdsBelow(s, g);
    hide Good;
    hide Inv;
    var t := Step(s, supported, StartsFollow(g, false));
    assert t.chains[g].pending == Waiting(s, g)[s.nextId := FollowRequest(|s.subs|)];
  }

  /** A chain that is neither connected nor supported leaves everything as it was; so does anything after disposal. */
  lemma UnsupportedIsRefused(s: State, supported: set<Genesis>, g: Genesis, fails: bool)
    requires s.disposed || (g !in supported && g !in s.chains)
    ensures Step(s, supported, StartsFollow(g, fails)) == s && Step(s, supported, StartsOperation(g, fails)) == s
  {
  }

  /** When sending fails: the follow is over at once, the operation is settled, and nothing was sent. */
  lemma FailureEffect(supported: set<Genesis>, evs: seq<Event>, g: Genesis)
    requires !Run(supported, evs).disposed && (g in supported || g in Run(supported, evs).chains)
    ensures var s := Run(supported, evs);
      var t, u := Step(s, supported, StartsFollow(g, true)), Step(s, supported, StartsOperation(g, true));
      && t.sent == s.sent && t.chains == s.chains && t.ops == s.ops
      && |t.subs| == |s.subs| + 1 && t.subs[..|s.subs|] == s.subs && !t.subs[|s.subs|].live && t.subs[|s.subs|].followId.None?
      && u.sent == s.sent && Connects(s, u, g) && u.chains[g].pending == Waiting(s, g)
      && u.ops == s.ops + [Operation(g, Settled)] && u.subs == s.subs
  {
    RunKeeps(supported, evs);
    var s := Run(supported, evs);
    hide Run;
    FailedFollow(s, supported, g);
    hide Inv;
  }

  lemma FailedFollow(s: State, supported: set<Genesis>, g: Genesis)
    requires Inv(s) && !s.disposed && (g in supported || g in s.chains)
    ensures var t := StartFollow(s, supported, g, true);
      && t.sent == s.sent && t.chains == s.chains && t.ops == s.ops
      && |t.subs| == |s.subs| + 1 && t.subs[..|s.subs|] == s.subs && !t.subs[|s.subs|].live && t.subs[|s.subs|].followId.None?
  {
    hide Good;
    assert g in s.chains ==> s.chains[g].refCount > 0;
    hide Balanced;
    assert Unfollows(|s.connections|, []) == [] && s.sent + [] == s.sent;
    var t := StartFollow(s, supported, g, true);
    assert t.chains == s.chains;
  }

  // -- Answers ------------------------------------------------------------------------------------------------

  /** An answered follow owns the node's id; unless it was stopped before, it then follows. */
  lemma AnswerEffect(supported: set<Genesis>, evs: seq<Event>, g: Genesis, id: nat, sub: nat, f: FollowId)
    requires var s := Run(supported, evs);
      && g in s.chains && id in s.chains[g].pending && s.chains[g].pending[id] == FollowRequest(sub)
    ensures var s := Run(supported, evs); var t := Step(s, supported, Responds(g, id, Some(f)));
      && g in t.chains && t.chains[g].conn == s.chains[g].conn && id !in t.chains[g].pending
      && Owns(t, sub, t.chains[g].conn, f) && sub < |s.subs| && t.subs[sub].stopped == s.subs[sub].stopped
      && (Follows(t, g, sub, f) <==> !s.subs[sub].stopped)
      && t.sent == s.sent + if s.subs[sub].stopped then [Unfollow(s.chains[g].conn, f)] else []
  {
    RunKeeps(supported, evs);
    var s := Run(supported, evs);
    hide Run;
    assert ChainTracked(s, g) && Awaited(s, g, id);
    hide Inv;
    hide Good;
    hide Awaited;
    assert s.sent + [] == s.sent;
  }

  /** A rejected follow that has not been stopped is torn down. */
  lemma RejectionEffect(supported: set<Genesis>, evs: seq<Event>, g: Genesis, id: nat, sub: nat)
    requires var s := Run(supported, evs);
      && g in s.chains && id in s.chains[g].pending && s.chains[g].pending[id] == FollowRequest(sub)
    ensures var s := Run(supported, evs); var t := Step(s, supported, Responds(g, id, None));
      && sub < |t.subs| == |s.subs| && !t.subs[sub].live && t.subs[sub].stopped && t.subs[sub].followId.None?
      && t.sent == s.sent
  {
    RunKeeps(supported, evs);
    var s := Run(supported, evs);
    hide Run;
    RemovedKeeps(s, g, id);
    var t := Removed(s, g, id);
    hide Inv;
    if !s.subs[sub].stopped {
      CleanupSends(t, sub);
    } else {
      StoppedIsOver(s, sub);
    }
  }

  lemma StoppedIsOver(s: State, sub: nat)
    requires Good(s) && sub < |s.subs| && s.subs[sub].stopped
    ensures !s.subs[sub].live
  {
    assert WellFormed(s, sub);
  }

  /** Cleaning up stops the follow, and sends an unfollow exactly if it was answered. */
  lemma CleanupSends(s: State, sub: nat)
    requires Good(s) && Balanced(s, None) && sub < |s.subs| && s.subs[sub].live
    ensures var t := Cleanup(s, sub); var r := s.subs[sub];
      && t.subs == s.subs[sub := r.(live := false, stopped := true)]
      && t.sent == s.sent + if r.followId.Some? then [Unfollow(r.conn, r.followId.value)] else []
  {
    hide Release;
    assert WellFormed(s, sub);
    StoppedKeeps(s, sub);
    StoppedShape(s, sub);
    ReleaseKeeps(Stopped(s, sub), s.subs[sub].genesis);
  }

  /** A stop ends a live follow, for good; anything else it leaves alone. */
  lemma StopEffect(supported: set<Genesis>, evs: seq<Event>, sub: nat)
    ensures var s := Run(supported, evs); var t := Step(s, supported, Stops(sub));
      if sub < |s.subs| && s.subs[sub].live then
        && t.subs == s.subs[sub := s.subs[sub].(live := false, stopped := true)]
        && t.sent == s.sent + (if s.subs[sub].followId.Some?
                               then [Unfollow(s.subs[sub].conn, s.subs[sub].followId.value)] else [])
      else t == s
  {
    RunKeeps(supported, evs);
    var s := Run(supported, evs);
    hide Run;
    if sub < |s.subs| && s.subs[sub].live {
      assert WellFormed(s, sub);
      CleanupSends(s, sub);
    }
  }

  /** An answered operation is settled, whatever the answer; it then finishes, once. */
  lemma OperationAnswered(s: State, supported: set<Genesis>, g: Genesis, id: nat, op: nat, answer: Option<FollowId>)
    requires g in s.chains && id in s.chains[g].pending && s.chains[g].pending[id] == OperationRequest(op)
    requires op < |s.ops| && s.ops[op].phase == Phase.Waiting
    ensures var t := Step(s, supported, Responds(g, id, answer));
      && t.ops == s.ops[op := s.ops[op].(phase := Settled)] && id !in t.chains[g].pending
      && t.subs == s.subs && t.sent == s.sent
    ensures var u := Step(Step(s, supported, Responds(g, id, answer)), supported, Finishes(op));
      u.ops == s.ops[op := s.ops[op].(phase := Finished)] && Step(u, supported, Finishes(op)) == u
  {
  }

  /** Disposal ends every follow and closes every connection; what it has not settled stays unsettled. */
  lemma DisposalEffect(supported: set<Genesis>, evs: seq<Event>)
    ensures var t := Step(Run(supported, evs), supported, Disposes);
      && t.disposed && t.chains == map[]
      && forall sub :: 0 <= sub < |t.subs| ==> !t.subs[sub].live
  {
    RunKeeps(supported, evs);
    var s := Run(supported, evs);
    hide Run;
    DisposeKeeps(s);
    var t := Dispose(s);
    hide Dispose;
    assert Inv(t);
    forall sub | 0 <= sub < |t.subs| ensures !t.subs[sub].live {
      assert WellFormed(t, sub);
    }
  }
}
