/** What every run of the chain wiring keeps, and what that means for its users. */
module ChainRuns {
  import opened Common
  import opened ChainState
  import opened ChainInvariants

  // -- Each entry point keeps the invariant -------------------------------------------------------

  /** No follow request is pending for a follow that has no record yet. */
  lemma NextIsNew(s: State, g: Genesis)
    requires Tracked(s) && g in s.chains
    ensures s.nextId !in s.chains[g].pending && FollowRequest(|s.subs|) !in s.chains[g].pending.Values
  {
    assert ChainTracked(s, g);
    forall id | id in s.chains[g].pending ensures id < s.nextId && s.chains[g].pending[id] != FollowRequest(|s.subs|) {
      assert Awaited(s, g, id);
    }
  }

  lemma AcquireFresh(s: State, g: Genesis)
    requires Good(s) && Balanced(s, None)
    ensures var t := Acquire(s, g);
      && Good(t) && Balanced(t, Some(g))
      && t == s.(chains := t.chains, connections := t.connections)
      && t.nextId !in t.chains[g].pending && FollowRequest(|t.subs|) !in t.chains[g].pending.Values
  {
    AcquireKeeps(s, g);
    NextIsNew(Acquire(s, g), g);
  }

  lemma StartFollowKeeps(s: State, supported: set<Genesis>, g: Genesis, fails: bool)
    requires Good(s) && Balanced(s, None)
    ensures var t := StartFollow(s, supported, g, fails); Good(t) && Balanced(t, None) && t.disposed == s.disposed
  {
    hide Good;
    hide Balanced;
    hide Acquire;
    hide Release;
    if g in s.chains || g in supported {
      AcquireFresh(s, g);
      var t := Acquire(s, g);
      RecordFollow(t, g, !fails);
      var conn := t.chains[g].conn;
      var u := t.(nextId := t.nextId + 1, subs := t.subs + [Subscription(g, conn, false, None, !fails)]);
      if fails {
        ReleaseKeeps(u, g);
      } else {
        SendFollowKeeps(u, g, s.nextId, |s.subs|);
      }
    }
  }

  lemma SendFollowKeeps(u: State, g: Genesis, id: nat, sub: nat)
    requires Good(u) && Balanced(u, None) && g in u.chains && id !in u.chains[g].pending && id < u.nextId
    requires sub < |u.subs| && u.subs[sub].conn == u.chains[g].conn && u.subs[sub].followId.None? && u.subs[sub].live
    requires FollowRequest(sub) !in u.chains[g].pending.Values
    ensures var e := u.chains[g];
      var v := u.(chains := u.chains[g := e.(pending := e.pending[id := FollowRequest(sub)])],
                  sent := u.sent + [ChainState.Follow(e.conn)]);
      Good(v) && Balanced(v, None)
  {
    var e := u.chains[g];
    SendKeeps(u, g, id, FollowRequest(sub), ChainState.Follow(e.conn));
    var v := u.(chains := u.chains[g := e.(pending := e.pending[id := FollowRequest(sub)])],
                sent := u.sent + [ChainState.Follow(e.conn)]);
    SendBalanced(u, v, g, None);
  }

  /** An operation's record changes, or a new one comes: only its own chain's count moves. */
  lemma OperationBalanced(s: State, t: State, op: nat, o: Operation, before: Option<Genesis>, after: Option<Genesis>)
    requires Balanced(s, before) && t.subs == s.subs && t.chains == s.chains
    requires op <= |s.ops| && (op < |s.ops| ==> s.ops[op].genesis == o.genesis)
    requires t.ops == if op == |s.ops| then s.ops + [o] else s.ops[op := o]
    requires
      var was := if op < |s.ops| && !s.ops[op].phase.Finished? then 1 else 0;
      var busy := if !o.phase.Finished? then 1 else 0;
      forall g: nat :: (if before == Some(g) then 1 else 0) - (if after == Some(g) then 1 else 0)
                       == if g == o.genesis then busy - was else 0
    ensures Balanced(t, after)
  {
    forall g: nat ensures RefCount(t, g) == Held(t, g) + if after == Some(g) then 1 else 0 {
      if op == |s.ops| {
        CountIfSnoc(s.ops, o, BusyAt(g));
      } else {
        CountIfUpdate(s.ops, op, o, BusyAt(g));
      }
      assert RefCount(s, g) == Held(s, g) + if before == Some(g) then 1 else 0;
    }
  }

  /** What does not speak of operations is unaffected by them. */
  lemma OperationsIrrelevant(s: State, t: State)
    requires Good(s) && t == s.(ops := t.ops, nextId := t.nextId) && t.nextId >= s.nextId
    ensures Good(t)
  {
    StopConnected(s, t);
    forall n | 0 <= n < |t.subs| ensures WellFormed(t, n) {
      assert WellFormed(s, n);
    }
    SameChainsTracked(s, t);
    assert Unfollowed(t);
    assert forall n, conn, f :: Owns(s, n, conn, f) ==> Owns(t, n, conn, f);
  }

  lemma StartOperationKeeps(s: State, supported: set<Genesis>, g: Genesis, fails: bool)
    requires Good(s) && Balanced(s, None)
    ensures var t := StartOperation(s, supported, g, fails); Good(t) && Balanced(t, None) && t.disposed == s.disposed
  {
    hide Good;
    hide Balanced;
    hide Acquire;
    if g in s.chains || g in supported {
      AcquireFresh(s, g);
      var t := Acquire(s, g);
      var o := Operation(g, if fails then Settled else Waiting);
      var u := t.(nextId := t.nextId + 1, ops := t.ops + [o]);
      OperationBalanced(t, u, |t.ops|, o, Some(g), None);
      OperationsIrrelevant(t, u);
      if !fails {
        var conn := u.chains[g].conn;
        SendKeeps(u, g, s.nextId, OperationRequest(|s.ops|), OperationCall(conn));
        var e := u.chains[g];
        var v := u.(chains := u.chains[g := e.(pending := e.pending[s.nextId := OperationRequest(|s.ops|)])],
                    sent := u.sent + [OperationCall(conn)]);
        SendBalanced(u, v, g, None);
        assert StartOperation(s, supported, g, fails) == v;
      }
    }
  }

  lemma FinishKeeps(s: State, op: nat)
    requires Inv(s)
    ensures Inv(FinishOperation(s, op))
  {
    if op < |s.ops| && s.ops[op].phase.Settled? {
      var g := s.ops[op].genesis;
      var t := s.(ops := s.ops[op := s.ops[op].(phase := Finished)]);
      OperationsIrrelevant(s, t);
      if !s.disposed {
        OperationBalanced(s, t, op, t.ops[op], None, Some(g));
        ReleaseKeeps(t, g);
      }
    }
  }

  /** A follow is looked up exactly if it was answered and not stopped. */
  lemma {:induction false} LookupSpec(follows: seq<FollowEntry>, sub: nat)
    requires DistinctSubs(follows)
    ensures forall f: FollowId :: Lookup(follows, sub) == Some(f) <==> FollowEntry(sub, f) in follows
  {
    if follows != [] {
      LookupSpec(follows[1..], sub);
      assert follows == [follows[0]] + follows[1..];
      if follows[0].sub == sub {
        forall f: FollowId | FollowEntry(sub, f) in follows ensures f == follows[0].followId {
          var i :| 0 <= i < |follows| && follows[i] == FollowEntry(sub, f);
        }
      }
    }
  }

  lemma ResolveSpec(s: State, g: Genesis, sub: nat, f: FollowId)
    requires Good(s) && g in s.chains
    ensures ResolveFollow(s, g, sub) == Some(f) <==> Owns(s, sub, s.chains[g].conn, f) && !s.subs[sub].stopped
  {
    assert ChainTracked(s, g);
    LookupSpec(s.chains[g].follows, sub);
    if Owns(s, sub, s.chains[g].conn, f) && !s.subs[sub].stopped {
      assert WellFormed(s, sub);
    }
    if FollowEntry(sub, f) in s.chains[g].follows {
      assert Rightful(s, g, FollowEntry(sub, f));
    }
  }

  lemma HeadOperationKeeps(s: State, g: Genesis, sub: nat, fails: bool)
    requires Good(s) && Balanced(s, None)
    ensures var t := HeadOperation(s, g, sub, fails); Good(t) && Balanced(t, None) && t.disposed == s.disposed
  {
    var f := ResolveFollow(s, g, sub);
    if f.Some? {
      ResolveSpec(s, g, sub, f.value);
      NextIsNew(s, g);
      var t := s.(nextId := s.nextId + 1);
      OperationsIrrelevant(s, t);
      OperationsBalanced(s, t);
      if !fails {
        var e := t.chains[g];
        SendKeeps(t, g, s.nextId, HeadRequest, HeadCall(e.conn, sub, f.value));
        var v := t.(chains := t.chains[g := e.(pending := e.pending[s.nextId := HeadRequest])],
                    sent := t.sent + [HeadCall(e.conn, sub, f.value)]);
        SendBalanced(t, v, g, None);
        assert HeadOperation(s, g, sub, fails) == v;
      }
    }
  }

  lemma OperationsBalanced(s: State, t: State)
    requires Balanced(s, None) && t.chains == s.chains && t.subs == s.subs && t.ops == s.ops
    ensures Balanced(t, None)
  {
    forall g: nat ensures RefCount(t, g) == Held(t, g) {
      assert RefCount(s, g) == Held(s, g);
    }
  }

  // -- Messages of the node ---------------------------------------------------------------------------

  ghost predicate NoneAwaits(s: State, sub: nat) {
    forall g <- s.chains :: FollowRequest(sub) !in s.chains[g].pending.Values
  }

  function Removed(s: State, g: Genesis, id: nat): State
    requires g in s.chains
  {
    s.(chains := s.chains[g := s.chains[g].(pending := s.chains[g].pending - {id})])
  }

  lemma RemovedKeeps(s: State, g: Genesis, id: nat)
    requires Good(s) && Balanced(s, None) && g in s.chains && id in s.chains[g].pending
    ensures var t := Removed(s, g, id); var p := s.chains[g].pending[id];
      && Good(t) && Balanced(t, None)
      && (p.FollowRequest? ==>
            && NoneAwaits(t, p.sub) && p.sub < |t.subs| && t.subs[p.sub].followId.None?
            && t.subs[p.sub].conn == t.chains[g].conn && (t.subs[p.sub].live || t.subs[p.sub].stopped))
  {
    var t := Removed(s, g, id);
    StopConnected(s, t);
    SendBalanced(s, t, g, None);
    assert ChainTracked(s, g) && Awaited(s, g, id);
    forall n | 0 <= n < |t.subs| ensures WellFormed(t, n) {
      assert WellFormed(s, n);
    }
    forall h | h in t.chains ensures ChainTracked(t, h) {
      assert ChainTracked(s, h);
      assert forall e <- t.chains[h].follows :: Rightful(s, h, e) ==> Rightful(t, h, e);
      forall i | i in t.chains[h].pending ensures Awaited(t, h, i) {
        assert Awaited(s, h, i);
      }
    }
    assert Unfollowed(t);
    assert forall n, conn, f :: Owns(s, n, conn, f) ==> Owns(t, n, conn, f);
    var p := s.chains[g].pending[id];
    if p.FollowRequest? {
      RemovedAwaitsNone(s, g, id, p.sub);
    }
  }

  lemma RemovedAwaitsNone(s: State, g: Genesis, id: nat, sub: nat)
    requires Connected(s) && Tracked(s) && g in s.chains && id in s.chains[g].pending
    requires s.chains[g].pending[id] == FollowRequest(sub)
    ensures NoneAwaits(Removed(s, g, id), sub)
  {
    var t := Removed(s, g, id);
    assert ChainTracked(s, g) && Awaited(s, g, id);
    forall h | h in t.chains ensures FollowRequest(sub) !in t.chains[h].pending.Values {
      assert ChainTracked(s, h);
      forall i | i in t.chains[h].pending ensures t.chains[h].pending[i] != FollowRequest(sub) {
        assert Awaited(s, h, i);
      }
    }
  }

  lemma AnsweredKeeps(s: State, g: Genesis, sub: nat, f: FollowId)
    requires Good(s) && Balanced(s, None) && g in s.chains && sub < |s.subs|
    requires NoneAwaits(s, sub) && s.subs[sub].followId.None? && s.subs[sub].conn == s.chains[g].conn
    requires s.subs[sub].live || s.subs[sub].stopped
    ensures var t := Answered(s, g, sub, f); Good(t) && Balanced(t, None) && t.disposed == s.disposed
  {
    var t := Answered(s, g, sub, f);
    AnsweredBalanced(s, t, sub, f);
    AnsweredTracked(s, g, sub, f);
    AnsweredEffects(s, t, g, sub, f);
    StopConnected(s, t);
  }

  lemma AnsweredBalanced(s: State, t: State, sub: nat, f: FollowId)
    requires Balanced(s, None) && sub < |s.subs|
    requires t.subs == s.subs[sub := s.subs[sub].(followId := Some(f))] && t.ops == s.ops
    requires t.chains.Keys == s.chains.Keys && forall g <- s.chains :: t.chains[g].refCount == s.chains[g].refCount
    ensures Balanced(t, None)
  {
    forall g: nat ensures RefCount(t, g) == Held(t, g) {
      RecordCounts(s, sub, t.subs[sub], g, 0, 0);
      assert RefCount(s, g) == Held(s, g);
    }
  }

  lemma AnsweredTracked(s: State, g: Genesis, sub: nat, f: FollowId)
    requires Connected(s) && Tracked(s) && g in s.chains && sub < |s.subs|
    requires NoneAwaits(s, sub) && s.subs[sub].followId.None? && s.subs[sub].conn == s.chains[g].conn
    requires s.subs[sub].live || s.subs[sub].stopped
    ensures Tracked(Answered(s, g, sub, f))
  {
    var t := Answered(s, g, sub, f);
    assert WellFormed(s, sub);
    forall n | 0 <= n < |t.subs| ensures WellFormed(t, n) {
      assert WellFormed(s, n);
    }
    forall h | h in t.chains ensures ChainTracked(t, h) {
      assert ChainTracked(s, h);
      forall e | e in t.chains[h].follows ensures Rightful(t, h, e) {
        assert e in s.chains[h].follows ==> Rightful(s, h, e);
      }
      forall i, j | 0 <= i < j < |t.chains[h].follows| ensures t.chains[h].follows[i].sub != t.chains[h].follows[j].sub {
        assert Rightful(s, h, s.chains[h].follows[i]);
      }
      forall i | i in t.chains[h].pending ensures Awaited(t, h, i) {
        assert Awaited(s, h, i) && s.chains[h].pending[i] in s.chains[h].pending.Values;
      }
    }
  }

  lemma AnsweredEffects(s: State, t: State, g: Genesis, sub: nat, f: FollowId)
    requires Effects(s) && sub < |s.subs| && g in s.chains
    requires s.subs[sub].followId.None? && s.subs[sub].conn == s.chains[g].conn && t == Answered(s, g, sub, f)
    ensures Effects(t)
  {
    var was := s.subs[sub];
    var m := Unfollow(s.chains[g].conn, f);
    forall conn: nat, h: FollowId ensures Count(t.sent, Unfollow(conn, h)) == CountIf(t.subs, EndedAs(conn, h)) {
      RecordCounts(s, sub, was.(followId := Some(f)), 0, conn, h);
      assert Count(s.sent, Unfollow(conn, h)) == CountIf(s.subs, EndedAs(conn, h));
      CountConcat(s.sent, [m], Unfollow(conn, h));
      CountOne(m, Unfollow(conn, h));
    }
    assert forall n, conn, h :: Owns(s, n, conn, h) ==> Owns(t, n, conn, h);
    forall i | 0 <= i < |t.sent| && t.sent[i].HeadCall?
      ensures Owns(t, t.sent[i].sub, t.sent[i].conn, t.sent[i].followId)
    {
      assert t.sent[i] == s.sent[i];
    }
  }

  lemma ResponseKeeps(s: State, g: Genesis, id: nat, answer: Option<FollowId>)
    requires Good(s) && Balanced(s, None)
    ensures var t := OnResponse(s, g, id, answer); Good(t) && Balanced(t, None) && t.disposed == s.disposed
  {
    hide Good;
    hide Balanced;
    hide Answered;
    hide Cleanup;
    if g in s.chains && id in s.chains[g].pending {
      RemovedKeeps(s, g, id);
      var t := Removed(s, g, id);
      match s.chains[g].pending[id]
      case HeadRequest =>
      case OperationRequest(op) =>
        if op < |s.ops| && s.ops[op].phase.Waiting? {
          var o := s.ops[op].(phase := Settled);
          OperationBalanced(t, t.(ops := t.ops[op := o]), op, o, None, None);
          OperationsIrrelevant(t, t.(ops := t.ops[op := o]));
        }
      case FollowRequest(sub) =>
        match answer
        case Some(f) => AnsweredKeeps(t, g, sub, f);
        case None => CleanupKeeps(t, sub);
    }
  }

  lemma {:induction false} FirstWithSpec(follows: seq<FollowEntry>, f: FollowId)
    ensures match FirstWith(follows, f)
            case Some(sub) => FollowEntry(sub, f) in follows
            case None => forall sub: nat :: FollowEntry(sub, f) !in follows
  {
    if follows != [] {
      FirstWithSpec(follows[1..], f);
      assert follows == [follows[0]] + follows[1..];
    }
  }

  lemma NotificationKeeps(s: State, g: Genesis, f: FollowId, event: nat)
    requires Inv(s)
    ensures Inv(OnNotification(s, g, f, event))
  {
    if g in s.chains && FirstWith(s.chains[g].follows, f).Some? {
      var t := OnNotification(s, g, f, event);
      FirstWithSpec(s.chains[g].follows, f);
      assert ChainTracked(s, g);
      assert Rightful(s, g, FollowEntry(FirstWith(s.chains[g].follows, f).value, f));
      assert forall n, conn, h :: Owns(s, n, conn, h) ==> Owns(t, n, conn, h);
      StopConnected(s, t);
      OperationsBalanced(s, t);
      forall n | 0 <= n < |t.subs| ensures WellFormed(t, n) {
        assert WellFormed(s, n);
      }
      SameChainsTracked(s, t);
      assert Unfollowed(t);
    }
  }

  // -- Disposal -------------------------------------------------------------------------------------------

  ghost predicate EndedBelow(s: State, k: nat) {
    k <= |s.subs| && forall n :: 0 <= n < k ==> !s.subs[n].live
  }

  /** What disposal starts from and keeps while the cleanups run. */
  ghost predicate Closing(s: State, t: State) {
    && Good(t) && Balanced(t, None)
    && |t.subs| == |s.subs| && t.disposed == s.disposed && t.connections == s.connections
  }

  lemma CleanupCloses(s: State, t: State, k: nat)
    requires Closing(s, t) && EndedBelow(t, k) && k < |t.subs|
    ensures Closing(s, Cleanup(t, k)) && EndedBelow(Cleanup(t, k), k + 1)
  {
    hide Cleanup;
    hide Good;
    hide Balanced;
    CleanupKeeps(t, k);
  }

  lemma {:induction false} CleanupAllKeeps(s: State, k: nat)
    requires Good(s) && Balanced(s, None) && k <= |s.subs|
    ensures Closing(s, CleanupAll(s, k)) && EndedBelow(CleanupAll(s, k), k)
  {
    hide Good;
    hide Balanced;
    hide Cleanup;
    if k > 0 {
      CleanupAllKeeps(s, k - 1);
      CleanupCloses(s, CleanupAll(s, k - 1), k - 1);
    }
  }

  /** With no live follow left there is nothing to unfollow: each open connection is closed, once. */
  lemma {:induction false} CloseAllShape(s: State, k: nat)
    requires k <= |s.connections| && forall g <- s.chains :: s.chains[g].follows == []
    ensures CloseAll(s, k).sent == s.sent && CloseAll(s, k).nextId == s.nextId
    ensures forall n: nat :: Count(CloseAll(s, k).disconnected, n)
                          == Count(s.disconnected, n) + if n < k && IsOpen(s, n) then 1 else 0
  {
    if k > 0 {
      CloseAllShape(s, k - 1);
      if IsOpen(s, k - 1) {
        var t := CloseAll(s, k - 1);
        var conn: nat := k - 1;
        assert t.sent + Unfollows(s.chains[s.connections[k - 1]].conn, []) == t.sent;
        forall n: nat ensures Count(t.disconnected + [conn], n) == Count(t.disconnected, n) + if n == conn then 1 else 0 {
          CountConcat(t.disconnected, [conn], n);
          CountOne(conn, n);
        }
      }
    }
  }

  lemma DisposeKeeps(s: State)
    requires Inv(s)
    ensures Inv(Dispose(s)) && Dispose(s).disposed
  {
    if !s.disposed {
      var t := CleanupAll(s, |s.subs|);
      CleanupAllKeeps(s, |s.subs|);
      forall g | g in t.chains ensures t.chains[g].follows == [] {
        if t.chains[g].follows != [] {
          EntryIsLive(t, g, t.chains[g].follows[0]);
        }
      }
      CloseAllShape(t, |t.connections|);
      var u := CloseAll(t, |t.connections|).(chains := map[], disposed := true);
      assert Dispose(s) == u;
      ClosedGood(t, u);
    }
  }

  lemma ClosedGood(t: State, u: State)
    requires Good(t) && (forall n :: 0 <= n < |t.subs| ==> !t.subs[n].live)
    requires u == t.(disconnected := u.disconnected, chains := map[], disposed := true)
    requires forall n: nat :: Count(u.disconnected, n)
                           == Count(t.disconnected, n) + if n < |t.connections| && IsOpen(t, n) then 1 else 0
    ensures Good(u)
  {
    forall n: nat ensures Count(u.disconnected, n) == if n < |u.connections| && !IsOpen(u, n) then 1 else 0 {
      assert Count(t.disconnected, n) == if n < |t.connections| && !IsOpen(t, n) then 1 else 0;
    }
    forall n | 0 <= n < |u.subs| ensures WellFormed(u, n) {
      assert WellFormed(t, n);
    }
    assert Unfollowed(u);
    assert forall n, conn, f :: Owns(t, n, conn, f) ==> Owns(u, n, conn, f);
  }

  // -- Runs ------------------------------------------------------------------------------------------------

  /** After disposal no connection delivers anything and no follow is live. */
  lemma DisposedIsQuiet(s: State, e: Event, supported: set<Genesis>)
    requires Inv(s) && s.disposed && !e.Finishes?
    ensures Step(s, supported, e) == s
  {
    if e.Stops? && e.sub < |s.subs| {
      assert WellFormed(s, e.sub);
    }
  }

  lemma StepKeeps(s: State, supported: set<Genesis>, e: Event)
    requires Inv(s)
    ensures Inv(Step(s, supported, e))
  {
    if s.disposed && !e.Finishes? {
      DisposedIsQuiet(s, e, supported);
    } else {
      match e
      case StartsFollow(g, fails) => StartFollowKeeps(s, supported, g, fails);
      case StartsOperation(g, fails) => StartOperationKeeps(s, supported, g, fails);
      case CallsHead(g, sub, fails) => HeadOperationKeeps(s, g, sub, fails);
      case Finishes(op) => FinishKeeps(s, op);
      case Stops(sub) =>
        if sub < |s.subs| {
          CleanupKeeps(s, sub);
        }
      case Responds(g, id, answer) => ResponseKeeps(s, g, id, answer);
      case Notifies(g, f, event) => NotificationKeeps(s, g, f, event);
      case Disposes => DisposeKeeps(s);
    }
  }

  lemma {:induction false} RunKeeps(supported: set<Genesis>, evs: seq<Event>)
    ensures Inv(Run(supported, evs))
  {
    if evs == [] {
      EmptyInv();
    } else {
      RunKeeps(supported, evs[..|evs| - 1]);
      StepKeeps(Run(supported, evs[..|evs| - 1]), supported, evs[|evs| - 1]);
    }
  }

  lemma EmptyInv()
    ensures Inv(Initial)
  {
  }

  // -- What it means ------------------------------------------------------------------------------------------

  /**
   * Until disposal a chain's reference count is the number of its live follows and unfinished
   * operations, and the chain has a connection exactly if there are any.
   */
  lemma ReferencesBalance(supported: set<Genesis>, evs: seq<Event>, g: Genesis)
    requires !Run(supported, evs).disposed
    ensures var s := Run(supported, evs);
      RefCount(s, g) == Held(s, g) && (g in s.chains <==> Held(s, g) > 0)
  {
    RunKeeps(supported, evs);
    var s := Run(supported, evs);
    assert RefCount(s, g) == Held(s, g);
  }

  /**
   * A connection is closed at most once, and is open exactly while it is its chain's
   * connection; disposal, with requests outstanding or not, closes all of them.
   */
  lemma ClosedAtMostOnce(supported: set<Genesis>, evs: seq<Event>, conn: nat)
    requires conn < |Run(supported, evs).connections|
    ensures var s := Run(supported, evs); var closed := Count(s.disconnected, conn);
      && closed == (if IsOpen(s, conn) then 0 else 1)
      && (s.disposed ==> closed == 1)
  {
    RunKeeps(supported, evs);
  }

  /** The node answers no two follow requests of a connection with the same id. */
  ghost predicate NodeIdsUnique(s: State) {
    forall i, j :: 0 <= i < j < |s.subs| && s.subs[i].conn == s.subs[j].conn ==>
      s.subs[i].followId.None? || s.subs[i].followId != s.subs[j].followId
  }

  lemma {:induction false} EndedOnce(subs: seq<Subscription>, conn: nat, f: FollowId, sub: nat)
    requires sub < |subs| && subs[sub].conn == conn && subs[sub].followId == Some(f)
    requires forall i | 0 <= i < |subs| && i != sub :: !(subs[i].conn == conn && subs[i].followId == Some(f))
    ensures CountIf(subs, EndedAs(conn, f)) == if subs[sub].stopped then 1 else 0
  {
    var init := subs[..|subs| - 1];
    if sub == |subs| - 1 {
      CountIfNone(init, EndedAs(conn, f));
    } else {
      EndedOnce(init, conn, f, sub);
    }
  }

  /** Exactly one unfollow is sent for an answered follow once it is stopped, in either order, and none before. */
  lemma UnfollowedExactlyOnce(supported: set<Genesis>, evs: seq<Event>, sub: nat, f: FollowId)
    requires var s := Run(supported, evs); NodeIdsUnique(s) && sub < |s.subs| && s.subs[sub].followId == Some(f)
    ensures var s := Run(supported, evs);
      Count(s.sent, Unfollow(s.subs[sub].conn, f)) == if s.subs[sub].stopped then 1 else 0
  {
    RunKeeps(supported, evs);
    var s := Run(supported, evs);
    EndedOnce(s.subs, s.subs[sub].conn, f, sub);
  }

  /** An id that answered no follow is never unfollowed. */
  lemma NeverUnfollowed(supported: set<Genesis>, evs: seq<Event>, conn: nat, f: FollowId)
    requires forall sub :: !Owns(Run(supported, evs), sub, conn, f)
    ensures Unfollow(conn, f) !in Run(supported, evs).sent
  {
    RunKeeps(supported, evs);
    var s := Run(supported, evs);
    forall i | 0 <= i < |s.subs| ensures !EndedAs(conn, f)(s.subs[i]) {
      assert !Owns(s, i, conn, f);
    }
    CountIfNone(s.subs, EndedAs(conn, f));
    CountPositive(s.sent, Unfollow(conn, f));
  }

  /**
   * An event for a node id reaches exactly the follow whose own request this connection's
   * node answered with that id, unless it has been stopped.
   */
  lemma EventsReachTheirFollow(supported: set<Genesis>, evs: seq<Event>, g: Genesis, f: FollowId, event: nat, sub: nat)
    requires var s := Run(supported, evs); NodeIdsUnique(s) && g in s.chains && Owns(s, sub, s.chains[g].conn, f)
    ensures var s := Run(supported, evs);
      OnNotification(s, g, f, event).events ==
        s.events + if s.subs[sub].stopped then [] else [Notified(sub, s.chains[g].conn, f, event)]
  {
    RunKeeps(supported, evs);
    FirstIsOwner(Run(supported, evs), g, f, sub);
  }

  lemma FirstIsOwner(s: State, g: Genesis, f: FollowId, sub: nat)
    requires Connected(s) && Tracked(s) && NodeIdsUnique(s) && g in s.chains && Owns(s, sub, s.chains[g].conn, f)
    ensures FirstWith(s.chains[g].follows, f) == if s.subs[sub].stopped then None else Some(sub)
  {
    assert ChainTracked(s, g) && WellFormed(s, sub);
    FirstWithSpec(s.chains[g].follows, f);
    var first := FirstWith(s.chains[g].follows, f);
    if first.Some? {
      EntriesOwn(s, g, FollowEntry(first.value, f));
      assert Rightful(s, g, FollowEntry(first.value, f));
    } else {
      assert FollowEntry(sub, f) !in s.chains[g].follows;
    }
  }

  /** An event for an id that answered no follow of the connection reaches nobody. */
  lemma StrayEventsAreDropped(supported: set<Genesis>, evs: seq<Event>, g: Genesis, f: FollowId, event: nat)
    requires var s := Run(supported, evs); g in s.chains && forall sub :: !Owns(s, sub, s.chains[g].conn, f)
    ensures OnNotification(Run(supported, evs), g, f, event) == Run(supported, evs)
  {
    RunKeeps(supported, evs);
    var s := Run(supported, evs);
    assert ChainTracked(s, g);
    FirstWithSpec(s.chains[g].follows, f);
    var first := FirstWith(s.chains[g].follows, f);
    if first.Some? {
      EntriesOwn(s, g, FollowEntry(first.value, f));
    }
  }

  lemma EntriesOwn(s: State, g: Genesis, e: FollowEntry)
    requires Tracked(s) && g in s.chains && e in s.chains[g].follows
    ensures Owns(s, e.sub, s.chains[g].conn, e.followId)
  {
    assert ChainTracked(s, g) && Rightful(s, g, e);
  }

  /** A subscription id resolves exactly if its follow on this chain's connection was answered and not stopped. */
  lemma ResolvesWhileFollowing(supported: set<Genesis>, evs: seq<Event>, g: Genesis, sub: nat, f: FollowId)
    ensures var s := Run(supported, evs);
      ResolveFollow(s, g, sub) == Some(f) <==>
      g in s.chains && Owns(s, sub, s.chains[g].conn, f) && !s.subs[sub].stopped
  {
    RunKeeps(supported, evs);
    if g in Run(supported, evs).chains {
      ResolveSpec(Run(supported, evs), g, sub, f);
    }
  }

  /** Every operation ever sent, and every event ever delivered, for a follow carries that follow's own node id. */
  lemma OwnIdsOnly(supported: set<Genesis>, evs: seq<Event>, i: nat)
    ensures var s := Run(supported, evs);
      && (i < |s.sent| && s.sent[i].HeadCall? ==> Owns(s, s.sent[i].sub, s.sent[i].conn, s.sent[i].followId))
      && (i < |s.events| ==> Owns(s, s.events[i].sub, s.events[i].conn, s.events[i].followId))
  {
    RunKeeps(supported, evs);
  }
}
