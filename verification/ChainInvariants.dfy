/**
 * Over every run of the chain wiring: reference counts balance, every connection is closed at
 * most once, events and operations of a follow use its own node id, and an unfollow is sent
 * exactly once for each follow that was both answered and stopped, in either order.
 */
module ChainInvariants {
  import opened Common
  import opened ChainState

  // -- Counting ---------------------------------------------------------------------------------

  function CountIf<T>(s: seq<T>, p: T -> bool): nat {
    if s == [] then 0 else CountIf(s[..|s| - 1], p) + if p(s[|s| - 1]) then 1 else 0
  }

  lemma CountIfSnoc<T>(s: seq<T>, x: T, p: T -> bool)
    ensures CountIf(s + [x], p) == CountIf(s, p) + if p(x) then 1 else 0
  {
    assert (s + [x])[..|s|] == s;
  }

  lemma {:induction false} CountIfUpdate<T>(s: seq<T>, i: nat, x: T, p: T -> bool)
    requires i < |s|
    ensures CountIf(s[i := x], p) == CountIf(s, p) - (if p(s[i]) then 1 else 0) + (if p(x) then 1 else 0)
  {
    var n := |s| - 1;
    if i == n {
      assert s[i := x][..n] == s[..n];
    } else {
      CountIfUpdate(s[..n], i, x, p);
      assert s[i := x][..n] == s[..n][i := x];
    }
  }

  lemma {:induction false} CountIfMember<T>(s: seq<T>, i: nat, p: T -> bool)
    requires i < |s| && p(s[i])
    ensures CountIf(s, p) > 0
  {
    if i < |s| - 1 {
      CountIfMember(s[..|s| - 1], i, p);
    }
  }

  lemma {:induction false} CountIfNone<T>(s: seq<T>, p: T -> bool)
    requires forall i :: 0 <= i < |s| ==> !p(s[i])
    ensures CountIf(s, p) == 0
  {
    if s != [] {
      CountIfNone(s[..|s| - 1], p);
    }
  }

  function LiveAt(g: Genesis): Subscription -> bool { (r: Subscription) => r.live && r.genesis == g }

  function BusyAt(g: Genesis): Operation -> bool { (o: Operation) => !o.phase.Finished? && o.genesis == g }

  function EndedAs(conn: nat, f: FollowId): Subscription -> bool {
    (r: Subscription) => r.conn == conn && r.followId == Some(f) && r.stopped
  }

  // -- Reference counts ---------------------------------------------------------------------------

  function RefCount(s: State, g: Genesis): int { if g in s.chains then s.chains[g].refCount else 0 }

  /** The live follows and the unfinished operations on a chain. */
  function Held(s: State, g: Genesis): nat { CountIf(s.subs, LiveAt(g)) + CountIf(s.ops, BusyAt(g)) }

  /** `extra` is a reference acquired or about to be released, if any. */
  ghost predicate Balanced(s: State, extra: Option<Genesis>) {
    && (forall g: nat :: RefCount(s, g) == Held(s, g) + if extra == Some(g) then 1 else 0)
    && (forall g <- s.chains :: s.chains[g].refCount > 0)
  }

  // -- Connections -----------------------------------------------------------------------------------

  /** Every connection is open, for its own chain, or was disconnected once. */
  ghost predicate Connected(s: State) {
    && (forall g <- s.chains :: s.chains[g].conn < |s.connections| && s.connections[s.chains[g].conn] == g)
    && (forall n: nat :: Count(s.disconnected, n) == if n < |s.connections| && !IsOpen(s, n) then 1 else 0)
  }

  // -- Follows ------------------------------------------------------------------------------------------

  ghost predicate WellFormed(s: State, sub: nat)
    requires sub < |s.subs|
  {
    var r := s.subs[sub];
    && r.conn < |s.connections| && s.connections[r.conn] == r.genesis
    && (r.live ==> !r.stopped && r.genesis in s.chains && s.chains[r.genesis].conn == r.conn)
    && (r.followId.Some? && !r.stopped ==> r.live && FollowEntry(sub, r.followId.value) in s.chains[r.genesis].follows)
  }

  /** An entry belongs to an answered follow of this connection that has not been stopped. */
  ghost predicate Rightful(s: State, g: Genesis, e: FollowEntry)
    requires g in s.chains
  {
    && e.sub < |s.subs| && s.subs[e.sub].conn == s.chains[g].conn
    && s.subs[e.sub].followId == Some(e.followId) && !s.subs[e.sub].stopped
  }

  /** A pending follow request belongs to a follow of this connection that has not been answered. */
  ghost predicate Awaited(s: State, g: Genesis, id: nat)
    requires g in s.chains && id in s.chains[g].pending
  {
    && id < s.nextId
    && (s.chains[g].pending[id].FollowRequest? ==>
          var sub := s.chains[g].pending[id].sub;
          && sub < |s.subs| && s.subs[sub].conn == s.chains[g].conn && s.subs[sub].followId.None?
          && (s.subs[sub].live || s.subs[sub].stopped))
  }

  ghost predicate DistinctSubs(follows: seq<FollowEntry>) {
    forall i, j :: 0 <= i < j < |follows| ==> follows[i].sub != follows[j].sub
  }

  /** No two pending requests belong to the same follow. */
  ghost predicate DistinctRequests(pending: map<nat, Pending>) {
    forall id1, id2 | id1 in pending && id2 in pending && id1 != id2 && pending[id1].FollowRequest? ::
      pending[id1] != pending[id2]
  }

  ghost predicate ChainTracked(s: State, g: Genesis)
    requires g in s.chains
  {
    && (forall e <- s.chains[g].follows :: Rightful(s, g, e))
    && DistinctSubs(s.chains[g].follows)
    && (forall id <- s.chains[g].pending :: Awaited(s, g, id))
    && DistinctRequests(s.chains[g].pending)
  }

  ghost predicate Tracked(s: State) {
    && (forall sub :: 0 <= sub < |s.subs| ==> WellFormed(s, sub))
    && (forall g <- s.chains :: ChainTracked(s, g))
  }

  // -- Effects -------------------------------------------------------------------------------------------

  /** Unfollows sent for a node id are as many as its follows that were answered and stopped. */
  ghost predicate Unfollowed(s: State) {
    forall conn: nat, f: FollowId :: Count(s.sent, Unfollow(conn, f)) == CountIf(s.subs, EndedAs(conn, f))
  }

  /** The follow's own request was answered, on this connection, with this id. */
  ghost predicate Owns(s: State, sub: nat, conn: nat, f: FollowId) {
    sub < |s.subs| && s.subs[sub].conn == conn && s.subs[sub].followId == Some(f)
  }

  ghost predicate OwnIds(s: State) {
    && (forall i :: 0 <= i < |s.sent| && s.sent[i].HeadCall? ==> Owns(s, s.sent[i].sub, s.sent[i].conn, s.sent[i].followId))
    && (forall i :: 0 <= i < |s.events| ==> Owns(s, s.events[i].sub, s.events[i].conn, s.events[i].followId))
  }

  ghost predicate Effects(s: State) { Unfollowed(s) && OwnIds(s) }

  ghost predicate Good(s: State) { Connected(s) && Tracked(s) && Effects(s) }

  ghost predicate Inv(s: State) {
    && Good(s)
    && if s.disposed then s.chains == map[] else Balanced(s, None)
  }

  // -- Acquiring and releasing --------------------------------------------------------------------------

  lemma AcquireKeeps(s: State, g: Genesis)
    requires Good(s) && Balanced(s, None)
    ensures var t := Acquire(s, g);
      && Good(t) && Balanced(t, Some(g)) && t.disposed == s.disposed
  {
    AcquireBalanced(s, g);
    AcquireConnected(s, g);
    AcquireTracked(s, g);
    assert OwnIds(Acquire(s, g));
  }

  lemma AcquireBalanced(s: State, g: Genesis)
    requires Balanced(s, None)
    ensures Balanced(Acquire(s, g), Some(g))
  {
    var t := Acquire(s, g);
    hide CountIf;
    forall h: nat ensures RefCount(t, h) == Held(t, h) + if h == g then 1 else 0 {
      assert RefCount(s, h) == Held(s, h);
    }
  }

  lemma AcquireConnected(s: State, g: Genesis)
    requires Connected(s)
    ensures Connected(Acquire(s, g))
  {
    var t := Acquire(s, g);
    forall n: nat ensures Count(t.disconnected, n) == if n < |t.connections| && !IsOpen(t, n) then 1 else 0 {
      assert Count(s.disconnected, n) == if n < |s.connections| && !IsOpen(s, n) then 1 else 0;
    }
  }

  lemma AcquireTracked(s: State, g: Genesis)
    requires Connected(s) && Tracked(s)
    ensures Tracked(Acquire(s, g))
  {
    var t := Acquire(s, g);
    forall sub | 0 <= sub < |t.subs| ensures WellFormed(t, sub) {
      assert WellFormed(s, sub);
    }
    forall h | h in t.chains ensures ChainTracked(t, h) {
      if h in s.chains {
        SameChainTracked(s, t, h);
      }
    }
  }

  /** A chain whose follows and pending requests stay is tracked as long as those follows stay. */
  lemma SameChainTracked(s: State, t: State, g: Genesis)
    requires g in s.chains && g in t.chains && ChainTracked(s, g)
    requires t.chains[g] == s.chains[g].(refCount := t.chains[g].refCount)
    requires t.nextId >= s.nextId && |t.subs| >= |s.subs| && t.subs[..|s.subs|] == s.subs
    ensures ChainTracked(t, g)
  {
    assert forall i :: 0 <= i < |s.subs| ==> t.subs[i] == s.subs[i];
    forall e | e in t.chains[g].follows ensures Rightful(t, g, e) {
      assert Rightful(s, g, e);
    }
    forall id | id in t.chains[g].pending ensures Awaited(t, g, id) {
      assert Awaited(s, g, id);
    }
  }

  /** A chain that is released for the last time has no follow entries left. */
  lemma LastRelease(s: State, g: Genesis)
    requires Connected(s) && Tracked(s) && Balanced(s, Some(g)) && g in s.chains && s.chains[g].refCount == 1
    ensures s.chains[g].follows == []
    ensures forall sub :: 0 <= sub < |s.subs| && s.subs[sub].live ==> s.subs[sub].genesis != g
  {
    assert RefCount(s, g) == Held(s, g) + 1;
    forall sub | 0 <= sub < |s.subs| && s.subs[sub].live ensures s.subs[sub].genesis != g {
      if s.subs[sub].genesis == g {
        CountIfMember(s.subs, sub, LiveAt(g));
      }
    }
    if s.chains[g].follows != [] {
      EntryIsLive(s, g, s.chains[g].follows[0]);
    }
  }

  lemma EntryIsLive(s: State, g: Genesis, e: FollowEntry)
    requires Connected(s) && Tracked(s) && g in s.chains && e in s.chains[g].follows
    ensures e.sub < |s.subs| && s.subs[e.sub].live && s.subs[e.sub].genesis == g
  {
    assert Rightful(s, g, e) && WellFormed(s, e.sub);
  }

  lemma ReleaseKeeps(s: State, g: Genesis)
    requires Good(s) && Balanced(s, Some(g))
    ensures var t := Release(s, g);
      && Good(t) && Balanced(t, None)
      && t == s.(chains := t.chains, nextId := t.nextId, disconnected := t.disconnected)
  {
    assert RefCount(s, g) == Held(s, g) + 1;
    var t := Release(s, g);
    if s.chains[g].refCount == 1 {
      LastRelease(s, g);
      assert Unfollows(s.chains[g].conn, []) == [] && s.sent + [] == s.sent;
      DropConnected(s, g);
      DropTracked(s, g);
    } else {
      AdjustTracked(s, g, s.chains[g].refCount - 1);
      AdjustConnected(s, g, s.chains[g].refCount - 1);
    }
    ReleaseBalanced(s, g, t);
  }

  lemma ReleaseBalanced(s: State, g: Genesis, t: State)
    requires Balanced(s, Some(g)) && t.subs == s.subs && t.ops == s.ops && g in s.chains
    requires t.chains == if s.chains[g].refCount == 1 then s.chains - {g}
                         else s.chains[g := s.chains[g].(refCount := s.chains[g].refCount - 1)]
    ensures Balanced(t, None)
  {
    forall h: nat ensures RefCount(t, h) == Held(t, h) {
      assert RefCount(s, h) == Held(s, h) + if h == g then 1 else 0;
    }
  }

  lemma DropConnected(s: State, g: Genesis)
    requires Connected(s) && g in s.chains
    ensures Connected(s.(disconnected := s.disconnected + [s.chains[g].conn], chains := s.chains - {g}))
  {
    var conn := s.chains[g].conn;
    var t := s.(disconnected := s.disconnected + [conn], chains := s.chains - {g});
    forall n: nat ensures Count(t.disconnected, n) == if n < |t.connections| && !IsOpen(t, n) then 1 else 0 {
      assert Count(s.disconnected, n) == if n < |s.connections| && !IsOpen(s, n) then 1 else 0;
      CountConcat(s.disconnected, [conn], n);
      CountOne(conn, n);
      assert IsOpen(t, n) <==> IsOpen(s, n) && n != conn;
    }
  }

  lemma DropTracked(s: State, g: Genesis)
    requires Tracked(s) && g in s.chains
    requires forall sub :: 0 <= sub < |s.subs| && s.subs[sub].live ==> s.subs[sub].genesis != g
    ensures forall n: nat, d: seq<nat> | n >= s.nextId :: Tracked(s.(chains := s.chains - {g}, disconnected := d, nextId := n))
  {
    forall n: nat, d: seq<nat> | n >= s.nextId
      ensures Tracked(s.(chains := s.chains - {g}, disconnected := d, nextId := n))
    {
      var t := s.(chains := s.chains - {g}, disconnected := d, nextId := n);
      forall sub | 0 <= sub < |t.subs| ensures WellFormed(t, sub) {
        assert WellFormed(s, sub);
      }
      SameChainsTracked(s, t);
    }
  }

  /** Chains that kept their follows and pending requests are tracked as before. */
  lemma SameChainsTracked(s: State, t: State)
    requires Tracked(s) && t.subs == s.subs && t.nextId >= s.nextId && t.connections == s.connections
    requires forall g <- t.chains :: g in s.chains && t.chains[g] == s.chains[g].(refCount := t.chains[g].refCount)
    requires forall sub :: 0 <= sub < |t.subs| ==> WellFormed(t, sub)
    ensures Tracked(t)
  {
    forall g | g in t.chains ensures ChainTracked(t, g) {
      SameChainTracked(s, t, g);
    }
  }

  lemma AdjustTracked(s: State, g: Genesis, refCount: int)
    requires Tracked(s) && g in s.chains
    ensures Tracked(s.(chains := s.chains[g := s.chains[g].(refCount := refCount)]))
  {
    var t := s.(chains := s.chains[g := s.chains[g].(refCount := refCount)]);
    forall sub | 0 <= sub < |t.subs| ensures WellFormed(t, sub) {
      assert WellFormed(s, sub);
    }
    SameChainsTracked(s, t);
  }

  lemma AdjustConnected(s: State, g: Genesis, refCount: int)
    requires Connected(s) && g in s.chains
    ensures Connected(s.(chains := s.chains[g := s.chains[g].(refCount := refCount)]))
  {
    var t := s.(chains := s.chains[g := s.chains[g].(refCount := refCount)]);
    forall n: nat ensures Count(t.disconnected, n) == if n < |t.connections| && !IsOpen(t, n) then 1 else 0 {
      assert Count(s.disconnected, n) == if n < |s.connections| && !IsOpen(s, n) then 1 else 0;
    }
  }

  // -- Stopping a follow ---------------------------------------------------------------------------------

  lemma {:induction false} WithoutSpec(follows: seq<FollowEntry>, sub: nat)
    requires DistinctSubs(follows)
    ensures DistinctSubs(Without(follows, sub))
    ensures forall e :: e in Without(follows, sub) <==> e in follows && e.sub != sub
  {
    if follows != [] {
      var init, last := follows[..|follows| - 1], follows[|follows| - 1];
      WithoutSpec(init, sub);
      assert follows == init + [last];
      assert forall e <- Without(init, sub) :: e in init;
    }
  }

  /** One subscription's record changes: what that does to the counts over all of them. */
  lemma RecordCounts(s: State, sub: nat, r: Subscription, g: Genesis, conn: nat, f: FollowId)
    requires sub < |s.subs|
    ensures CountIf(s.subs[sub := r], LiveAt(g))
         == CountIf(s.subs, LiveAt(g)) - (if LiveAt(g)(s.subs[sub]) then 1 else 0) + (if LiveAt(g)(r) then 1 else 0)
    ensures CountIf(s.subs[sub := r], EndedAs(conn, f))
         == CountIf(s.subs, EndedAs(conn, f))
            - (if EndedAs(conn, f)(s.subs[sub]) then 1 else 0) + (if EndedAs(conn, f)(r) then 1 else 0)
  {
    CountIfUpdate(s.subs, sub, r, LiveAt(g));
    CountIfUpdate(s.subs, sub, r, EndedAs(conn, f));
  }

  /** The state in which a live follow has just been stopped and its reference is still held. */
  function Stopped(s: State, sub: nat): State
    requires sub < |s.subs|
  {
    StopFollow(s.(subs := s.subs[sub := s.subs[sub].(live := false)]), sub)
  }

  lemma StoppedShape(s: State, sub: nat)
    requires sub < |s.subs| && s.subs[sub].live && WellFormed(s, sub)
    ensures var t := Stopped(s, sub); var r := s.subs[sub]; var g := r.genesis;
      && g in s.chains
      && t == s.(subs := s.subs[sub := r.(live := false, stopped := true)], chains := t.chains,
                 sent := t.sent, nextId := t.nextId)
      && t.nextId >= s.nextId
      && t.sent == s.sent + (if r.followId.Some? then [Unfollow(r.conn, r.followId.value)] else [])
      && t.chains == (if r.followId.Some? then s.chains[g := s.chains[g].(follows := Without(s.chains[g].follows, sub))]
                      else s.chains)
  {
    var u := s.(subs := s.subs[sub := s.subs[sub].(live := false)]);
    assert u.subs[sub := u.subs[sub].(stopped := true)] == s.subs[sub := s.subs[sub].(live := false, stopped := true)];
    assert s.sent + [] == s.sent;
  }

  lemma StopBalanced(s: State, t: State, sub: nat)
    requires Balanced(s, None) && sub < |s.subs| && s.subs[sub].live
    requires t.subs == s.subs[sub := s.subs[sub].(live := false, stopped := true)] && t.ops == s.ops
    requires t.chains.Keys == s.chains.Keys && forall g <- s.chains :: t.chains[g].refCount == s.chains[g].refCount
    ensures Balanced(t, Some(s.subs[sub].genesis))
  {
    forall g: nat ensures RefCount(t, g) == Held(t, g) + if s.subs[sub].genesis == g then 1 else 0 {
      RecordCounts(s, sub, t.subs[sub], g, 0, 0);
      assert RefCount(s, g) == Held(s, g);
    }
  }

  lemma StopEffects(s: State, t: State, sub: nat)
    requires Effects(s) && sub < |s.subs| && !s.subs[sub].stopped
    requires var r := s.subs[sub];
      && t.subs == s.subs[sub := r.(live := false, stopped := true)] && t.events == s.events
      && t.sent == s.sent + (if r.followId.Some? then [Unfollow(r.conn, r.followId.value)] else [])
    ensures Effects(t)
  {
    var r := s.subs[sub];
    assert s.sent + [] == s.sent;
    forall conn: nat, f: FollowId ensures Count(t.sent, Unfollow(conn, f)) == CountIf(t.subs, EndedAs(conn, f)) {
      RecordCounts(s, sub, t.subs[sub], 0, conn, f);
      assert Count(s.sent, Unfollow(conn, f)) == CountIf(s.subs, EndedAs(conn, f));
      if r.followId.Some? {
        CountConcat(s.sent, [Unfollow(r.conn, r.followId.value)], Unfollow(conn, f));
        CountOne(Unfollow(r.conn, r.followId.value), Unfollow(conn, f));
      }
    }
    assert forall n, conn, f :: Owns(s, n, conn, f) ==> Owns(t, n, conn, f);
    forall i | 0 <= i < |t.sent| && t.sent[i].HeadCall?
      ensures Owns(t, t.sent[i].sub, t.sent[i].conn, t.sent[i].followId)
    {
      assert t.sent[i] == s.sent[i];
    }
  }

  lemma StopTracked(s: State, t: State, sub: nat)
    requires Connected(s) && Tracked(s) && sub < |s.subs| && s.subs[sub].live
    requires var r := s.subs[sub]; var g := r.genesis;
      && g in s.chains && t.connections == s.connections && t.nextId >= s.nextId
      && t.subs == s.subs[sub := r.(live := false, stopped := true)]
      && t.chains == (if r.followId.Some? then s.chains[g := s.chains[g].(follows := Without(s.chains[g].follows, sub))]
                      else s.chains)
    ensures Tracked(t)
  {
    var r := s.subs[sub];
    assert WellFormed(s, sub) && ChainTracked(s, r.genesis);
    WithoutSpec(s.chains[r.genesis].follows, sub);
    forall n | 0 <= n < |t.subs| ensures WellFormed(t, n) {
      assert WellFormed(s, n);
    }
    forall h | h in t.chains ensures ChainTracked(t, h) {
      assert ChainTracked(s, h);
      forall e | e in t.chains[h].follows ensures Rightful(t, h, e) {
        assert Rightful(s, h, e);
        assert e.sub != sub;
      }
      forall id | id in t.chains[h].pending ensures Awaited(t, h, id) {
        assert Awaited(s, h, id);
      }
    }
  }

  lemma StopConnected(s: State, t: State)
    requires Connected(s) && t.connections == s.connections && t.disconnected == s.disconnected
    requires t.chains.Keys == s.chains.Keys && forall g <- s.chains :: t.chains[g].conn == s.chains[g].conn
    ensures Connected(t)
  {
    forall n: nat ensures Count(t.disconnected, n) == if n < |t.connections| && !IsOpen(t, n) then 1 else 0 {
      assert Count(s.disconnected, n) == if n < |s.connections| && !IsOpen(s, n) then 1 else 0;
    }
  }

  lemma StoppedKeeps(s: State, sub: nat)
    requires Good(s) && Balanced(s, None) && sub < |s.subs| && s.subs[sub].live
    ensures var t := Stopped(s, sub);
      && Good(t) && Balanced(t, Some(s.subs[sub].genesis))
      && t == s.(subs := s.subs[sub := s.subs[sub].(live := false, stopped := true)], chains := t.chains,
                 sent := t.sent, nextId := t.nextId)
  {
    hide Stopped;
    assert WellFormed(s, sub);
    StoppedShape(s, sub);
    var t := Stopped(s, sub);
    StopBalanced(s, t, sub);
    StopEffects(s, t, sub);
    StopTracked(s, t, sub);
    StopConnected(s, t);
  }

  lemma CleanupKeeps(s: State, sub: nat)
    requires Good(s) && Balanced(s, None) && sub < |s.subs|
    ensures var t := Cleanup(s, sub);
      && Good(t) && Balanced(t, None)
      && |t.subs| == |s.subs| && t.disposed == s.disposed && t.ops == s.ops && t.connections == s.connections
      && !t.subs[sub].live && (forall n :: 0 <= n < |s.subs| && !s.subs[n].live ==> !t.subs[n].live)
  {
    hide Good;
    hide Balanced;
    hide StopFollow;
    hide Release;
    if s.subs[sub].live {
      StoppedKeeps(s, sub);
      ReleaseKeeps(Stopped(s, sub), s.subs[sub].genesis);
    }
  }

  // -- Starting and finishing ------------------------------------------------------------------------------

  /** A follow's number is the next one, so its record adds to the counts only if it is live. */
  lemma NewRecordCounts(s: State, r: Subscription, g: Genesis, conn: nat, f: FollowId)
    ensures CountIf(s.subs + [r], LiveAt(g)) == CountIf(s.subs, LiveAt(g)) + if r.live && r.genesis == g then 1 else 0
    ensures !r.stopped ==> CountIf(s.subs + [r], EndedAs(conn, f)) == CountIf(s.subs, EndedAs(conn, f))
  {
    CountIfSnoc(s.subs, r, LiveAt(g));
    CountIfSnoc(s.subs, r, EndedAs(conn, f));
  }

  /** Adding the record of a new follow. */
  lemma RecordFollow(t: State, g: Genesis, live: bool)
    requires Good(t) && Balanced(t, Some(g)) && g in t.chains
    ensures var u := t.(nextId := t.nextId + 1,
                        subs := t.subs + [Subscription(g, t.chains[g].conn, false, None, live)]);
      Good(u) && Balanced(u, if live then None else Some(g))
  {
    hide Balanced;
    hide Connected;
    hide Tracked;
    hide Effects;
    var r := Subscription(g, t.chains[g].conn, false, None, live);
    var u := t.(nextId := t.nextId + 1, subs := t.subs + [r]);
    RecordBalanced(t, u, g, r);
    RecordTracked(t, u, g, r);
    RecordEffects(t, u, r);
    StopConnected(t, u);
  }

  lemma RecordBalanced(t: State, u: State, g: Genesis, r: Subscription)
    requires Balanced(t, Some(g)) && r.genesis == g
    requires u.subs == t.subs + [r] && u.chains == t.chains && u.ops == t.ops
    ensures Balanced(u, if r.live then None else Some(g))
  {
    forall h: nat ensures RefCount(u, h) == Held(u, h) + if !r.live && h == g then 1 else 0 {
      NewRecordCounts(t, r, h, 0, 0);
      assert RefCount(t, h) == Held(t, h) + if h == g then 1 else 0;
    }
  }

  lemma RecordTracked(t: State, u: State, g: Genesis, r: Subscription)
    requires Connected(t) && Tracked(t) && g in t.chains
    requires r == Subscription(g, t.chains[g].conn, false, None, r.live)
    requires u == t.(nextId := t.nextId + 1, subs := t.subs + [r])
    ensures Tracked(u)
  {
    forall n | 0 <= n < |u.subs| ensures WellFormed(u, n) {
      assert n < |t.subs| ==> WellFormed(t, n);
    }
    forall h | h in u.chains ensures ChainTracked(u, h) {
      SameChainTracked(t, u, h);
    }
  }

  lemma RecordEffects(t: State, u: State, r: Subscription)
    requires Effects(t) && !r.stopped && u.subs == t.subs + [r] && u.sent == t.sent && u.events == t.events
    ensures Effects(u)
  {
    forall conn: nat, f: FollowId ensures Count(u.sent, Unfollow(conn, f)) == CountIf(u.subs, EndedAs(conn, f)) {
      NewRecordCounts(t, r, 0, conn, f);
    }
    assert forall n, conn, f :: Owns(t, n, conn, f) ==> Owns(u, n, conn, f);
  }

  /** Putting a request on the wire. */
  lemma SendKeeps(t: State, g: Genesis, id: nat, p: Pending, m: Sent)
    requires Good(t) && g in t.chains && id !in t.chains[g].pending && id < t.nextId
    requires p.FollowRequest? ==>
      && p.sub < |t.subs| && t.subs[p.sub].conn == t.chains[g].conn && t.subs[p.sub].followId.None? && t.subs[p.sub].live
      && p !in t.chains[g].pending.Values
    requires !m.Unfollow? && (m.HeadCall? ==> Owns(t, m.sub, m.conn, m.followId))
    ensures var e := t.chains[g];
      Good(t.(chains := t.chains[g := e.(pending := e.pending[id := p])], sent := t.sent + [m]))
  {
    var e := t.chains[g];
    var u := t.(chains := t.chains[g := e.(pending := e.pending[id := p])], sent := t.sent + [m]);
    StopConnected(t, u);
    SendTracked(t, u, g, id, p);
    SendEffects(t, u, m);
  }

  lemma SendTracked(t: State, u: State, g: Genesis, id: nat, p: Pending)
    requires Tracked(t) && g in t.chains && id !in t.chains[g].pending && id < t.nextId
    requires p.FollowRequest? ==>
      && p.sub < |t.subs| && t.subs[p.sub].conn == t.chains[g].conn && t.subs[p.sub].followId.None? && t.subs[p.sub].live
      && p !in t.chains[g].pending.Values
    requires u == t.(chains := t.chains[g := t.chains[g].(pending := t.chains[g].pending[id := p])], sent := u.sent)
    ensures Tracked(u)
  {
    forall n | 0 <= n < |u.subs| ensures WellFormed(u, n) {
      assert WellFormed(t, n);
    }
    forall h | h in u.chains ensures ChainTracked(u, h) {
      assert ChainTracked(t, h);
      assert forall e <- u.chains[h].follows :: Rightful(t, h, e) ==> Rightful(u, h, e);
      forall i | i in u.chains[h].pending ensures Awaited(u, h, i) {
        assert h != g || i != id ==> Awaited(t, h, i);
      }
    }
  }

  lemma SendEffects(t: State, u: State, m: Sent)
    requires Effects(t) && u.subs == t.subs && u.events == t.events && u.sent == t.sent + [m]
    requires !m.Unfollow? && (m.HeadCall? ==> Owns(t, m.sub, m.conn, m.followId))
    ensures Effects(u)
  {
    forall conn: nat, f: FollowId ensures Count(u.sent, Unfollow(conn, f)) == CountIf(u.subs, EndedAs(conn, f)) {
      CountConcat(t.sent, [m], Unfollow(conn, f));
      CountOne(m, Unfollow(conn, f));
    }
    assert forall n, conn, f :: Owns(t, n, conn, f) ==> Owns(u, n, conn, f);
  }

  lemma SendBalanced(t: State, u: State, g: Genesis, extra: Option<Genesis>)
    requires Balanced(t, extra) && g in t.chains && u.subs == t.subs && u.ops == t.ops
    requires exists p :: u.chains == t.chains[g := t.chains[g].(pending := p)]
    ensures Balanced(u, extra)
  {
    forall h: nat ensures RefCount(u, h) == Held(u, h) + if extra == Some(h) then 1 else 0 {
      assert RefCount(t, h) == Held(t, h) + if extra == Some(h) then 1 else 0;
    }
  }
}
