/** The chain connection manager and its wiring as one object, each method against its specification. */
module ChainManager {
  import opened Common
  import opened ChainState

  class ChainConnectionManager {
    var supported: set<Genesis>
    var chains: map<Genesis, Entry>
    var nextId: nat
    var connections: seq<Genesis>
    var disconnected: seq<nat>
    var subs: seq<Subscription>
    var ops: seq<Operation>
    var sent: seq<Sent>
    var events: seq<Notified>
    var disposed: bool

    ghost function View(): State
      reads this
    {
      State(chains, nextId, connections, disconnected, subs, ops, sent, events, disposed)
    }

    constructor (supported: set<Genesis>)
      ensures View() == Initial && this.supported == supported
    {
      this.supported := supported;
      chains, nextId, connections, disconnected := map[], 0, [], [];
      subs, ops, sent, events, disposed := [], [], [], [], false;
    }

    // -- Connections ----------------------------------------------------------------------

    /** Answers whether there is a chain: the factory knows only the supported ones. */
    method GetOrCreateChain(g: Genesis) returns (found: bool)
      modifies this
      ensures supported == old(supported)
      ensures found <==> g in old(chains) || g in supported
      ensures View() == if found then Acquire(old(View()), g) else old(View())
    {
      if g in chains {
        chains := chains[g := chains[g].(refCount := chains[g].refCount + 1)];
        return true;
      }
      if g !in supported {
        return false;
      }
      chains := chains[g := Entry(|connections|, map[], [], 1)];
      connections := connections + [g];
      return true;
    }

    method SendUnfollowTo(conn: nat, f: FollowId)
      modifies this
      ensures supported == old(supported) && View() == SendUnfollow(old(View()), conn, f)
    {
      nextId := nextId + 1;
      sent := sent + [Unfollow(conn, f)];
    }

    method UnfollowEntries(e: Entry)
      modifies this
      ensures supported == old(supported) && View() == UnfollowAll(old(View()), e)
    {
      ghost var before := View();
      for i := 0 to |e.follows|
        invariant supported == old(supported)
        invariant View() == before.(sent := before.sent + Unfollows(e.conn, e.follows)[..i], nextId := before.nextId + i)
      {
        SendUnfollowTo(e.conn, e.follows[i].followId);
      }
      assert Unfollows(e.conn, e.follows)[..|e.follows|] == Unfollows(e.conn, e.follows);
    }

    method ReleaseChain(g: Genesis)
      modifies this
      ensures supported == old(supported) && View() == Release(old(View()), g)
      ensures g in old(chains) && old(chains)[g].refCount > 1 ==>
        g in chains && chains[g].refCount == old(chains)[g].refCount - 1 && disconnected == old(disconnected)
      ensures g in old(chains) && old(chains)[g].refCount <= 1 ==>
        g !in chains && disconnected == old(disconnected) + [old(chains)[g].conn]
    {
      if g !in chains {
        return;
      }
      var e := chains[g].(refCount := chains[g].refCount - 1);
      if e.refCount <= 0 {
        UnfollowEntries(e);
        disconnected := disconnected + [e.conn];
        chains := chains - {g};
      } else {
        chains := chains[g := e];
      }
    }

    // -- Follows ------------------------------------------------------------------------------

    method ForgetFollow(g: Genesis, conn: nat, sub: nat)
      modifies this
      ensures supported == old(supported) && View() == Forget(old(View()), g, conn, sub)
    {
      if g in chains && chains[g].conn == conn {
        var follows := chains[g].follows;
        var kept: seq<FollowEntry> := [];
        for i := 0 to |follows|
          invariant supported == old(supported) && View() == old(View())
          invariant kept == Without(follows[..i], sub)
        {
          assert follows[..i + 1][..i] == follows[..i];
          if follows[i].sub != sub {
            kept := kept + [follows[i]];
          }
        }
        assert follows[..|follows|] == follows;
        chains := chains[g := chains[g].(follows := kept)];
      }
    }

    method Stop(sub: nat)
      requires sub < |subs|
      modifies this
      ensures supported == old(supported) && View() == StopFollow(old(View()), sub)
      ensures |subs| == |old(subs)| && subs[sub].stopped && subs[sub].followId == old(subs)[sub].followId
      ensures |sent| == |old(sent)| + if old(subs)[sub].stopped || subs[sub].followId.None? then 0 else 1
    {
      var r := subs[sub];
      if r.stopped {
        return;
      }
      subs := subs[sub := r.(stopped := true)];
      if r.followId.Some? {
        ForgetFollow(r.genesis, r.conn, sub);
        SendUnfollowTo(r.conn, r.followId.value);
      }
    }

    method CleanUp(sub: nat)
      requires sub < |subs|
      modifies this
      ensures supported == old(supported) && View() == Cleanup(old(View()), sub)
    {
      if subs[sub].live {
        subs := subs[sub := subs[sub].(live := false)];
        Stop(sub);
        ReleaseChain(subs[sub].genesis);
      }
    }

    method OnFollow(g: Genesis, fails: bool)
      modifies this
      ensures supported == old(supported) && View() == StartFollow(old(View()), supported, g, fails)
    {
      var found := GetOrCreateChain(g);
      if !found {
        return;
      }
      var conn, id, sub := chains[g].conn, nextId, |subs|;
      nextId := nextId + 1;
      subs := subs + [Subscription(g, conn, false, None, !fails)];
      if fails {
        ReleaseChain(g);
      } else {
        chains := chains[g := chains[g].(pending := chains[g].pending[id := FollowRequest(sub)])];
        sent := sent + [ChainState.Follow(conn)];
      }
    }

    method FindFollow(g: Genesis, sub: nat) returns (f: Option<FollowId>)
      ensures f == ResolveFollow(View(), g, sub)
    {
      if g !in chains {
        return None;
      }
      var follows := chains[g].follows;
      for i := 0 to |follows|
        invariant Lookup(follows[i..], sub) == Lookup(follows, sub)
      {
        if follows[i].sub == sub {
          return Some(follows[i].followId);
        }
      }
      return None;
    }

    // -- Requests --------------------------------------------------------------------------------

    method OnOperation(g: Genesis, fails: bool)
      modifies this
      ensures supported == old(supported) && View() == StartOperation(old(View()), supported, g, fails)
    {
      var found := GetOrCreateChain(g);
      if !found {
        return;
      }
      var id, op := nextId, |ops|;
      nextId := nextId + 1;
      ops := ops + [Operation(g, if fails then Settled else Waiting)];
      if !fails {
        chains := chains[g := chains[g].(pending := chains[g].pending[id := OperationRequest(op)])];
        sent := sent + [OperationCall(chains[g].conn)];
      }
    }

    method Finish(op: nat)
      modifies this
      ensures supported == old(supported) && View() == FinishOperation(old(View()), op)
    {
      if op < |ops| && ops[op].phase.Settled? {
        ops := ops[op := ops[op].(phase := Finished)];
        ReleaseChain(ops[op].genesis);
      }
    }

    method OnHeadOperation(g: Genesis, sub: nat, fails: bool)
      modifies this
      ensures supported == old(supported) && View() == HeadOperation(old(View()), g, sub, fails)
    {
      var f := FindFollow(g, sub);
      if f.None? {
        return;
      }
      var id := nextId;
      nextId := nextId + 1;
      if !fails {
        chains := chains[g := chains[g].(pending := chains[g].pending[id := HeadRequest])];
        sent := sent + [HeadCall(chains[g].conn, sub, f.value)];
      }
    }

    // -- Messages of the node ------------------------------------------------------------------------

    method OnAnswer(g: Genesis, id: nat, answer: Option<FollowId>)
      modifies this
      ensures supported == old(supported) && View() == OnResponse(old(View()), g, id, answer)
    {
      if g !in chains || id !in chains[g].pending {
        return;
      }
      var request := chains[g].pending[id];
      chains := chains[g := chains[g].(pending := chains[g].pending - {id})];
      match request {
        case HeadRequest =>
        case OperationRequest(op) =>
          if op < |ops| && ops[op].phase.Waiting? {
            ops := ops[op := ops[op].(phase := Settled)];
          }
        case FollowRequest(sub) =>
          if sub >= |subs| {
            return;
          }
          if answer.None? {
            if !subs[sub].stopped {
              CleanUp(sub);
            }
            return;
          }
          subs := subs[sub := subs[sub].(followId := answer)];
          if subs[sub].stopped {
            SendUnfollowTo(chains[g].conn, answer.value);
          } else {
            chains := chains[g := chains[g].(follows := chains[g].follows + [FollowEntry(sub, answer.value)])];
          }
      }
    }

    /** The scan ends at the first follow with the node's id. */
    method OnEvent(g: Genesis, f: FollowId, event: nat)
      modifies this
      ensures supported == old(supported) && View() == OnNotification(old(View()), g, f, event)
    {
      if g !in chains {
        return;
      }
      var follows := chains[g].follows;
      for i := 0 to |follows|
        invariant supported == old(supported) && View() == old(View())
        invariant FirstWith(follows[i..], f) == FirstWith(follows, f)
      {
        if follows[i].followId == f {
          events := events + [Notified(follows[i].sub, chains[g].conn, f, event)];
          return;
        }
      }
    }

    // -- Disposal ----------------------------------------------------------------------------------------

    method Close()
      modifies this
      ensures supported == old(supported) && View() == Dispose(old(View()))
    {
      hide Cleanup;
      if disposed {
        return;
      }
      ghost var before := View();
      var n := |subs|;
      for sub := 0 to n
        invariant supported == old(supported) && |subs| == n && View() == CleanupAll(before, sub)
      {
        CleanUp(sub);
        assert View() == CleanupAll(before, sub + 1);
      }
      ghost var cleaned := View();
      for conn := 0 to |connections|
        invariant supported == old(supported) && View() == CloseAll(cleaned, conn)
      {
        var g := connections[conn];
        if g in chains && chains[g].conn == conn {
          UnfollowEntries(chains[g]);
          disconnected := disconnected + [conn];
        }
      }
      chains := map[];
      disposed := true;
    }
  }
}
