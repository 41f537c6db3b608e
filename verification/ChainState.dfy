/**
 * Chain connections shared by follow subscriptions and one-off operations: what each entry
 * point of the manager and of its wiring makes of the state.
 *
 * Subscriptions, operations and connections are numbered in the order they come. A follow
 * has two ids: its transport-level number and the id the node answers with. The closures of
 * a follow are its record in `follows`; `sent`, `disconnected` and `events` record effects.
 * A connection delivers nothing after it has been disconnected.
 */
module ChainState {
  import opened Common

  type Genesis = nat
  type FollowId = nat

  datatype Pending = FollowRequest(sub: nat) | OperationRequest(op: nat) | HeadRequest

  datatype FollowEntry = FollowEntry(sub: nat, followId: FollowId)

  datatype Entry = Entry(conn: nat, pending: map<nat, Pending>, follows: seq<FollowEntry>, refCount: int)

  datatype Sent =
    | Follow(conn: nat)
    | Unfollow(conn: nat, followId: FollowId)
    | HeadCall(conn: nat, sub: nat, followId: FollowId)
    | OperationCall(conn: nat)

  /** `live` until the transport has run the subscription's cleanup. */
  datatype Subscription = Subscription(genesis: Genesis, conn: nat, stopped: bool, followId: Option<FollowId>, live: bool)

  /** Waiting for the node, settled with the release still to run, or finished. */
  datatype Phase = Waiting | Settled | Finished

  datatype Operation = Operation(genesis: Genesis, phase: Phase)

  datatype Notified = Notified(sub: nat, conn: nat, followId: FollowId, event: nat)

  datatype State = State(
    chains: map<Genesis, Entry>,
    nextId: nat,
    connections: seq<Genesis>,
    disconnected: seq<nat>,
    subs: seq<Subscription>,
    ops: seq<Operation>,
    sent: seq<Sent>,
    events: seq<Notified>,
    disposed: bool)

  const Initial := State(map[], 0, [], [], [], [], [], [], false)

  // -- Connections --------------------------------------------------------------------------

  function Acquire(s: State, g: Genesis): (t: State)
    ensures g in t.chains
  {
    if g in s.chains then s.(chains := s.chains[g := s.chains[g].(refCount := s.chains[g].refCount + 1)])
    else
      s.(chains := s.chains[g := Entry(|s.connections|, map[], [], 1)], connections := s.connections + [g])
  }

  function Unfollows(conn: nat, follows: seq<FollowEntry>): seq<Sent> {
    seq(|follows|, i requires 0 <= i < |follows| => Unfollow(conn, follows[i].followId))
  }

  function UnfollowAll(s: State, e: Entry): State {
    s.(sent := s.sent + Unfollows(e.conn, e.follows), nextId := s.nextId + |e.follows|)
  }

  function Release(s: State, g: Genesis): State {
    if g !in s.chains then s
    else
      var e := s.chains[g].(refCount := s.chains[g].refCount - 1);
      if e.refCount <= 0 then
        UnfollowAll(s, e).(disconnected := s.disconnected + [e.conn], chains := s.chains - {g})
      else s.(chains := s.chains[g := e])
  }

  // -- Follows --------------------------------------------------------------------------------

  function Without(follows: seq<FollowEntry>, sub: nat): seq<FollowEntry> {
    if follows == [] then []
    else
      Without(follows[..|follows| - 1], sub) +
      if follows[|follows| - 1].sub != sub then [follows[|follows| - 1]] else []
  }

  function SendUnfollow(s: State, conn: nat, f: FollowId): State {
    s.(nextId := s.nextId + 1, sent := s.sent + [Unfollow(conn, f)])
  }

  /** `followSubscriptions.delete` on the entry the follow was started with. */
  function Forget(s: State, g: Genesis, conn: nat, sub: nat): State {
    if g in s.chains && s.chains[g].conn == conn
    then s.(chains := s.chains[g := s.chains[g].(follows := Without(s.chains[g].follows, sub))])
    else s
  }

  function StopFollow(s: State, sub: nat): State
    requires sub < |s.subs|
  {
    var r := s.subs[sub];
    if r.stopped then s
    else
      var t := s.(subs := s.subs[sub := r.(stopped := true)]);
      if r.followId.None? then t
      else SendUnfollow(Forget(t, r.genesis, r.conn, sub), r.conn, r.followId.value)
  }

  /** The handler's cleanup; the transport runs it once. */
  function Cleanup(s: State, sub: nat): (t: State)
    requires sub < |s.subs|
  {
    if !s.subs[sub].live then s
    else Release(StopFollow(s.(subs := s.subs[sub := s.subs[sub].(live := false)]), sub), s.subs[sub].genesis)
  }

  /** `fails`: the connection's `send` throws, which interrupts the subscription at once. */
  function StartFollow(s: State, supported: set<Genesis>, g: Genesis, fails: bool): State {
    if g !in s.chains && g !in supported then s
    else
      var t := Acquire(s, g);
      var conn := t.chains[g].conn;
      var t := t.(nextId := t.nextId + 1, subs := t.subs + [Subscription(g, conn, false, None, !fails)]);
      if fails then Release(t, g)
      else
        t.(chains := t.chains[g := t.chains[g].(pending := t.chains[g].pending[s.nextId := FollowRequest(|s.subs|)])],
           sent := t.sent + [Follow(conn)])
  }

  function ResolveFollow(s: State, g: Genesis, sub: nat): Option<FollowId> {
    if g !in s.chains then None else Lookup(s.chains[g].follows, sub)
  }

  function Lookup(follows: seq<FollowEntry>, sub: nat): Option<FollowId> {
    if follows == [] then None
    else if follows[0].sub == sub then Some(follows[0].followId)
    else Lookup(follows[1..], sub)
  }

  // -- Requests -------------------------------------------------------------------------------

  function StartOperation(s: State, supported: set<Genesis>, g: Genesis, fails: bool): State {
    if g !in s.chains && g !in supported then s
    else
      var t := Acquire(s, g);
      var t := t.(nextId := t.nextId + 1, ops := t.ops + [Operation(g, if fails then Settled else Waiting)]);
      if fails then t
      else
        t.(chains := t.chains[g := t.chains[g].(pending := t.chains[g].pending[s.nextId := OperationRequest(|s.ops|)])],
           sent := t.sent + [OperationCall(t.chains[g].conn)])
  }

  function FinishOperation(s: State, op: nat): State {
    if op < |s.ops| && s.ops[op].phase.Settled?
    then Release(s.(ops := s.ops[op := s.ops[op].(phase := Finished)]), s.ops[op].genesis)
    else s
  }

  /** A chain-head operation runs under the node's id of the follow, if there is one. */
  function HeadOperation(s: State, g: Genesis, sub: nat, fails: bool): State {
    var f := ResolveFollow(s, g, sub);
    if f.None? then s
    else if fails then s.(nextId := s.nextId + 1)
    else
      s.(nextId := s.nextId + 1,
         chains := s.chains[g := s.chains[g].(pending := s.chains[g].pending[s.nextId := HeadRequest])],
         sent := s.sent + [HeadCall(s.chains[g].conn, sub, f.value)])
  }

  // -- Messages of the node ---------------------------------------------------------------------

  function Answered(s: State, g: Genesis, sub: nat, f: FollowId): State
    requires g in s.chains && sub < |s.subs|
  {
    var r := s.subs[sub].(followId := Some(f));
    var t := s.(subs := s.subs[sub := r]);
    if r.stopped then SendUnfollow(t, s.chains[g].conn, f)
    else t.(chains := s.chains[g := s.chains[g].(follows := s.chains[g].follows + [FollowEntry(sub, f)])])
  }

  /** `answer` is the node's result, or `None` for its error. */
  function OnResponse(s: State, g: Genesis, id: nat, answer: Option<FollowId>): State {
    if g !in s.chains || id !in s.chains[g].pending then s
    else
      var t := s.(chains := s.chains[g := s.chains[g].(pending := s.chains[g].pending - {id})]);
      match s.chains[g].pending[id]
      case HeadRequest => t
      case OperationRequest(op) =>
        if op < |s.ops| && s.ops[op].phase.Waiting?
        then t.(ops := s.ops[op := s.ops[op].(phase := Settled)])
        else t
      case FollowRequest(sub) =>
        if sub >= |s.subs| then t
        else
          match answer
          case Some(f) => Answered(t, g, sub, f)
          case None => if s.subs[sub].stopped then t else Cleanup(t, sub)
  }

  /** The first follow entry with the node's id receives the event. */
  function FirstWith(follows: seq<FollowEntry>, f: FollowId): Option<nat> {
    if follows == [] then None
    else if follows[0].followId == f then Some(follows[0].sub)
    else FirstWith(follows[1..], f)
  }

  function OnNotification(s: State, g: Genesis, f: FollowId, event: nat): State {
    if g !in s.chains then s
    else
      match FirstWith(s.chains[g].follows, f)
      case None => s
      case Some(sub) => s.(events := s.events + [Notified(sub, s.chains[g].conn, f, event)])
  }

  // -- Disposal -----------------------------------------------------------------------------------

  /** The subscription handler is removed: all cleanups run, oldest first. */
  function CleanupAll(s: State, k: nat): (t: State)
    requires k <= |s.subs|
    ensures |t.subs| == |s.subs|
  {
    if k == 0 then s
    else Cleanup(CleanupAll(s, k - 1), k - 1)
  }

  predicate IsOpen(s: State, conn: nat) {
    && conn < |s.connections| && s.connections[conn] in s.chains
    && s.chains[s.connections[conn]].conn == conn
  }

  /** The remaining connections are closed in the order they were opened. */
  function CloseAll(s: State, k: nat): (t: State)
    requires k <= |s.connections|
    ensures t == s.(sent := t.sent, nextId := t.nextId, disconnected := t.disconnected)
  {
    if k == 0 then s
    else
      var t := CloseAll(s, k - 1);
      if IsOpen(s, k - 1)
      then UnfollowAll(t, s.chains[s.connections[k - 1]]).(disconnected := t.disconnected + [k - 1])
      else t
  }

  function Dispose(s: State): State {
    if s.disposed then s
    else
      var t := CleanupAll(s, |s.subs|);
      CloseAll(t, |t.connections|).(chains := map[], disposed := true)
  }

  // -- Runs ---------------------------------------------------------------------------------------

  datatype Event =
    | StartsFollow(g: Genesis, fails: bool)
    | StartsOperation(g: Genesis, fails: bool)
    | CallsHead(g: Genesis, sub: nat, fails: bool)
    | Finishes(op: nat)
    | Stops(sub: nat)
    | Responds(g: Genesis, id: nat, answer: Option<FollowId>)
    | Notifies(g: Genesis, f: FollowId, event: nat)
    | Disposes

  /** After disposal the request and subscription handlers are gone. */
  function Step(s: State, supported: set<Genesis>, e: Event): State {
    match e
    case StartsFollow(g, fails) => if s.disposed then s else StartFollow(s, supported, g, fails)
    case StartsOperation(g, fails) => if s.disposed then s else StartOperation(s, supported, g, fails)
    case CallsHead(g, sub, fails) => if s.disposed then s else HeadOperation(s, g, sub, fails)
    case Finishes(op) => FinishOperation(s, op)
    case Stops(sub) => if sub < |s.subs| then Cleanup(s, sub) else s
    case Responds(g, id, answer) => OnResponse(s, g, id, answer)
    case Notifies(g, f, event) => OnNotification(s, g, f, event)
    case Disposes => Dispose(s)
  }

  function Run(supported: set<Genesis>, evs: seq<Event>): State {
    if evs == [] then Initial else Step(Run(supported, evs[..|evs| - 1]), supported, evs[|evs| - 1])
  }
}
