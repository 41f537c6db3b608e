/**
 * One endpoint of the reliable session, as a state and what each operation makes of it.
 *
 * Identifiers produced by `nanoid` are fresh: they are numbered per session. Encryption seals
 * a payload injectively, under a nonce of its own each time. The clock is an arbitrary
 * function of the number of times it has been read, so it may jump or go backwards. Effects
 * are recorded: `sent` lists the statements built for the store, `settled` the outcomes of delivery promises,
 * `inboxes` what each attached subscriber's callback has been handed.
 */
module SessionState {
  import opened Common
  import Dedup

  type Payload = seq<byte>
  type Account = nat
  type SubscriberId = nat

  datatype Id = Id(session: Account, n: nat)

  datatype ResponseCode = Success | DecryptionFailed | DecodingFailed | UnknownCode

  datatype StatementData =
    | Request(requestId: Id, data: seq<Payload>)
    | Response(requestId: Id, code: ResponseCode)

  /** The encrypted data field: sealed by a peer, or bytes that do not decrypt or decode. */
  datatype Cipher = Sealed(nonce: Id, body: StatementData) | Garbage(tag: nat)

  datatype Channel = RequestChannel | ResponseChannel

  datatype Statement = Statement(signer: Option<Account>, expiry: Option<int>, channel: Channel, data: Option<Cipher>)

  /** The statement's data field seals this body. */
  predicate Says(st: Statement, d: StatementData) {
    st.data.Some? && st.data.value.Sealed? && st.data.value.body == d
  }

  datatype Message =
    | RequestMessage(localId: (Id, nat), requestId: Id, payload: Payload)
    | ResponseMessage(requestId: Id, code: ResponseCode)

  datatype Batch = Batch(requestId: Id, messages: seq<Payload>, tokens: seq<Id>)

  datatype Queued = Queued(encoded: Payload, token: Id)

  datatype Outcome = Resolved(code: ResponseCode) | Rejected

  datatype Settlement = Settlement(token: Id, outcome: Outcome)

  datatype Phase = Initialization | Active | Disposed

  datatype SessionError =
    | DisposedError | CodecEncodeFailed | MessageTooBig(size: nat, maxSize: nat) | NoIncomingRequest(requestId: Id)

  /** `verify` is the prover's predicate on incoming statements. */
  datatype Config = Config(
    self: Account, maxSize: nat, durationSecs: int, clock: nat -> int, verify: Statement -> bool)

  datatype State = State(
    phase: Phase,
    expiry: int,
    outgoing: Option<Batch>,
    incoming: Option<Id>,
    responded: bool,
    queue: seq<Queued>,
    pending: seq<Id>,
    seen: seq<Cipher>,
    buffered: seq<StatementData>,
    inboxes: map<SubscriberId, seq<Message>>,
    listening: bool,
    // effects and history
    sent: seq<Statement>,
    settled: seq<Settlement>,
    issued: map<Id, Payload>,
    delivered: seq<StatementData>,
    nextId: nat,
    ticks: nat)

  const Initial := State(
    Initialization, 0, None, None, false, [], [], [], [], map[], false, [], [], map[], [], 0, 0)

  // -- Sending -------------------------------------------------------------------

  /** `max(soonest, expiry + 1)`: the clock-based expiry is used only if it is greater. */
  function Later(c: Config, expiry: int, tick: nat): int {
    var soonest := (c.clock(tick) / 1000 + c.durationSecs) * 0x1_0000_0000;
    if soonest > expiry then soonest else expiry + 1
  }

  function NextExpiry(c: Config, s: State): int { Later(c, s.expiry, s.ticks) }

  /** An expiry after the previous one, and no sooner than the duration after the clock's reading in milliseconds. */
  ghost predicate Allowed(reading: int, durationSecs: int, previous: int, e: int) {
    e > previous && e >= (reading / 1000 + durationSecs) * 0x1_0000_0000
  }

  /** The least allowed expiry. */
  ghost predicate Soonest(reading: int, durationSecs: int, previous: int, e: int) {
    && Allowed(reading, durationSecs, previous, e)
    && forall x: int | Allowed(reading, durationSecs, previous, x) :: e <= x
  }

  function SubmitData(c: Config, s: State, channel: Channel, body: StatementData): State {
    var expiry := NextExpiry(c, s);
    s.(expiry := expiry,
       ticks := s.ticks + 1,
       sent := s.sent + [Statement(Some(c.self), Some(expiry), channel, Some(Sealed(Id(c.self, s.ticks), body)))])
  }

  function Size(messages: seq<Payload>): nat {
    if messages == [] then 0 else Size(messages[..|messages| - 1]) + |messages[|messages| - 1]|
  }

  predicate Fits(c: Config, b: Batch, encoded: Payload) {
    Size(b.messages) + |encoded| <= c.maxSize
  }

  /** Put a batch in flight under a new wire id. */
  function SendBatch(c: Config, s: State, messages: seq<Payload>, tokens: seq<Id>): State {
    var id := Id(c.self, s.nextId);
    SubmitData(c, s.(nextId := s.nextId + 1, outgoing := Some(Batch(id, messages, tokens))),
               RequestChannel, Request(id, messages))
  }

  function ProcessNewMessage(c: Config, s: State, encoded: Payload, token: Id): State {
    match s.outgoing
    case None => SendBatch(c, s, [encoded], [token])
    case Some(b) =>
      if Fits(c, b, encoded) then SendBatch(c, s, b.messages + [encoded], b.tokens + [token])
      else s.(queue := s.queue + [Queued(encoded, token)])
  }

  /** The drain loop never re-queues: what it takes out of the queue joins the batch in flight. */
  function ProcessMessageQueue(c: Config, s: State): State
    decreases |s.queue|
  {
    if s.queue == [] then s
    else if s.outgoing.Some? && !Fits(c, s.outgoing.value, s.queue[0].encoded) then s
    else ProcessMessageQueue(c, ProcessNewMessage(c, s.(queue := s.queue[1..]), s.queue[0].encoded, s.queue[0].token))
  }

  function EnsureListening(s: State): State {
    if s.phase.Disposed? then s else s.(listening := true)
  }

  /** `encoded` is `None` when the application codec throws. */
  function SubmitRequest(c: Config, s: State, encoded: Option<Payload>): (State, Result<Id, SessionError>) {
    if s.phase.Disposed? then (s, Err(DisposedError))
    else if encoded.None? then (s, Err(CodecEncodeFailed))
    else if |encoded.value| > c.maxSize then (s, Err(MessageTooBig(|encoded.value|, c.maxSize)))
    else
      var token := Id(c.self, s.nextId);
      var t := EnsureListening(s).(
        nextId := s.nextId + 1,
        issued := s.issued[token := encoded.value],
        pending := s.pending + [token]);
      var t := if t.phase.Initialization? then t.(queue := t.queue + [Queued(encoded.value, token)])
               else ProcessNewMessage(c, t, encoded.value, token);
      (t, Ok(token))
  }

  function SubmitResponse(c: Config, s: State, requestId: Id, code: ResponseCode): (State, Result<(), SessionError>) {
    if s.phase.Disposed? then (s, Err(DisposedError))
    else if s.responded then (s, Ok(()))
    else if s.incoming != Some(requestId) then (s, Err(NoIncomingRequest(requestId)))
    else (SubmitData(c, s.(responded := true), ResponseChannel, Response(requestId, code)), Ok(()))
  }

  // -- Receiving -----------------------------------------------------------------

  /** One message per payload of a request, one for a response. */
  function ToMessages(d: StatementData): seq<Message> {
    match d
    case Request(id, data) => seq(|data|, i requires 0 <= i < |data| => RequestMessage((id, i), id, data[i]))
    case Response(id, code) => [ResponseMessage(id, code)]
  }

  function Deliver(s: State, d: StatementData): State {
    s.(buffered := if d.Request? || (s.inboxes == map[] && s.phase.Initialization?) then s.buffered + [d]
                   else s.buffered,
       inboxes := map sub <- s.inboxes :: s.inboxes[sub] + ToMessages(d),
       delivered := s.delivered + [d])
  }

  function TryDecode(c: Config, statement: Statement, responsesOnly: bool): Option<StatementData> {
    if statement.data.None? || !c.verify(statement) then None
    else
      match statement.data.value
      case Garbage(_) => None
      case Sealed(_, body) => if responsesOnly && !body.Response? then None else Some(body)
  }

  /** The batch's ACK: every token still pending resolves with the code. */
  function ResolveAll(s: State, tokens: seq<Id>, code: ResponseCode): State
    decreases |tokens|
  {
    if tokens == [] then s
    else
      var t := if tokens[0] in s.pending
               then s.(pending := Remove(s.pending, tokens[0]),
                       settled := s.settled + [Settlement(tokens[0], Resolved(code))])
               else s;
      ResolveAll(t, tokens[1..], code)
  }

  function Route(c: Config, s: State, d: StatementData): State {
    match d
    case Request(id, _) =>
      if s.incoming == Some(id) then s
      else Deliver(s.(incoming := Some(id), responded := false), d)
    case Response(id, code) =>
      if s.outgoing.None? || s.outgoing.value.requestId != id then s
      else
        var t := ResolveAll(s, s.outgoing.value.tokens, code);
        ProcessMessageQueue(c, Deliver(t.(outgoing := None), d))
  }

  function ReceiveStatement(c: Config, s: State, statement: Statement, responsesOnly: bool): State {
    if statement.data.None? || statement.data.value in s.seen then s
    else
      var t := s.(seen := Dedup.AddCapped(s.seen, statement.data.value));
      match TryDecode(c, statement, responsesOnly)
      case None => t
      case Some(d) => Route(c, t, d)
  }

  // -- Initialization --------------------------------------------------------------

  function MaxExpiry(statements: seq<Statement>): int {
    if statements == [] then 0
    else
      var m := MaxExpiry(statements[..|statements| - 1]);
      match statements[|statements| - 1].expiry
      case None => m
      case Some(e) => Max(e, m)
  }

  function DataKeys(statements: seq<Statement>): seq<Cipher> {
    if statements == [] then []
    else
      DataKeys(statements[..|statements| - 1]) +
      (match statements[|statements| - 1].data case None => [] case Some(k) => [k])
  }

  /** What the prover and the decoder accept, in order. */
  function Decoded(c: Config, statements: seq<Statement>): seq<StatementData> {
    if statements == [] then []
    else
      Decoded(c, statements[..|statements| - 1]) +
      (match TryDecode(c, statements[|statements| - 1], false) case None => [] case Some(d) => [d])
  }

  function Find(decoded: seq<StatementData>, wantRequest: bool): Option<StatementData> {
    if decoded == [] then None
    else if decoded[0].Request? == wantRequest then Some(decoded[0])
    else Find(decoded[1..], wantRequest)
  }

  predicate Answers(response: Option<StatementData>, request: StatementData) {
    response.Some? && response.value.requestId == request.requestId
  }

  function RestoreOutgoing(c: Config, s: State, own: seq<Statement>): State {
    match Find(Decoded(c, own), true)
    case None => s
    case Some(request) =>
      if Answers(Find(Decoded(c, own), false), request) || !request.Request? then s
      else s.(outgoing := Some(Batch(request.requestId, request.data, [])))
  }

  function RestoreIncoming(c: Config, s: State, peer: seq<Statement>): State {
    match Find(Decoded(c, peer), true)
    case None => s
    case Some(request) =>
      var answered := Answers(Find(Decoded(c, peer), false), request);
      var t := s.(incoming := Some(request.requestId), responded := answered);
      if answered then t else Deliver(t, request)
  }

  /** The continuation of the two history queries. */
  function FinishInit(c: Config, s: State, own: seq<Statement>, peer: seq<Statement>): State {
    if !s.phase.Initialization? then s
    else
      var t := s.(expiry := MaxExpiry(own), seen := Dedup.AddAll(s.seen, DataKeys(own + peer)));
      var t := RestoreIncoming(c, RestoreOutgoing(c, t, own), peer);
      EnsureListening(ProcessMessageQueue(c, t.(phase := Active)))
  }

  // -- Subscribers and disposal ------------------------------------------------------

  function Replay(buffered: seq<StatementData>): seq<Message> {
    if buffered == [] then []
    else Replay(buffered[..|buffered| - 1]) + ToMessages(buffered[|buffered| - 1])
  }

  function Subscribe(s: State, sub: SubscriberId): State {
    EnsureListening(s.(inboxes := s.inboxes[sub := Replay(s.buffered)]))
  }

  function Unsubscribe(s: State, sub: SubscriberId): State {
    s.(inboxes := s.inboxes - {sub})
  }

  function RejectAll(tokens: seq<Id>): seq<Settlement> {
    seq(|tokens|, i requires 0 <= i < |tokens| => Settlement(tokens[i], Rejected))
  }

  /** The rejected promises stay in the pending map. */
  function Dispose(s: State): State {
    if s.phase.Disposed? then s
    else
      s.(phase := Disposed, listening := false, inboxes := map[],
         settled := s.settled + RejectAll(s.pending),
         queue := [], outgoing := None, incoming := None, buffered := [])
  }

  // -- Runs ----------------------------------------------------------------------------

  datatype Event =
    | Submit(encoded: Option<Payload>)
    | Respond(requestId: Id, code: ResponseCode)
    | Receive(statement: Statement, responsesOnly: bool)
    | Init(own: seq<Statement>, peer: seq<Statement>)
    | Attach(sub: SubscriberId)
    | Detach(sub: SubscriberId)
    | Close

  /** The store calls back only while subscribed; each `subscribe` call makes a new subscriber. */
  function Step(c: Config, s: State, e: Event): State {
    match e
    case Submit(encoded) => SubmitRequest(c, s, encoded).0
    case Respond(id, code) => SubmitResponse(c, s, id, code).0
    case Receive(statement, responsesOnly) =>
      if s.listening then ReceiveStatement(c, s, statement, responsesOnly) else s
    case Init(own, peer) => FinishInit(c, s, own, peer)
    case Attach(sub) => if sub in s.inboxes then s else Subscribe(s, sub)
    case Detach(sub) => Unsubscribe(s, sub)
    case Close => Dispose(s)
  }

  function RunFrom(c: Config, s: State, evs: seq<Event>): State {
    if evs == [] then s else Step(c, RunFrom(c, s, evs[..|evs| - 1]), evs[|evs| - 1])
  }

  function Run(c: Config, evs: seq<Event>): State { RunFrom(c, Initial, evs) }
}
