# Verified models of the statement session, the transport and the chain wiring

This project models the stateful parts of a host/product messaging stack and proves what they promise:

- **Session** (`SessionState`, `Session`, `SessionConservation`, `SessionQueue`, `SessionExpiry`,
  `SessionDates`, `SessionClock`, `SessionSoonest`, `SessionEffects`, `SessionRecovery`, `SessionSubscribers`, `SessionDedup`, `SessionPair`, `SessionAnswers`, `Dedup`): a reliable session over a statement store, with acknowledgements,
  coalescing batches under regenerated wire ids, an overflow queue, rising expiries, a bounded
  deduplication cache, late subscribers and disposal. `SessionState` says what each operation makes of the state;
  the class in `Session` is proved to compute it; the other modules prove what holds over all runs of one session, and
  of two sessions joined by an unreliable store.
- **Statement codec** (`Compact`, `StatementCodec`, `StatementLayout`, `StatementTruncation`, `Hex`): the hand-written SCALE printer and parser,
  byte for byte, also on inputs that end early and on inputs that are part of a larger buffer.
- **Statement client** (`TopicKey`, `StatementClient`): upstream subscriptions shared by topic set.
- **Transport** (`TransportProducer`, `TransportConsumer`, `TransportPair`, `Negotiation`): multiplexed subscriptions
  of two endpoints over FIFO channels, and the codec switch in mid-conversation.
- **Chains** (`ChainState`, `ChainInvariants`, `ChainRuns`, `ChainEffects`, `ChainManager`): reference-counted connections, follow
  subscriptions with two id spaces, stopped before or after the node answers.
- **Rate limiter** (`RateLimiter`): the token bucket in its queueing and its dropping form.

Where the source updates fields in place there is a class whose methods are proved equal to a specification
function, and the properties are proved of that function over every run. `dafny verify dfyconfig.toml` checks everything.

## How the model reads the source

- Ids from `nanoid` and from counters are fresh: they are numbered. The clock is an arbitrary function of how often it
  was read. Encryption seals a payload injectively under a fresh nonce; the prover is a predicate, and for the pair of sessions it
  accepts only what the peer signed. Statements of third parties, and of earlier sessions of the two accounts, are
  arbitrary except that those signed by the two accounts do not mention wire ids of the two current sessions.
- The store of the pair may hand out anything ever submitted, at any time, any number of times; a store that keeps
  only the highest expiry per account and channel is one of the behaviours covered.
- Callbacks, handlers and cleanups do not re-enter, upstream `subscribe` calls do not deliver synchronously, callbacks
  passed to `subscribe` are distinct, `send` on unfollow does not throw, and a connection delivers nothing after it
  was disconnected. A node's follow ids are non-empty, and where it says so unique per connection.
- The session's header says that every new submission moves the expiry forward
  (`packages/host/src/statementStore/session/session.ts:29-31`); the code overwrites the expiry at initialization. The
  model follows the code: `AlwaysRiseIff` says exactly when the promise holds, `ResponseExpiryCanFall` is a run
  in which it does not.
- The negotiation guarantees depend on what the upgrade requests offer. A product of this repository asks with one fixed set
  of adapters, so all of them hold; the `Iff` rows say, for arbitrary offers, exactly when each of them does.

## Model

| member | source | states |
|---|---|---|
| SessionPair.ResolvedMeansDelivered | packages/host/src/statementStore/session/session.ts:273-321 | End-to-end soundness of acknowledgements. In every run of two sessions over a store that may reorder, duplicate, delay or drop statements (but not forge a signature), and for either side: if a delivery promise resolved with a code, there was a moment at which its token was in the batch in flight, that batch had been submitted under its current wire id with the token's payload at the token's place, and the peer delivered that very request and answered it with that code |
| SessionPair.PairInvariant | packages/host/src/statementStore/session/session.ts:241-298 | The invariant behind it, kept by every move of either side: wire ids name one request each, the batch in flight carries its tokens' payloads under its current id, only delivered requests are answered, and every delivered request under a peer's current id was sent by the peer |
| SessionPair.StepKept | packages/host/src/statementStore/session/session.ts:305-333 | What one step of one session adds: history only grows, new deliveries were brought by the event, promises resolve only for the tokens of the batch whose current id an accepted response names |
| SessionPair.AckIsSound | packages/host/src/statementStore/session/session.ts:280-294 | An accepted response to a batch with tokens implies that the peer delivered a request equal to the batch, with all of the tokens' payloads in it |
| SessionAnswers.AnsweredAtMostOnce | packages/host/src/statementStore/session/session.ts:509-527 | In every run, with live statements routed before and overwritten by initialization: a request id is answered at most as often as a request with that id was delivered, so nothing undelivered is answered and no delivery twice |
| SessionConservation.Conservation | packages/host/src/statementStore/session/session.ts:288-333 | In every run and for every token: issued tokens are in the current batch, in the queue or settled, exactly once; until dispose the pending promises are exactly the tokens that wait; nothing waits after dispose |
| SessionConservation.SettledExactlyOnce | packages/host/src/statementStore/session/session.ts:583-599 | No promise is settled twice, only issued ones are settled, and after dispose every issued one has been |
| SessionConservation.ResolveBooks | packages/host/src/statementStore/session/session.ts:288-294 | An acknowledgement moves exactly the batch's tokens from pending to settled |
| SessionConservation.DrainBooks | packages/host/src/statementStore/session/session.ts:323-333 | Draining moves tokens from queue to batch without losing or duplicating any |
| SessionQueue.QueueInvariant | packages/host/src/statementStore/session/session.ts:305-333 | In every run: a batch never outgrows the size limit or a recovered batch, and while active a non-empty queue has a batch in flight that its head does not fit |
| SessionQueue.NoStarvation | packages/host/src/statementStore/session/session.ts:298-333 | A payload at queue position i has left the queue for a batch (or been settled) by the time i + 1 acknowledgements have been accepted, whatever else happened short of dispose |
| SessionQueue.DrainTakesPrefix | packages/host/src/statementStore/session/session.ts:323-333 | The drain loop takes a prefix off the queue, of at least one when nothing is in flight, and never re-queues |
| SessionExpiry.RequestsRise | packages/host/src/statementStore/session/session.ts:166-199 | In every run and for every clock, also one that jumps back: expiries on the request channel rise strictly above what initialization read back, and the newest request statement carries the batch in flight under its current id |
| SessionExpiry.RequestsExceedHistory | packages/host/src/statementStore/session/session.ts:369-376 | Every request expiry exceeds every expiry that the run's initialization read back |
| SessionExpiry.ReplacementConverges | packages/host/src/statementStore/session/session.ts:166-199 | Let the request statements of a run arrive in any order, any number of times, the newest among them: a slot that keeps the highest expiry ends up with the newest batch built |
| SessionDates.SubmissionsRise | packages/host/src/statementStore/session/session.ts:166-199 | In every run whose initialization, if any takes effect, reads back at least the expiry reached before: all submissions, on both channels and for every clock, have strictly rising expiries |
| SessionClock.AlwaysRiseIff | packages/host/src/statementStore/session/session.ts:369-376 | The header promises that every submission moves forward; the code overwrites the expiry at initialization. For any run up to an initialization that takes effect, and a restored batch, if any, within the size limit: the promise holds for everything that may follow, under every clock that goes on from what has been read, if and only if the expiry reached is at most what is read back; a clock that merely stands still breaks it otherwise |
| SessionClock.SubmissionsRiseIff | packages/host/src/statementStore/session/session.ts:369-376 | The same for any given continuation and without any limit: the promise holds for every such clock if and only if the expiry reached is at most what is read back, or the continuation submits nothing |
| SessionClock.ClockOnlyDates | packages/host/src/statementStore/session/session.ts:166-199 | Runs of the same events under two clocks differ in nothing but the dates of what they submit |
| SessionExpiry.ResponseExpiryCanFall | packages/host/src/statementStore/session/session.ts:376 | A concrete run in which an acknowledgement sent during initialization is followed, on the same channel, by one of lower expiry |
| SessionExpiry.InitializedOnce | packages/host/src/statementStore/session/session.ts:362-376 | At most one initialization of a run takes effect |
| SessionSoonest.SoonestFromInit | packages/host/src/statementStore/session/session.ts:166-171 | Every submission of every run, also after an initialization, bears the least expiry that is greater than the one before it (or than the newest read back) and at least the clock's reading in whole seconds plus the configured duration, in the upper 32 bits |
| SessionSoonest.SoonestFromStart | packages/host/src/statementStore/session/session.ts:166-171 | The same before initialization |
| SessionSoonest.NeverTheSameCiphertext | packages/host/src/statementStore/session/session.ts:177-199 | No two submissions of a run carry the same ciphertext |
| SessionEffects.SubmitRefusedIff | packages/host/src/statementStore/session/session.ts:466-484 | A payload is refused exactly if the session is disposed, it cannot be encoded or its bytes exceed the limit, with the respective error and nothing changed |
| SessionEffects.SubmitEffect | packages/host/src/statementStore/session/session.ts:305-321 | A payload that is taken is sent at once, under a fresh wire id, if nothing is in flight or the bytes in flight leave room for it, behind the payloads already there; otherwise it waits at the end of the queue; before initialization it always waits |
| SessionEffects.RespondEffect | packages/host/src/statementStore/session/session.ts:509-527 | Exactly the current, unanswered request is answered, on the response channel, with its id and the code given; anything else submits nothing, with the source's result |
| SessionEffects.RequestEffect | packages/host/src/statementStore/session/session.ts:273-278 | An accepted request is delivered to everyone, one message per payload with its index, exactly if it was not the last one and came on the incoming topic |
| SessionEffects.IgnoredEffect | packages/host/src/statementStore/session/session.ts:241-271 | Whatever is no data, seen, refused, not decipherable or no answer to the batch in flight changes at most the cache |
| SessionEffects.AckEffect | packages/host/src/statementStore/session/session.ts:279-298 | In every run the acknowledgement of the batch resolves all its promises in order with its code, tells every subscriber, and the next batch is the longest prefix of the queue that fits |
| SessionEffects.ListensIff | packages/host/src/statementStore/session/session.ts:339-356 | The session listens exactly from the first subscriber, accepted payload or initialization on until it is disposed |
| SessionEffects.SubscriberEffect | packages/host/src/statementStore/session/session.ts:558-571 | Attaching and detaching concern that subscriber alone |
| SessionEffects.CloseEffect | packages/host/src/statementStore/session/session.ts:583-599 | Disposal rejects every pending promise, in order, and clears everything that waits |
| SessionEffects.DisposedForGood | packages/host/src/statementStore/session/session.ts:583-599 | After disposal nothing is ever submitted, settled, delivered or handed over again |
| SessionRecovery.InitTakesUpRequest | packages/host/src/statementStore/session/session.ts:416-427 | With places in the peer's history: an initialization that takes effect delivers its first request to everyone, unless its first response answers that; then nothing is delivered and it counts as answered |
| SessionRecovery.RecoveredReachesEveryone | packages/host/src/statementStore/session/session.ts:416-427 | In every run after that: the request stays delivered, and until dispose each of its payloads is in the inbox of every subscriber, however late it attached |
| SessionRecovery.RecoveredIsAnswerable | packages/host/src/statementStore/session/session.ts:509-527 | And it can be answered: the response with the code given is submitted |
| SessionRecovery.InitTakesUpBatch | packages/host/src/statementStore/session/session.ts:401-414 | With places in the session's own history: its first request, unless its first response answers that, is in flight again with its payloads and without tokens, followed by as much of the queue as fits; while nothing is added it keeps its wire id |
| SessionRecovery.InitSeesHistory | packages/host/src/statementStore/session/session.ts:378-382 | Exactly what both histories contain counts as seen after initialization, besides what did before |
| SessionSubscribers.LateSubscribersLoseNothing | packages/host/src/statementStore/session/session.ts:221-235 | Until dispose every attached subscriber, however late it attached, has been handed exactly the messages of all requests delivered so far, in order; the replay buffer holds only requests |
| SessionRecovery.EveryPayloadHandedOver | packages/host/src/statementStore/session/messageMapper.ts:28-37 | In every run until dispose: every payload of every request delivered is in every inbox, under the request's id and the payload's index |
| SessionDedup.SessionDeduplicates | packages/host/src/statementStore/session/session.ts:255-271 | From any moment after initialization of any run, the session acts on exactly the statements an unbounded set of keys would take as new if and only if every repeat arrives within the window; the cache of the run never outgrows that window |
| SessionDedup.DecidesAsCapped | packages/host/src/statementStore/session/session.ts:255-271 | Statement by statement, an arriving statement changes the session at all exactly when the bounded cache takes its key as new, and the session's cache is that cache |
| SessionDedup.SeenDistinct | packages/host/src/statementStore/session/session.ts:378-382 | In every run, through initialization, the cache holds no key twice |
| Dedup.BoundedRefinesUnbounded | packages/host/src/statementStore/session/session.ts:255-271 | The insertion-ordered cache of 1024 keys (or as many as it was seeded with) accepts exactly what an unbounded set would accept if and only if every repeat arrives within that many insertions |
| Dedup.CacheBounded | packages/host/src/statementStore/session/session.ts:378-382 | The cache has no duplicates and never exceeds the larger of 1024 and its seed |
| Session.Session.SubmitStatementData | packages/host/src/statementStore/session/session.ts:166-199 | The object's submission computes the specified new state: a strictly greater expiry, one statement more |
| Session.Session.ProcessNew | packages/host/src/statementStore/session/session.ts:305-321 | Joins the batch under a regenerated wire id, opens one, or queues: exactly the specified state |
| Session.Session.DrainQueue | packages/host/src/statementStore/session/session.ts:323-333 | The loop equals the specified drain |
| Session.Session.SubmitRequestMessage | packages/host/src/statementStore/session/session.ts:466-507 | State and result of submitting, with the disposed, encoding and size errors in the source's order |
| Session.Session.SubmitResponseMessage | packages/host/src/statementStore/session/session.ts:509-527 | State and result of acknowledging: at most one response per incoming request, an error for any other id |
| Session.Session.RouteStatementData | packages/host/src/statementStore/session/session.ts:273-299 | Requests are delivered once per id, responses settle the batch only under its current id |
| Session.Session.ProcessIncomingStatement | packages/host/src/statementStore/session/session.ts:241-271 | Deduplicate, verify, decrypt and decode, then route |
| Session.Session.CompleteInit | packages/host/src/statementStore/session/session.ts:362-438 | Recovery of expiry, cache, unacknowledged batch and unanswered request, then the drain |
| Session.Session.AddSubscriber | packages/host/src/statementStore/session/session.ts:558-571 | A new subscriber is replayed the buffer |
| Session.Session.DisposeSession | packages/host/src/statementStore/session/session.ts:583-599 | Everything pending is rejected once, everything waiting is dropped |
| StatementCodec.ParserInvertsPrinter | packages/host/src/statementStore/codec.ts:132-253 | For every well-formed statement, any following bytes and any buffer behind them, decoding the encoding gives the statement back and stops where the encoding ends |
| StatementCodec.AcceptedIsCanonical | packages/host/src/statementStore/codec.ts:160-253 | An accepted input starts with the encoding of its (well-formed) result if and only if it was read in bounds with minimal compacts, and then the bytes read are that encoding |
| StatementCodec.AcceptedIsOrdered | packages/host/src/statementStore/codec.ts:160-253 | Whatever count an accepted input declares, it has at most 9 fields, strictly ascending, with contiguous topics, at most 4 |
| StatementTruncation.TruncationAcceptedIff | packages/host/src/statementStore/codec.ts:160-253 | Which inputs that end early are accepted: for every well-formed statement, a proper prefix of its encoding decodes if and only if it is empty or cut inside the last field, where an expiry, an on-chain proof, and a proof without its type byte are refused |
| StatementTruncation.CutField | packages/host/src/statementStore/codec.ts:177-250 | A field cut after c of its bytes is accepted if and only if it survives the cut, and then, unless it is the data field, the cursor ends past the input, so that nothing after it can be read |
| StatementCodec.TruncatedInputAccepted | packages/host/src/statementStore/codec.ts:64-73 | Two instances: the empty input decodes, and a channel comes out one byte long |
| StatementTruncation.BufferMattersIff | packages/host/src/statementStore/codec.ts:83-85 | For every input, decoding is the same whatever a larger buffer holds behind it if and only if, without anything behind it, no number in it runs out of range |
| StatementTruncation.InputAloneIff | packages/host/src/statementStore/codec.ts:83-85 | Decoding depends on the input alone, for every input, if and only if nothing stands behind the input in its buffer |
| StatementCodec.ExpiryBehindTheView | packages/host/src/statementStore/codec.ts:83-85 | An instance: an input that ends before its expiry takes the expiry from the buffer behind it, whatever stands there |
| StatementCodec.AssembleFieldsOf | packages/host/src/statementStore/codec.ts:10-26 | Statements of at most four topics and ordered field lists are the same thing |
| StatementCodec.ProofRoundTrip | packages/host/src/statementStore/codec.ts:103-130 | Each of the four proof shapes reads back as it was written |
| StatementCodec.PrintStatement | packages/host/src/statementStore/codec.ts:132-156 | The pushing loop, with its errors in order, computes the specified encoding |
| StatementLayout.WireLayout | packages/host/src/statementStore/codec.ts:10-48 | The bytes of every well-formed statement written out with literals: the number of fields, then indices 0, 1, 2, 3, 4 to 7 and 8, proof types 0 to 3 with their parts in order, numbers as eight little-endian base-256 digits, lengths in compact form with their mode bits |
| StatementLayout.LayoutIsDecoded | packages/host/src/statementStore/codec.ts:160-253 | Any input that starts with such a layout is decoded to the statement laid out |
| StatementLayout.PrintedIff | packages/host/src/statementStore/codec.ts:132-156 | Which statements are printed at all, and which error comes first otherwise |
| StatementLayout.RefusedWithReason | packages/host/src/statementStore/codec.ts:177-250 | After any fields read in order, the next bytes decide why an input that announces more is refused: missing, out of order, unknown, a topic out of turn, an unknown proof type, or a big-integer length |
| StatementCodec.ScanStatement | packages/host/src/statementStore/codec.ts:160-253 | The cursor loop with its running maximum and topic count computes the specified decoding, errors included, also for a view into a larger buffer, from which a u64 is read |
| StatementCodec.Concat | packages/host/src/statementStore/codec.ts:89-99 | The two-pass buffer fill is concatenation |
| Compact.CompactRoundTrip | packages/host/src/statementStore/codec.ts:49-73 | Every value below 2^30 reads back with its length, also where the shift wraps to a negative 32-bit number; shifts and bitwise or are 32-bit patterns throughout |
| Compact.CompactCanonical | packages/host/src/statementStore/codec.ts:49-73 | A minimal compact read in bounds re-encodes to its own bytes |
| Compact.DecodeIsUnsigned | packages/host/src/statementStore/codec.ts:64-73 | Despite signed 32-bit intermediate results, decoding is plain unsigned arithmetic |
| Compact.U64RoundTrip | packages/host/src/statementStore/codec.ts:77-85 | A u64 reads back modulo 2^64, and every eight bytes are the encoding of what they read as |
| Hex.HexRoundTrip | packages/api-protocol/src/shared/codec/scale/primitives.ts:63-79 | Hex text determines its bytes and never contains the key separator |
| Hex.CanonicalHexRoundTrip | packages/api-protocol/src/shared/codec/scale/primitives.ts:63-79 | Text survives reading and writing back if and only if it is prefixed, of even length and in lower-case digits |
| Hex.HexDigits | packages/api-protocol/src/shared/codec/scale/primitives.ts:63-69 | Character by character: the prefix, then for each byte its high and its low digit in lower case, by character code |
| Hex.ReadsEitherCase | packages/api-protocol/src/shared/codec/scale/primitives.ts:71-79 | Reading takes digits of either case |
| Hex.ReadsOddPairs | packages/api-protocol/src/shared/codec/scale/primitives.ts:71-79 | What becomes of pairs that are no two digits |
| Hex.WriteHex | packages/api-protocol/src/shared/codec/scale/primitives.ts:63-69 | The building loop computes the specified text |
| Hex.ReadHex | packages/api-protocol/src/shared/codec/scale/primitives.ts:71-79 | The reading loop computes the specified bytes, for any text at all |
| TopicKey.KeyIffPermutation | packages/host/src/statementStore/client.ts:83-86 | Two topic lists get the same key if and only if one is a reordering of the other |
| TopicKey.SameKeySameFilter | packages/host/src/testing/memoryStatementStore.ts:25-37 | Callers that share a key agree on every statement, under the simple filter semantics |
| TopicKey.MatchAllIff | packages/host/src/testing/memoryStatementStore.ts:33-37 | The filter matches exactly if each of its topics stands somewhere among the statement's |
| StatementClient.SharedLikePrivate | packages/host/src/statementStore/client.ts:163-222 | In every run each attached listener is called for a published statement exactly as often as an upstream of its own would call it |
| StatementClient.UpstreamsFollowListeners | packages/host/src/statementStore/client.ts:200-222 | There is an open upstream for a key, and only one, if and only if the key has a listener; each is torn down at most once |
| StatementClient.StatementStoreClient.Subscribe | packages/host/src/statementStore/client.ts:201-211 | First subscriber opens, later ones share: exactly the specified state |
| StatementClient.StatementStoreClient.Unsubscribe | packages/host/src/statementStore/client.ts:213-221 | Last one out tears down; repeated or stale calls change nothing |
| StatementClient.StatementStoreClient.OnEvent | packages/host/src/statementStore/client.ts:179-190 | Every listener is called once, in order, with what decodes, unless that is nothing |
| StatementClient.DecodeAll | packages/host/src/statementStore/client.ts:92-103 | Malformed statements are skipped and the others kept in order |
| StatementClient.TextsComeBack | packages/host/src/statementStore/client.ts:92-103 | All statements printed as hex text come out again, in order |
| StatementClient.MalformedIsSkipped | packages/host/src/statementStore/client.ts:92-103 | A text that does not decode is as good as absent, wherever it stands |
| RateLimiter.RateBound | packages/host/src/chain/rateLimiter.ts:56-170 | For both strategies under a non-decreasing clock: any half-open window of k intervals contains at most (k + 1) times the bucket size of executions, over every run |
| RateLimiter.QueueingInvariant | packages/host/src/chain/rateLimiter.ts:66-135 | In every run: the queue is bounded, a waiting task has an armed timer, tasks run in acceptance order, and each scheduled task is in exactly one of run, waiting, rejected |
| RateLimiter.NoStarvation | packages/host/src/chain/rateLimiter.ts:66-124 | A task at queue position i has run once enough refills (their number times the bucket size at least i + 1) were each followed by a timer firing, unless destroyed |
| RateLimiter.CallEffect | packages/host/src/chain/rateLimiter.ts:96-124 | A call runs at once exactly if it finds a token and no one waiting; otherwise it waits, with the timer armed, exactly if there is room, and else it is rejected |
| RateLimiter.FiringEffect | packages/host/src/chain/rateLimiter.ts:66-89 | A firing runs as many waiting tasks as it finds tokens, in order, and re-arms exactly if some are left |
| RateLimiter.DestroyEffect | packages/host/src/chain/rateLimiter.ts:126-135 | Destroying rejects every waiting task in order and disarms the timer |
| RateLimiter.DropCallEffect | packages/host/src/chain/rateLimiter.ts:146-170 | The dropping strategy runs a task exactly if it finds a token |
| RateLimiter.FirstCallsRun | packages/host/src/chain/rateLimiter.ts:49-54 | With either strategy a fresh limiter runs a bucketful of calls at once |
| RateLimiter.QueueLimiter.ScheduleTask | packages/host/src/chain/rateLimiter.ts:96-124 | Run at once, refuse, or queue and arm the timer: exactly the specified state |
| RateLimiter.QueueLimiter.ProcessQueue | packages/host/src/chain/rateLimiter.ts:66-89 | The drain loop equals the specified drain and re-arms the timer only if tasks are left |
| RateLimiter.QueueLimiter.DestroyQueue | packages/host/src/chain/rateLimiter.ts:126-135 | Every waiting task is rejected in order and the timer is disarmed |
| RateLimiter.DropLimiter.ScheduleTask | packages/host/src/chain/rateLimiter.ts:146-170 | Run or reject, with the dropping strategy's own refill test |
| TransportPair.LiveIsWanted | packages/api-protocol/src/shared/transport/transport.ts:374-539 | In every interleaving over FIFO channels: a subscription live at the producer is active at the consumer, or a stop for it is in the channel |
| TransportPair.WantedIsServed | packages/api-protocol/src/shared/transport/transport.ts:374-539 | An active, un-interrupted subscription has its start in the channel, is live at the producer, or has an interrupt in the channel; also when no handler was registered in time |
| TransportPair.QuietAgreement | packages/api-protocol/src/shared/transport/transport.ts:374-539 | With both channels empty, a subscription is live at the producer if and only if it is active and un-interrupted at the consumer |
| TransportPair.HandlersSend | packages/api-protocol/src/shared/transport/transport.ts:497-500 | In every run the values posted under an id are exactly those that handlers invoked under it have sent, during their invocation or since, in order; and the handler is invoked exactly for the starts read while it is registered |
| TransportPair.ValuesConserved | packages/api-protocol/src/shared/transport/transport.ts:428-437 | From send to callback: what a running subscription has received, followed by what is in the channel for it, is all that handlers have sent under its id; every multiplexed callback got exactly what was received since it joined |
| TransportPair.HandlerGetsKey | packages/api-protocol/src/shared/transport/transport.ts:495-519 | The handler serving a subscription was invoked with the method and payload the subscription asked for |
| TransportPair.NothingInvented | packages/api-protocol/src/shared/transport/transport.ts:428-450 | Also an interrupted subscription received only an initial part of what was sent |
| TransportPair.PairInvariant | packages/api-protocol/src/shared/transport/transport.ts:374-539 | The invariant of both ends and the channels, kept by every move |
| TransportProducer.CleanupExactlyOnce | packages/api-protocol/src/shared/transport/transport.ts:488-538 | For every started subscription, under every interleaving of stop, synchronous or later or repeated interrupt and handler removal, and even with reused ids: cleanup has run exactly once if something ended it, and not otherwise |
| TransportProducer.InterruptsPostedOnce | packages/api-protocol/src/shared/transport/transport.ts:506-515 | Exactly as many interrupts are posted for an id as invocations under it have called `interrupt`, however often, and starts for it have found no handler |
| TransportProducer.InterruptedIffCalled | packages/api-protocol/src/shared/transport/transport.ts:493-515 | An invocation counts as interrupted exactly if it has called its `interrupt`, before it returned or since |
| TransportProducer.SubscriptionHandler.OnStartMessage | packages/api-protocol/src/shared/transport/transport.ts:490-526 | A start message runs the handler, whose calls may interrupt at once; unhandled starts are answered with an interrupt (transport.ts:611-626) |
| TransportProducer.SubscriptionHandler.CallInterrupt | packages/api-protocol/src/shared/transport/transport.ts:506-515 | Idempotent per invocation; cleans up what is stored under its id and posts once |
| TransportProducer.SubscriptionHandler.OnStopMessage | packages/api-protocol/src/shared/transport/transport.ts:528-531 | A stop cleans up what is live under its id |
| TransportProducer.SubscriptionHandler.Remove | packages/api-protocol/src/shared/transport/transport.ts:533-538 | Removal cleans up everything live, in order of insertion |
| TransportConsumer.SubscriptionTable.AddListener | packages/api-protocol/src/shared/transport/transport.ts:374-468 | Callers with equal keys get the same subscription id and share one start message |
| TransportConsumer.SubscriptionTable.RemoveListener | packages/api-protocol/src/shared/transport/transport.ts:389-400 | The last listener's removal posts one stop, also for an interrupted entry |
| TransportConsumer.SubscriptionTable.Dispatch | packages/api-protocol/src/shared/transport/transport.ts:428-450 | A message reaches every listener of the subscription with its id, and nobody after an interrupt |
| TransportConsumer.UnsubscribeShared | packages/api-protocol/src/shared/transport/transport.ts:389-400 | Unsubscribing keeps ids unshared, start before stop, one of each, and an id active until its stop is posted |
| Negotiation.SelectFormat | packages/api-protocol/src/shared/codec/negotiation.ts:145-152 | The preference loop finds a common format if there is one, structured clone first |
| Negotiation.ProductFollowsHostIff | packages/api-protocol/src/shared/codec/negotiation.ts:74-172 | For all host adapters and all sets of offers: in every interleaving of requests with such offers, timed-out ones included, the product sends structured clone only if the host does, if and only if no offer upgrades while another has SCALE as the only common format |
| Negotiation.AgreeWhenReadIff | packages/api-protocol/src/shared/codec/negotiation.ts:74-172 | Whenever the product has read all the host posted both send the same format, in every run with such offers, if and only if no offer upgrades while another contains SCALE without a common structured clone |
| Negotiation.UpgradesIff | packages/api-protocol/src/shared/codec/negotiation.ts:138-165 | Some run with such offers brings the host to structured clone if and only if some offer has it in common with the host |
| Negotiation.BothStayIff | packages/api-protocol/src/shared/transport/transport.ts:238-255 | Once the product has read any message posted from the host's swap on, both sides stay on structured clone, in every run with such offers, if and only if no offer upgrades while another contains SCALE without a common structured clone |
| Negotiation.HostNeverRevertsIff | packages/api-protocol/src/shared/codec/negotiation.ts:145-171 | The host never reverts, in every run with such offers, if and only if no offer upgrades while another has SCALE as the only common format |
| Negotiation.RequestRead | packages/api-protocol/src/shared/codec/negotiation.ts:162-171 | The failing run, for any two such offers, both under way in SCALE before the first is answered, and whether or not other listeners decode after the upgrade handler: the second answer sends the host back if and only if SCALE is the only common format, while the product is upgraded |
| Negotiation.FallbackFollowed | packages/api-protocol/src/shared/codec/negotiation.ts:91-97 | The failing run on the product's side: it follows the fallback to SCALE, although the host still sends structured clone unless it was sent back too |
| Negotiation.CodecEndpoint.HandleMessage | packages/api-protocol/src/shared/transport/transport.ts:551-573 | Every listener decodes every message: before the upgrade handler, and again after its answer by the listeners registered later; without a handler the not-supported marker goes out only where it can be encoded |
| Negotiation.CodecEndpoint.AnswerUpgrade | packages/api-protocol/src/shared/codec/negotiation.ts:131-171 | Select, swap, and only then answer, in the new format; malformed requests and empty intersections fall back without a swap |
| ChainRuns.ReferencesBalance | packages/api-protocol/src/host-facade/protocolHandler.ts:552-588 | In every run before disposal a chain's reference count is the number of its live follows plus its unfinished chain-spec and transaction operations, and the chain is connected if and only if that is positive |
| ChainRuns.ClosedAtMostOnce | packages/api-protocol/src/host-facade/connectionManager.ts:257-275 | Every opened connection is closed at most once, is open exactly while it is its chain's connection, and is closed after disposal, also with requests outstanding |
| ChainRuns.UnfollowedExactlyOnce | packages/api-protocol/src/host-facade/connectionManager.ts:180-230 | With node ids unique per connection, exactly one unfollow is sent for a follow that was answered and stopped, in either order, and none before |
| ChainRuns.NeverUnfollowed | packages/api-protocol/src/host-facade/connectionManager.ts:227-230 | An id that answered no follow is never unfollowed |
| ChainRuns.EventsReachTheirFollow | packages/api-protocol/src/host-facade/connectionManager.ts:97-111 | An event for a node id is delivered to the one follow whose own request was answered with that id on that connection, and to nobody once that follow has been stopped |
| ChainRuns.StrayEventsAreDropped | packages/api-protocol/src/host-facade/connectionManager.ts:97-111 | An event for an id that answered no follow of the connection changes nothing |
| ChainRuns.ResolvesWhileFollowing | packages/api-protocol/src/host-facade/connectionManager.ts:240-248 | A subscription id resolves to f if and only if its own follow was answered f on the chain's connection and has not been stopped |
| ChainRuns.OwnIdsOnly | packages/api-protocol/src/host-facade/protocolHandler.ts:637-716 | Every chain-head operation ever sent, and every event ever delivered, for a subscription carries that follow's own node id, on its own connection |
| ChainEffects.HeadCallIsSent | packages/api-protocol/src/host-facade/protocolHandler.ts:637-716 | In every run: a chain-head operation for a follow that was answered and not stopped is sent, once, on its connection under its node id, and exactly one request more waits for an answer, under a fresh id |
| ChainEffects.HeadCallIsNotSent | packages/api-protocol/src/host-facade/protocolHandler.ts:637-716 | Without such a follow, after disposal, or when sending fails, nothing is sent and nothing waits |
| ChainEffects.OperationIsSent | packages/api-protocol/src/host-facade/protocolHandler.ts:720-789 | A chain-spec or transaction operation on a supported or connected chain is sent once on its connection, opened if need be, and waits |
| ChainEffects.FollowIsSent | packages/api-protocol/src/host-facade/connectionManager.ts:180-213 | So is a follow, which is then live, unanswered and not stopped |
| ChainEffects.FailureEffect | packages/api-protocol/src/host-facade/connectionManager.ts:207-213 | When sending fails the follow is over and the operation settled at once, with nothing sent and the chains as they should be |
| ChainEffects.UnsupportedIsRefused | packages/api-protocol/src/host-facade/connectionManager.ts:60-68 | A chain neither connected nor supported changes nothing, nor does any request after disposal |
| ChainEffects.AnswerEffect | packages/api-protocol/src/host-facade/connectionManager.ts:191-200 | An answered follow owns the node's id from then on; it follows unless it was stopped before, in which case it is unfollowed at once |
| ChainEffects.RejectionEffect | packages/api-protocol/src/host-facade/connectionManager.ts:201-206 | A rejected follow is torn down, and nothing is sent for it |
| ChainEffects.StopEffect | packages/api-protocol/src/host-facade/connectionManager.ts:215-224 | Stopping ends a live follow for good, with an unfollow exactly if it was answered, and leaves everything else alone |
| ChainEffects.OperationAnswered | packages/api-protocol/src/host-facade/connectionManager.ts:83-95 | An answered operation is settled and then finishes, once |
| ChainEffects.DisposalEffect | packages/api-protocol/src/host-facade/protocolHandler.ts:791-799 | Disposal ends every follow and closes every connection |
| ChainManager.ChainConnectionManager.GetOrCreateChain | packages/api-protocol/src/host-facade/connectionManager.ts:60-115 | Reuse counts one more, an unsupported chain changes nothing |
| ChainManager.ChainConnectionManager.ReleaseChain | packages/api-protocol/src/host-facade/connectionManager.ts:257-267 | The last release unfollows, disconnects and forgets the chain |
| ChainManager.ChainConnectionManager.OnFollow | packages/api-protocol/src/host-facade/protocolHandler.ts:552-588 | Starting a follow, also when sending fails at once: the reference is released and nothing stays pending |
| ChainManager.ChainConnectionManager.Stop | packages/api-protocol/src/host-facade/connectionManager.ts:215-224 | Idempotent; unfollows at once if answered, else leaves it to the answer |
| ChainManager.ChainConnectionManager.OnAnswer | packages/api-protocol/src/host-facade/connectionManager.ts:191-206 | A late answer to a stopped follow is unfollowed, a rejection tears the subscription down, other requests settle |
| ChainManager.ChainConnectionManager.OnEvent | packages/api-protocol/src/host-facade/connectionManager.ts:97-111 | The linear scan delivers to the first entry with the node's id |
| ChainManager.ChainConnectionManager.OnHeadOperation | packages/api-protocol/src/host-facade/protocolHandler.ts:637-716 | No follow, no request; otherwise the request carries the node's id |
| ChainManager.ChainConnectionManager.Close | packages/api-protocol/src/host-facade/protocolHandler.ts:791-799 | All cleanups, oldest first, then every connection left |

## Left out

- Cryptography, key derivation and proof generation: library calls; a sealed payload and a signer stand for them.
- The `scale-ts` codecs of the session envelope and of transport messages: messages are datatypes.
- Decoding request payloads through a subscriber's codec (`messageMapper.ts:20-26`): messages carry the payload; one message per payload with its index is modelled.
- String forms of ids (`${requestId}-${index}`, `ccm_…`): ids are pairs and numbers.
- The `waitFor…` and `request` wrappers of the session, and promise scheduling: a promise is its settlement.
- Store rejections and failed history queries: submissions are fire-and-forget in the source; a failed query is an empty one.
- A 64-bit limit on expiries inside the session: they are unbounded there; the codec's u64 is exact.
- ResolvedMeansDelivered: neither session of the pair restarts while the other lives on; earlier sessions of both accounts appear only as history.
- The two topics a session listens to: the store may deliver any statement on either, which covers the source's routing.
- SharedLikePrivate: counts calls for statements published while attached; the node's replay of history to a fresh upstream is not compared, because only the first caller's upstream is fresh.
- The statement client's submit mapping and `query` loop.
- Writes to a byte array while it is being decoded: the bytes, and the buffer behind them, are values.
- Several readings of the clock within one drain of the limiter, and the outcome of executed tasks: a step reads the clock once, tasks run to completion.
- RateBound: stated for a clock that never runs backwards and a positive interval; without them more can run in a window.
- Connection status, handshake, destroy, plain requests and several methods on one transport: the pair follows one subscription method.
- Removing the subscription handler while the pair runs: removal is covered for the producer alone.
- Deriving subscription keys with `JSON.stringify`: keys are abstract; equal keys share.
- CleanupExactlyOnce: a cleanup that calls `interrupt` while a stop is being handled would run again, because the entry is removed only afterwards; cleanups are assumed not to re-enter.
- `onInterrupt` notifications: only the caller that opened the wire subscription is ever notified; the model records the interruption itself.
- UnfollowedExactlyOnce: what the node makes of an unfollow, and follows that are gone because their connection was closed before the answer, are outside the model; such a follow counts as unanswered.
- Conversion of JSON-RPC events and results to typed values, and version unwrapping: pure mappings.
- The contents of operation results: a response settles its request, whatever it says.
