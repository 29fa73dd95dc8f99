# Avenor: a verified model of its coordination code

Avenor supervises agent runs. Its hard code coordinates: permission requests that owners,
clients, files and automatic rules race to answer; event streams that are replayed to late
subscribers; session waits that must settle one outcome; processes that contend for a control
socket; provider calls against a deferred close; session IDs that attempts claim and adopt;
loop runs with retries and nudges. This project models that code in Dafny and proves what its
comments and tests promise, over every input and every interleaving.

How the model is built:

- An object whose methods change fields under a lock is a `class`; each method is one critical
  section and is proved equal to a function on the object's abstract value.
- A protocol is a step machine whose steps are those critical sections, single channel
  operations, system calls and provider calls. A run is any sequence of enabled steps, so the
  theorems about runs hold for every interleaving.
- Histories (answers accepted, calls made, events evicted, listeners that made a file) are part
  of the state of a step machine and are never read by the code that is modelled.
- What lies outside (providers, files, clocks, the broker) is a parameter that answers anything.

| file | models |
|---|---|
| `PermissionClaims.dfy` | the control server's table of permission claims |
| `PermissionProtocol.dfy` | resolvers, clients and direct deliveries over that table, in every interleaving |
| `PermissionExclusion.dfy` | who holds a request: places of resolvers, states of claims, deliveries under way |
| `PermissionAnswers.dfy` | what becomes of every accepted answer |
| `PermissionLate.dfy` | what a late completion of a direct delivery does |
| `PermissionDelivery.dfy` | what each answer comes to, from the options offered and the answers before it; what resolvers record; when claims leave |
| `PermissionProgress.dfy` | that accepted answers can be given, and what a resolver that gives up leaves behind |
| `EventStream.dfy` | one subscriber: pending buffer, queue, lag notices |
| `EventRouting.dfy` | which events reach a subscriber: only its runtime's, and all of those |
| `EventAttach.dfy` | numbering, history, and attaching with replay, beside other runtimes |
| `SessionWait.dfy` | the wait loop of a session |
| `SessionRecord.dfy` | what that loop reports, read off the inputs alone |
| `SocketOwnership.dfy` | the control socket, its lock and its owner record, with crashes |
| `ProviderLifecycle.dfy` | live calls, shared cancels and the deferred close |
| `SessionIdentity.dfy` | session IDs: claim, adopt, finish |
| `LoopRunner.dfy` | loop runs |
| `EventLog.dfy` | stamping and cursor paging of the durable log |
| `Digest.dfy` | the chunk accumulator and the sliding window |
| `RunRegistry.dfy` | the two-index run registry |
| `MessageId.dfy` | message IDs |
| `StopReasons.dfy`, `Common.dfy` | stop reasons with their exit codes; small shared types |

## Model

| member | source | states |
|---|---|---|
| `PermissionClaims.ControlServer.PreparePermissionClaim` | internal/control/server.go:647-744 | a claim is prepared exactly when its key is free or resolved; with no client connected it starts out with its disconnect signalled |
| `PermissionClaims.ControlServer.SetPermissionResolverState` | internal/control/server.go:746-760 | a late stamp never disturbs a claim that is resolved or being delivered |
| `PermissionClaims.ControlServer.MarkPermissionClaimResolved` | internal/control/server.go:764-801 | the claim becomes resolved with exactly this resolution, its channels are closed once and waiting requests are released |
| `PermissionClaims.ControlServer.ResolvedPermissionMatches` | internal/control/server.go:805-821 | whether a resolution is recorded and whether a non-empty option and its message repeat it |
| `PermissionClaims.ControlServer.RetryDirectPermissionDelivery` | internal/control/server.go:826-840 | only a delivery in flight is put back for another try |
| `PermissionClaims.ControlServer.HandoffPermissionClaim` | internal/control/server.go:842-864 | control ownership ends; an answer that was queued is handed over instead of the ownership |
| `PermissionClaims.ControlServer.BeginPermissionClaim` | internal/control/server.go:892-913 | control ownership begins, for a reserved claim or one made on the spot, with the disconnect signalled if no client is left |
| `PermissionClaims.ControlServer.EndPermissionClaim` | internal/control/server.go:915-921 | the claim leaves the table and an abandoned delivery releases its waiters as abandoned |
| `PermissionClaims.ControlServer.ClearPermissionClaims` | internal/control/server.go:866-875 | exactly the claims of the scope leave the table, in whatever order they are visited |
| `PermissionClaims.ControlServer.SignalClientDisconnect` | internal/control/server.go:939-984 | every claim that waits for a client is signalled once, if no client is connected |
| `PermissionClaims.ControlServer.HasPendingPermission` | internal/control/server.go:988-998 | whether some claim is Reserved or Control, whatever the order in which claims are visited |
| `PermissionClaims.ControlServer.DeliverPendingPermission` | internal/control/server.go:1030-1068 | how an answer is received: delivered, to be delivered directly, repeated, conflicting, refused or unknown, and the new claim |
| `PermissionProtocol.SoundStep` | internal/control/server.go:647-1068 | every step of every party keeps the claims sound: no channel fault, at most one queued answer, no stranded request |
| `PermissionProtocol.StepEvolves` | internal/control/server.go:674-1068 | whatever step is taken, claims only age: a resolved claim stays resolved and control is never regained |
| `PermissionProtocol.RunSound` | internal/cli/cli.go:2131-2292 | soundness in every state of every run |
| `PermissionProtocol.AtMostOneAccepted` | internal/control/server.go:1030-1068 | in every run, no claim instance has two answers accepted as Delivered |
| `PermissionProtocol.ChannelsNeverFault` | internal/control/server.go:764-949 | in every run, no answer, disconnect or completion channel of a claim is closed twice or sent on after its close, and no open completion channel is replaced |
| `PermissionProtocol.NoRequestWaitsForGoneClient` | internal/control/server.go:2227-2245 | with no connection and no disconnect left to follow up, every reserved or controlled claim has its disconnect channel closed |
| `PermissionProtocol.HandoffClosesControl` | internal/control/server.go:842-864 | once a handoff found no answer, no later answer is accepted for that claim, in any continuation |
| `PermissionProtocol.ReplacedOnlyWhenResolved` | internal/control/server.go:713-741 | in every run, a key's claim is replaced only once it is resolved |
| `PermissionProtocol.ResolutionSurvives` | internal/control/server.go:746-837 | a recorded resolution survives every stamp, handoff, retry, disconnect and removal of a run |
| `PermissionProtocol.RepeatsAnsweredSame` | internal/control/server.go:805-811 | in every run, from a claim's resolution until a mark or its removal, an answer is told AlreadyResolvedSame exactly if it repeats the recorded non-empty option and message, and changes nothing |
| `PermissionProtocol.RepeatsOfResolution` | internal/control/server.go:1030-1042 | the same for one answer to a resolved claim |
| `PermissionExclusion.PlacedStep` | internal/cli/cli.go:2131-2292 | every step of every party, removals from outside included, keeps each resolver in a place that fits its claim's state and each delivery with its claim |
| `PermissionExclusion.RunPlaced` | internal/cli/cli.go:2131-2292 | the same in every state of every run |
| `PermissionExclusion.OneHolder` | internal/cli/cli.go:2131-2292 | in every run the automatic, control or file resolver and a direct delivery of a claim exclude each other, and two deliveries do unless a late failure put the claim back |
| `PermissionExclusion.StruckOnlyWhenLate` | internal/control/server.go:764-837 | a claim was overtaken or put back exactly if some step of the run completed a delivery that found it under its key, delivered for another claim, and succeeded, or failed while it was under delivery |
| `PermissionExclusion.ReplacedOnlyWhenDelivered` | internal/control/server.go:674-741 | in every run a claim is replaced only when no delivery of it is under way, unless a late completion struck it |
| `PermissionExclusion.WaiterFindsDeliveryOver` | internal/control/server.go:674-711 | a request that waited for a delivery and gets a claim finds no delivery of the claim it waited for under way, unless a late completion struck that claim |
| `PermissionExclusion.ResolvedIsFinal` | internal/control/server.go:764-801 | in every run nobody records a second resolution on a resolved claim, unless a late completion struck it |
| `PermissionAnswers.AccountedStep` | internal/cli/cli.go:2131-2292 | every step of every party keeps every accepted answer accounted for |
| `PermissionAnswers.AcceptedAnswerInHand` | internal/cli/cli.go:2200-2253 | in every run an accepted answer waits where its resolver will look, is in the resolver's hands or was given to the provider, unless it decides nothing, its claim was removed from outside or a mark discarded it |
| `PermissionAnswers.AcceptedAnswerReachesProvider` | internal/cli/cli.go:2200-2253 | in every run, once the resolver is gone, a deciding answer of a claim not removed from outside was given to the provider unchanged, if and only if no mark discarded it |
| `PermissionAnswers.DiscardedOnlyWhenLate` | internal/control/server.go:764-801 | a mark discards an answer exactly when it is that of a delivery which finds another claim than its own, with an answer waiting |
| `PermissionAnswers.DiscardedIsLost` | internal/control/server.go:764-801 | no continuation of any run gives a discarded answer to the provider |
| `PermissionLate.LateFailureAdmitsSecond` | internal/control/server.go:826-840 | from every state in which a late failure finds a claim under delivery, the next acceptable answer makes a second holder of that claim |
| `PermissionLate.LateSuccessReplacesUnderDelivery` | internal/control/server.go:764-801 | from every such state, a late success lets the claim be replaced while its delivery is under way |
| `PermissionLate.TwoHolders` | internal/control/server.go:823-840 | a run from the start in which two deliveries with different answers hold a claim that nobody removed |
| `PermissionLate.ReplacedUnderDelivery` | internal/control/server.go:713-741 | a run from the start in which a claim that nobody removed is replaced under its delivery |
| `PermissionLate.LateDirectLosesAnswer` | internal/control/server.go:764-801 | a run from the start that accepts a deciding answer which a late mark discards |
| `PermissionDelivery.AnswerOutcome` | internal/control/server.go:1030-1068 | in every run, what an answer to a pending claim comes to: invalid exactly if the request was made with options and none has this ID, or the last one that has it requires a message and there is none; otherwise delivered exactly if the claim is under control and no answer was accepted before, full if one was, left to its caller if nobody resolves it, and refused if another resolver owns it |
| `PermissionDelivery.OnlySuitableAnswers` | internal/control/server.go:1030-1068 | every accepted answer and every answer under direct delivery, for a request made with options, names one of them and has a message where it is required |
| `PermissionDelivery.RequestOwner` | internal/cli/cli.go:2118-2129 | a request that gets its claim leaves it to the automatic resolver, else to a connected client, else to the file handler, else to whoever answers |
| `PermissionDelivery.DeliveryEnds` | internal/control/server.go:764-840 | a direct delivery that ends with its claim still under its key resolves it with the answer it gave, or leaves it so that the next suitable answer is to be delivered directly |
| `PermissionDelivery.AutoGivesFirstAllowed` | internal/cli/cli.go:2101-2116 | every automatic call of the provider gives, for its own request and without a message, the first offered option that allows, or the empty one if none does |
| `PermissionDelivery.RecordsWhatItGave` | internal/cli/cli.go:2140-2292 | the resolution that a resolver records names the option, the message and the source of a call of the provider that it made |
| `PermissionDelivery.LeavesOnlyWhen` | internal/control/server.go:674-921 | a claim leaves the table only by a step for its key or its scope, of the kinds listed, and the removal of a key or a scope takes its claims away |
| `PermissionProgress.AcceptedAnswerCanBeGiven` | internal/cli/cli.go:2182-2253 | from every state of every run, a few moves of the claim's resolver alone give a deciding accepted answer to the provider as it is, unless its claim was removed from outside or the answer discarded |
| `PermissionProgress.GivesUpTo` | internal/cli/cli.go:2200-2292 | a resolver in control that no answer reached leaves its claim, after a timeout or the loss of the last client, to the file handler if there is one and otherwise to whoever answers; after a cancellation claim and resolver are gone |
| `EventStream.Subscriber.RecordSeqLocked` | internal/control/server.go:2305-2316 | an event passes exactly when its number is new for its runtime |
| `EventStream.Subscriber.EnqueueLocked` | internal/control/server.go:2323-2335 | the event joins the queue, at the price of the oldest one when it is full, which is counted |
| `EventStream.Subscriber.HoldLocked` | internal/control/server.go:2337-2358 | before the subscriber is ready an event joins the pending buffer under the same rule |
| `EventStream.Subscriber.Enqueue` | internal/control/server.go:2337-2358 | an offered event is ignored, held or sent as the subscriber's state requires |
| `EventStream.SoundStep` | internal/control/server.go:2305-2428 | every step of publishers, replay, flush and writer keeps items in line and the lag accounted for |
| `EventStream.RunSound` | internal/control/server.go:2265-2428 | the same in every run |
| `EventStream.OutputAscends` | internal/control/server.go:2305-2316 | the numbers written for a runtime strictly increase |
| `EventStream.EvictionsReported` | internal/control/server.go:2412-2428 | evicted events are exactly the lag reported and the count not yet reported |
| `EventStream.LagBeforeEvent` | internal/control/server.go:2412-2428 | before each written event the lag notices add up to at least the evicted events older than it |
| `EventStream.SendNeverBlocks` | internal/control/server.go:2323-2335 | a sender that holds the lock always finds room for its last send |
| `EventStream.StopKeepsOrder` | internal/control/server.go:550-577 | even while `Stop` flushes beside a replay, numbers written for a runtime strictly increase, evictions are the lag reported and the count not yet reported, and the last send finds room |
| `EventRouting.OnlyItsRuntime` | internal/control/server.go:2298-2342 | in every run, every event that a subscriber of a runtime wrote, took, queued, holds or evicted belongs to that runtime |
| `EventRouting.StopKeepsRuntime` | internal/control/server.go:550-577 | the same while `Stop` flushes beside a replay |
| `EventRouting.OfferAccepts` | internal/control/server.go:2337-2358 | an open subscriber that asked for no runtime, or for the event's, lets an offered event through or holds it, if it is new or the subscriber is not ready yet |
| `EventRouting.NothingLost` | internal/control/server.go:2298-2396 | in every run, such an event is at every later moment written, taken, queued, on its way or evicted while the subscriber is open, unless an event of its runtime with as high a number was let through or the cursor was there |
| `EventRouting.SmallStreamsEvictNothing` | internal/control/server.go:2323-2356 | a subscriber that was given no more events than a buffer holds evicts none |
| `EventRouting.LeftAloneDelivers` | internal/control/server.go:2360-2428 | at any moment of any run an open subscriber that is left alone queues its replay and what waits, becomes ready and writes all of it; what it held is then written, evicted or not new any more |
| `EventAttach.RuntimeEventState.CanonicalizeEvent` | internal/control/event_stream.go:88-104 | an event without a number gets the next one; a number of its own can only raise the counter |
| `EventAttach.RuntimeEventState.Append` | internal/control/event_stream.go:113-166 | the history is the last events of the runtime, as many as it retains |
| `EventAttach.RuntimeEventState.HistorySince` | internal/control/event_stream.go:219-240 | the last `limit` retained events above the cursor |
| `EventAttach.SoundStep` | internal/control/server.go:1347-1369 | publishing, registering, replaying and flushing, in any order, keep the subscription on course |
| `EventAttach.RunSound` | internal/control/server.go:2337-2410 | the same in every run |
| `EventAttach.ExactlyOnce` | internal/control/server.go:2337-2410 | without overflow and whatever other runtimes publish, what is written and what waits is, of the subscribed runtime, the last `limit` retained events above the cursor and every later event, each once and in order |
| `EventAttach.DrainedMeansDelivered` | internal/control/server.go:2398-2428 | when nothing waits any more, all of it was written |
| `EventAttach.OnlyItsEvents` | internal/control/server.go:2298-2342 | the client gets only what was published for its runtime above its cursor |
| `EventAttach.AllItsEvents` | internal/control/server.go:2337-2410 | all of what was published for it above its cursor since it attached was written or is on its way |
| `SessionWait.WaitForSession` | internal/cli/cli.go:1317-1853 | the select loop with its deferred stop comes to `Run`, whatever it receives |
| `SessionWait.HandleOk` | internal/cli/cli.go:1578-1853 | every turn of the loop keeps waiting with nothing written or returns one settled outcome |
| `SessionWait.WriteTerminalOk` | internal/cli/cli.go:1447-1499 | settling a held terminal event writes one record; the result repeats its reason, code and output, and its wait unless that is the backend's own; a denial is never a clean end |
| `SessionWait.OneSessionEnd` | internal/cli/cli.go:1447-1519 | every run writes at most one session.end and its exit code, reason and output are those of the result |
| `SessionWait.WaitRepeated` | internal/cli/cli.go:1470-1475 | in every run the result repeats the record's wait, if and only if the backend gave none or its failure was reclassified with a hint; otherwise the record keeps the backend's wait and the result has none |
| `SessionWait.OwnWaitNotRepeated` | internal/cli/cli.go:1470-1475 | whatever else a run receives, the wait of a backend that names a reason with an exit code of its own is on the record and not in the result |
| `SessionWait.WaitLost` | internal/cli/cli.go:1470-1475 | a run that writes rate_limited with a wait of 12 and reports a wait of 0 |
| `SessionWait.CancelledOnceUnlessSettled` | internal/cli/cli.go:1381-1405 | the provider is cancelled exactly once, unless session.end and the prompt's return were both received and no resolver is left |
| `SessionWait.DenialIsNotCompletion` | internal/cli/cli.go:1406-1430 | a run that received an aborted tool call or a rejected approval never reports end_turn or exit code 0, unless the backend recovers from denials |
| `SessionWait.TerminalNotSuperseded` | internal/cli/cli.go:1500-1519 | after the last terminal event nothing supersedes it: the record written keeps its reason, or shows it beside a denial or a provider limit |
| `SessionWait.OrderIndependent` | internal/cli/cli.go:1447-1508 | session.end and the prompt's return give the same record and result in both orders, if and only if the record names a reason or the prompt failed |
| `SessionRecord.StoppedRun` | internal/cli/cli.go:1500-1853 | a run that waits, has received no session.end and then receives a stopping input returns at once with exactly one record and the same result: cancelled/130 for an interrupt or a cancelled context, prompt or permission, timeout/124 for a deadline, progress_timeout/124 for the progress timer; no wait, the text of all chunks, one cancel |
| `SessionRecord.RecordOfRun` | internal/cli/cli.go:1432-1519 | the record of every run is the one its inputs alone call for: that of the last session.end with denial, limit, wait and output decided, or the reason of the stopping input, or the limit named by the prompt's error |
| `SessionRecord.WaitsOn` | internal/cli/cli.go:1578-1853 | a waiting run waits on after an input if and only if that input settles nothing, given what was received before it |
| `SessionRecord.NeverWaitsForNothing` | internal/cli/cli.go:1578-1853 | a run that still waits after a stop reason and the prompt's return has a request for permission pending |
| `SessionRecord.OutcomeRecorded` | internal/cli/cli.go:1447-1519 | a run that returns with any exit code but 1 has written its record |
| `SessionRecord.EndIsRecorded` | internal/cli/cli.go:1447-1519 | once a session.end was received, whatever ends the run, but for a failure to handle another event, leaves exactly one record |
| `SocketOwnership.StepKeeps` | internal/control/server.go:285-548 | every system call of every process, and every crash, keeps what each thread relies on under the lock |
| `SocketOwnership.RecordNamesListener` | internal/control/owner.go:94-124 | whenever the path names the live listener of a started server, the record names its identity and capability if and only if the server's `Stop` has not removed the record |
| `SocketOwnership.RecordNamedUnlessRemovalFails` | internal/control/server.go:494-536 | with the lock free it does, unless `Stop` removed the record and failed to remove the socket |
| `SocketOwnership.UnlinksNoLiveSocket` | internal/control/server.go:351-422 | no process ever unlinks the socket of another's live listener, and removing a stale socket never unlinks a live one |
| `SocketOwnership.ServingUntouched` | internal/control/owner.go:222-245 | while a server serves, no step of another process changes its socket or its record, although identities are compared by reusable inode numbers |
| `SocketOwnership.FailedRemovalUnnames` | internal/control/server.go:333-349 | a run from the start in which a failed socket removal leaves a live listener without a record, with the lock free |
| `SocketOwnership.StartAlone` | internal/control/server.go:351-480 | a start that runs alone with every call succeeding: with no live listener behind the path, it ends with a new listener of its own that the path names and a record of that listener and its capability; otherwise with path, record and listeners unchanged |
| `SocketOwnership.StartFinishes` | internal/control/server.go:351-480 | from every state with the lock free such a start gets to its end |
| `SocketOwnership.StopAlone` | internal/control/server.go:494-536 | from every reachable state with the lock free, a stop that runs alone with every call succeeding closes exactly its listener, frees the path if it named it and removes the record if it named the server, as it did if the server served |
| `SocketOwnership.StopFinishes` | internal/control/server.go:494-536 | such a stop gets to its end |
| `SocketOwnership.NothingLeftOpen` | internal/control/server.go:397-480 | in every run, with any failures, crashes and races, an open listener is its server's own until its stop is done, or in the hands of its start, unless a second start succeeded on a server that had one |
| `SocketOwnership.RestartLeavesOpen` | internal/control/server.go:465-465 | such a second start leaves the first listener open and held by nothing |
| `SocketOwnership.StoppedPublishesNothing` | internal/control/server.go:425-434 | once a server is stopped, a start of it that has not got as far as publishing never writes a record |
| `SocketOwnership.FailedStartUndone` | internal/control/server.go:447-454 | a start of which only the publication fails leaves a free path, the listeners there were and no record of its own, even if the publication had written one |
| `ProviderLifecycle.Lifecycle.BeginCall` | internal/cli/provider_lifecycle.go:54-62 | a call is admitted exactly when the lifecycle is not closing |
| `ProviderLifecycle.Lifecycle.StartCloseIfDrained` | internal/cli/provider_lifecycle.go:78-84 | says, once, that the close is due |
| `ProviderLifecycle.Lifecycle.FinishCall` | internal/cli/provider_lifecycle.go:64-74 | the last call out of a closing lifecycle starts the close |
| `ProviderLifecycle.Lifecycle.RequestClose` | internal/cli/provider_lifecycle.go:96-108 | closing is for good; the close starts at once when nothing runs |
| `ProviderLifecycle.Lifecycle.FinishCancel` | internal/cli/provider_lifecycle.go:161-177 | a returned Cancel is done, leaves the table if it is still there, and may start the close |
| `ProviderLifecycle.Turn.RequestCancel` | internal/cli/provider_lifecycle.go:131-181 | a turn gets one Cancel for good: the live one of its session, a refused one, or a new one |
| `ProviderLifecycle.StepKeeps` | internal/cli/provider_lifecycle.go:54-181 | every step keeps the counter equal to the running calls and the table equal to the live Cancels |
| `ProviderLifecycle.CloseOnceWhenDrained` | internal/cli/provider_lifecycle.go:64-108 | in every run Close starts at most once, only with no call live, and a closing lifecycle with no call has started it |
| `ProviderLifecycle.NothingAdmittedOnceClosing` | internal/cli/provider_lifecycle.go:54-108 | once closing, whatever runs later already ran; after Close has started nothing ever runs |
| `ProviderLifecycle.OneCancelPerSession` | internal/cli/provider_lifecycle.go:139-160 | at most one Cancel of a session is live |
| `ProviderLifecycle.TurnSharesLiveCancel` | internal/cli/provider_lifecycle.go:131-181 | a turn that asks while a Cancel is live shares that very call and keeps it |
| `ProviderLifecycle.AdmittedUnlessClosed` | internal/cli/provider_lifecycle.go:54-62 | in every run a call is let in if and only if no close was requested before it |
| `ProviderLifecycle.NewCancelEnters` | internal/cli/provider_lifecycle.go:131-181 | a turn that asks while no Cancel of its session is live gets a new one that enters the provider, or one that has failed if a close was requested before |
| `ProviderLifecycle.TurnsLearnResult` | internal/cli/provider_lifecycle.go:161-177 | every turn that got a live Cancel learns what the provider returned for it, and nothing else from then on |
| `SessionIdentity.SessionBackendMap.ResolveResume` | internal/cli/session_identity.go:80-111 | a mapped session is resumed exactly by what agrees with its identity, and then with its whole identity |
| `SessionIdentity.SessionBackendMap.Claim` | internal/cli/session_identity.go:124-149 | an ID is claimed if it is free, or is the resumed one, unowned and with its own identity |
| `SessionIdentity.SessionBackendMap.Adopt` | internal/cli/session_identity.go:155-180 | the attempt moves to the ID and keeps its old one as an alias, or is rejected |
| `SessionIdentity.SessionBackendMap.Finish` | internal/cli/session_identity.go:185-218 | the attempt's entries are released, kept or removed, whatever the order in which the map is walked |
| `SessionIdentity.CallRespects` | internal/cli/session_identity.go:124-218 | no call with any arguments changes a mapped identity, touches another attempt's entry or unmaps an unowned ID |
| `SessionIdentity.IdentityNeverChanges` | internal/cli/session_identity.go:80-218 | over any calls, an ID that stays mapped keeps its identity |
| `SessionIdentity.OwnedUntilFinished` | internal/cli/session_identity.go:155-218 | over any calls, however late, an owned ID stays with its owner until the owner finishes |
| `SessionIdentity.ResumeThenClaim` | internal/cli/session_identity.go:80-149 | what a resume resolves to is exactly the identity that can claim the ID |
| `SessionIdentity.EndOfAttempt` | internal/cli/session_identity.go:185-218 | in every run: the final ID stays unowned and the first one goes, or, if rejected, all go but a session resumed under the first ID; other IDs are unchanged |
| `SessionIdentity.OwnsNothingAfterwards` | internal/cli/session_identity.go:206-217 | after finish an attempt owns nothing, if and only if it was rejected or adopted at most one ID |
| `SessionIdentity.RejectedDropsAdoptedResume` | internal/cli/session_identity.go:191-205 | a run from the empty map in which a mapped, unowned session is resumed, adopted after a start under another ID, and dropped by a later rejection |
| `SessionIdentity.ResumeIff` | internal/cli/session_identity.go:80-111 | however long ago an ID was mapped, while it stays so a resume is accepted if and only if each name and the wrapper are left out or as recorded and the launch is as recorded; it then gets the recorded identity |
| `SessionIdentity.BeginIff` | internal/cli/session_identity.go:124-149 | in every run an attempt begins if and only if its ID is empty, free, or the one it resumes, unowned and with the recorded identity |
| `SessionIdentity.RenameIff` | internal/cli/session_identity.go:155-180 | in every run an attempt moves on if and only if the ID is free, or the one it resumes, unowned and with its identity; any other ID but its current one gets it rejected |
| `LoopRunner.RunPhaseWithRetry` | internal/looprunner/runner.go:382-418 | attempts 0, 1, 2, … within the retries, only after retryable failures, with the directive that decides among them |
| `LoopRunner.CompletePhaseRequirements` | internal/looprunner/runner.go:328-380 | nudges within their limit, each in the session before it; a clean end is reported only if no file was missing when last looked for |
| `LoopRunner.ExecutePhase` | internal/looprunner/runner.go:225-320 | a phase that starts makes its attempts and ends; one that is refused or nested emits no phase events |
| `LoopRunner.RunSequentialPhases` | internal/looprunner/runner.go:172-223 | pre or post phases run one after another as they are due, or the run ends as its last phase requires |
| `LoopRunner.RunIteration` | internal/looprunner/runner.go:93-158 | one pass over the loop phases goes on, leaves by an exit marker, or ends the run |
| `LoopRunner.RunIterations` | internal/looprunner/runner.go:85-161 | the iterations run within their maximum until one leaves or ends the run |
| `LoopRunner.Run` | internal/looprunner/runner.go:62-170 | past loop.start the run is the chain of phases that were due, then the loop.end and result that follow from them |
| `LoopRunner.EventsOfRun` | internal/looprunner/runner.go:62-170 | exactly one loop.end, as the last event; each phase.start is paired with its phase.end; attempts of a phase are numbered 0, 1, 2, … |
| `LoopRunner.AttemptsBounded` | internal/looprunner/runner.go:328-418 | a phase makes at most 1 + retries + nudges attempts |
| `LoopRunner.PostOnlyWhenThrough` | internal/looprunner/runner.go:73-170 | a post phase runs only after an exit marker, all iterations or an empty loop, and never after a failure, an abort, or a bad end without an exit marker |
| `LoopRunner.BadEndWithMarkerGoesOn` | internal/looprunner/runner.go:125-138 | a run in which a loop phase that ended badly, but with an exit marker, leads to the post phase and a good end |
| `LoopRunner.SuccessIff` | internal/looprunner/runner.go:62-223 | a run reports success if and only if its context did not cut it and every phase that ran neither failed nor aborted and ended with code 0 or, in the loop, with an exit marker |
| `LoopRunner.SuccessMeansAll` | internal/looprunner/runner.go:62-170 | a successful run ran every pre and post phase well, and left the loop by the one marker that loop.end and the result name, or completed every iteration, or had no loop phases |
| `LoopRunner.StoppedRunReports` | internal/looprunner/runner.go:99-158 | a failed phase is the last and the run fails; an abort gives 5, blocked and the label in loop.end and result; a bad end gives the phase's own code, reason, session and wait |
| `LoopRunner.CutRunReports` | internal/looprunner/runner.go:422-431 | a run that its context cut reports 124 and timeout, or 130 and cancelled, as the context said at that moment |
| `LoopRunner.PassesReported` | internal/looprunner/runner.go:83-161 | the number in loop.end is that of the full passes: exactly the iterations up to it had every loop phase run, end well and go on |
| `LoopRunner.RetriedWhenCalledFor` | internal/looprunner/runner.go:382-418 | an attempt is followed by another if and only if the limit, its result, the wait and the context all call for it; the last one's result counts, or a timeout |
| `LoopRunner.NudgedWhenIncomplete` | internal/looprunner/runner.go:328-380 | a nudge is made if and only if the limit, a clean end, missing files and the context all call for it; what the phase comes to otherwise |
| `LoopRunner.DirectiveOfAttempts` | internal/looprunner/runner.go:284-314 | the directive of retried attempts is the first of the severest among those not overruled by a later end other than a generic failure |
| `LoopRunner.CleanMeansComplete` | internal/looprunner/runner.go:322-380 | a phase that ends clean had none of its required files missing when they were last looked for |
| `LoopRunner.NestedRunReports` | internal/looprunner/runner.go:225-258 | a blocked nested run aborts the run with its own label; any other nested result counts by its exit code |
| `LoopRunner.ResumesPrevious` | internal/looprunner/runner.go:93-99 | a phase that resumes is launched in the session of the phase right before it, any other in none |
| `EventLog.FanoutWriter.Write` | internal/cli/cli.go:2071-2082 | events without a number are stamped strictly increasing in the log, over failed writes too |
| `EventLog.ReadEvents` | internal/mcpserver/events.go:14-122 | the scan, filter and cut of a log give the page that is asked for, and its cursor |
| `EventLog.PageAdvances` | internal/mcpserver/events.go:68-117 | a page is the stretch of wanted records from its cursor to the next, which grows unless all were read |
| `EventLog.PagesExactlyOnce` | internal/mcpserver/events.go:14-122 | feeding the cursor back from 0, with any limit and types, yields every wanted record up to the cursor once and in order, however the log grows between calls |
| `EventLog.EmptyPageMeansAll` | internal/mcpserver/events.go:99-115 | an empty page comes exactly when every wanted record was read; other pages move the cursor on |
| `EventLog.ReadAll` | internal/mcpserver/events.go:14-122 | reading until an empty page ends, with every wanted record |
| `EventLog.PageIsStretch` | internal/mcpserver/events.go:60-117 | a page holds records of an asked type above the cursor, in order and each once: the first so many from a cursor, the last so many without; what it leaves out lies behind or before a full page |
| `EventLog.HighestIsMost` | internal/mcpserver/events.go:43-117 | the number given without a cursor is the highest in the log, and 0 if there is none |
| `Digest.Accumulator.Process` | internal/digest/accumulate.go:39-91 | one input gives the lines due and what is held, with at most one buffer |
| `Digest.Accumulator.AddChunk` | internal/digest/accumulate.go:99-107 | the chunk's text ends up behind what its run already holds |
| `Digest.Accumulator.FlushAll` | internal/digest/accumulate.go:109-135 | the held run, if any, and nothing is held afterwards |
| `Digest.KeyTells` | internal/digest/accumulate.go:78-78 | buffer keys are equal exactly for equal sessions and types |
| `Digest.DigestStream` | internal/digest/accumulate.go:39-97 | the accumulator over a whole stream gives its lines |
| `Digest.DigestIsMaximalRuns` | internal/digest/accumulate.go:10-97 | those lines are the only ones that keep every character in order and have no two neighbouring lines of one session and type |
| `Digest.ChunkBuffer.Append` | internal/digest/chunkbuf.go:36-44 | the window keeps the end of what it held and the new text; a trim forgets the last status |
| `Digest.Window` | internal/digest/chunkbuf.go:27-44 | however a stream is chunked, the window is its last min(total, maxLen) bytes, maxLen being at least 64 |
| `RunRegistry.RunRegistry.Store` | internal/mcpserver/registry.go:58-88 | a collision changes nothing; otherwise both indexes get the run and agree |
| `RunRegistry.RunRegistry.UnlinkLabel` | internal/mcpserver/registry.go:235-241 | only a label of that supervisor is freed, and the run stays by ID |
| `RunRegistry.RunRegistry.Remove` | internal/mcpserver/registry.go:245-261 | the run leaves both indexes, which still agree |
| `RunRegistry.RunRegistry.LookupLabel` | internal/mcpserver/registry.go:101-108 | an answer carries the label and is what its IDs find under that supervisor |
| `RunRegistry.RunRegistry.LookupUnique` | internal/mcpserver/registry.go:122-138 | the label's run, else the run with this ID if and only if it is the only one, in any order of visiting |
| `RunRegistry.RunRegistry.LookupRuntime` | internal/mcpserver/registry.go:150-167 | the run with this runtime ID under the supervisor if and only if it is the only one |
| `RunRegistry.RunRegistry.LookupRuntimeTurn` | internal/mcpserver/registry.go:176-193 | the same for a runtime ID and a sentinel path |
| `RunRegistry.RunRegistry.LookupRuntimeUnique` | internal/mcpserver/registry.go:211-230 | the same over all supervisors |
| `RunRegistry.IndexesAgree` | internal/mcpserver/registry.go:58-261 | after any operations each label maps to the one entry that carries it and that its IDs find |
| `RunRegistry.RuntimeFixedUntilRemoved` | internal/mcpserver/registry.go:58-88 | over any operations but its removal, a run is found with the runtime ID it was stored with |
| `RunRegistry.StoreFinds` | internal/mcpserver/registry.go:58-88 | an accepted run is found by its IDs and its label alone, and no other run or label changes |
| `RunRegistry.StoreIff` | internal/mcpserver/registry.go:58-88 | after any operations a run is stored if and only if it is new or has its old runtime ID, and its label is free or its own |
| `RunRegistry.RemoveForgets` | internal/mcpserver/registry.go:245-261 | a removed run is given back, found by neither index, and takes no other run or label with it |
| `RunRegistry.UnlinkFrees` | internal/mcpserver/registry.go:235-241 | after any operations, unlinking frees exactly that supervisor's label, so that a new run can be stored under it |
| `MessageId.ParseMinted` | internal/messaging/msgid.go:25-68 | at any time a minted ID is expired, beyond the horizon or gives its deadline, each exactly when it should, and is never malformed |
| `MessageId.MintedIff` | internal/messaging/msgid.go:25-42 | an ID is minted if and only if the deadline, cut to milliseconds, is still to come and within the horizon; without a deadline always |
| `MessageId.ParseBeforeDeadline` | internal/messaging/msgid.go:25-68 | from minting to its deadline an ID parses to that deadline truncated to milliseconds |
| `MessageId.IntRoundTrip` | internal/messaging/msgid.go:41-54 | printing and parsing in base 36 is the identity on 64-bit numbers, and prints no dot |
| `MessageId.HexRoundTrip` | internal/messaging/msgid.go:56-86 | encoding and decoding in hex is the identity, and prints no dot |
| `MessageId.MintedDiffer` | internal/messaging/msgid.go:12-15 | IDs with different deadlines or nonces are different |
| `MessageId.ReplyIsMalformed` | internal/messaging/askbody.go:37-45 | for every string, the reply's ID is rejected as malformed |

## Left out

Where the code does less than its comments say:

- A comment on `RetryDirectPermissionDelivery` (internal/control/server.go:823-825) says that a late failure cannot overwrite a replacement claim. Completions go by key and state, not by claim, so it can; `TwoHolders` is such a run, and `StruckOnlyWhenLate` with `LateFailureAdmitsSecond` says exactly when.
- A rejected attempt (internal/cli/session_identity.go:191-205) restores a resumed session only if it was resumed under the attempt's first ID; `EndOfAttempt` says exactly what is left.
- A `Start` on a server that already has a listener, once its socket file was removed from outside, replaces the listener and leaves the old one open (internal/control/server.go:465-465); `NothingLeftOpen` says that nothing else does, and `RestartLeavesOpen` that this does.
- The text at docs/events.md:323-328 says that a retry wait honors the provider's hint and that the run ends with it intact. A wait that the backend puts on its own session.end stays on the durable record, but the result, from which the retry loops take their wait, has it only when the failure text is reclassified with a hint (internal/cli/cli.go:1470-1475, internal/runtime/limits.go:75-77); `WaitRepeated` says exactly when it is lost, and `WaitLost` is such a run.

What the theorems take for granted:

- The permission files assume one resolver per request ID at a time. `WaitForSession` starts them one after another, but its join (internal/cli/cli.go:1368-1379) is bounded, so a resolver that ignores its context can outlive the wait that started it; that overlap is not modelled.
- Only scopes other than the empty one have a direct deliverer; it marks the claim or puts it back for another try. The claim itself may be ended or cleared from outside at any time.
- EventAttach.ExactlyOnce: for serialised publishers of the subscribed runtime, a replay limit of at least 1, no overflow and no concurrent stop of the server. The subscribe dispatch passes its limit on unchecked, so a limit of 0 replays nothing and a negative one indexes out of range.
- EventStream.LagBeforeEvent: for a server that does not stop while a replay is in progress; a flush by `Stop` may let pending events overtake replayed ones.
- SocketOwnership.RecordNamesListener: nobody but the protocol writes the record, outsiders may remove the socket file but not create one, a dial is refused only if nobody listens, and capabilities are fresh.
- EventLog.FanoutWriter.Write: a record that comes with a number of its own that is not above the counter may break the order of the log.
- MessageId.ParseMinted: for deadlines whose milliseconds fit 64 bits.
- A registered run's fields do not change while it is in the registry.

What is not modelled:

- Waiting for subscribers to drain when the control server stops, and write deadlines.
- In the session wait: status records, permission responses, error records, usage, loop markers and the log of the session's other events; fields of a session.end whose values have an unexpected type; how provider text is read for limits; the events a cancelled provider may still emit after session.end.
- In the loop runner: prompts, templates and git deltas, and the broker run ID of a result.
- In the digest: how a line is formatted and classified, and the marker scans over the window.
- In the event log: the size limit of a scanned line, bounded previews of final output, and numbers beyond the exact range of a floating-point seq.
- Sockets, HTTP, JSON, file modes, user IDs, authentication, secrets and random generation.
- Interrupts and prompt queues of the control server; budgets; message routing tables; command-line wiring; display.
- `RunRegistry.Lookup`, `LabelHolder`, `All` and `OtherTurnOwnsSentinel`, which only read what the modelled operations keep.
