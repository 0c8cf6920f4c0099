# Verification of the realtime delivery service

A Dafny model of the Go server under `go-server/`: the hub and its client
sessions, the outbound queue and write loop, the token bucket, the memory
broker, the fan-out across nodes, admission, shutdown, heartbeat and metrics.
`dafny verify dfyconfig.toml` checks the whole project.

The logic is modelled in two forms that share their definitions.

* **Objects.** `Session.dfy`, `RateLimiter.dfy`, `MemoryBroker.dfy` and
  `MaxRegister.dfy` hold classes whose methods update their fields as the Go
  methods do, loops over maps included. A loop over a map picks its next key
  nondeterministically, so a contract that fixes the outcome holds for every
  iteration order.
* **Step systems.** `Lifecycle`, `OutboundPipeline`, `MemoryBroker`, `Cluster`,
  `LockOrder`, `InboundCounters` and `MaxRegister` have one step per critical section, channel
  operation or atomic operation. A schedule is any sequence of steps; a step
  that is not enabled does nothing. The theorems quantify over every schedule,
  hence over every interleaving and every moment of it. Beside what no schedule
  can break stands what some continuation can always achieve: every command can
  be replied to, every request ended, every accepted message written, every
  shutdown finished.

The effects of the hub's critical sections are functions on `HubState`
(`RoomIndex.dfy`). The `Hub` class is proved to compute them and the step
systems use the same functions.

| file | content |
|---|---|
| `RoomIndex.dfy` | the maps `clients`, `rooms`, `clientRooms` and the relation they stand for |
| `Session.dfy` | `Hub`, `Client` (Close, Send, read loop) and `Metrics` as objects |
| `Protocol.dfy` | validation of inbound frames |
| `RateLimiter.dfy` | the token bucket and the window specification it meets |
| `Lifecycle.dfy`, `LifecycleProofs.dfy`, `LifecycleTheorems.dfy`, `LifecycleProgress.dfy` | registry, rooms, close guard, admission, counters and shutdown of one node, interleaved |
| `OutboundPipeline.dfy` | senders, writer and closers of one session, interleaved |
| `Subjects.dfy` | subject matching as strings and as tokens |
| `MemoryBroker.dfy` | publish, subscribe, cancel and close, alone and interleaved |
| `Cluster.dfy`, `ClusterProofs.dfy`, `ClusterTheorems.dfy`, `ClusterProgress.dfy` | N nodes on one broker |
| `LockOrder.dfy` | the locks of all nodes, deadlock freedom and termination |
| `InboundCounters.dfy` | the process-wide counters of inbound frames, interleaved |
| `Timing.dfy` | 64-bit timeout arithmetic and the heartbeat |
| `MaxRegister.dfy` | the lock-free maximum of queue depths |

## Assumptions

* Connection IDs are unique; in `Lifecycle` a request whose ID is taken does not arrive.
* Each session is registered once, by its own handler, before anyone else holds it.
* `sync.Once.Do` makes later callers wait until the first call has finished.
* JSON encoding, event IDs and connection IDs do not fail. A text frame is given
  by what the JSON decoder makes of it, a payload by whether it is an object.
* The authorizer, the limiter's verdict, the broker's verdict on a publication
  and the clock are inputs.
* The nodes of a cluster have distinct IDs, and a session appears only in the
  hub of its own node. A node ID is not empty where a theorem says so; the
  configuration replaces an empty one by a random one (`config.go:63-70`).

## What the code does differently from its words

* `Unregister` is documented to clean up the room memberships of a session
  (`hub.go:62-64`). A read loop may still be inside `Join` when another thread's
  Close has already unregistered the session; the entry then stays for good.
  `LifecycleTheorems.LateJoinLeaks` gives the run,
  `LifecycleTheorems.ReturnedSessionLeaksIffLateJoin` the exact condition, and
  that at most one room leaks per session.
* `CloseAll` closes every active session (`hub.go:296`), but a request that
  passed the readiness check earlier can register after its snapshot:
  `LifecycleTheorems.LateInstallSurvivesCloseAll` gives a run and
  `LifecycleTheorems.CloseAllEmptiesRegistry` exactly who remains.
* The limits on `request_id`, `room_id` and `recipient_id` speak of characters
  and count UTF-8 bytes (`message.go:139`, `message.go:178`):
  `Protocol.ShortIdIsRefused` gives an ID, `Protocol.LimitsCountBytes` says
  exactly when the two readings differ.
* `MemoryBroker.Close` says that it prevents further operations
  (`memory.go:87`); a Subscribe that passed its test of the flag before still
  adds its subscriber: `MemoryBroker.ClosedBrokerMayHoldSubscriber` gives a run,
  `MemoryBroker.ClosedBrokerHoldsLateGrants` exactly what a closed broker holds,
  and `MemoryBroker.QuietCloseIsFinal` with
  `MemoryBroker.LateSubscribeFillsClosedBroker` when it stays empty.
* The bucket of the limiter can go below zero when the clock goes back:
  `RateLimiter.BackwardClockOverdraws`, `RateLimiter.OverdrawnIffClockWentBack`
  and `RateLimiter.OverdrawnIffWindowOverspent` say exactly when.
* The drain is four fifths of the shutdown timeout and the ping interval nine
  tenths of the read timeout only while the 64-bit product fits:
  `Timing.DrainIsFourFifthsIffItFits`, `Timing.PingIsNineTenthsIffItFits`.

## Model

| member | source | states |
|---|---|---|
| RoomIndex.JoinRefinesInsert | go-server/internal/realtime/hub.go:105-131 | a join inserts one pair into the (room, connection) relation, keeps both maps in agreement, and keeps the room cap unless it was refused; a repeated join is never refused |
| RoomIndex.JoinRefusedAtCap | go-server/internal/realtime/hub.go:109-113 | a join is refused exactly if the connection is not in the room and is listed in as many rooms as a positive cap allows |
| RoomIndex.LeaveRefinesDelete | go-server/internal/realtime/hub.go:135-152 | a leave deletes one pair, leaves no empty inner map, keeps both maps in agreement |
| RoomIndex.UnregisterRefinesPurge | go-server/internal/realtime/hub.go:65-97 | cleanup through the index deletes exactly the session's pairs and equals a scan of all rooms |
| RoomIndex.RelationDeterminesIndex | go-server/internal/realtime/hub.go:18-19 | two consistent hubs with one relation have the same reverse index and the same rooms |
| RoomIndex.EvictOneMore | go-server/internal/realtime/hub.go:65-97 | unregistering one more session adds it to the evicted set, so the order of a set of closes does not matter |
| Session.Client.Close | go-server/internal/realtime/client.go:190-215 | the first close marks the session and unregisters it from the hub; later ones change nothing |
| Session.Client.Send | go-server/internal/realtime/client.go:137-166 | accepts exactly an open session with space; a full session is closed and unregistered, a closed one is left alone |
| Session.Hub.Register | go-server/internal/realtime/hub.go:42-60 | the new session takes the user's entry, the replaced one is closed and loses its rooms, and its cleanup does not touch the new entry |
| Session.Hub.Unregister | go-server/internal/realtime/hub.go:65-97 | the loop over the session's rooms, in any order, reaches the purged state; true exactly if the session was the active one |
| Session.Hub.Join | go-server/internal/realtime/hub.go:100-132 | succeeds exactly if authorized and within the cap, and then adds the session to both maps |
| Session.Hub.Leave | go-server/internal/realtime/hub.go:135-160 | removes the session from the room in both maps |
| Session.Hub.AuthorizeBroadcast | go-server/internal/realtime/hub.go:164-178 | allowed exactly for members and for those with publishing permission |
| Session.Hub.SnapshotRoom | go-server/internal/realtime/hub.go:222-238 | collects each member whose user is not the sender exactly once |
| Session.Hub.Deliver | go-server/internal/realtime/hub.go:255-267 | one event to each recipient; the full ones are closed and vanish from registry and rooms while the loop runs |
| Session.Hub.LocalBroadcast | go-server/internal/realtime/hub.go:222-267 | one final hub, one set of queues and one closed set for every iteration order of the room map |
| Session.Hub.Broadcast | go-server/internal/realtime/hub.go:189-219 | a local broadcast, and with a broker the event for the other nodes: subject, type, room, sender, payload and own node ID |
| Session.Hub.SendPrivate | go-server/internal/realtime/hub.go:326-394 | the local delivery, the error returned and the event for the other nodes, for every case of registration, queue and broker; a successful publication hides a failed local delivery |
| Session.Hub.LocalSendPrivate | go-server/internal/realtime/hub.go:397-429 | the registered recipient, if any, is served the private event, and leaves the hub if it was full |
| Session.Hub.HandleBrokerEvent | go-server/internal/realtime/hub.go:432-451 | an event with this hub's own node ID, or of an unknown type, changes nothing; a room event serves the members whose user is not the sender, a private one the recipient, with the room, sender, recipient and payload of the event |
| Session.Hub.AnnouncementIsUnderstood | go-server/internal/realtime/hub.go:432-451 | what one node announces is, at any other, for the same room or recipient, and at the announcing node for nobody |
| Session.RecipientsAreTheOthers | go-server/internal/realtime/hub.go:231-237 | the recipients of a room event are exactly the listed sessions whose user is not the sender |
| Session.Hub.Snapshot | go-server/internal/realtime/hub.go:286-294 | lists every registered session exactly once |
| Session.Hub.BroadcastDraining | go-server/internal/realtime/hub.go:304-317 | every registered session gains the notice or is closed, and the full ones leave registry and rooms |
| Session.Hub.CloseAll | go-server/internal/realtime/hub.go:297-301 | every registered session is closed, and all that were open leave registry and rooms |
| Session.Client.OnJoin | go-server/internal/realtime/client.go:303-322 | acknowledged exactly if the join was allowed; a refused join leaves the hub as it was |
| Session.Client.OnLeave | go-server/internal/realtime/client.go:323-330 | always acknowledged, and the room is left |
| Session.Client.OnBroadcast | go-server/internal/realtime/client.go:331-351 | acknowledged exactly if authorized, and then every recipient was served; otherwise nobody is touched |
| Session.Client.OnPrivate | go-server/internal/realtime/client.go:352-390 | refused exactly if not authorized; otherwise the registered recipient is served and the reply is an acknowledgement if the event was published or the recipient accepted it, else overloaded if the recipient is registered and offline if not |
| Session.Client.OnCommand | go-server/internal/realtime/client.go:302-397 | each valid command gets exactly the reply that the hub state, the broker and the recipient call for; whom it addresses is served its event, full ones leave the hub, nobody else is touched, and the announcement for the other nodes is the one of the command |
| Session.Client.AnswerFrame | go-server/internal/realtime/client.go:256-398 | one reply attempt per frame, and exactly the one it deserves: a protocol error, rate limited, or the reply to its command; with the effect on the hub, the queues and the session itself |
| Session.Client.ProcessFrame | go-server/internal/realtime/client.go:243-402 | the same for the whole frame; a malformed, limited or unauthorized frame addresses nobody and leaves the hub as it was when its reply fits; exactly the type counter of the frame and the result counter of its reply grow |
| Session.Client.FrameReplyAnswers | go-server/internal/realtime/client.go:267-300 | whatever the hub holds, the reply carries the request ID of the peer up to white space, each protocol error code appears exactly for the first rule that the frame breaks, the rate error exactly for limited frames, and an acknowledgement names the frame's own command |
| Session.KindOfFrame | go-server/internal/realtime/client.go:258-280 | a frame is counted under its type exactly if it is one valid command, and as unknown otherwise |
| Session.Client.ReadLoop | go-server/internal/realtime/client.go:228-404 | with a writer that drains the queue in between, each frame is taken only after the reply to the one before was queued; each reply and each change of the hub is the one its frame deserves in the state it found, given which addressed sessions had space; the loop stops exactly at the first reply that was not queued, and only if it did not fit or the session was closed from the start |
| Session.Transcript.RepliesComeInFrameOrder | go-server/internal/realtime/client.go:228-404 | read off frame by frame: every reply but the last was queued, and queued replies are accepted messages in the order of their frames |
| Session.Metrics.RecordInbound | go-server/internal/realtime/client.go:261-265 | exactly one type counter and one result counter grow, each by one |
| Session.Metrics.IncrementInboundType | go-server/internal/observability/metrics.go:152-165 | the counter of the message type grows by one, the unknown one for every other text, and no other counter changes |
| Session.Metrics.IncrementInboundResult | go-server/internal/observability/metrics.go:168-174 | the success or the error counter grows by one, and no other |
| InboundCounters.TypesLeadResults | go-server/internal/realtime/client.go:256-265 | with any number of read loops, in every schedule, type totals exceed result totals by the loops between their two increments, and agree exactly if there is none |
| InboundCounters.ReceivedFramesAreConserved | go-server/internal/realtime/client.go:243-264 | frames received are those counted by type, on their way there, or given up because the deadline could not be set |
| InboundCounters.EachCounterCountsItsOwn | go-server/internal/observability/metrics.go:152-174 | every type and result counter holds exactly the frames of its own label |
| InboundCounters.TagsOfKinds | go-server/internal/observability/metrics.go:152-165 | each of the four commands has its own counter and everything else shares one |
| InboundCounters.FrameIsCountedOnce | go-server/internal/realtime/client.go:243-265 | from every moment of every run a waiting loop can take a frame, which is then counted once in every total |
| Protocol.TrimSplits | go-server/internal/realtime/message.go:125-126 | trimming removes all white space at both ends and nothing else |
| Protocol.WhiteSpace | go-server/internal/realtime/message.go:125-126 | the characters that count as white space, one by one |
| Protocol.DecodeKeepsRequestID | go-server/internal/realtime/message.go:90-121 | the decoder reports the peer's request ID up to surrounding white space, empty if there is none |
| Protocol.DecodedIsWellFormed | go-server/internal/realtime/message.go:117-182 | a frame passes exactly if it is one object of version 1 with an ID of 1 to 128 bytes, a known type, its target and its payload |
| Protocol.KnownCommands | go-server/internal/realtime/message.go:147-170 | the four commands and nothing else are known |
| Protocol.RefusalNamesFirstFault | go-server/internal/realtime/message.go:90-198 | each of the four error codes appears exactly for the first rule that the frame breaks |
| Protocol.BytesAndCharacters | go-server/internal/realtime/message.go:139 | the byte length is the characters plus one for each UTF-8 threshold that a character reaches, so both agree exactly for ASCII |
| Protocol.LimitsCountBytes | go-server/internal/realtime/message.go:139-179 | an otherwise proper command within the character limits is refused exactly if the extra bytes of an identifier exceed what its characters leave; no command beyond them passes |
| Protocol.ShortIdIsRefused | go-server/internal/realtime/message.go:139-145 | a proper command with an ID of 65 characters that is refused |
| RateLimiter.Limiter.constructor | go-server/internal/realtime/rate_limit.go:18-25 | starts full at its construction time |
| RateLimiter.Limiter.AllowAt | go-server/internal/realtime/rate_limit.go:33-56 | computes the verdict and the next bucket of the specification; with a limit or interval of zero or less it admits everything and does not change |
| RateLimiter.AllowIsGreedy | go-server/internal/realtime/rate_limit.go:33-56 | for every positive limit and interval and every trace of times, also backwards, a call is admitted exactly if it fits into the window since construction and into the window since every call up to now |
| RateLimiter.WithinInIntegers | go-server/internal/realtime/rate_limit.go:41-47 | to fit means calls * interval <= limit * interval + limit * length, without fractions |
| RateLimiter.BurstAdmitsLimit | go-server/internal/realtime/rate_limit.go:33-56 | of any number of calls at one instant exactly the first `limit` are admitted |
| RateLimiter.NoWindowExceedsAllowance | go-server/internal/realtime/rate_limit.go:33-56 | under an ordered clock no window between two calls holds more admissions than limit + limit * length / interval |
| RateLimiter.TokensStayInRange | go-server/internal/realtime/rate_limit.go:33-56 | under an ordered clock the tokens stay between 0 and the limit |
| RateLimiter.BackwardClockOverdraws | go-server/internal/realtime/rate_limit.go:41-47 | for all settings, the first call leaves the bucket negative exactly if its clock reads more than one interval before construction |
| RateLimiter.OverdrawnIffClockWentBack | go-server/internal/realtime/rate_limit.go:41-55 | for every bucket, a call leaves it negative exactly if the clock went back by more than the time that earned its tokens |
| RateLimiter.OverdrawnIffWindowOverspent | go-server/internal/realtime/rate_limit.go:33-56 | for every trace of times, a call leaves the bucket negative exactly if some window already holds more admissions than it allows |
| RateLimiter.SpacedCallsAreNeverDenied | go-server/internal/realtime/rate_limit.go:33-56 | calls at least interval / limit apart are all admitted |
| RateLimiter.DeniedCallsLeaveNoTrace | go-server/internal/realtime/rate_limit.go:33-56 | deleting any set of denied calls changes no other verdict, for every trace of times |
| RateLimiter.KeptCallsKeepTheirVerdicts | go-server/internal/realtime/rate_limit.go:33-56 | call by call: every kept call is in the thinned trace, at its place among the kept ones, with its old verdict |
| LifecycleTheorems.RegistryIsLastInstall | go-server/internal/realtime/hub.go:42-97 | in every schedule the registry holds exactly the sessions installed and neither displaced nor unregistered since |
| LifecycleTheorems.RoomsAreLastJoins | go-server/internal/realtime/hub.go:65-160 | in every schedule the rooms hold exactly the joins that no later leave or Unregister undid |
| LifecycleTheorems.LogIsTheRun | go-server/internal/realtime/hub.go:42-160 | the log that these theorems read is the run: every enabled step on hub or session logs its event, and nothing else is logged |
| LifecycleTheorems.RoomMapsAgree | go-server/internal/realtime/hub.go:65-160 | in every schedule both room maps hold one relation without empty inner maps, within the cap |
| LifecycleTheorems.RegisteredMeansUnregisterPending | go-server/internal/realtime/client.go:190-215 | a registered session is open or its Unregister is still to come |
| LifecycleTheorems.UnregisterIsFinal | go-server/internal/realtime/hub.go:65-97 | after its Unregister a session never returns to the registry, whatever happens next |
| LifecycleTheorems.StaleCleanupSparesOthers | go-server/internal/realtime/hub.go:62-97 | the cleanup of one session removes no other session from registry or rooms |
| LifecycleTheorems.AtMostOneLateCommand | go-server/internal/realtime/client.go:319-330 | in every schedule a session runs at most one join or leave after it was marked closed, because the reply to it fails |
| LifecycleTheorems.LateEntryMeansLateJoin | go-server/internal/realtime/hub.go:100-123 | an unregistered session is in a room exactly if it ran a join of that room after its Unregister, and then in no other room |
| LifecycleTheorems.ReturnedSessionLeaksIffLateJoin | go-server/internal/realtime/client.go:111-133 | when Run has returned, the session is not registered, a room still lists it exactly if it joined after its Unregister, and at most one room does |
| LifecycleTheorems.LateJoinLeaks | go-server/internal/realtime/client.go:303-322 | a run in which Run has returned, the slot is free and the room still lists the session |
| LifecycleTheorems.RegistryBoundedByAdmission | go-server/internal/httpapi/websocket.go:133-166 | at every moment the registered users are at most the held slots, which are at most the configured maximum |
| LifecycleProgress.AdmittedIffSlotFree | go-server/internal/httpapi/websocket.go:133-139 | a request that passed the checks gets a slot exactly if fewer than the maximum hold one, and is refused exactly otherwise |
| LifecycleProgress.ClearedCanRegister | go-server/internal/httpapi/websocket.go:133-166 | with a free slot such a request can become the registered session of its user |
| LifecycleProgress.NodeCanDrain | go-server/internal/httpapi/websocket.go:133-166 | from every moment of every run all requests can end, with every slot free, nobody registered and the gauge at zero |
| LifecycleProgress.EveryRequestCanEnd | go-server/internal/app/session_handler.go:26-43 | from every moment of every run each request can end without touching the others |
| LifecycleProgress.InstallRegisters | go-server/internal/realtime/hub.go:42-47 | a constructed session is registered by its Register |
| LifecycleProgress.JoinTakesEffect | go-server/internal/realtime/hub.go:105-123 | in every schedule a join puts the session into the room exactly if it is there already or below a positive cap |
| LifecycleProgress.LeaveTakesEffect | go-server/internal/realtime/hub.go:135-152 | in every schedule a leave takes the session out of the room |
| LifecycleProgress.UnregisterTakesEffect | go-server/internal/realtime/hub.go:65-97 | in every schedule the cleanup of a marked session takes it out of registry and rooms |
| LifecycleTheorems.UpgradesAreConserved | go-server/internal/httpapi/websocket.go:111-166 | attempted upgrades are those rejected plus handed off plus in progress |
| LifecycleTheorems.GaugeIsConserved | go-server/internal/realtime/client.go:190-215 | the active gauge is sessions constructed minus closes completed |
| LifecycleTheorems.EveryoneIsNotified | go-server/internal/realtime/hub.go:304-317 | once the notices are done, every session that was registered when BroadcastDraining took its snapshot has since accepted the notice while open, or is marked closed |
| LifecycleTheorems.CloseAllEmptiesRegistry | go-server/internal/app/server.go:122-140 | when CloseAll has returned, every session registered when it took its snapshot is closed, and the registered ones are exactly those installed since then and neither displaced nor unregistered; the registry is empty exactly if there is none |
| LifecycleProgress.ShutdownCanFinish | go-server/internal/app/server.go:119-152 | from every moment of every run the shutdown can go through all its stages; no notice and no close can hold it up |
| LifecycleTheorems.LateInstallSurvivesCloseAll | go-server/internal/app/server.go:122-140 | a run in which a late registration survives CloseAll |
| OutboundPipeline.AcceptedMessagesAreConserved | go-server/internal/realtime/client.go:406-450 | in every schedule accepted = the messages sent to an open session with space = written, then at most one discarded, then in hand, then queued; the queue stays within its capacity |
| OutboundPipeline.AcceptedCanBeWritten | go-server/internal/realtime/client.go:415-448 | from every moment at which the session is open and its writer has not failed, everything accepted can be written, in order |
| OutboundPipeline.AtMostOneWriteAfterClose | go-server/internal/realtime/client.go:406-450 | once closed nothing is accepted and at most one more write begins, for every continuation |
| OutboundPipeline.OneWriteAfterCloseHappens | go-server/internal/realtime/client.go:415-448 | the bound of one is reached |
| Subjects.MatchSubjectIsTokenMatch | go-server/internal/broker/memory.go:99-111 | the string test equals token-by-token matching, with a final wildcard for one or more tokens |
| Subjects.TokensMatchMeans | go-server/internal/broker/memory.go:58-60 | without the wildcard only the subject itself matches; with it every subject with the tokens before it and at least one more |
| Subjects.HubSubjectsReachTheSubscription | go-server/internal/realtime/hub.go:211 | every subject the hub publishes matches the server's subscription, for every room and user ID |
| Subjects.HubSubjectsAreDistinct | go-server/internal/realtime/hub.go:377 | different rooms and users have different subjects, and no room has the subject of a user |
| MemoryBroker.Broker.Publish | go-server/internal/broker/memory.go:34-56 | calls each matching subscription exactly once and no other, in any order; fails exactly if closed |
| MemoryBroker.MatchesByTokens | go-server/internal/broker/memory.go:39-45 | a subscription is selected exactly if its pattern matches the subject token by token |
| MemoryBroker.ServerIsMatched | go-server/internal/app/server.go:102 | the server's subscription is selected by whatever the hubs publish |
| MemoryBroker.Broker.Subscribe | go-server/internal/broker/memory.go:61-80 | adds the subscription under a fresh ID; refused exactly if closed |
| MemoryBroker.Broker.Cancel | go-server/internal/broker/memory.go:75-79 | removes that subscription and no other |
| MemoryBroker.Broker.Close | go-server/internal/broker/memory.go:88-94 | sets the flag and removes all subscriptions |
| MemoryBroker.SubscriptionIdsAreNeverReused | go-server/internal/broker/memory.go:66-73 | in every schedule two Subscribe calls have different IDs |
| MemoryBroker.EachMatchIsCalledOnce | go-server/internal/broker/memory.go:39-54 | from its start to any later moment of any schedule, a publish fails exactly if the broker was closed before, and otherwise calls without repetition exactly the subscriptions that matched in the map when it took its snapshot, except those whose call is still to come |
| MemoryBroker.SubscribeAddsItsPattern | go-server/internal/broker/memory.go:61-73 | a Subscribe begun before the broker is closed adds its pattern, whatever runs in between |
| MemoryBroker.LiveSubscriptionIsCalled | go-server/internal/broker/memory.go:39-54 | a matching subscription that is there at the snapshot of a publish is called when its turn comes |
| MemoryBroker.NoCallAfterCancel | go-server/internal/broker/memory.go:35-79 | a publish begun after a cancel returned never calls that handler, whatever runs in between and after |
| MemoryBroker.NoCallAfterClose | go-server/internal/broker/memory.go:35-94 | a publish begun after Close stored its flag fails and calls nobody, whatever runs in between and after |
| MemoryBroker.ClosedBrokerHoldsLateGrants | go-server/internal/broker/memory.go:61-94 | after Close has cleared the map, the broker holds exactly the subscriptions of calls that were past their test of the flag then, have finished since and were not cancelled |
| MemoryBroker.QuietCloseIsFinal | go-server/internal/broker/memory.go:88-94 | without such a call the closed broker stays empty in every continuation |
| MemoryBroker.LateSubscribeFillsClosedBroker | go-server/internal/broker/memory.go:61-73 | with such a call it need not: every one of them can still add its subscriber |
| MemoryBroker.ClosedBrokerMayHoldSubscriber | go-server/internal/broker/memory.go:61-73 | a run that leaves a subscriber in a closed broker |
| ClusterProofs.TargetsAreAddressed | go-server/internal/realtime/hub.go:222-238 | a snapshot's recipients are exactly the room members whose user is not the sender, or the recipient's registered session |
| ClusterTheorems.EventHasMoment | go-server/internal/realtime/hub.go:189-238 | every event of a run was recorded at the end of some prefix of its schedule and tells the truth about it: the hub of the node, the subscribers, the command and the step |
| ClusterTheorems.EventIsDuring | go-server/internal/realtime/client.go:346-351 | whatever a command does lies between its take and its reply, and every snapshot is for the command that was taken |
| ClusterTheorems.DeliveryCounts | go-server/internal/realtime/hub.go:432-451 | for a replied command every session was attempted as often as a snapshot addressed it, and every snapshot is the hub that its node had while that command ran; the origin took one snapshot whatever the broker redelivered, any other node one per delivery |
| ClusterTheorems.MemoryBrokerDeliversExactlyOnce | go-server/internal/realtime/hub.go:189-267 | with the memory broker there is a moment of publication such that, on the sender's node and on every node listening then, exactly one attempt went to each session that the taken command addresses in the hub of that node at some moment between take and reply, and none to others |
| ClusterProgress.EveryCommandCanFinish | go-server/internal/realtime/hub.go:189-219 | from every moment of every run, on any broker, a running command can be brought to its reply by its own steps; on an open broker it is published to all subscribed |
| ClusterProgress.UndisturbedCommandDelivers | go-server/internal/realtime/hub.go:189-267 | in every reachable world an idle session can run any command, and then exactly one attempt went to each session that the present hubs address at home and on the listening nodes |
| ClusterProgress.SurroundingsAreFree | go-server/internal/broker/memory.go:61-94 | hubs, subscriptions and broker can be anything at any time, as long as sessions are at home |
| ClusterProgress.BroadcastCrossesNodes | go-server/internal/realtime/hub.go:443-445 | for any room and two users on two nodes, a run in which the broadcast reaches the other once |
| ClusterProgress.PrivateSendCrossesNodes | go-server/internal/realtime/hub.go:446-447 | the same for a private send |
| ClusterTheorems.NoStrayAttempt | go-server/internal/realtime/hub.go:222-267 | at every moment of every run, an attempt is to a session of that very node that the taken command addresses in the hub that the node had at some moment of the command |
| ClusterTheorems.AtMostOneAttempt | go-server/internal/broker/memory.go:52-54 | at every moment no command was attempted twice at a session |
| ClusterTheorems.SenderOrderIsKept | go-server/internal/realtime/client.go:228-403 | events of one session reach another's queue strictly in the order in which the sender's read loop took the commands |
| ClusterTheorems.AttemptsPrecedeReply | go-server/internal/realtime/client.go:346-351 | everything that a command does comes before its reply |
| LockOrder.OperationsAreDisciplined | go-server/internal/realtime/client.go:190-215 | in every operation, with its calls inlined, a thread takes no lock while it holds one and no close guard while it holds anything; only a close guard is held while a lock is taken |
| LockOrder.OperationsTakeTheirLocks | go-server/internal/realtime/hub.go:42-60 | which locks each operation takes: hub for writing or reading, session, limiter, broker, and the guard of every close |
| LockOrder.NoWaitCycle | go-server/internal/realtime/client.go:143-165 | for any threads of any nodes on one memory broker running any operations of hub, session, limiter and broker, no reachable state has a cycle of threads that wait for each other |
| LockOrder.NoDeadlock | go-server/internal/realtime/hub.go:42-60 | a reachable state in which nobody can go on is one in which everybody has finished |
| LockOrder.LocksExclude | go-server/internal/realtime/client.go:190-215 | in every run a written lock has one holder, and a Close runs in at most one thread and at most once |
| LockOrder.RunsAreBounded | go-server/internal/realtime/hub.go:189-267 | no run makes more moves than its programs hold, so every run that keeps moving ends |
| Timing.ShutdownSplitsExactly | go-server/internal/app/server.go:133-146 | for every positive timeout, also where the product wraps, drain and remaining part add up to it and the fallback is not taken |
| Timing.DrainIsFourFifthsIffItFits | go-server/internal/app/server.go:133 | the drain is four fifths rounded down exactly if the timeout is at most (2^63-1)/8 ns |
| Timing.PingsBeatTheDeadline | go-server/internal/app/session_handler.go:38 | the ping interval is below the read timeout for every timeout, and positive exactly if nine times it, cut to 64 bits, is at least 10 and not negative; up to (2^63-1)/9 ns that is from 2 ns on |
| Timing.PingIsNineTenthsIffItFits | go-server/internal/app/session_handler.go:38 | the ping interval is nine tenths rounded down exactly if the timeout is at most (2^63-1)/9 ns |
| Timing.QuotientTruncates | go-server/internal/app/server.go:133 | integer division rounds toward zero, also for a product that wrapped to a negative |
| Timing.ResponsivePeerNeverTimesOut | go-server/internal/realtime/client.go:217-254 | for every read timeout with a positive ping interval, a peer whose pongs are processed within the slack after each ping never hits the read deadline |
| Timing.DeadlineFollowsLastFrame | go-server/internal/realtime/client.go:218-254 | the deadline is one read timeout after the last processed frame, or after the start if there was none |
| MaxRegister.Gauge.UpdateMaxQueueDepth | go-server/internal/observability/metrics.go:177-187 | ends at or above the depth, never lower than before, and every failed swap is paid for by a rise |
| MaxRegister.RegisterNeverFalls | go-server/internal/observability/metrics.go:177-187 | in every schedule the register never goes down |
| MaxRegister.RegisterIsMaximum | go-server/internal/observability/metrics.go:177-187 | the register is at least every finished depth, is one of the depths or zero, and never exceeds a bound on the depths such as the queue capacity |
| MaxRegister.RetriesAreBounded | go-server/internal/observability/metrics.go:177-187 | a swap fails only after a strict rise, so retries are bounded by the register |
| MaxRegister.LoneCallFinishes | go-server/internal/observability/metrics.go:177-187 | from every moment of every run a call that goes on alone finishes within three steps, with the maximum of its depth and the register |

## Left out

- RateLimiter.Limiter.AllowAt: float64 rounding and the saturation of `time.Time.Sub` at 292 years are not modelled; tokens are exact reals and times unbounded integers.
- Session.Client.ReadLoop: setting the read deadline always succeeds, and nothing but the writer runs between the frames; `Lifecycle` and `Cluster` hold the interleavings with other threads, and `InboundCounters` those of the counters, failed deadlines included.
- ClusterTheorems.DeliveryCounts: a broker that redelivers calls its handlers on the publisher's thread, as the memory broker does; on NATS JetStream they run later, so only the counts carry over.
- ClusterTheorems.SenderOrderIsKept: the permission check of a broadcast is not a step, so a command is taken only once it is authorized.
- LockOrder.NoDeadlock: blocking socket calls, the wait for the writer to exit and the admission channel are not locks here.
- Timing.ResponsivePeerNeverTimesOut: both loops start at the same instant, and ticks are not dropped.
- The NATS client, JSON encoding, random IDs, logging, HTTP routing, the upgrade handshake, origin parsing and configuration parsing: library calls or flat checks.
- The sum of latencies, the counters of sent messages, heartbeat timeouts, queue-full closes and broker events: single increments.
- Lookup, Count, Ready and the health and metrics endpoints: they only read.
- Liveness beyond termination of finite programs: nothing is said about how soon a step is taken.
