# resource-bridge-cli: a verified model

A Dafny 4.11 model of the four protocols at the heart of the client (`src/client/`) and proofs of what they promise over
whole runs. `dafny verify dfyconfig.toml` checks all of it.

1. **Token refresh across processes** (`src/client/auth/`). `RefreshProtocol.dfy` is a state machine of any number of processes
   (refreshes, logins, logouts), one database with one write lock, and gateways that rotate refresh tokens and revoke a whole family
   when a consumed one is shown again. Its theorems are about every interleaving. `TokenStore.dfy`, `GatewayAuth.dfy` and
   `GatewayLogin.dfy` are the imperative code (`openTokenStore`, `resolveCachedToken`, `loginToGateway`); each of its steps is proved
   to be a step of that machine, so the theorems hold of the code among any other processes. `StreamCommand.dfy` composes a resolution
   with the stream on one time budget.
2. **The status watcher** (`src/client/statusWatch.ts`). `WatchTransducer.dfy` says what is written as a pure function of what the
   polls read; `StatusWatch.dfy` is the watcher as a class over a virtual clock, proved to write exactly that. `StatusModel.dfy` and
   `PreciseTime.dfy` (over `Digits.dfy`) are the document model and the nanosecond time order beneath it.
3. **The notification queue and the two runs that use it**. `UpdateQueue.dfy` is the bounded buffer with its single waiter;
   `Stream.dfy` and `Subscription.dfy` are the two clients. `Session.dfy` holds their awaits: between awaits the program runs
   alone, and during one the outside world does whatever a script says. The theorems hold for every script, and a script that ends
   while a run is parked makes every reachable parked state a final state, so they cover all of those too.
4. **JSON Pointer and device login polling**: `JsonPointer.dfy` (RFC 6901, sections 3 and 4) and `DevicePolling.dfy`
   (RFC 8628, section 3.5).

## What is assumed of the environment

- Time moves only while a program waits, sleeps or reads. A sleep of the watcher wakes on time; device polling only assumes that a
  sleep is never too short. Times are whole milliseconds.
- The server changes the resource before it publishes the change, so a notification carries a version the server already has, and a
  read that starts later returns a version at least that new.
- The MCP SDK settles a call by its timeout, and `AbortSignal.timeout` and SQLite's `busy_timeout` are honoured at the time they are set to.
- A gateway consumes a refresh token only by rotating it, and revokes a family of its own accord or when a consumed token is shown.
- Nothing is assumed about responses that are lost, or about requests that are given up. An abort, a network error or the death of
  a process ends the wait for a refresh, not the request: if it has not reached the gateway, it may do so at any later time, or never,
  and it does so at most once.

## What a refresh can cost

A token family *loses* a token when the gateway has consumed it and the replacement does not end up in the database: the response
fails or does not name the replacement, the process dies, the commit fails, or a request that its sender gave up on arrives and
rotates with nobody to receive the answer. The code cannot repair that; a new login does. The theorems say that a loss happens at
exactly those steps, and that a consumed token is shown to a gateway only for a family that lost one, or in a request that came late.

A late request also does harm where nothing was lost: if another process has refreshed in the meantime, it shows a consumed token and
the gateway revokes the family the row holds (`ALateRequestRevokesTheFamily` is such a run; `LateRequestIsReplayExactlyWhen` says when).
So the promise at src/client/auth/gatewayAuth.ts lines 175 to 182, that only the lock holder presents a refresh token, holds of the
processes but not of what reaches the gateway after the time limit of lines 185 to 196 has fired.

## Where the code and its documentation differ

- README.md line 165 says a `state` line is written when `(state, holdReason, round, queuePosition)` changes. The code compares the
  whole observation: a change of `eventId` or of the auto-pause details alone also writes one (`RepeatedTupleIsReportedWhen`).
  The model follows the code.
- The queue answers like the unbounded log of notifications exactly while the reader lags by at most 100; beyond that it gives the oldest
  one it still has (`BufferRefinesLog`).
- Waits on the queue must not overlap: a second wait replaces the first in the queue, which then misses a failure. After a failure some
  wait can still time out if and only if one was overlapped when it came (`TimesOutAfterFailureExactlyWhen`). Both clients wait one at
  a time.
- The interval of a device login is used as the server sent it. With a zero or negative one only the lifetime of the code bounds the
  polls: with the default sleep, which lasts at least a millisecond, 1000 for each second of it can be sent and no more
  (`PollsEachMillisecond`). With a sleep passed in that takes no time at all, there is no bound (`SureToEndExactlyWhen`).

## Model

| member | source | states |
|---|---|---|
| `RefreshProtocol.RunKeepsInv` | src/client/auth/gatewayAuth.ts:174-243 | over every interleaving, late requests included: one process inside the lock; each stored refresh token is its family's newest, except while the lock holder has spent it or after a loss; logins hold fresh families; what the holder re-read is still committed; a request adrift holds no newer token than the row of its family |
| `RefreshProtocol.ConsumedTokensAreShownOnlyAfterFaults` | src/client/auth/gatewayAuth.ts:174-215 | over every run: a token shown by a process inside the lock was consumed exactly if its family had lost one, and a late one only if so or because it came late; some family has lost one exactly if a fault occurred; without faults and late requests no consumed token is ever shown |
| `RefreshProtocol.LostExactlyAtFault` | src/client/auth/gatewayAuth.ts:195-242 | a family loses a token exactly at: a response lost after rotation, a crash or failed commit while the token is spent, a commit whose response did not name the replacement, a given-up request that rotates when it arrives |
| `RefreshProtocol.LateRequestIsReplayExactlyWhen` | src/client/auth/gatewayAuth.ts:195-215 | a given-up request that arrives shows a consumed token exactly if the family has lost one, the row holds a later token, or the holder has spent the row's |
| `RefreshProtocol.LateRequestSparesALaterLogin` | src/client/auth/gatewayAuth.ts:122-128 | a given-up request for a family that a login replaced changes neither the row nor the standing of the login's family |
| `RefreshProtocol.ALateRequestRevokesTheFamily` | src/client/auth/gatewayAuth.ts:195-215 | there is a run without faults in which a given-up request revokes the family whose newest token the row holds |
| `RefreshProtocol.RevokedOnlyForAReplay` | src/client/auth/gatewayAuth.ts:174-181 | over every run, a family is revoked only by its gateway's own will or because a consumed token of it was shown |
| `RefreshProtocol.NoFamilyIsRevoked` | src/client/auth/gatewayAuth.ts:174-181 | in a run without faults and late requests every revoked family was revoked before or by its gateway's own will |
| `RefreshProtocol.NextRefreshAfterALoss` | src/client/auth/gatewayAuth.ts:214-222 | once a family lost a token, presenting the stored one is a replay, revokes the family, and ends in login required |
| `RefreshProtocol.ALostResponseIsReplayed` | src/client/auth/gatewayAuth.ts:214-241 | there is a run in which one lost response leads to a replay |
| `RefreshProtocol.LoginMends` | src/client/auth/gatewayAuth.ts:121-128 | after any run, a login that saves puts a refresh token that is neither lost nor consumed in the row |
| `RefreshProtocol.OneRefreshServesAll` | src/client/auth/gatewayAuth.ts:198-206 | after a refresh stored expiry e, and while the clock is below e - 300000, no process shows a refresh token for that origin, in any continuation without a login or logout for it: what arrives was adrift before, each at most once |
| `RefreshProtocol.WaitersTakeTheStoredToken` | src/client/auth/gatewayAuth.ts:198-206 | meanwhile each waiter that gets the lock in time returns the stored token without a request |
| `RefreshProtocol.RefreshStoresTheGrant` | src/client/auth/gatewayAuth.ts:214-242 | from the request to the commit: the row gets the granted access token, the same client id, the expiry counted from the response, and the named refresh token, or the old one if none was named; the family has lost a token exactly if the gateway rotated without saying so |
| `RefreshProtocol.RefusalEndsTheRefresh` | src/client/auth/gatewayAuth.ts:216-231 | a refusal ends a refresh in login required for invalid_grant, invalid_client and unauthorized_client, and in that OAuth error for every other code; the rows stay and the lock is free |
| `RefreshProtocol.FailureEndsTheRefresh` | src/client/auth/gatewayAuth.ts:244-252 | a failed request ends it as timed out exactly for an abort, and in that error otherwise |
| `RefreshProtocol.RecheckDecides` | src/client/auth/gatewayAuth.ts:184-211 | what happens first under the lock, for every budget and every row: time out, login required, the stored token while it lives more than 300000 ms, or a refresh |
| `RefreshProtocol.CommitStoresTheGrant` | src/client/auth/gatewayAuth.ts:233-242 | whatever the others do in between, a commit stores what the answer granted; a named replacement is the family's newest unless a late request has consumed it |
| `RefreshProtocol.ReturnedTokenIsStored` | src/client/auth/gatewayAuth.ts:204-242 | the access token a refresh returns is the one in the committed row |
| `RefreshProtocol.RowsChangeOnly` | src/client/auth/tokenStore.ts:184-197 | committed rows change only at a refresh's commit, a login's save and a logout; failures, timeouts and crashes leave them as they were |
| `RefreshProtocol.AtMostOneInside` | src/client/auth/tokenStore.ts:160-183 | two processes are never inside the lock at once |
| `RefreshProtocol.LeavingFreesTheLock` | src/client/auth/tokenStore.ts:184-197 | however a process leaves the lock, the lock is free afterwards |
| `StatusWatch.RunStatusWatch` | src/client/statusWatch.ts:197-243 | writes exactly Report of its polls, each poll being what the file gave then; ends by startedAt + timeoutMs; decided by the last poll alone; the exit code is the one its last line stands for |
| `WatchTransducer.ReportFixesExit` | src/client/statusWatch.ts:107-195 | every report exits 0 exactly on a state line of a review finished as completed with exit code 0 or none, 1 on any other finished one, 3 on action_required, which follows a review waiting with hold reason manual at once, and 4 on a timeout line |
| `StatusWatch.VerdictMeans` | src/client/statusWatch.ts:112-142 | no file, another schema version, a document of the contract, and what is worth reading again, in terms of the raw file |
| `StatusWatch.ReadGoesAsTried` | src/client/statusWatch.ts:90-142 | a read in full: up to three attempts, each tried again after 200 ms exactly if it came to nothing and there is time, and how the last one ends it, to the millisecond |
| `WatchTransducer.StateLinesAreSightings` | src/client/statusWatch.ts:145-195 | the observations in state lines are the stutter-free sequence of sightings up to the first terminal one; gaps do not reset the comparison |
| `StatusWatch.StatesComeFromEntries` | src/client/statusWatch.ts:134-195 | every observation in a state line tells, member by member, the first of the newest entries for the key, received strictly after `after`, in the file a poll's last attempt read; a finished one only if the items held no such entry |
| `WatchTransducer.ReportIsGrammatical` | src/client/statusWatch.ts:107-240 | every finished report follows the line grammar and ends in its one terminal line, whose kind is the exit code |
| `WatchTransducer.GrammarInContext` | src/client/statusWatch.ts:145-240 | each line in its place: terminal exactly last; recovered only after an open unobservable; unobservable changes reason; no state, not_received or action_required while unobservable; not_received once; a heartbeat names the state last shown, or unobservable |
| `WatchTransducer.LinesTellOfPolls` | src/client/statusWatch.ts:145-240 | every line is written when a poll ends and says of that poll what it should: its observation, the reason it shows nothing and its age, how long nothing has been received, the time elapsed |
| `WatchTransducer.TimeoutTells` | src/client/statusWatch.ts:107-110 | a run that times out adds one line, with the time it ran |
| `WatchTransducer.OpenReasonIsTheLast` | src/client/statusWatch.ts:206-233 | the unobservable reason that the lines leave open is the one the last poll gives, if any; a poll older than staleMs is stale |
| `WatchTransducer.NotReceivedExactlyWhen` | src/client/statusWatch.ts:146-156 | not_received has been written exactly if some poll saw no entry after notReceivedMs |
| `WatchTransducer.PollsAreBounded` | src/client/statusWatch.ts:197-243 | at most ceil(timeoutMs / intervalMs) polls |
| `WatchTransducer.RunIsPaced` | src/client/statusWatch.ts:235-242 | line gaps are below heartbeatMs + intervalMs + the longest poll; heartbeats only after heartbeatMs of silence; the timeout line exactly at the deadline |
| `StatusWatch.NoLongSilence` | src/client/statusWatch.ts:112-142 | consecutive lines, and the start and the first line, are less than heartbeatMs + intervalMs + 3d + 400 ms apart when a file read takes at most d |
| `WatchTransducer.RepeatedTupleHasNewDetails` | src/client/statusWatch.ts:157-161 | over any polls: of two state lines in a row with the documented tuple unchanged, the second has another event id or other auto-pause details |
| `WatchTransducer.RepeatedTupleIsReportedWhen` | README.md:165-165 | a sighting with the tuple of the last state line is written exactly when the event id or the auto-pause details have changed |
| `StatusWatch.TupleAloneDoesNotDecide` | README.md:165-165 | files on which every run of the watcher writes two state lines with one tuple |
| `Streams.RunResourceStream` | src/client/streamClient.ts:56-190 | for every behaviour of the world: the events are the trace of the reads; matched exactly when the last text holds the expected value at a path its JSON Pointer spells, and then without an error; nothing decided after the budget; how the calls settled decides exactly when it throws, which refusal it reports and what it reports as acknowledged; a run with nothing left but to wait is parked, and has lost no update |
| `Streams.TraceIsGrammatical` | src/client/streamClient.ts:126-172 | an ack, one post-listen snapshot, then notification snapshots; each carries its text and document, and is matched exactly when the text holds the expected value; only the last can match |
| `Streams.CoalescedCounts` | src/client/streamClient.ts:161-172 | there are no more notification snapshots than notifications received |
| `Subscriptions.RunResourceSubscription` | src/client/subscriptionClient.ts:253-442 | for every behaviour of the world: no error exactly when the route is not timeout and the final text is not POLL_AFTER; pre-completion has no notification and a changed text; notifications taken one by one; how the calls settled decides exactly when it throws, which refusal it reports, and what it reports as listed, read, acknowledged and closed; the budget runs from the first read; a run with nothing left but to wait is parked, and has lost no update |
| `Subscriptions.DeadStreamIsNotATimeout` | src/client/subscriptionClient.ts:246-251 | a run whose stream had died when its failing wait settled reports the disconnect or the close, and never a timeout |
| `UpdateQueues.EveryRunKeepsInv` | src/client/subscriptionClient.ts:101-195 | over every run: the buffer holds the newest min(100, received) consecutive events, every wait settles at most once, a parked wait has nothing newer to take |
| `UpdateQueues.NotificationMeans` | src/client/subscriptionClient.ts:116-136 | a notification of the resource is counted, remembered, and wakes the parked wait exactly if it is later than the wait's position; any other is ignored |
| `UpdateQueues.CancelMeans` | src/client/subscriptionClient.ts:187-193 | after cancel nothing is heard, and the parked wait never settles |
| `UpdateQueues.BufferRefinesLog` | src/client/subscriptionClient.ts:113-127 | the buffer answers like the unbounded log if and only if the reader lags by at most 100; else with the oldest retained event |
| `UpdateQueues.OneAtATimeLeavesNoOther` | src/client/subscriptionClient.ts:145-186 | with waits one at a time, only the parked wait is unsettled |
| `UpdateQueues.WaitAfterFailure` | src/client/subscriptionClient.ts:145-157 | after a failure a wait settles at once: with what is buffered, else with the failure |
| `UpdateQueues.NoTimeoutAfterFailure` | src/client/subscriptionClient.ts:151-186 | once it has failed with no overlapped wait, no wait ever times out, whatever follows, and the failure stays the first |
| `UpdateQueues.TimesOutAfterFailureExactlyWhen` | src/client/subscriptionClient.ts:163-186 | after a failure some wait can still time out if and only if a wait was overlapped when it came |
| `UpdateQueues.OverlappingWaitsMissTheFailure` | src/client/subscriptionClient.ts:163-176 | two waits made together leave the first overlapped |
| `UpdateQueues.FailFreesTheWaiter` | src/client/subscriptionClient.ts:178-186 | a failure rejects exactly the parked wait |
| `JsonPointer.TwoPassesAreOne` | src/client/untilCondition.ts:47-47 | replacing ~1 and then ~0 equals one left-to-right decoding pass, on every string |
| `JsonPointer.DecodeInvertsEncode` | src/client/untilCondition.ts:47-47 | decoding inverts the encoding of RFC 6901, and encoded tokens hold no slash |
| `JsonPointer.PrintedPointerResolves` | src/client/untilCondition.ts:40-61 | the pointer printed from a path resolves to the value at that path |
| `JsonPointer.ResolvesExactlyPaths` | src/client/untilCondition.ts:40-61 | a pointer resolves exactly if its tokens are those of a path of the document, and to the value there |
| `JsonPointer.OneTokenPerElement` | src/client/untilCondition.ts:48-53 | each array element is reached by exactly one token, its decimal index, and no other token reaches into an array |
| `JsonPointer.PrintIsInjective` | src/client/untilCondition.ts:40-61 | different paths of a document print differently |
| `JsonPointer.UntilReachesPath` | src/client/untilCondition.ts:17-67 | a condition on a path can be written exactly if its pointer has no equals sign, and then holds exactly if the value there is the expected one |
| `JsonPointer.SnapshotShows` | src/client/untilCondition.ts:64-81 | a snapshot carries the parsed text, and is matched exactly when that is a document that holds the expected value at a path its JSON Pointer spells |
| `JsonPointer.SnapshotOfPath` | src/client/untilCondition.ts:17-81 | the same for a condition written for a path: a text that does not parse never matches, and one with that path matches exactly by the value there |
| `JsonPointer.UntilIsParsedExactly` | src/client/untilCondition.ts:17-38 | which conditions are accepted, with what pointer and value, and which are rejected and why |
| `PreciseTimes.ParseDenotes` | src/client/statusWatchModel.ts:18-31 | a parsed time is seconds x 10^9 + floor(fraction x 10^9), for any number of digits |
| `PreciseTimes.SplitIsExact` | src/client/statusWatchModel.ts:15-25 | the timestamps are exactly a date and time of day, perhaps a dot and at least one digit, and a Z |
| `PreciseTimes.OrderOfTexts` | src/client/statusWatchModel.ts:18-42 | two time texts compare as the nanoseconds they denote |
| `PreciseTimes.CompareIsTotalOrder` | src/client/statusWatchModel.ts:34-42 | comparison is a total order |
| `PreciseTimes.MsIsFloor` | src/client/statusWatchModel.ts:45-47 | milliseconds are the floor of nanoseconds |
| `PreciseTimes.MsIsMonotone` | src/client/statusWatchModel.ts:45-47 | and monotone in the order |
| `StatusModel.LatestIsFirstMaximal` | src/client/statusWatchModel.ts:209-224 | Latest is the first of the entries for the key, strictly after `after`, whose time is maximal, and None exactly if there is none |
| `StatusModel.FirstMaximalIsUnique` | src/client/statusWatchModel.ts:209-224 | and only that entry |
| `StatusModel.ObserveDecides` | src/client/statusWatchModel.ts:230-259 | active exactly if a qualifying item exists; finished exactly if not and a qualifying recent one does; and which entry it shows |
| `StatusModel.PreviousRoundIsFirst` | src/client/statusWatchModel.ts:254-258 | when nothing qualifies, the previous round is that of the first item for the key, if there is one |
| `StatusModel.ObservationOfFile` | src/client/statusWatchModel.ts:148-259 | what a whole file is observed as, in terms of its raw values |
| `StatusModel.ObservationsTellTheFields` | src/client/statusWatchModel.ts:115-253 | an observation has each member from the raw member of its name, when that has the right type |
| `StatusModel.DetailsAreTheFields` | src/client/statusWatchModel.ts:88-113 | auto-pause details are accepted exactly when every member is what it must be, and then are those members |
| `StatusModel.EntryNeeds` | src/client/statusWatchModel.ts:115-121 | a raw value is an entry exactly if it has a key, a state and a time of receipt that are strings |
| `StatusModel.FirstMaximalIsNewest` | src/client/statusWatchModel.ts:209-224 | in terms of the raw values, the entry chosen is a newest one for the key received strictly after `after` |
| `StatusModel.BrokenEntryIsDroppedAlone` | src/client/statusWatchModel.ts:115-142 | a malformed value is dropped without touching the others |
| `StatusModel.AcceptedDocumentKeepsDetails` | src/client/statusWatchModel.ts:158-173 | in an accepted document an entry has auto-pause details exactly if its value carries them |
| `DevicePolling.WaitBeforePoll` | src/client/auth/oauthClient.ts:194-220 | poll i waits interval + 5 x (slow_downs so far) seconds after the answer before it and is not sent after the deadline |
| `DevicePolling.PollsAreBounded` | src/client/auth/oauthClient.ts:194-201 | with interval I >= 1, k polls satisfy k x I <= expiresIn, and the login ends |
| `DevicePolling.SlowDownsAreBounded` | src/client/auth/oauthClient.ts:194-220 | k polls answered slow_down satisfy k x I + 5k(k-1)/2 <= expiresIn |
| `DevicePolling.LifetimeBoundsPolls` | src/client/auth/oauthClient.ts:194-201 | whatever the interval, a login whose sleeps last at least a millisecond ends, after at most 1000 x expiresIn polls |
| `DevicePolling.PollsEachMillisecond` | src/client/auth/oauthClient.ts:178-201 | with a zero or negative interval and the default sleep, n bounds the polls if and only if n >= 1000 x expiresIn |
| `DevicePolling.SureToEndExactlyWhen` | src/client/auth/oauthClient.ts:192-217 | some bound on the number of polls holds whatever is answered if and only if the interval is positive, every sleep takes time, or the code has expired already |
| `DevicePolling.LoginAsTold` | src/client/auth/oauthClient.ts:194-224 | in terms of the raw answers: each poll is sent when its wait is over and by the deadline; polling goes on exactly after authorization_pending and slow_down, 5 seconds slower after the latter; any other error code, an accepted body or no response ends it with just that; expired_token exactly when a wait is over only after the deadline |
| `DevicePolling.TokenResponseReadsBack` | src/client/auth/oauthClient.ts:159-169 | a response is accepted exactly with a non-empty access token; a printed response reads back, with or without a refresh token and a lifetime |
| `DevicePolling.TokensAreTheFields` | src/client/auth/oauthClient.ts:159-169 | the tokens of an accepted response, member by member |
| `StreamCommand.RunStreamCommand` | src/client/cli.ts:586-592 | whatever authentication took, the stream's deadline is the command's; nothing is decided after it; a notification timeout is reported exactly at it |
| `GatewayAuth.ResolveCachedToken` | src/client/auth/gatewayAuth.ts:143-253 | every step is a step of the protocol; the outcome is the one the protocol reaches; none / cache / login required exactly as the first read says; a refreshed token is the committed one; lock, discovery and grant end within timeoutMs; no timeout is reported before the budget is used up, and no refusal that needs a login as another error; busy_timeout is restored |
| `GatewayAuth.AwaitLock` | src/client/auth/tokenStore.ts:168-184 | waits at most max(0, timeoutMs), or 5000 ms without one; enters only when the lock was free; ends as timed out only when it is still held then |
| `GatewayAuth.UnderLock` | src/client/auth/gatewayAuth.ts:184-242 | budget check, re-read and re-check under the lock, then discovery and grant, none of it past the deadline |
| `GatewayAuth.AwaitPresentation` | src/client/auth/gatewayAuth.ts:214-215 | what reaches the gateway is the token re-read under the lock, and the answer is the gateway's; a request given up goes adrift |
| `GatewayAuth.Receive` | src/client/auth/gatewayAuth.ts:216-242 | invalid_grant, invalid_client and unauthorized_client need a login, other refusals are passed on; tokens are saved in the transaction at once |
| `GatewayAuth.Finish` | src/client/auth/tokenStore.ts:184-197 | commits exactly when the function returned and the commit succeeds; otherwise the rows are unchanged; the lock is free |
| `TokenStores.TokenStore.Get` | src/client/auth/tokenStore.ts:127-141 | the row as this connection sees it |
| `TokenStores.TokenStore.Save` | src/client/auth/tokenStore.ts:142-153 | upserts into the own transaction, or commits by itself; busy under another connection's lock |
| `TokenStores.TokenStore.Delete` | src/client/auth/tokenStore.ts:154-156 | removes the row, likewise |
| `TokenStores.TokenStore.BoundWait` | src/client/auth/tokenStore.ts:168-171 | the lock budget is max(0, timeoutMs), or the default |
| `TokenStores.TokenStore.RestoreWait` | src/client/auth/tokenStore.ts:178-184 | the default wait is back whether or not the lock was acquired |
| `TokenStores.TokenStore.TryBegin` | src/client/auth/tokenStore.ts:172-177 | takes the lock exactly if it is free |
| `TokenStores.TokenStore.EndTransaction` | src/client/auth/tokenStore.ts:185-196 | commit publishes the draft, rollback drops it |
| `TokenStores.TransactionIsAtomic` | src/client/auth/tokenStore.ts:160-197 | until commit only the writer sees its writes; commit and rollback are all or nothing |
| `GatewayLogin.LoginToGateway` | src/client/auth/gatewayAuth.ts:95-130 | every step is a protocol step; a successful login ends with its row committed under the authorized client id |
| `GatewayLogin.AuthorizeDevice` | src/client/auth/gatewayAuth.ts:104-119 | a cached client is kept unless the gateway forgot it; at most one registration and one retry; which requests are made |
| `GatewayLogin.SaveApproved` | src/client/auth/gatewayAuth.ts:122-128 | the save waits for another process's lock for at most busy_timeout and then fails |
| `StreamCommand.ResolveBearerToken` | src/client/cli.ts:241-265 | an explicit token wins and touches nothing; no database, no token; otherwise the resolution within the budget |
| `DevicePolling.PollDeviceToken` | src/client/auth/oauthClient.ts:185-225 | the polling loop makes exactly the polls and has the outcome of Login |
| `StatusWatch.StatusWatch.Emit` | src/client/statusWatch.ts:71-84 | one line at the current time, which becomes the last |
| `StatusWatch.StatusWatch.Wait` | src/client/statusWatch.ts:90-105 | sleeping or reading is cut off exactly at the deadline |
| `StatusWatch.StatusWatch.Read` | src/client/statusWatch.ts:112-142 | up to three attempts, 200 ms apart, raced against the deadline: result, attempts and time |
| `StatusWatch.StatusWatch.HandleObservation` | src/client/statusWatch.ts:145-195 | state, not_received and action_required lines and the exit, as the transducer |
| `StatusWatch.StatusWatch.ReportTimeout` | src/client/statusWatch.ts:107-110 | the timeout line and exit code 4 |
| `StatusWatch.StatusWatch.Process` | src/client/statusWatch.ts:206-240 | what follows a read, heartbeat included, as the transducer |
| `StatusModel.LatestAfter` | src/client/statusWatchModel.ts:209-224 | the loop computes Latest |
| `JsonPointer.ResolvePointer` | src/client/untilCondition.ts:40-61 | the loop computes Resolve |
| `UpdateQueues.ResourceUpdateQueue.constructor` | src/client/subscriptionClient.ts:101-111 | an empty queue |
| `UpdateQueues.ResourceUpdateQueue.OnNotification` | src/client/subscriptionClient.ts:116-136 | as Step: count, buffer, and the waiter woken |
| `UpdateQueues.ResourceUpdateQueue.WaitAfter` | src/client/subscriptionClient.ts:145-177 | as Step: answered from the buffer, failed, timed out, or parked |
| `UpdateQueues.ResourceUpdateQueue.OnTimer` | src/client/subscriptionClient.ts:163-168 | as Step: the timer rejects its wait |
| `UpdateQueues.ResourceUpdateQueue.Fail` | src/client/subscriptionClient.ts:178-186 | as Step: failure is sticky and the waiter rejected |
| `UpdateQueues.ResourceUpdateQueue.Cancel` | src/client/subscriptionClient.ts:187-193 | as Step: the waiter and the handler are dropped |
| `Sessions.AwaitUpdate` | src/client/subscriptionClient.ts:145-186 | a wait ends as the queue and the stream's end explain, by its time limit, and is still parked only with nothing newer received |
| `Sessions.Await` | src/client/streamClient.ts:144-154 | a read in progress sees notifications, closes and updates in any order; its text is a version between request and reply; it ends by its time limit |
| `Streams.ReadUntilMatched` | src/client/streamClient.ts:135-173 | the loop keeps the trace, and ends matched, with a justified error, or parked with nothing lost |
| `Subscriptions.Follow` | src/client/subscriptionClient.ts:364-424 | everything between the acknowledgement and cancel: the reads, the waits and the route agree at every step |
| `Subscriptions.WhilePolling` | src/client/subscriptionClient.ts:381-417 | polls on while the text says POLL_AFTER, one notification at a time |

## Left out

- HTTP, SSE and the MCP SDK: their calls are steps that reply, fail or time out.
- SQLite: one committed map of rows, an exclusive writer with a bounded wait, commit and rollback. File permissions, store paths and `updated_at` are not modelled.
- Numbers are integers: fractional options, infinities and -0 are not modelled.
- DevicePolling.WaitBeforePoll: does not model that setTimeout cuts a delay of more than 2147483647 ms, an interval of 25 days, to 1 ms; a sleep is taken to last at least as long as asked.
- `Date.parse`, `JSON.parse` and lower-casing are given functions; the regexes of `extractRecommendedAction` are abstracted to a given predicate that says whether a text is POLL_AFTER.
- An object of a JSON document is a map: the order of members, and which of several equal names wins, is left to the parser.
- The wording of messages, `describeState`, `jsonOutput`, `callJsonOutput` and `streamOutput`: flat text and records.
- `src/client/cli.ts` beyond the time budget, `callClient.ts` and `networkErrorClassification.ts`: they would add only easy members.
- The test fixture in `src/server/`: only its order, update and then publish, is used, as an assumption.
- Token documents are modelled in DevicePolling; in the refresh protocol an answer is already parsed, and a refresh token is a family and a number in it instead of a string.
- A response whose access token is missing counts as a failed request there.
- GatewayLogin.LoginToGateway: the polling inside a login is one step that approves or fails; DevicePolling models the polling itself. Discovery of the endpoints is not modelled there.
- GatewayAuth.ResolveCachedToken: the death of the process itself is a step of the protocol, not of this method.
- Subscriptions.RunResourceSubscription: the connection, the listing and the reads have no time limit in the code, so its result states the deadline for waits only.
