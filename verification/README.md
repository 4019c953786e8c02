# Verified models of the runtime's stateful core

This Dafny project models six parts of the local runtime whose state outlives a
single request, and proves what they promise for every input, every run or every
interleaving.

| Files | Models |
|---|---|
| `Coordination`, `DesktopGate`, `DesktopGateSafety` | the desktop coordinator: one desktop, a one-token gate, one-shot observations, any number of threads |
| `BrowserBridge`, `BridgeObject`, `BridgeSafety` | the browser bridge: pending calls, extension generations, command queues |
| `DesktopProtocol`, `DesktopTheorems`, `DesktopHistory`, `CancelRequests` | both as one state machine, since a pending browser call can hold the desktop's token; `DesktopHistory` is about what happens between two steps of a run, `CancelRequests` about the way of a cancellation to the browser |
| `DesktopAnswers`, `BridgeAnswers`, `DesktopProgress` | what coordinator and bridge grant and refuse, both ways; and that no state is stuck |
| `Utf8`, `StreamBuffer`, `StreamReader` | the bounded output buffer of a process and a reader that follows it |
| `LaneScheduler`, `LaneSafety`, `LaneTheorems`, `LaneAnswers` | the extension's command scheduler |
| `OAuthGrants`, `OAuthSafety`, `OAuthTheorems`, `OAuthConsent` | the OAuth grant store |
| `TextPatch`, `TextPaging` and their theorems, `TextPatchAcceptance`, `TextPatchSeams`, `PathLocks`, `FileCommits` and its safety and theorems | patching, paging, locking and committing text files |

How the models are built:

- Code that runs under a mutex, or between two turns of the event loop, is one
  atomic step. A step is a function on values (`...Section`, `...Step`), and a
  run is any sequence of events that can happen; a state is reachable if some run
  ends in it. Where threads interleave, every
  channel operation and every call into the backend is a step of its own.
- The source's mutable objects are classes (`Coordinator`, `BridgeServer`,
  `Buffer`, `Scheduler`, `Server`, `Service`). Their methods work in place, with
  the source's loops, and are proved equal to the step functions; the theorems
  are about the step functions.
- Time, random identifiers, failures of the backend or of the random source, and
  the order in which Go or JavaScript walks a map are arguments of a step, so the
  theorems hold for all of them. SHA-256 is an injective function: a digest is
  identified with what it is the digest of.
- Fields called history variables (`log`, `marks`, `sends`, `turns`, `pushed`,
  `settled`, `history`, ...) record what happened; no step reads them, except to
  insist that new identifiers are new.

Four results that the code does not suggest:

- `finishStop` does not look at the status again once it holds the gate
  (internal/computer/coordinator.go:225-233). A stop that began for one owner can
  therefore end the ownership of the next. `OwnershipEndsExactly` says exactly
  which steps end an ownership. `LateStopExactly` says over all runs when a stop
  is the one: exactly if, since it began, a failed acquisition has freed the
  desktop and an owner was admitted whose ownership nothing else has ended.
  `StaleStopEndsOwnership` gives such a run, and `IdOutlivesOwnershipExactly` says
  exactly when the coordinator's `id` survives its ownership.
- A request to cancel a call can be lost for good. `cancelPendingLocked` does not
  ask whether the browser is online, no queue survives its stream, and `cancelSent`
  suppresses every later request (internal/browser/browser.go:505-519,
  internal/browser/connection.go:118). `RequestIsLostExactly` says over all runs
  when it is lost: exactly if it was queued while the browser was offline, or its
  stream was lost or replaced before the dispatch loop took it.
  `RequestCanBeLost` gives a run that ends with the call pending, cancelled and
  holding the desktop, and its browser online again.
- A patch looks only at the new text of a hunk, so context that is not valid
  text can cut a character of a valid file (internal/filesystem/filesystem.go:463-521).
  `PatchedIsTextExactly` says for every patch when the result is text;
  `InsertionsCutCleanlyExactly` and `DeletionJoinsExactly` say it in terms of the
  cuts alone.
- A process buffer needs a limit of three bytes, and no more, for every cursor of
  a valid stream to be a character boundary (`ThreeBytesSuffice`).

`dafny verify dfyconfig.toml` checks the project.

## Model

| member | source | states |
|---|---|---|
| Coordination.Coordinator.Expire | internal/computer/coordinator.go:84-96 | in place, what idle expiry does to the coordinator's fields, and whether it took the desktop |
| Coordination.Coordinator.Admit | internal/computer/coordinator.go:151-164 | in place, admission of an owner, refused when closed, not free, or without an identifier |
| Coordination.Coordinator.AdmitFailed | internal/computer/coordinator.go:169-174 | in place, the unconditional write after a failed acquisition |
| Coordination.Coordinator.Release | internal/computer/coordinator.go:187-197 | in place, release by the owner only, cancelling the operation in progress |
| Coordination.Coordinator.LocalStop | internal/computer/coordinator.go:238-249 | in place, a local stop of whoever owns the desktop |
| Coordination.Coordinator.FinishStop | internal/computer/coordinator.go:229-235 | in place, the end of a stop, whatever the status is by then |
| Coordination.Coordinator.Begin | internal/computer/coordinator.go:266-278 | in place, the second check of `begin` and the start of an operation |
| Coordination.Coordinator.End | internal/computer/coordinator.go:280-296 | in place, the end of an operation, and whether a stop has to be finished |
| Coordination.Coordinator.Observe | internal/computer/coordinator.go:337-346 | in place, the recording of an observation, emptying a table of 64 first |
| Coordination.Coordinator.Consume | internal/computer/coordinator.go:358-363 | in place, the validation of an action, which uses up all observations |
| Coordination.Coordinator.Close | internal/computer/coordinator.go:369-386 | in place, the first close, and that later ones change nothing |
| DesktopGateSafety.DeskStepKeepsInv | internal/computer/coordinator.go:84-386 | every step of any number of threads keeps: the token in one place, one stopper, the operation tracked and authorised or cancelled, observations owned and current, reservations released once |
| DesktopProtocol.StepKeepsInvariant | internal/browser/browser.go:440-664 | every step of coordinator and bridge together keeps their invariants, and that a pending call holds a release function exactly when its reservation is parked there, with one authorize handler per call |
| DesktopProtocol.EveryRunKeepsInvariant | internal/computer/coordinator.go:98-313 | the joint invariant holds in every reachable state of every interleaving |
| DesktopTheorems.OneToken | internal/computer/coordinator.go:98-117 | in every reachable state the token is in the channel and no thread holds it, or out of it and exactly one thread holds it |
| DesktopTheorems.PutBackNeverBlocks | internal/computer/coordinator.go:290 | whoever owes the token finds room in the channel of capacity one, in every reachable state |
| DesktopProgress.TokenCanComeBack | internal/computer/coordinator.go:98-313 | from every reachable state steps of the one thread that holds the token bring it back, a reservation parked in a call by the result of that call; the coordinator stays as open and the desktop is where it was, or free |
| DesktopProgress.StoppingCanEnd | internal/computer/coordinator.go:208-236 | from every reachable state of an open coordinator whose desktop is stopping, some steps make it free |
| DesktopAnswers.WaitersMayLeave | internal/computer/coordinator.go:98-117 | whoever waits for the token can take it exactly while nobody holds it, and may give up at any time |
| DesktopTheorems.OneReservationStored | internal/browser/browser.go:651 | at most one pending call holds a reservation |
| DesktopTheorems.NewOwnerFindsDesktopIdle | internal/computer/coordinator.go:145-164 | a new owner is never admitted while an operation of an earlier control or a borrow is in flight, native or in the browser |
| DesktopTheorems.InFlightIsAuthorisedOrCancelled | internal/computer/coordinator.go:253-313 | an operation in flight still has the authority it began under, or its context is cancelled |
| DesktopAnswers.BeginChecksExactly | internal/computer/coordinator.go:253-260 | in every run, a caller of `begin` goes on to wait for the desktop exactly if no close came before and its control was admitted and nothing has ended that ownership since, or it is a browser call without a control and the desktop is free; otherwise it is refused |
| DesktopAnswers.BeginGrantsExactly | internal/computer/coordinator.go:266-278 | once the caller has the token, the reservation is granted, and tracked as the operation, exactly if that still holds; otherwise the token goes back and nothing changes |
| DesktopAnswers.OperationsEndExactly | internal/computer/coordinator.go:280-295 | the end of an operation cancels its context, forgets it, and gives the reservation and the token back; a caller that the gate refused is told |
| DesktopAnswers.OwnerIsAdmitted | internal/computer/coordinator.go:151-197 | in every run, the coordinator names an owner exactly if that owner was admitted and nothing has ended its ownership since |
| DesktopAnswers.AcquisitionStartsExactly | internal/computer/coordinator.go:145-150 | an acquisition starts exactly while nobody holds the token |
| DesktopAnswers.AdmissionIsGrantedExactly | internal/computer/coordinator.go:151-164 | an acquisition is granted exactly if no close came before, the desktop is free and an identifier could be drawn; the owner then has five minutes; otherwise nothing changes |
| DesktopAnswers.StatusMovesExactly | internal/computer/coordinator.go:84-386 | the status after each step, told from the step and the state before it |
| DesktopAnswers.StopsBeginExactly | internal/computer/coordinator.go:208-216 | a stop begins exactly while the desktop is stopping, the coordinator is open and no other stop is in progress |
| DesktopTheorems.ExpiryWaitsForOperations | internal/computer/coordinator.go:84-92 | idle expiry never takes the desktop from an operation in flight |
| DesktopTheorems.OwnershipOutlastsUse | internal/computer/coordinator.go:163-286 | admission and each beginning and end of an operation of the owner set the expiry to five minutes later; no other step moves it |
| DesktopAnswers.ExpiryIsFromLastUse | internal/computer/coordinator.go:84-96 | in every run, idle expiry takes the desktop from its owner exactly if no operation is in flight and the last use, by admission or by the beginning or end of an operation of its own, was five minutes ago or more |
| DesktopTheorems.OwnershipEndsExactly | internal/computer/coordinator.go:165-249 | which steps end an ownership, both ways; a failed acquisition ends only its own, and a stop that ends one began before that owner was admitted |
| DesktopTheorems.IdOutlivesOwnershipExactly | internal/computer/coordinator.go:229-235 | exactly the last section of a stop that finds an owner leaves `id` behind without an owner |
| DesktopTheorems.StaleStopEndsOwnership | internal/computer/coordinator.go:208-236 | a reachable state in which the stop of owner 7 frees the desktop under owner 8 and leaves its `id` behind |
| DesktopHistory.LateStopExactly | internal/computer/coordinator.go:165-236 | in every run, the last section of a stop ends an ownership exactly if, since that stop began, a failed acquisition freed the desktop, then an owner was admitted, and nothing else has ended that ownership |
| DesktopTheorems.ReservationsReleasedOnce | internal/computer/coordinator.go:279-295 | every granted reservation is held by one thread and unreleased, or was released exactly once |
| DesktopTheorems.StoredReservationSurvives | internal/browser/browser.go:505-664 | a reservation stored in a pending call survives every event but its own result, another boot of its browser and the end of the bridge, and each of these releases it |
| DesktopHistory.WhoRegistered | internal/browser/browser.go:440-453 | in every run, a pending call was registered by a step that named its browser and its control |
| DesktopHistory.ReservationIsForItsCall | internal/browser/browser.go:440-664 | in every run, the reservation that a call holds is parked under the control that the call was registered with, and was asked for by the boot of the browser that runs it while the call was dispatched and waited for |
| DesktopTheorems.ObservationActsOnce | internal/computer/coordinator.go:358-363 | a state identifier authorises at most one action in any run, under the control that observed it, with nothing having emptied the table in between |
| DesktopTheorems.ActionRunsUnderItsControl | internal/computer/coordinator.go:349-368 | an action is performed by the operation in progress under its own control, and empties the table |
| DesktopHistory.ActionFollowsObservation | internal/computer/coordinator.go:337-368 | in every run, an action is passed to the backend exactly if it needs no observation, or the one that it names was recorded under the same control and no step since then invalidated observations: no browser-visible operation, action, release, expiry, stop, close or full table |
| DesktopAnswers.ObservationsAreRecordedExactly | internal/computer/coordinator.go:337-346 | in every run, an observation is recorded exactly if its control still owns the desktop |
| DesktopTheorems.RetainedObservations | internal/computer/coordinator.go:337-346 | retained observations belong to the current owner and are at most 64 |
| DesktopTheorems.CallsBehave | internal/browser/browser.go:446-462 | no result channel is sent to twice, at most 256 calls are pending, an abandoned call that is still pending was dispatched, no command is dispatched twice |
| CancelRequests.TakingAsksTheCall | internal/computer/coordinator.go:187-249 | when a step ends an ownership, or closes the coordinator, while a pending call holds its reservation, the operation of that call is cancelled, the watcher can run, and after it the call is dropped or cancelled with its request queued |
| CancelRequests.CancellationQueuesRequest | internal/browser/browser.go:456-519 | when the watcher runs, or the caller leaves, a call that was not dispatched is dropped; any other has its context cancelled, and a request to stop it is queued on the last stream of its browser, lost or not, unless it was asked before or 256 requests are queued |
| CancelRequests.CancelIsRequestedOnce | internal/browser/browser.go:505-519 | a pending call has at most one request to cancel in one queue, and is then marked |
| CancelRequests.RequestIsLostExactly | internal/browser/connection.go:118-219 | over all runs, the request of a call that stays pending neither waits on a live stream nor has been handed to one exactly if it was queued while the browser was offline, or its stream was lost or replaced before the dispatch loop took it |
| CancelRequests.LostForGood | internal/browser/browser.go:512 | a request that is marked as sent and waits on no live stream is never handed over by any later step |
| CancelRequests.RequestCanBeLost | internal/browser/browser.go:505-519 | a reachable state with a call that is cancelled, marked and still holds its reservation, its browser online and its request on no live stream |
| DesktopTheorems.DispatchedToItsGeneration | internal/browser/connection.go:212-222 | a command is dispatched only on the live stream of the boot it was meant for, while its call is waited for, before its deadline, the first time |
| DesktopTheorems.ResultsComeFromTheirGeneration | internal/browser/browser.go:535-548 | a result is accepted exactly if its call is pending and it comes from the browser and boot of the call, which are those of the stream that the command was queued on |
| DesktopTheorems.CallersAreTold | internal/browser/browser.go:549-560 | a result channel is sent to exactly when the call is pending and not abandoned, and a result comes from its generation or its browser connects again |
| BridgeSafety.BridgeStepKeepsInv | internal/browser/browser.go:431-519 | every section of the bridge keeps the table bounded and well formed, calls on the stream of their own generation, channels and queues with at most one entry per call |
| BridgeSafety.ReceiveKeepsInv | internal/browser/browser.go:535-562 | so does the acceptance of a result |
| BridgeSafety.ConnectKeepsInv | internal/browser/connection.go:77-119 | so does the replacement of a stream; no call of an earlier boot stays in the table |
| BridgeAnswers.RegistrationIsGrantedExactly | internal/browser/browser.go:440-455 | a call is taken exactly if its browser is online and was seen lately and fewer than 256 calls are pending; then it waits for the present boot and stream of the browser, under the control that was named |
| BridgeAnswers.CommandsAreQueuedExactly | internal/browser/browser.go:468-474 | a command is sent once, to the end of the queue of the stream that its call captured, exactly while that has room for it |
| BridgeAnswers.CommandsAreDispatchedExactly | internal/browser/connection.go:212-227 | a command is handed over exactly if its call is waited for, not cancelled and in time, on the present stream; otherwise its call is dropped |
| BridgeAnswers.AuthorizationsStartExactly | internal/browser/browser.go:580-617 | an authorization starts exactly if the boot that runs a dispatched, waited-for call asks, and the call neither holds nor asks for a reservation; the gate, if there is one, is asked for the control of the call |
| BridgeAnswers.AuthorizationsAreAnsweredExactly | internal/browser/browser.go:580-597 | a browser that asks again for a call that holds its reservation may go on, for one that is being authorized has to wait, for any call that it does not run or that nobody waits for is refused |
| BridgeAnswers.FlagsAreHandlersExactly | internal/browser/browser.go:598-635 | in every reachable state, a pending call is marked as authorizing exactly while a handler of it is at work |
| BridgeAnswers.ReservationsAreKeptExactly | internal/browser/browser.go:627-663 | a granted reservation is kept exactly if the call is still pending, waited for and not cancelled; otherwise it goes back at once |
| BridgeAnswers.AuthorizationsEndExactly | internal/browser/browser.go:601-623 | an authorization that was refused, or needs no gate, leaves the call free to be authorized again, or drops it if nobody waits for it |
| BridgeAnswers.StreamsAreTakenExactly | internal/browser/connection.go:77-119 | a stream is taken exactly if the bridge is not stopped and knows the browser or fewer than 32 others; of the calls of that browser exactly those that may be at work with the desktop for the same boot stay, cancelled and abandoned; all others are untouched |
| BridgeAnswers.StreamsEndExactly | internal/browser/connection.go:126-143 | a stream that ends changes something only while it is the present one; then the browser is offline, and of its calls those that may be at work with the desktop stay, cancelled and abandoned |
| BridgeAnswers.BridgeEndsExactly | internal/browser/browser.go:243-252 | the end of the bridge cancels every call, then drops it, and no stream is taken after it |
| BridgeObject.BridgeServer.Register | internal/browser/browser.go:440-455 | in place, the entry of a call, refused when the browser is offline or 256 calls are pending |
| BridgeObject.BridgeServer.CancelPending | internal/browser/browser.go:505-519 | in place, cancellation: a call that was not dispatched is dropped, another is asked to stop unless it has been asked |
| BridgeObject.BridgeServer.Leave | internal/browser/browser.go:456-463 | in place, the caller leaves a pending call abandoned and cancelled |
| BridgeObject.BridgeServer.Receive | internal/browser/browser.go:535-562 | in place, the verdict on a result and the release function to call |
| BridgeObject.BridgeServer.AuthorizeStart | internal/browser/browser.go:580-600 | in place, the first section of an authorization |
| BridgeObject.BridgeServer.AuthorizeUngated | internal/browser/browser.go:601-615 | in place, an authorization without a gate |
| BridgeObject.BridgeServer.AuthorizeFailed | internal/browser/browser.go:617-623 | in place, an authorization that the gate refused |
| BridgeObject.BridgeServer.AuthorizeStore | internal/browser/browser.go:627-663 | in place, whether the pending call keeps the reservation |
| BridgeObject.BridgeServer.DropCalls | internal/browser/connection.go:95-115 | the loop over the pending calls on a reconnection: which calls stay, which callers are told, which reservations are released |
| BridgeObject.BridgeServer.Connect | internal/browser/connection.go:77-119 | in place, a new stream for a browser |
| BridgeObject.BridgeServer.Disconnect | internal/browser/connection.go:126-143 | in place, with its loop, the loss of the current stream |
| BridgeObject.BridgeServer.Dispatch | internal/browser/connection.go:212-222 | in place, one turn of the dispatch loop, which is valid exactly if it marks the call |
| BridgeObject.BridgeServer.Close | internal/browser/browser.go:243-252 | the loop that empties the table and collects the release functions |
| Utf8.DecodeWidthIsChar | internal/process/process.go:911 | DecodeRune sees a character of several bytes exactly where section 4 of RFC 3629 has one |
| Utf8.PrefixOfCharIsNotFull | internal/process/process.go:924 | the beginning of a character is not a full rune |
| Utf8.NotFullIsCompletable | internal/process/process.go:924 | what is not a full rune can be completed to a character |
| Utf8.BoundaryIffRuneStart | internal/process/process.go:900 | a position of valid text is a character boundary exactly if no continuation byte follows |
| Utf8.MatchOnBoundaries | internal/filesystem/filesystem.go:487-496 | a match of valid, non-empty text in valid text begins and ends on character boundaries |
| StreamBuffer.ReadSpan | internal/process/process.go:890-937 | for arbitrary bytes and any cursor: cursor <= start <= next <= total, the span is retained, a complete read reaches the end, a running one leaves at most three bytes |
| StreamBuffer.SkipContinuations | internal/process/process.go:903-906 | the loop over leading continuation bytes counts exactly those |
| StreamBuffer.SkipStraddling | internal/process/process.go:910-918 | the loop finds the end of the character that runs over the index, if one does |
| StreamBuffer.FindUnfinished | internal/process/process.go:926-930 | the loop finds the unfinished character at the end, if there is one |
| StreamBuffer.Align | internal/process/process.go:900-920 | where a read begins |
| StreamBuffer.FindEnd | internal/process/process.go:922-932 | where a read ends |
| StreamBuffer.Buffer.Write | internal/process/process.go:856-870 | the buffer holds exactly the last min(limit, total) bytes of the whole history |
| StreamBuffer.Buffer.Read | internal/process/process.go:878-937 | a read of the retained tail returns what the same read of the whole history would, for every cursor |
| StreamReader.ReadsAreRefusedExactly | internal/process/process.go:878-895 | a read is refused exactly for a cursor that is negative or exceeds what was produced |
| StreamReader.ReadStartsExactly | internal/process/process.go:896-936 | for arbitrary bytes: a read returns the slice that it names and is truncated exactly if that begins after the cursor; it begins at the cursor or the start of retention, but past the remains of a character whose start is not retained, and past a character that the cursor points into |
| StreamReader.ReadEndsExactly | internal/process/process.go:922-932 | for arbitrary bytes: a complete read ends at the end, a running one before the first rune that the last three retained bytes begin and do not complete |
| StreamReader.ReadStartsOnBoundary | internal/process/process.go:897-920 | of a valid stream, a read begins at the first character boundary that is neither before the cursor nor evicted |
| StreamReader.RunningReadEndsOnBoundary | internal/process/process.go:921-932 | of a valid stream, a running read ends with the last complete character |
| StreamReader.BoundaryRead | internal/process/process.go:890-937 | from a boundary, a read is reported truncated exactly if eviction has passed the cursor |
| StreamReader.ReaderFollowsStream | internal/process/process.go:856-937 | however a valid stream is written and polled, every cursor is a boundary, and without truncation what was read is what was written |
| StreamReader.FinalReadCompletesStream | internal/process/process.go:890-937 | and the final complete read then completes the whole stream |
| StreamReader.SmallLimitLosesBoundary | internal/process/process.go:902-908 | with a limit below three a poll can return a cursor inside a character |
| StreamReader.ThreeBytesSuffice | internal/process/process.go:890-937 | polls keep to boundaries exactly if the limit is at least three |
| LaneScheduler.Scheduler.SubmitJob | browser-extension/src/scheduler.ts:10-25 | in place, a submission with its three refusals |
| LaneScheduler.Scheduler.PumpLanes | browser-extension/src/scheduler.ts:41-54 | in place, the loop that gives ready lanes their turns |
| LaneScheduler.Scheduler.BeginJob | browser-extension/src/scheduler.ts:49-51 | whether `execute` is called, which an aborted signal prevents |
| LaneScheduler.Scheduler.EndJob | browser-extension/src/scheduler.ts:52 | in place, the end of a promise chain |
| LaneScheduler.Scheduler.FinishJob | browser-extension/src/scheduler.ts:56-65 | in place, leaving a lane, waking it, settling the job, and pumping |
| LaneScheduler.Scheduler.CancelJob | browser-extension/src/scheduler.ts:27-37 | in place, cancellation of a waiting or a running job |
| LaneScheduler.Scheduler.CancelAll | browser-extension/src/scheduler.ts:39 | in place, the sweep over a snapshot of the identifiers, in any order |
| LaneScheduler.Scheduler.RemoveFrom | browser-extension/src/scheduler.ts:33 | the filter removes exactly the one job and keeps the order |
| LaneSafety.StepKeepsInv | browser-extension/src/scheduler.ts:10-66 | submit, cancel, cancelAll and both links of the promise chain keep the scheduler's invariant and leave no free slot with a ready lane |
| LaneAnswers.SubmissionsAreDecidedExactly | browser-extension/src/scheduler.ts:10-25 | in every run, a submission is accepted exactly if no running or waiting job has its identifier, fewer than `capacity` jobs run or wait, and it has not expired; then exactly one job is at work in addition, with that identifier and lane; otherwise nothing changes |
| LaneAnswers.RefusalsAreExplained | browser-extension/src/scheduler.ts:11-13 | the reason of a refusal: a duplicate first, then capacity, then the deadline |
| LaneAnswers.CancellationsActExactly | browser-extension/src/scheduler.ts:27-37 | cancelling aborts the signal; a waiting job is settled and leaves at once, for a running one nothing else happens, and without such a job nothing at all |
| LaneAnswers.ChainsActExactly | browser-extension/src/scheduler.ts:49-65 | a running job, and no other, has one promise chain; its first link executes exactly if the signal is not aborted, its second settles the job, which leaves |
| LaneTheorems.SlotsAreUsed | browser-extension/src/scheduler.ts:41-65 | `active` counts the running lanes within the limit; the table is the disjoint union of running and waiting jobs, bounded by the capacity; idle lanes with jobs are ready; a free slot leaves no lane idle with jobs |
| LaneTheorems.LanesAreFirstInFirstOut | browser-extension/src/scheduler.ts:19-33 | per lane, submissions without those cancelled in the queue are the starts followed by the queue, in order |
| LaneTheorems.NoLaneIsOvertaken | browser-extension/src/scheduler.ts:41-48 | an idle waiting lane with k lanes ahead takes the k+1st turn from now, after exactly those lanes, waits until then, and then starts a job unless the waiting one was cancelled |
| LaneTheorems.JobsSettleOnce | browser-extension/src/scheduler.ts:56-65 | an accepted job is settled exactly once, when it leaves the table; it executes at most once, and never if it was cancelled while it waited |
| LaneTheorems.CompletionIsNeverStale | browser-extension/src/scheduler.ts:52-57 | a completion always finds its own job running and in the table, and settles it |
| LaneTheorems.AbortedIsNotExecuted | browser-extension/src/scheduler.ts:50 | a job whose signal is aborted is not executed from then on |
| LaneTheorems.CancelStartsNothing | browser-extension/src/scheduler.ts:27-37 | a cancellation starts no other job |
| LaneTheorems.CancelAllLeavesOnlyAborted | browser-extension/src/scheduler.ts:39 | after cancelAll no job waits, every job left is running with its signal aborted, and the sweep has started none |
| OAuthGrants.Server.CleanupAt | internal/oauth/oauth.go:591-618 | the five sweeps leave exactly what is live at that time |
| OAuthGrants.Server.RevokeAll | internal/oauth/oauth.go:549-561 | the loops leave nothing of the family and everything of the others |
| OAuthGrants.Server.Authorize | internal/oauth/oauth.go:290-311 | in place, a new approval ticket, bounded |
| OAuthGrants.Server.Decide | internal/oauth/oauth.go:362-397 | in place, the owner's decision on a ticket |
| OAuthGrants.Server.ExchangeCode | internal/oauth/oauth.go:434-472 | in place, the exchange of a code with its refusals, replay detection and limits |
| OAuthGrants.Server.RotateToken | internal/oauth/oauth.go:473-502 | in place, the rotation of a refresh token with its refusals, replay detection and limit |
| OAuthGrants.Server.RevokeToken | internal/oauth/oauth.go:532-544 | in place, revocation by either kind of token |
| OAuthGrants.Server.ValidateBearer | internal/oauth/oauth.go:190-204 | in place, the answer about a bearer token |
| OAuthSafety.CleanupAbsorbs | internal/oauth/oauth.go:591-618 | a cleanup after an earlier one leaves what it would have left alone |
| OAuthSafety.RevokeAgrees | internal/oauth/oauth.go:534-543 | the family that the server revokes is the one that the log of requests names, as long as it lives |
| OAuthSafety.StepKeepsInv | internal/oauth/oauth.go:302-561 | every request keeps the store consistent with the log of requests and responses |
| OAuthTheorems.BearerAgreesWithLog | internal/oauth/oauth.go:190-204 | a token is accepted exactly if a grant issued it less than an hour ago and its family has neither expired nor been revoked since |
| OAuthTheorems.AnswersAgreeWithLog | internal/oauth/oauth.go:290-544 | every answer of every request in every run is determined by the log of requests and responses: among others, a code yields tokens exactly if it was approved less than five minutes ago, is presented with its bindings and proof, was not exchanged, and there is room; a refresh token exactly if its family lives, its own client presents it, it was not rotated, and there is room |
| OAuthTheorems.ChecksAreUnobservable | internal/oauth/oauth.go:190-204 | dropping all bearer checks from a run, with the cleanups they do, changes no later answer |
| OAuthTheorems.EarlierCleanupIsUnobservable | internal/oauth/oauth.go:591-618 | a cleanup at any earlier time changes no answer |
| OAuthTheorems.FamiliesHaveOneUnusedToken | internal/oauth/oauth.go:482-521 | a live family has exactly one unused refresh token, and the client and expiry of the exchange that opened it |
| OAuthConsent.FamiliesAreFixed | internal/oauth/oauth.go:468-501 | no chain of refreshes extends a family or moves it to another client, and a rotation in the family is answered with tokens for that client only |
| OAuthTheorems.CodesAreExchangedOnce | internal/oauth/oauth.go:434-472 | a code yields tokens at most once in a run |
| OAuthTheorems.RefreshTokensRotateOnce | internal/oauth/oauth.go:473-502 | a refresh token yields tokens at most once in a run |
| OAuthTheorems.CodeReplayIsDetectedExactly | internal/oauth/oauth.go:439-449 | a code is reported used exactly if, by the log of requests alone, it was exchanged before, was granted less than five minutes ago, and is presented with the client, redirect, resource and proof of what was approved |
| OAuthTheorems.RefreshReplayIsDetectedExactly | internal/oauth/oauth.go:475-487 | a refresh token is reported used exactly if it was rotated before, its family lives, and its client presents it |
| OAuthTheorems.ReplaysEndTheFamily | internal/oauth/oauth.go:444-487 | after a reported replay no token of the family is ever in the store again |
| OAuthTheorems.StoreIsBounded | internal/oauth/oauth.go:305-500 | access tokens are never more than refresh tokens, in all and per family; refresh tokens at most 16384, families 4096, tickets and codes 2048 |
| OAuthConsent.CodesNeedConsent | internal/oauth/oauth.go:362-397 | a code is granted only if the owner key was shown for an unanswered ticket less than ten minutes old in the browser that asked; with that it fails only for want of room or of randomness; the ticket is then answered |
| OAuthConsent.TicketsGrantOneCode | internal/oauth/oauth.go:362-397 | a ticket yields at most one code in any run |
| OAuthConsent.FamiliesWereConsentedTo | internal/oauth/oauth.go:302-472 | behind every family of any run there are three requests: a client asked; the owner consented to it in the same browser within ten minutes; within five minutes the same client exchanged that code with the same redirect and resource and the proof of the challenge |
| OAuthConsent.AcceptedTokensWereConsentedTo | internal/oauth/oauth.go:190-502 | behind every bearer token that is accepted there are the consent of the owner, the exchange, and the rotations that led to it, each presenting the refresh token of the issue before and each by the client that was consented to, the last one less than an hour ago |
| TextPatch.AllExactMatches | internal/filesystem/filesystem.go:528-543 | the loop returns every match in order |
| TextPatch.Locate | internal/filesystem/filesystem.go:475-497 | the loop locates every hunk, or refuses for the first hunk that is refused and why |
| TextPatch.CheckNeighbours | internal/filesystem/filesystem.go:499-504 | the loop accepts exactly if no two neighbours clash |
| TextPatch.UpdatedSize | internal/filesystem/filesystem.go:505-508 | the loop adds up what the hunks add and remove |
| TextPatch.ApplyAll | internal/filesystem/filesystem.go:512-521 | the loop writes the single pass over the base |
| TextPatch.Patch | internal/filesystem/filesystem.go:426-521 | the whole patch, whatever sorted order the sort returns for equal keys |
| TextPatch.ApartIsDisjoint | internal/filesystem/filesystem.go:498-504 | if neighbours are apart after sorting, all ranges are pairwise disjoint and start at different places |
| TextPatch.SortedSameWay | internal/filesystem/filesystem.go:498-504 | all sorted orders of the hunks are accepted alike, and an accepted one is unique |
| TextPatchTheorems.MatchesAreAllOccurrences | internal/filesystem/filesystem.go:528-543 | the matches are all occurrences, overlapping or not, in ascending order |
| TextPatchTheorems.LocatedIsTheOnlyPlace | internal/filesystem/filesystem.go:487-496 | a hunk is located where its context stands, and only if that occurs nowhere else |
| TextPatchTheorems.PatchIsRightToLeft | internal/filesystem/filesystem.go:512-521 | an accepted patch is the application of its hunks one at a time from right to left |
| TextPatchTheorems.OneHunkReplacesItsMatch | internal/filesystem/filesystem.go:475-521 | a patch with one hunk replaces `old` by `new` between its context and changes nothing else |
| TextPatchTheorems.UpdatedSizeIsExact | internal/filesystem/filesystem.go:505-511 | the size that is checked is the size of the result, and within the limit |
| TextPatchTheorems.PatchKeepsOtherBytes | internal/filesystem/filesystem.go:512-521 | an accepted patch keeps every byte outside the replaced ranges, moved by what the hunks before it add |
| TextPatchTheorems.OrderOfHunksIsIrrelevant | internal/filesystem/filesystem.go:475-521 | the same hunks in another order are accepted alike, with the same result |
| TextPatchAcceptance.PatchIsAcceptedExactly | internal/filesystem/filesystem.go:426-511 | a patch is accepted exactly if the file is text within its limit, there are 1 to 1000 hunks within theirs, the context of each occurs in one place only, the ranges share no byte and no beginning, and the result is within the limit |
| TextPatchAcceptance.PatchIsRefusedExactly | internal/filesystem/filesystem.go:426-511 | why a patch is refused, in order: the number of hunks, the file, the first hunk that cannot be located with its reason and number of matches, ranges that are not apart, the size of the result |
| TextPatchTheorems.PatchKeepsText | internal/filesystem/filesystem.go:463-521 | valid text without NUL patched with hunks of valid text is valid text without NUL; valid context is what callers that send JSON provide, and PatchedIsTextExactly covers every other |
| TextPatchTheorems.InvalidContextCutsCharacters | internal/filesystem/filesystem.go:481-486 | only the new text of a hunk is checked: context that is not valid text can cut a character |
| TextPatchSeams.PatchedIsTextExactly | internal/filesystem/filesystem.go:463-521 | for every accepted patch, whatever its context: the result is text exactly if at each seam the pieces of the file and the new text make up whole characters |
| TextPatchSeams.InsertionsCutCleanlyExactly | internal/filesystem/filesystem.go:475-521 | if every hunk puts something in, the result is text exactly if every piece of the file that stays begins and ends where runes start |
| TextPatchSeams.DeletionJoinsExactly | internal/filesystem/filesystem.go:475-521 | one deletion leaves text exactly if it begins and ends between characters, or what it leaves of the characters that it cuts makes up one |
| TextPaging.ReadSlice | internal/filesystem/filesystem.go:325 | a fragment ends with the first newline, with the end of the file, or with a full buffer |
| TextPaging.ReadTextLine | internal/filesystem/filesystem.go:321-337 | the loop over fragments returns the whole line if it is retained and fits, for every size of buffer |
| TextPaging.ReadText | internal/filesystem/filesystem.go:250-304 | the result of a read depends on the lines of the file only, for every size of buffer |
| TextPagingTheorems.ArgumentsAreRefusedExactly | internal/filesystem/filesystem.go:250-264 | a start line is refused exactly if negative, then a line count outside 0 to 1000000, then a budget outside 0 to 8388608; no other answer is about the arguments |
| TextPagingTheorems.LinesEndAtNewlines | internal/filesystem/filesystem.go:321-337 | a line is not empty, ends with its only newline, and only the last one may have none |
| TextPagingTheorems.PageIsLongestRun | internal/filesystem/filesystem.go:250-304 | for all arguments that are not refused, with line 1 and 1048576 bytes for omitted ones: a page is the longest run of whole lines within both limits; it is truncated, with the number of the next line, exactly if lines are left; the exact reasons for which a read fails |
| TextPagingTheorems.PageAdvances | internal/filesystem/filesystem.go:279-288 | a truncated page names a later line that exists |
| TextPagingTheorems.PagesMakeUpTheFile | internal/filesystem/filesystem.go:238-304 | reading page by page ends without an error exactly if the file is text and every line fits, and then the pages make up the file |
| PathLocks.Service.Register | internal/filesystem/filesystem.go:55-62 | in place, finding or making the lock of a path and referring to it |
| PathLocks.Service.Take | internal/filesystem/filesystem.go:73 | in place, the send on the gate, when it is empty |
| PathLocks.Service.Cleanup | internal/filesystem/filesystem.go:63-70 | in place, giving up a reference; the last one removes the entry |
| FileCommitsSafety.StepKeepsInv | internal/filesystem/filesystem.go:41-84 | every step of any number of calls, and of writers outside, keeps the locks counted and held by one, the edits based on what was inspected, and the versions following from each other |
| FileCommitsTheorems.LocksAreSharedWhileNeeded | internal/filesystem/filesystem.go:55-71 | a path has a lock exactly while a call refers to it, with the exact count, and all of them contend on that one |
| FileCommitsTheorems.LocksExclude | internal/filesystem/filesystem.go:72-84 | no two calls are inside the lock of a path; different paths never share a lock |
| FileCommitsTheorems.NothingIsRetained | internal/filesystem/filesystem.go:63-71 | when all calls are done no lock and no commit slot is retained |
| FileCommitsTheorems.CallsEnterExactly | internal/filesystem/filesystem.go:41-54 | a call is let in exactly while fewer than 256 are at work |
| FileCommitsTheorems.LocksAreGrantedExactly | internal/filesystem/filesystem.go:72-84 | a waiting call gets the lock of its path exactly when no call is inside it |
| FileCommitsTheorems.InspectionDecides | internal/filesystem/filesystem.go:368-400 | a call goes on to publish exactly if its request suits the file: a create finds none, a replacement the content that it expected, both with text within the limit; a patch the content that it expected, with hunks that are accepted |
| FileCommitsTheorems.PublicationDecides | internal/filesystem/filesystem.go:401-410 | publishing writes the content of the request, or the patched one, to that file alone, unless the write fails or a create finds a file by now |
| FileCommitsTheorems.CommitsAreSerial | internal/filesystem/filesystem.go:363-525 | without writers outside, the content that each committed replacement or patch expected is the one its predecessor left, a create finds no file, and the file is what the committed requests make of it one after the other: no update is lost |
| FileCommitsTheorems.CommitsFollowTheirBase | internal/filesystem/filesystem.go:377-410 | even with writers outside, the base of a commit is the content its request expected, and the content before it unless that was changed meanwhile; what was written is the content of the request, or what its hunks make of the base; a create never replaces a file |
| FileCommitsTheorems.SameVersionCommitsOnce | internal/filesystem/filesystem.go:390-398 | if two committed requests expected the same content and the first changed it, a commit between them wrote it again |
| FileCommitsTheorems.FilesAreCreatedOnce | internal/filesystem/filesystem.go:363-410 | without writers outside, no create is committed for a file that already has a version |

## Left out

- HTTP, WebSocket and JSON handling, cookies, the consent page, client authentication and header policy: handlers are steps on values that are already parsed.
- Tab handles and their routes (internal/browser/browser.go:405-429, internal/browser/connection.go:90-94): bookkeeping that no other property needs.
- Registration of call identifiers: identifiers, tokens and keys drawn at random are taken to be new; a collision is not modelled.
- The queue of 64 threads that may wait for the gate (internal/computer/coordinator.go:99-104): a waiting thread may give up at any time instead, which allows more runs.
- The 30- and 35-second deadlines of operations and calls: an operation context may be cancelled, and the watcher of a call run, at any time.
- The native backend: its calls succeed or fail; a State or Act thread may observe or act more than once before it ends, which allows more runs.
- The `label` of an owner and the status report of `Control`: they are only displayed.
- Desktop observations without a control (internal/computer/coordinator.go:319-327): they touch no state.
- Liveness: that a backend, an extension, a client or a caller eventually answers is not claimed anywhere; only that a step which helps is always possible.
- StreamBuffer.Buffer.Write: does not model the wrap-around of the 64-bit total after 2^63 bytes, nor the capacity of the underlying array.
- The session registry, process launching and terminals around the buffer.
- The values and reasons with which a scheduler job is settled: the model says that and when it is settled, not with what; whether an execution that is rejected with `undefined` resolves is not stated.
- Timers of the scheduler: a deadline that passes is a cancellation that may come at any time.
- TextPatch.Patch: the refusal of overlapping hunks does not name the two hunks, because that depends on the order in which the sort leaves equal keys.
- TextPatch.SortSlice: stands for the library's sort and promises only a sorted permutation.
- Directory listing, file information, search, MIME detection and symbolic-link checks of the filesystem service; `commitIdentity` is taken as given, one key per file.
- Temporary files, modes and durability of a published file: publishing is one atomic step that may fail.
- Secrets, PKCE and digests are abstract values; that SHA-256 is injective and that random tokens are unpredictable is assumed.
