# Concurrent protocols of the agent dashboard, modelled and proved in Dafny

The dashboard shows the output of long-running agents in windows.  Between the daemon that runs the agents, the shell
that owns the windows and the pages inside them, small state machines decide what is shown, who is asked and which
late answer still counts.  Each is correct only if it survives every interleaving of messages, answers, timers and
locks.  This project models ten of them and proves what they are for, over every run.

Each machine is given twice.  A module whose name ends in `Spec` says, as functions on values, what each event does
to the state and to histories of what can be observed; a class changes its fields in place, in the branches and loops
of the code, and is proved to take exactly the steps of those functions.  Nine of the ten classes carry a ghost list
`past` of the events so far (`ProtocolClient` one per view, `ViewCommandBridge` the states in between as well) and the
invariant that their state is the one the machine reaches by these events, so every theorem about runs holds of every
object; `OutputRouter`, whose rebuilds are serialized, carries instead the `history` of its tables' agents, over which
the theorems about its deltas are stated.  Asynchronous functions are cut at their awaits and locked sections at their
locks: whatever the code allows in between may happen in between.  Where a method of the code spans several locked
sections, the method here takes what others do in between as an argument.

Where it helps, the promise is stated by a reader of the log that knows nothing of the machine (`ReplayLog.Read`,
`OutputChannelLog.Read`, `ReaperInvariants.Read`): it turns `Bad` at the first entry that breaks the promise, and the
theorem is that it never does.

A machine also keeps histories of its own: the frames received, the value wanted, the deaths dealt with.  So that no
theorem rests on a history the machine could fill as it pleases, each of them is proved equal to a function of the
events and of what was observed (`ReplayEffects.RunReceives`, `ReporterInvariants.RunGoal`,
`WsReplayEffects.RunExplained`, `FirstPaintEffects.RunLogged`, `ReaperEffects.RunHistories`,
`OutputChannelEffects.RunHistories`, `ViewSeatsEffects.RunShows`, `ViewHostSpec.LastReportCounts`); and for every event
the modules whose names end in `Effects` state what it must bring about after any run, in the same terms, with the
limits written out as numbers.

| files | machine |
|---|---|
| `Frames`, `ReplaySpec`, `ReplayLog`, `ReplayInvariants`, `ReplayLadder`, `ReplayFence`, `ReplayOverflow`, `ReplayCatchUp`, `ReplayCorner`, `ReplayEffects`, `SubState`, `ProtocolClient` | replay of an agent's output into a view |
| `WsReplay`, `WsReplayEffects`, `WsTransport` | one outstanding replay request per agent |
| `ReporterSpec`, `ReporterInvariants`, `LatestValueReporter`, `RetryInvoke` | latest-value reporter with bounded retry |
| `OutputChannelSpec`, `OutputChannelLog`, `OutputChannelEffects`, `TauriTransport` | registration of a window's output channel |
| `ReaperSpec`, `ReaperInvariants`, `ReaperEffects`, `Reaper` | the reaper among respawns |
| `FirstPaintSpec`, `FirstPaintHistory`, `FirstPaintEffects`, `FirstPaint` | first-paint ticket gate |
| `ViewSeatsSpec`, `ViewSeatsEffects`, `ViewSeats` | pending seats of webview commands |
| `ViewHostSpec`, `ViewHost` | host of webview commands and the pushed command list |
| `ThemeGateSpec`, `Theme` | theme gate |
| `LayoutModel`, `SubscriptionDeltas`, `OutputRouter` | routing table and subscription deltas |
| `Orders`, `Wrappers` | lexicographic order and sorting, `Option` |

Three statements of the repository turn out not to hold as written; the code is modelled as it is, a concrete run shows
the failure and the exact condition is proved:

- the comment on the held frames (src/api/protocolClient.ts:121-125) says the table is empty outside the live phase.  A
  mount that may not attach (src/api/protocolClient.ts:940-947) sets the phase alone and leaves what a live view holds:
  `ReplayCorner.HeldOutsideLiveHappens`, `ReplayInvariants.HeldOnlyLiveStep`, `ReplayInvariants.RunHeldOnlyLive`.
- the comment in the overflow branch (src/api/protocolClient.ts:337-344) says that after an overflow no marker can
  flush until the generation of the re-requested replay is known.  An answer to a request made before the overflow may
  still be on its way; it sets the generation again, and that request's marker then makes the view live on an empty
  buffer and cancels the re-request: `ReplayOverflow.OverflowLosesContent`, `ReplayFence.PromiseKeptIff`.
- the comment on the delta test (src-tauri/src/output_router.rs:624-628) says that everything ever subscribed less
  everything ever unsubscribed is the table.  That loses an agent that leaves and returns:
  `SubscriptionDeltas.ReturningAgent`, `SubscriptionDeltas.UnionFormulaIff`; applying the deltas in order is right
  (`SubscriptionDeltas.FoldedIsFinal`).

A fourth, that a forgotten host's names stay with the daemon, is documented in the code itself;
`ViewHostSpec.ForgottenHostLeavesNames` is such a run, and `ViewHostSpec.FoldedIsAdvertised` shows that forgetting any
other reporter is harmless.

`dafny verify dfyconfig.toml` checks everything.  Nothing was executed: the statements are about the model.

## Model

| member | source | states |
|---|---|---|
| ReplayInvariants.RunDelivers | src/api/protocolClient.ts:285-504 | over every run the log reads cleanly, the cursor is the reader's, an unknown incarnation means nothing delivered or a restart pending, and a live view has delivered exactly start..n-1 and holds exactly the received numbers above n, n being the first number not received; what was received is what the events say (ReplayEffects.RunReceives) |
| ReplayInvariants.DeliveredInOrder | src/api/protocolClient.ts:300-309 | between two resets the delivered numbers strictly increase |
| ReplayInvariants.DeliveredWithoutSkips | src/api/protocolClient.ts:477-496 | every number up to the cursor was delivered since the last reset, unless a replay since then began beyond it |
| ReplayInvariants.IncarnationsNeverMix | src/api/protocolClient.ts:452-473 | chunks and flushes of two incarnations have a reset between them |
| ReplayInvariants.ArrivalOrderDoesNotMatter | src/api/protocolClient.ts:285-382 | the live views after any two runs that start alike and received the same frames, in any order, any number of times and on either side of the marker, have delivered and hold the same |
| ReplayInvariants.RunBounded | src/api/protocolClient.ts:320-382 | buffer and held table stay within 8192 frames and 4 MiB in every reachable state and both byte counters are exact sums, although a flush never tests the held limit |
| ReplayInvariants.HeldOnlyLiveStep | src/api/protocolClient.ts:940-947 | nothing is held outside live after an event if and only if the event is not a refused mount on a live view that holds frames |
| ReplayInvariants.RunHeldOnlyLive | src/api/protocolClient.ts:670-680 | over every run without such a mount nothing is held outside live |
| ReplayCatchUp.CatchesUp | src/api/protocolClient.ts:546-569 | from every reachable view that the roster makes start over, the answer, the frames and the marker of the replay, in any order and with markers of older replays in between, leave the view live with everything from the head to the first missing number delivered, the rest held, the ladder reset and no timer armed |
| ReplayCatchUp.CatchesUpCompletely | src/api/protocolClient.ts:698-722 | a replay that brings every number from the head up to n has all of them delivered |
| ReplayCorner.HeldOutsideLiveHappens | src/api/protocolClient.ts:940-947 | a concrete run that ends detached with frames held |
| ReplayEffects.RunTold | src/api/protocolClient.ts:285-316 | over every run the phase is the one the consumer was told last |
| ReplayEffects.RunReceives | src/api/protocolClient.ts:291-315 | over every run the arrivals are exactly the frames that came while the consumer was told the view buffers or is live, since it last started anew or overflowed, as the events and the log show it |
| ReplayEffects.LiveHasReceived | src/api/protocolClient.ts:295-309 | over every run a live view has delivered, of the frames it was sent, everything from where its last flush began to the first number that did not come, and holds everything beyond |
| ReplayEffects.WaitingHasReceived | src/api/protocolClient.ts:310-316 | over every run a waiting view keeps exactly the frames it was sent of the incarnation it waits for |
| ReplayEffects.RunKnows | src/api/protocolClient.ts:452-470 | over every run the view reads the incarnation it flushed last until the roster shows another one, and from then owes a reset until the next flush |
| ReplayEffects.DeafHearsNothing | src/api/protocolClient.ts:292-294 | a frame changes nothing in a view told to be detached or failed |
| ReplayEffects.ForeignFrameIsDropped | src/api/protocolClient.ts:295-298 | a frame of another incarnation than the one being read is neither delivered nor kept |
| ReplayEffects.LiveFrameTakesEffect | src/api/protocolClient.ts:299-309 | on a live view the next number is delivered at once and the cursor moves, a number beyond the hole is held up to 2048 frames and 1 MiB and makes the view start over beyond that, and a number delivered or held before changes nothing |
| ReplayEffects.WaitingFrameTakesEffect | src/api/protocolClient.ts:320-347 | a waiting view keeps a frame up to 8192 frames and 4 MiB, and beyond that throws all away with the generation and the kept marker and takes a step of the ladder |
| ReplayEffects.MarkerTakesEffect | src/api/protocolClient.ts:405-450 | what a marker does after any run: nothing outside buffering; with a generation known an older one nothing, a failure a step of the ladder, another incarnation's success nothing, any other success a reset if owed, the flush and the announcement; with none known the better of it and the one kept stays |
| ReplayEffects.AnswerTakesEffect | src/api/protocolClient.ts:594-607 | what an answer does after any run: nothing outside buffering, else it is written down and the marker kept so far is judged by it |
| ReplayEffects.RunPass | src/api/protocolClient.ts:571-607 | over every run a waiting view knows exactly the generation last returned to it and not voided since by a request, an overflow or a detachment |
| ReplayEffects.BackoffTakesEffect | src/api/protocolClient.ts:510-531 | a backoff that is over sends the request it was for if the view still waits, and the watchdog watches it |
| ReplayEffects.WatchdogTakesEffect | src/api/protocolClient.ts:609-632 | a watchdog that is over takes the ladder one step if the view still waits |
| ReplayEffects.PresentTakesEffect | src/api/protocolClient.ts:698-722 | a listed agent makes a view start over with a full ladder exactly if the view was told to be detached or failed or reads another incarnation |
| ReplayEffects.DetachTakesEffect | src/api/protocolClient.ts:664-680 | an absence or a disconnect is announced once, empties stores and timers and keeps cursor, incarnation and an owed reset |
| ReplayEffects.ReattachContinues | src/api/protocolClient.ts:664-722 | after any run, a loss of the connection and the same incarnation back: the replay is delivered from right after the last number delivered before, or from its head beyond |
| ReplayEffects.RespawnStartsAfresh | src/api/protocolClient.ts:698-722 | after any run, another incarnation on the roster: its replay is delivered from its head, whatever was delivered before |
| ReplayEffects.AsksThreeMoreTimes | src/api/protocolClient.ts:510-531 | a view that starts over and hears nothing asks exactly three more times and has failed exactly when the watchdog of the third has run out |
| ReplayLog.DeliveriesIncrease | src/api/protocolClient.ts:300-309 | in any log the reader accepts, chunks without a reset between them increase |
| ReplayLog.IncarnationsSeparated | src/api/protocolClient.ts:452-473 | in any log the reader accepts, different incarnations are separated by a reset |
| ReplayLog.NothingSkipped | src/api/protocolClient.ts:477-496 | in any log the reader accepts, each number up to the cursor is accounted for |
| ReplayLadder.RunTimed | src/api/protocolClient.ts:571-632 | over every run a buffering view that has asked for a replay has a watchdog or a backoff armed |
| ReplayLadder.RunDescends | src/api/protocolClient.ts:510-531 | without a success every timer firing lowers a rank and every request uses up a budget, whatever frames, markers, answers and roster observations that confirm the agent come in between |
| ReplayLadder.WaitingEnds | src/api/protocolClient.ts:510-531 | from any reachable waiting view at most seven timer firings and three requests happen without a success, and the seventh firing ends in the failed phase |
| ReplayFence.RunFenced | src/api/protocolClient.ts:405-450 | over every run a reader of the log that forgets the generation at every request, overflow and detachment accepts every flush, and knows the generation a waiting view knows |
| ReplayFence.FlushedForItsAnswer | src/api/protocolClient.ts:571-607 | over every run each flush is for a success whose generation is at least the one last returned to the view, with no request, overflow, detachment or other answer since that answer |
| ReplayFence.FlushesOwnEpoch | src/api/protocolClient.ts:444-449 | over every run each flush is for the incarnation the view knows, if it knows one |
| ReplayFence.FlushedMarkerCameSince | src/api/protocolClient.ts:345-346 | over every run each flush is for a marker that came after the view's last request, overflow and detachment |
| ReplayFence.PromiseKeptIff | src/api/protocolClient.ts:337-346 | over a run nothing flushes after an overflow for a request made before it if and only if no step admits a marker by the answer to such a request |
| ReplayOverflow.OverflowLosesContent | src/api/protocolClient.ts:337-346 | a concrete run in which an old answer after an overflow makes the view live with nothing delivered, nothing held and the re-request cancelled |
| ReplayFence.MarkerRacesAnswer | src/api/protocolClient.ts:571-607 | a lone marker just before and just after the answer it races with leaves the same view |
| ReplayFence.KeptMarkerIsBest | src/api/protocolClient.ts:405-450 | of all markers that come before the generation is known the view keeps one that no other surpasses |
| Subscription.SortBySeq | src/api/protocolClient.ts:471-473 | the stable sort of a replay is ascending and keeps, for each number, the frame that came first |
| Subscription.SubState.HandleOutput | src/api/protocolClient.ts:285-316 | a frame does to the fields what the replay machine says, whose effect on any reachable view ReplayEffects states for each phase |
| Subscription.SubState.PushBuffer | src/api/protocolClient.ts:320-347 | buffering and its overflow |
| Subscription.SubState.HoldLive | src/api/protocolClient.ts:357-366 | holding a frame behind a hole, and rebuffering on overflow |
| Subscription.SubState.ReleaseHeld | src/api/protocolClient.ts:368-377 | the loop delivers exactly the run up to the first hole |
| Subscription.SubState.EvalMarker | src/api/protocolClient.ts:405-450 | keeping, judging and fencing a marker |
| Subscription.SubState.FlushToLive | src/api/protocolClient.ts:452-504 | the sorted walk over the buffer equals the flush defined by the first hole |
| Subscription.SubState.LadderRerequest | src/api/protocolClient.ts:510-531 | the re-request ladder |
| Subscription.SubState.StartBuffering | src/api/protocolClient.ts:546-569 | starting over with a full replay |
| Subscription.SubState.IssueReplay | src/api/protocolClient.ts:571-592 | a request forgets the generation and the kept marker and arms the watchdog |
| Subscription.SubState.OnGeneration | src/api/protocolClient.ts:594-607 | a generation answers the marker kept so far |
| Subscription.SubState.DetachView | src/api/protocolClient.ts:670-680 | detaching keeps the cursor and the incarnation |
| Subscription.SubState.OnPresent | src/api/protocolClient.ts:698-722 | a listed agent restarts a view that is detached, failed or on another incarnation |
| ProtocolClients.ProtocolClient.HandleOutput | src/api/protocolClient.ts:285-316 | every view of the agent meets the frame and no other view changes |
| ProtocolClients.ProtocolClient.HandleReplayBoundary | src/api/protocolClient.ts:387-403 | every view of the agent meets the marker and no other view changes |
| ProtocolClients.ProtocolClient.ObserveRoster | src/api/protocolClient.ts:698-722 | every view learns whether its agent is listed and under which mark |
| ProtocolClients.ProtocolClient.DetachAllViews | src/api/protocolClient.ts:664-668 | every view is detached and the roster forgotten |
| ProtocolClients.ProtocolClient.Subscribe | src/api/protocolClient.ts:883-921 | a new subscription with a new token replaces the old one of its view only |
| ProtocolClients.ProtocolClient.Unsubscribe | src/api/protocolClient.ts:953-960 | a stale unsubscribe never removes a newer subscription |
| ProtocolClients.ProtocolClient.Mount | src/api/protocolClient.ts:936-951 | only a surviving subscription mounts, and asks only if the roster allows it |
| ProtocolClients.ProtocolClient.Answer | src/api/protocolClient.ts:578-592 | a replaced subscription never sees an answer meant for the old one |
| ProtocolClients.ProtocolClient.GetViewOutputState | src/api/protocolClient.ts:970-980 | an unknown view gives nothing, a known one its counts, which stay within the limits |
| WsReplaySpec.RunSingleFlight | src/api/wsTransport.ts:449-595 | over every run Subscribes less boundaries since the last reset is one exactly while a request is outstanding and zero otherwise, boundary generations strictly increase per agent, and every waiter is parked once or settled once |
| WsReplaySpec.RunMatched | src/api/wsTransport.ts:477-580 | over every run each boundary closes the one outstanding Subscribe of its agent and carries its generation |
| WsReplaySpec.FirstRequestGoesOut | src/api/wsTransport.ts:449-467 | with nothing outstanding a request goes out at once and is told the generation of its own Subscribe, which is beyond all boundaries so far |
| WsReplaySpec.FailedRequestIsRejected | src/api/wsTransport.ts:457-464 | with nothing outstanding a request the socket does not take is rejected, uses up a generation and leaves no entry |
| WsReplaySpec.AcknowledgedStays | src/api/wsTransport.ts:505-508 | an acknowledged request stays outstanding, with no boundary, until its completion or a socket reset |
| WsReplaySpec.BoundaryCarriesAck | src/api/wsTransport.ts:521-539 | the boundary of a completed request carries what its acknowledgement said, with the request's own generation |
| WsReplaySpec.MergedShareOneGeneration | src/api/wsTransport.ts:556-579 | everyone merged behind a request is resolved with the one generation sent next |
| WsReplaySpec.ResetLeavesNoOneWaiting | src/api/wsTransport.ts:587-595 | after a socket reset every request so far has exactly one outcome |
| WsReplayEffects.RunExplained | src/api/wsTransport.ts:449-496 | over every run an outstanding request remembers exactly the acknowledgement that came since its Subscribe went out, and exactly those who asked since then wait behind it |
| WsReplayEffects.RequestTakesEffect | src/api/wsTransport.ts:449-467 | after any run a request behind an outstanding one sends nothing and waits; with nothing outstanding it is sent and told its generation, beyond all boundaries, or rejected if the socket does not take it |
| WsReplayEffects.RefusedTakesEffect | src/api/wsTransport.ts:497-520 | after any run a refusal of an outstanding Subscribe that was not acknowledged writes a failure boundary with its generation and serves those who asked meanwhile; any other refusal changes nothing |
| WsReplayEffects.CompletedTakesEffect | src/api/wsTransport.ts:521-539 | after any run a completion of an outstanding Subscribe writes a success boundary with its generation and what was acknowledged since it went out, and serves those who asked meanwhile; with nothing outstanding it changes nothing |
| WsReplayEffects.ClosedTakesEffect | src/api/wsTransport.ts:587-595 | after any run a closed socket leaves nothing outstanding and rejects exactly those who were told nothing yet |
| WsTransports.WsTransport.RequestReplay | src/api/wsTransport.ts:449-467 | send, merge or reject, as the single-flight says |
| WsTransports.WsTransport.ObserveAck | src/api/wsTransport.ts:478-496 | an acknowledgement is remembered on the outstanding request only |
| WsTransports.WsTransport.ObserveRefused | src/api/wsTransport.ts:497-520 | a refusal closes a request that was not acknowledged, with a failure boundary, and no other |
| WsTransports.WsTransport.ObserveCompleted | src/api/wsTransport.ts:521-539 | completion closes the outstanding request with its own generation |
| WsTransports.WsTransport.SettleReplay | src/api/wsTransport.ts:544-580 | the boundary, then one Subscribe for all merged waiters, each resolved once |
| WsTransports.WsTransport.RejectAllReplays | src/api/wsTransport.ts:587-595 | both loops reject exactly the parked waiters, each once |
| ReporterInvariants.RunSound | src/util/latestValueReporter.ts:56-141 | the invariants of flight, shell, job, goal and log over every interleaving |
| ReporterInvariants.OneAtATime | src/util/latestValueReporter.ts:98-127 | at most one send is in the air, `lastSent` differs from the shell's value only while a positive answer is on its way, no send repeats what the shell has, and no job sends more than four times |
| ReporterInvariants.RunGoal | src/util/latestValueReporter.ts:56-90 | over every run the value wanted is the one submitted last, unless a release or the observation of another value has withdrawn it since |
| ReporterInvariants.RunGaveUp | src/util/latestValueReporter.ts:133-141 | over every run a reporter that counts as having given up has, since the last submission, ended a job for the wanted value whose four calls were refused |
| ReporterInvariants.OnlyTheGoalIsSent | src/util/latestValueReporter.ts:98-127 | after any run, whatever the next event, a call that goes out carries the value then wanted |
| ReporterInvariants.SubmittedGetsThrough | src/util/latestValueReporter.ts:62-66 | after any run with no call in the air, a submitted value the shell lacks and no job is at work for is sent at once and, if taken, is in the shell with the reporter idle |
| ReporterInvariants.SubmittedGoesNext | src/util/latestValueReporter.ts:98-127 | a value submitted while a call is in the air is the next to be sent when the answer comes, unless the shell or a job has it already |
| ReporterInvariants.SubmittedAgain | src/util/latestValueReporter.ts:98-108 | a value the shell has or a job is at work for is not sent again, that job goes on as it was and a job for another value ends |
| ReporterInvariants.FinishedJobEnds | src/util/latestValueReporter.ts:128-141 | a job whose call was taken, and one refused four times, is over when it runs on and nothing else changes |
| ReporterInvariants.IdleHasArrived | src/util/latestValueReporter.ts:98-141 | when nothing waits, works or flies, the value submitted last and not withdrawn since, as the events say, is in the shell unless a job for it was refused four times since that submission |
| ReporterInvariants.NeverStalls | src/util/latestValueReporter.ts:98-127 | a waiting value always has a send in the air and a job always has a task to go on |
| ReporterInvariants.RefusedJobTriesAgain | src/util/retryInvoke.ts:40-52 | a refused attempt with attempts left is followed by another send of the same value |
| ReporterInvariants.CancelledJobEnds | src/util/retryInvoke.ts:40-42 | a cancelled job sends nothing when it wakes and is gone |
| Reporting.LatestValueReporter.Observe | src/util/latestValueReporter.ts:56-59 | an observation withdraws a different job or waiting value |
| Reporting.LatestValueReporter.Submit | src/util/latestValueReporter.ts:62-66 | a submitted value goes out, waits for the answer of the call in the air, or is dropped as already there |
| Reporting.LatestValueReporter.Release | src/util/latestValueReporter.ts:85-90 | what waits and what is retried is given up, what flies is kept |
| Reporting.LatestValueReporter.Pump | src/util/latestValueReporter.ts:98-108 | the waiting value goes out unless a send is in the air |
| Reporting.LatestValueReporter.AttemptSettles | src/util/latestValueReporter.ts:113-127 | an answer updates `lastSent` and lets the waiting value go before the retry loop hears of it |
| Reporting.LatestValueReporter.RetryResumes | src/util/latestValueReporter.ts:128-141 | the end of an attempt ends the job, or puts it to sleep |
| Reporting.LatestValueReporter.RetryWakes | src/util/retryInvoke.ts:40-42 | a sleeping job tries again only if it was not cancelled |
| RetryInvoke.RetryAsync | src/util/retryInvoke.ts:34-59 | the number of attempts, which of them failed, when cancellation is noticed, the returned value or last error, and the backoff times |
| OutputChannelLog.RegisteredMeansHeld | src/api/tauriTransport.ts:349-396 | over every run at most one `subscribe_output` is in the air, the flag means that the shell holds the current channel, and no request waits for a promise nobody will settle |
| OutputChannelLog.OneRegistrationAtATime | src/api/tauriTransport.ts:327-347 | two `subscribe_output` calls have an answer between them |
| OutputChannelLog.PassedOnlyRegistered | src/api/tauriTransport.ts:408-414 | when a request passes its wait, the last channel handed over was taken by the shell and nothing was closed or handed over since |
| OutputChannelLog.AskedOnlyAfterPassing | src/api/tauriTransport.ts:529-532 | a replay request goes out only after passing its wait, and once for it |
| OutputChannelLog.RunOrderly | src/api/tauriTransport.ts:327-396 | over every run no channel is handed over twice, no registration is confused with an earlier one, and no request is lost |
| OutputChannelLog.WokenMovesOn | src/api/tauriTransport.ts:408-414 | a settled registration moves the request that waited for it on, and refuses it if the registration failed |
| OutputChannelLog.ConnectionIsFollowed | src/api/tauriTransport.ts:328-339 | a connection during a registration is followed by one more registration with a new channel, unless the transport is closed or the first is refused |
| OutputChannelLog.RequestGetsThrough | src/api/tauriTransport.ts:408-414 | after any run a request on an open transport with nothing registered gets a channel registered and goes out |
| OutputChannelLog.RegistrationSucceeds | src/api/tauriTransport.ts:334-396 | a registration the shell takes and no close disturbs raises the flag and ends |
| OutputChannelLog.RerunOnlyAfterSuccess | src/api/tauriTransport.ts:327-347 | a registration asked for during another follows if and only if the other was not refused |
| OutputChannelLog.NothingAfterClose | src/api/tauriTransport.ts:562-565 | after a close nothing is handed to the shell until the next connection or start |
| OutputChannelEffects.RunHistories | src/api/tauriTransport.ts:529-570 | over every run the transport counts as closed exactly if `close` was called and it was not started since, and requests are numbered as they come |
| OutputChannelEffects.ConnectedTakesEffect | src/api/tauriTransport.ts:327-347 | after any run a connection hands a new channel over at once, or makes the registration under way go round once more |
| OutputChannelEffects.WantedTakesEffect | src/api/tauriTransport.ts:408-414 | after any run a request waits for a registration under way; with none it passes if the flag is up, is refused on a closed transport, and registers otherwise |
| OutputChannelEffects.RegisteredGoesOut | src/api/tauriTransport.ts:529-532 | with the flag up and nothing under way a request passes and goes out at once |
| OutputChannelEffects.WokenTakesEffect | src/api/tauriTransport.ts:408-414 | after any run what a woken request does for each outcome of the registration it waited for |
| OutputChannelEffects.AnswerTakesEffect | src/api/tauriTransport.ts:390-396 | after any run an answer raises the flag if and only if the shell took the channel and nothing was closed since it went out |
| OutputChannelEffects.RunOnTakesEffect | src/api/tauriTransport.ts:334-343 | after any run a loop that runs on goes round with a new channel exactly if it was not refused and another round was asked for, and otherwise settles with what it came to |
| OutputChannelEffects.CloseTakesEffect | src/api/tauriTransport.ts:551-570 | after any run a close takes the flag down, lets the channel go and voids a round asked for |
| TauriTransports.TauriTransport.RegisterOutputChannel | src/api/tauriTransport.ts:327-347 | join the registration under way or start one |
| TauriTransports.TauriTransport.DoRegisterOutputChannel | src/api/tauriTransport.ts:349-394 | one round: flag down, new channel, one invoke |
| TauriTransports.TauriTransport.InvokeSettles | src/api/tauriTransport.ts:394-396 | the flag goes up only for the generation it was asked in |
| TauriTransports.TauriTransport.RunContinues | src/api/tauriTransport.ts:334-343 | go round again if asked meanwhile, else settle the promise |
| TauriTransports.TauriTransport.RequestReplay | src/api/tauriTransport.ts:529-531 | a request waits for a registration under way, passes, is refused, or registers |
| TauriTransports.TauriTransport.WaiterResumes | src/api/tauriTransport.ts:408-414 | what a request does when the registration it waited for is over |
| TauriTransports.TauriTransport.Close | src/api/tauriTransport.ts:551-570 | close voids generation, channel, rerun and flag |
| ReaperInvariants.RunSound | crates/engram-dashboard-agent/src/reaper.rs:49-152 | the invariants of table, marks, inbox and `auto_restore` over every interleaving with respawns |
| ReaperInvariants.RemovedOnce | crates/engram-dashboard-agent/src/reaper.rs:56-67 | at most one report per incarnation gets past the removal |
| ReaperInvariants.RemovedOnlyItself | crates/engram-dashboard-agent/src/reaper.rs:56-62 | a session is removed only after its own incarnation reported and while it is the one in the table |
| ReaperInvariants.LoweredOnlyCurrent | crates/engram-dashboard-agent/src/reaper.rs:135-152 | a death lowers a profile only if no spawn stamped it since |
| ReaperInvariants.ReaperOnlyLowers | crates/engram-dashboard-agent/src/reaper.rs:121-152 | no step of the reaper raises `auto_restore` or changes a mark |
| ReaperInvariants.RestoredUnlessDied | crates/engram-dashboard-agent/src/manager.rs:2142-2163 | left alone by users, `auto_restore` is up exactly until the last spawn's death is judged |
| ReaperInvariants.JudgingLaysToRest | crates/engram-dashboard-agent/src/reaper.rs:85-88 | judging the death of the mark a profile carries lowers it |
| ReaperInvariants.ReportedDeathIsServed | crates/engram-dashboard-agent/src/reaper.rs:49-100 | a reported death takes the session out of the table and lowers the profile that still carries its mark |
| ReaperInvariants.DeathIsReaped | crates/engram-dashboard-agent/src/reaper.rs:49-100 | a running session that dies reports, leaves the table and has its profile lowered |
| ReaperInvariants.ServedOneAtATime | crates/engram-dashboard-agent/src/reaper.rs:198-229 | between the reaper's two sections nothing but its own second section moves it |
| ReaperInvariants.RaisedIsRestored | crates/engram-dashboard-agent/src/manager.rs:2151-2161 | a spawn makes its agent one to be restored, whatever users had said before |
| ReaperInvariants.LoweringIsLast | crates/engram-dashboard-agent/src/manager.rs:2151-2163 | after that only a user, a new spawn or the profile's removal changes it, never the dead spawn itself |
| ReaperEffects.SpawnRuns | crates/engram-dashboard-agent/src/manager.rs:2142-2163 | after any run a spawn of an agent without one under way puts its session in the table and leaves its profile with its mark and to be restored |
| ReaperEffects.DeathIsReported | crates/engram-dashboard-agent/src/reaper.rs:49-50 | after any run a death is reported behind those before it and touches neither table |
| ReaperEffects.TakesTheFirst | crates/engram-dashboard-agent/src/reaper.rs:56-67 | after any run the reaper takes the oldest report, removes exactly the incarnation it names, and drops it if the table has another |
| ReaperEffects.JudgingTakesEffect | crates/engram-dashboard-agent/src/reaper.rs:84-88 | after any run the second section lowers exactly the profile with the dead incarnation's mark, nobody on a shutdown |
| ReaperEffects.ShutdownKeepsProfiles | crates/engram-dashboard-agent/src/reaper.rs:85-88 | after any run the second section of a death on shutdown changes no profile and judges nobody |
| ReaperEffects.ShutdownIsRestored | crates/engram-dashboard-agent/src/reaper.rs:103-119 | a session that dies on a shutdown leaves the table and its agent is restored as before |
| ReaperEffects.RunHistories | crates/engram-dashboard-agent/src/reaper.rs:113-152 | over every run who was judged and whose `auto_restore` a user set since is what the events say |
| ReaperEffects.RestoredUntilJudged | crates/engram-dashboard-agent/src/manager.rs:2151-2163 | over every run, unless a user has set it since, `auto_restore` is up exactly as long as no death of the last spawn other than on a shutdown was dealt with |
| Reaping.ReaperDeps.RemoveIfCurrent | crates/engram-dashboard-agent/src/reaper.rs:56-62 | a report is received and, under the session lock, takes out its own incarnation only |
| Reaping.ReaperDeps.ApplyDisposition | crates/engram-dashboard-agent/src/reaper.rs:113-152 | the section under the profile lock |
| Reaping.ReaperDeps.Judge | crates/engram-dashboard-agent/src/reaper.rs:85-88 | the second half of a report, which leaves the profile alone on a shutdown |
| Reaping.ReaperDeps.ReapOne | crates/engram-dashboard-agent/src/reaper.rs:49-100 | one report with others at work between its two sections; the token is revoked and the table announced exactly if it removed its session |
| Reaping.ReaperDeps.Serve | crates/engram-dashboard-agent/src/reaper.rs:198-229 | the serial loop serves reports in order, with others at work before and within each, up to a stop |
| Reaping.ReaperDeps.Elsewhere | crates/engram-dashboard-agent/src/manager.rs:2142-2163 | what spawns, deaths and users do to the shared tables |
| ReaperInvariants.RepeatedReportIsIdle | crates/engram-dashboard-agent/src/reaper.rs:64-67 | after any run a report of an incarnation that was removed before is received and changes nothing else |
| FirstPaintHistory.ShowSucceedsIff | src-tauri/src/first_paint.rs:269-306 | a queued show succeeds if and only if its ticket was the last installed for the window and nothing cancelled, showed or re-held the window since |
| FirstPaintHistory.DrawnIsHeld | src-tauri/src/first_paint.rs:132-189 | after any run a window asked to be held is held with the ticket drawn for it, and a show with that ticket succeeds |
| FirstPaintHistory.ShownOnce | src-tauri/src/first_paint.rs:280-298 | each ticket shows at most once |
| FirstPaintHistory.SpentForGood | src-tauri/src/first_paint.rs:269-276 | an installed ticket that no longer waits never waits again |
| FirstPaintHistory.AdoptionAnswer | src-tauri/src/first_paint.rs:192-225 | adopting from a keeping hold answers painted exactly when the last numbered notice since that hold was created carries the generation |
| FirstPaintHistory.ArmingAnswer | src-tauri/src/first_paint.rs:167-189 | arming a keeping hold answers painted exactly when any notice came since it was created |
| FirstPaintHistory.ArmedForOneGeneration | src-tauri/src/first_paint.rs:227-253 | an adopted hold yields its ticket to its own number only and is changed by no notice |
| FirstPaintEffects.RunTickets | src-tauri/src/first_paint.rs:132-225 | over every run tickets are numbered as drawn, unused ones are those drawn and not installed, and a window is held in the manner its ticket was drawn for |
| FirstPaintEffects.RunLogged | src-tauri/src/first_paint.rs:132-306 | over every run the history of the gate is the one the events alone give |
| FirstPaintEffects.NoticeReleases | src-tauri/src/first_paint.rs:233-252 | a notice for a window held back by a ticket releases that ticket, or for an adopted one exactly if it carries the adopted number, and is a mismatch otherwise |
| FirstPaintEffects.FirstPaintReleases | src-tauri/src/first_paint.rs:233-237 | after any run a window asked to be held or armed yields its ticket to the very next notice |
| FirstPaintEffects.NoticeRecorded | src-tauri/src/first_paint.rs:229-231 | a notice for a window no ticket holds back is recorded if the window is kept and ignored if it is not held |
| FirstPaintEffects.NoticeKeepsHold | src-tauri/src/first_paint.rs:253-267 | no notice changes which ticket holds a window back |
| FirstPaintEffects.ArmingAnswered | src-tauri/src/first_paint.rs:167-225 | after any run what arming and adopting answer, as a function of the events so far |
| FirstPaintEffects.ShownAsWanted | src-tauri/src/first_paint.rs:280-298 | a show with the ticket that holds a window back releases it in the manner the ticket was drawn for |
| FirstPaintEffects.CancelLetsGo | src-tauri/src/first_paint.rs:300-302 | after a cancel nothing holds the window back |
| FirstPaint.FirstPaintGate.Ticket | src-tauri/src/first_paint.rs:133-135 | a ticket is drawn outside the lock |
| FirstPaint.FirstPaintGate.HoldAs | src-tauri/src/first_paint.rs:141-154 | a window is held with the ticket drawn |
| FirstPaint.FirstPaintGate.HoldUnarmed | src-tauri/src/first_paint.rs:158-164 | a keeping hold is made only where there is none |
| FirstPaint.FirstPaintGate.Arm | src-tauri/src/first_paint.rs:167-189 | arming and its answer |
| FirstPaint.FirstPaintGate.ArmAdopted | src-tauri/src/first_paint.rs:192-225 | adopting and its answer, nothing for a window that is not held |
| FirstPaint.FirstPaintGate.Painted | src-tauri/src/first_paint.rs:227-267 | a notice yields the ticket of an armed hold, of an adopted one for its own number only, is recorded by a keeping one, and is ignored for a window not held |
| FirstPaint.FirstPaintGate.IsWaiting | src-tauri/src/first_paint.rs:271-276 | whether the window is held with this ticket |
| FirstPaint.FirstPaintGate.Release | src-tauri/src/first_paint.rs:280-298 | a show takes the hold out if and only if the ticket still stands |
| FirstPaint.FirstPaintGate.Cancel | src-tauri/src/first_paint.rs:300-302 | a cancel takes any hold out |
| ViewSeatsSpec.RunSound | src-tauri/src/view_commands.rs:634-772 | the invariants of seats, guards and answers over every interleaving |
| ViewSeatsSpec.OneAnswerFromItsWindow | src-tauri/src/view_commands.rs:491-517 | each seat gets at most one answer, and only from the window the command was sent to |
| ViewSeatsSpec.ToldWhatWasAnswered | src-tauri/src/view_commands.rs:672-702 | what a caller is told is its own window's answer to this round trip, and the branch for a channel closed without an answer is never taken |
| ViewSeatsSpec.NoSeatLeaks | src-tauri/src/view_commands.rs:705-715 | over every run each seat's number belongs to exactly one of all guards ever made, the live guard of its own round trip, and without live guards the table is empty |
| ViewSeatsSpec.GuardClearsOnlyItsOwn | src-tauri/src/view_commands.rs:763-771 | dropping an old guard never removes a newer seat under the same id |
| ViewSeatsSpec.AnswerArrives | src-tauri/src/view_commands.rs:505-517 | an accepted answer reaches a caller that still listens, deadline or not |
| ViewSeatsSpec.OutcomeIsFinal | src-tauri/src/view_commands.rs:672-702 | what a caller was told never changes |
| ViewSeatsSpec.CancelledHearsNothing | src-tauri/src/view_commands.rs:672-680 | a caller that went away is told nothing any more |
| ViewSeatsSpec.DeadlineIsTold | src-tauri/src/view_commands.rs:691-700 | a caller without an answer at its deadline is told so |
| ViewSeatsEffects.RunShows | src-tauri/src/view_commands.rs:634-772 | over every run a seat is taken exactly while its round trip runs, and each round trip carries the answer its own window gave, as the events say |
| ViewSeatsEffects.DispatchTakesEffect | src-tauri/src/view_commands.rs:726-750 | after any run a command is sent to its window and runs unless its id is running, and then nothing changes |
| ViewSeatsEffects.AnswerIsTaken | src-tauri/src/view_commands.rs:491-513 | after any run the answer of the window in which a round trip runs under that id is taken for that round trip |
| ViewSeatsEffects.OtherAnswerIsDropped | src-tauri/src/view_commands.rs:491-503 | after any run an answer without an id, to nothing that runs, or from another window changes nothing |
| ViewSeatsEffects.RefusedAnswerIsTold | src-tauri/src/view_commands.rs:491-513 | after any run which of the three refusals an answer gets |
| ViewSeatsEffects.PolledTakesEffect | src-tauri/src/view_commands.rs:672-702 | after any run a caller is told its answer if there is one, the deadline if there is none and it is late, and waits on otherwise |
| ViewSeatsEffects.DropTakesEffect | src-tauri/src/view_commands.rs:763-771 | a dropped guard ends its own round trip and no other |
| ViewSeatsEffects.RoundTrip | src-tauri/src/view_commands.rs:634-702 | after any run a command whose id is free and whose window answers brings that answer back, late or not, and frees its id |
| ViewSeats.Pending.Hold | src-tauri/src/view_commands.rs:726-750 | an id that is running is refused and its waiter left alone |
| ViewSeats.Pending.TakeAnswer | src-tauri/src/view_commands.rs:491-513 | the four verdicts on an answer, and that a wrong window leaves the seat |
| ViewSeats.Pending.DropGuard | src-tauri/src/view_commands.rs:763-771 | a guard clears the seat of its own number only |
| ViewHostSpec.HostAlwaysFits | src-tauri/src/view_commands.rs:279-294 | over every run the host is missing exactly when nobody reported, otherwise it reported, and is main whenever main did |
| ViewHostSpec.PickedUnique | src-tauri/src/view_commands.rs:279-294 | main first, then the live host, then the first label: the choice is determined |
| ViewHostSpec.DiffRoundTrip | src-tauri/src/view_commands.rs:435-449 | the pushed change turns the old list into the new one in either order, and is empty exactly when nothing changed |
| ViewHostSpec.DiffSmallest | src-tauri/src/view_commands.rs:435-449 | no other change that turns the old list into the new one adds or removes fewer names |
| ViewHostSpec.LastReportCounts | src-tauri/src/view_commands.rs:426-434 | over every run the kept reports are the last one of each window not forgotten since |
| ViewHostSpec.HostStays | src-tauri/src/view_commands.rs:279-294 | over every run a host that still reports stays host unless main reports |
| ViewHostSpec.HeirTakesOver | src-tauri/src/view_commands.rs:279-294 | over every run a host that goes is followed by the lexicographically first window that reports, or by nobody |
| ViewHostSpec.FoldedIsAdvertised | src-tauri/src/view_commands.rs:463-479 | over every run that forgets no host, folding the pushed changes gives exactly the advertised list |
| ViewHostSpec.ForgettingKeepsStepIff | src-tauri/src/view_commands.rs:373-385 | forgetting keeps the daemon in step if and only if the host survives or the first label left had reported the same list |
| ViewHostSpec.ForgottenHostLeavesNames | src-tauri/src/view_commands.rs:400-406 | a concrete run that leaves the daemon with a name nobody offers |
| ViewHost.Filter | src-tauri/src/view_commands.rs:408-424 | which reported commands are taken up, that the last of a name counts, and which names are refused in which order |
| Orders.LeqIff | src-tauri/src/view_commands.rs:279-294 | the order of labels is the lexicographic one: a prefix comes first, else the first differing character decides |
| ViewHost.ViewCommandBridge.Forget | src-tauri/src/view_commands.rs:256-260 | exactly the dead reporters go |
| ViewHost.ViewCommandBridge.Repick | src-tauri/src/view_commands.rs:279-294 | the host is the one the rule picks |
| ViewHost.ViewCommandBridge.FindDead | src-tauri/src/view_commands.rs:373-381 | exactly the reporters that are not alive, in order |
| ViewHost.ViewCommandBridge.Report | src-tauri/src/view_commands.rs:426-455 | the change of the advertised list across one report |
| ViewHost.ViewCommandBridge.ReportAndPush | src-tauri/src/view_commands.rs:463-479 | filter, prune, report and push with others forgetting windows at every point in between; if no host was ever forgotten the daemon then has exactly the advertised list |
| ViewHost.ViewCommandBridge.LiveHost | src-tauri/src/view_commands.rs:523-528 | after the prune, and whatever others do meanwhile, the host and exactly its list, main if main has reported, nobody exactly if nobody has |
| ThemeGateSpec.RunSound | src-tauri/src/theme.rs:345-380 | without a write whose push has not begun, the holder's reads are current and the windows it served are up to date |
| ThemeGateSpec.QuietMeansCurrent | src-tauri/src/theme.rs:318-380 | whenever no writer is between its write and the end of its push, every window's last received theme is its effective theme or its last send failed |
| ThemeGateSpec.QuietAndSentMeansCurrent | src-tauri/src/theme.rs:412-446 | with successful sends every window shows its effective theme whenever all is quiet |
| ThemeGateSpec.PushGetsThrough | src-tauri/src/theme.rs:345-380 | a push nobody interferes with leaves the gate free, its thread owed nothing and every window with its effective theme |
| ThemeGateSpec.WrittenThenShown | src-tauri/src/theme.rs:412-431 | what a thread writes is what every window shows after its push |
| ThemeGateSpec.WriteTakesEffect | src-tauri/src/theme.rs:320-332 | a thread outside its own push writes at any time, also during another's push |
| ThemeGateSpec.WrittenEffective | src-tauri/src/theme.rs:283-332 | what each of the six writes makes of any window's effective theme |
| ThemeGateSpec.GateKeepsOthersOut | src-tauri/src/theme.rs:346-348 | over every run the thread in the gate stays the only one there until it leaves |
| ThemeGateSpec.LeavesWhenServed | src-tauri/src/theme.rs:372-380 | the gate is left only when every window was sent to |
| ThemeGateSpec.OnlyWritesWrite | src-tauri/src/theme.rs:345-380 | over every run without writes no push changes what is effective |
| ThemeGateSpec.SendTakesEffect | src-tauri/src/theme.rs:225-249 | a window's received theme changes only in its own turn and when it takes what it is sent, and it counts as missed only after a refused send |
| ThemeGateSpec.RefusedIsMissed | src-tauri/src/theme.rs:225-249 | a refused send is noted and the push goes on with the next window |
| Theme.DeliverPerWindow | src-tauri/src/theme.rs:225-249 | every window is tried, and the failure lists exactly those that refused, in order |
| Theme.FailedExactly | src-tauri/src/theme.rs:225-249 | a window is listed as failed exactly when one of its sends was refused |
| Theme.EffectiveThemes.EffectiveFor | src-tauri/src/theme.rs:310-316 | own, else staged, else global |
| Theme.EffectiveThemes.SetWindowTheme | src-tauri/src/theme.rs:320-332 | a window the model does not know is refused and nothing is written |
| Theme.EffectiveThemes.PushEffectiveThemes | src-tauri/src/theme.rs:345-380 | a push under the gate with others writing between its steps; undisturbed, each window is sent its own effective theme |
| Theme.EffectiveThemes.SetAndPush | src-tauri/src/theme.rs:417-431 | the written value stays, and the answer is a failure exactly when the window is unknown or is itself among those that refused |
| Theme.EffectiveThemes.WriteTheme | src-tauri/src/theme.rs:283-294 | each write changes exactly the place it names and leaves its thread with a push to come |
| Theme.EffectiveThemes.Shown | src-tauri/src/theme.rs:334-344 | whenever nobody is between a write and the end of its push, each window of the object shows its effective theme or its last send failed |
| OutputRouting.CollectAgents | src-tauri/src/output_router.rs:226-254 | the window is noted for exactly the agents bound in the tree |
| OutputRouting.OutputRouter.Rebuild | src-tauri/src/output_router.rs:134-176 | the table is the sorted reverse index of the layout over all tabs, and the deltas are the sorted differences |
| OutputRouting.OutputRouter.Targets | src-tauri/src/output_router.rs:100-106 | the windows of an agent, none for an unknown one |
| OutputRouting.IndexUnique | src-tauri/src/output_router.rs:134-176 | a layout has only one such table |
| OutputRouting.OutputRouter.CleanupWindow | src-tauri/src/output_router.rs:194-212 | a cleaned-up window is in no list, the others keep theirs, and main is never cleaned up |
| LayoutModel.OthersKeepShowing | src-tauri/src/output_router.rs:194-212 | taking a window and its tabs away changes nothing about what the others show |
| LayoutModel.BindsIff | src-tauri/src/output_router.rs:226-254 | an agent is bound in a tree exactly if some path, however deep, ends at a slot bound to it |
| LayoutModel.WindowGone | src-tauri/src/layout/manager.rs:990-1004 | a window that goes takes exactly its own tabs' views along |
| SubscriptionDeltas.FoldedIsFinal | src-tauri/src/output_router.rs:159-175 | over any serialized run the deltas applied in order give exactly the table's agents |
| SubscriptionDeltas.UnionFormulaIff | src-tauri/src/output_router.rs:624-628 | the union formula gives the table's agents if and only if no agent in the table was ever unsubscribed |
| SubscriptionDeltas.ReturningAgent | src-tauri/src/output_router.rs:624-628 | an agent that leaves and returns is lost by the union formula and kept by the fold |

## Left out

- Real time: timers are flags with a firing step; backoff lengths appear only in `RetryInvoke.RetryAsync`, the debounce of `schedule` not at all.
- Callbacks of the replay machine are not re-entrant, and `messageCb` does not call `requestReplay` synchronously.
- Frames with the same incarnation and number are taken to be the same event where two runs are compared (`ReplayInvariants.ArrivalOrderDoesNotMatter`).
- ReplayFence.MarkerRacesAnswer: speaks of a request whose own answer is the first since it was issued; an older request's answer that lands in between counts as that answer.
- ReplayCatchUp.CatchesUp: the replay has to fit the view's buffer; beyond the limits the ladder starts over.
- OutputChannelLog.RerunOnlyAfterSuccess: that a refused registration drops the request for another is the code's behaviour, left as it is; the comment at src/api/tauriTransport.ts:62-68 speaks of one more registration after completion.
- ReplayLadder.WaitingEnds: a success, a disconnect, a mount, or a roster observation that misses the agent or shows another incarnation ends the stretch it speaks of.
- Reporting.LatestValueReporter.AttemptSettles: `same` is equality of values, so the reference kept on a repeated success and the `onAccepted` call are not modelled; a send that never answers stops the reporter, as in the code.
- Reaping.ReaperDeps.Serve: panics caught around a report, and the names and sizes in the announced list, are not modelled.
- ReaperInvariants.RunSound: marks are distinct, which the code has only with the probability of a 32-bit random draw; a spawn's reservation is modelled as the rule that an agent has one spawn under way.
- OutputChannelLog.RegisteredMeansHeld: the shell's own loss of a channel (a window that closes) is not modelled, nor what the code does with frames on a channel it has let go.
- FirstPaint.FirstPaintGate.Ticket: the 64-bit counter does not wrap; the clock values kept with a hold are not modelled.
- ViewHostSpec.FoldedIsAdvertised: lists are maps and sets here, since the pushed names are distinct and their order has no meaning to the fold.
- ViewHost.Filter: the catalogue text of a command is a function parameter.
- ThemeGateSpec.QuietMeansCurrent: the set of windows is fixed; a window that comes up later pulls its theme.
- OutputRouting.OutputRouter.Rebuild: parsing an agent id is a function parameter, and keys are compared as strings of bytes.
- Numbers are unbounded: 64-bit generations, seats and tokens do not wrap.
- WebSocket connection, reconnection and handshake, command sending and reply matching, event fan-out, the self-healing query of the connection state.
- `ViewManager`, `ProfileRegistry` and `SettingsService` beyond the operations the modelled code calls.
- Logging, lock poisoning, operating-system window calls and colour values.
- Small version-guarded mirrors and registries of the front end, which would only add easy members.
