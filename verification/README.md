# R-ShareMouse protocols, modelled and proved in Dafny

R-ShareMouse shares a keyboard, a mouse, files and audio between computers. Most of its hard logic lies in small
stateful protocols, several of them concurrent. This project models those protocols and proves what they keep over
whole runs.

Every component has a model on values: a state, one function per step, an invariant, and theorems over every list of
steps. A locked region, an atomic access, one pass of an actor's loop or one awaited answer is one step, so a list of
steps is an interleaving. Where the program updates an object in place there is also a class with the same fields,
whose methods are proved against the step functions. `dafny verify dfyconfig.toml` checks the whole project.

## Modules

| modules | component |
|---|---|
| `Common`, `ByteOrder`, `InputEvents` | shared vocabulary |
| `MobileOwnership`, `MobileProtocol`, `MobileRequests`, `MobileTokens`, `MobileSessions`, `MobileBackend`, `MobileGateway` | held keys and buttons of mobile clients: what one locked region does, all interleavings, what a whole request does, tokens, sequence numbers and sessions, the injection backend, the operations as methods |
| `UiState`, `UiStream`, `UiDiff`, `InputCut`, `UiReconcile`, `UiAggregator` | the UI state view, the revisioned stream and its replay window, transitions between pressed sets, the generation cut for input mutations, reconciling with a projection, the actor |
| `AudioFormat`, `AudioCodec`, `AudioReassembly`, `AudioAnyOrder`, `AudioWindow` | datagrams of audio frames and their reassembly |
| `AudioRing`, `AudioPlayout`, `AudioRegistry` | the shared single-producer single-consumer ring, the playout ring, the session registry |
| `UsbBudget`, `InputLedger`, `FolderDrag`, `EndpointEvents`, `IpcFrames` | USB memory accounting, held remote controls and the input gate, dragging files across screens, the endpoint history, local framing |

## What the proofs show about the code

Some things one would expect of the code hold only under a condition. The code is modelled as it is, and the exact
condition is proved.

- The duplicate window keeps the 128 largest emitted numbers, but numbers up to 128 behind the newest are admitted. A
  frame exactly 128 behind, with all the numbers in between emitted, can come out a second time
  (`AudioWindow.TwiceExactlyAtTheEdge`), and a run in which it does exists for every number
  (`AudioWindow.AFrameComesOutTwice`).
- Before playing starts, a packet far before the first one is accepted, because the test looks at the end of the new
  packet only. What is buffered then no longer fits the ring, and an accepted packet overwrites a frame that was never
  played (`AudioPlayout.FitsExactlyWhenNotTooEarly`, `AudioPlayout.AnEarlyPacketCostsALaterOne`).
- `StateSubscriber::recv` must not be dropped between a lag and the actor's answer. The websocket server polls it in
  a `select!` and may do so; the next envelope then fits the view exactly when it is not a delta
  (`UiStream.DroppedRecoveryFitsExactlyWhen`), and a run in which it does not fit exists for every initial snapshot
  (`UiStream.ADroppedRecoveryMissesADelta`).
- A heartbeat carries the published cursor, so it fits a subscriber exactly when that one has read everything
  (`UiStream.HeartbeatFitsExactlyWhenCaughtUp`); a run in which it freezes a view whose deltas were only
  unread is `UiStream.AHeartbeatFreezesAView`. Nothing else leads a subscriber astray
  (`UiStream.OnlyDropsAndBeatsLeadAstray`). Even then its view is a state that the actor had, except while it still waits
  for the snapshot of its subscription, when it shows whatever it came with (`UiStream.StraysShowTrueStates`); a view that
  shows a state that the actor had keeps doing so until it subscribes anew (`UiStream.TrueViewsStayTrue`).
- Reconciling does not carry over a pointer that the projection lost, nor a session named only in the projected status
  when the control session ends (`UiReconcile.ProjectionShowsExactlyWhen`, with such projections for every view that has
  a pointer and a session in `UiReconcile.AProjectionIsNotReached`). Once an input feed is laid over the projection the
  status always arrives, because the projection then has a session (`UiAggregator.ProjectionWithInputAgrees`).
  Diagnostics always arrive with the status, so the separate diagnostics delta is never sent
  (`UiReconcile.DiagnosticsAreReached`).
- The actor must look at the dirty flag before it takes a queued input mutation; otherwise a dropped mutation can be
  lost for good (`InputCut.FlagMustBeTestedFirst`).

## Model

| member | source | states |
|---|---|---|
| MobileOwnership.ReleaseForwardedIffSoleOwner | apps/rshare-daemon/src/mobile_gateway.rs:1488-1514 | a release under the current token goes to the backend exactly when the releasing client is the control's only owner, and is accepted without it otherwise |
| MobileProtocol.StepKeepsInv | apps/rshare-daemon/src/mobile_gateway.rs:1138-1320 | each locked region, cleanup, pruning or abort, in any state that meets the invariant, keeps it: owners are holders, no owner set is empty, held maps are bounded, pending requests match the tables |
| MobileProtocol.OwnersAreHoldersInEveryRun | apps/rshare-daemon/src/mobile_gateway.rs:1122-1320 | in every interleaving from the empty gateway a client is in a control's owner set iff it holds the control, no stored owner set is empty, and nobody holds more than 64 keys or 16 buttons |
| MobileRequests.HeldTogetherExactlyWhen | apps/rshare-daemon/src/mobile_gateway.rs:1805-1889 | keys are held under one identity exactly when they are equal or one letter in two cases, buttons exactly when their codes agree |
| MobileRequests.ReservesExactly | apps/rshare-daemon/src/mobile_gateway.rs:1138-1174 | reserving refuses exactly a malformed payload, an operation that is not its client's, and a press of a control not held by a client with 64 keys or 16 buttons; otherwise the backend is asked unless it is a release of a control that is not the client's alone, and a press is held and owned at once |
| MobileRequests.FinishesExactly | apps/rshare-daemon/src/mobile_gateway.rs:1273-1300 | finishing leaves the session and the owners that the payload asks for if the backend accepted, and those from before the reservation if not |
| MobileRequests.RequestOutcome | apps/rshare-daemon/src/mobile_gateway.rs:1176-1228 | what a whole request does to session, owners, reservations, backend and operation, read off its payload: refused, carried out, or undone; a refusal ends the operation unless it is a cleanup |
| MobileSessions.SequenceGrows | apps/rshare-daemon/src/mobile_gateway.rs:1122-1136 | a session's sequence number changes only when an operation begins, to a larger one; the time of last sight changes only then and on a refresh |
| MobileSessions.BegunInOrder | apps/rshare-daemon/src/mobile_gateway.rs:1425-1442 | in every run, of two operations that a client begins with one session the later has the larger sequence number |
| MobileSessions.SessionsComeAndGo | apps/rshare-daemon/src/mobile_gateway.rs:156-201 | a session is pruned exactly when it was not seen for the given time, holds nothing and no operation of its client runs, and one is opened, empty, exactly when there is room |
| MobileSessions.SessionsWithinLimit | apps/rshare-daemon/src/mobile_gateway.rs:156-175 | over any run there are never more sessions than the limit |
| MobileSessions.ReservationsEndWithOperations | apps/rshare-daemon/src/mobile_gateway.rs:1302-1320 | in every run without aborts a reservation belongs to a running operation of its client, so none is left when none runs |
| MobileSessions.ClearedIsGone | apps/rshare-daemon/src/mobile_gateway.rs:321-330 | a cleanup's second region removes what the operation it replaced left booked for the client, and nothing of others |
| MobileSessions.EndGivesBack | apps/rshare-daemon/src/mobile_gateway.rs:1302-1320 | an ending operation gives back its own reservation and its token, each only if it is still its own, and nothing else |
| MobileSessions.SubmitsExactlyWhen | apps/rshare-daemon/src/mobile_gateway.rs:1230-1271 | a request reaches the backend exactly when its token is still its client's and its reservation is still there |
| MobileSessions.SupersededIsNotSubmitted | apps/rshare-daemon/src/mobile_gateway.rs:1230-1271 | a superseded request is not submitted and ends its operation, unless that is a cleanup, which goes on with the next |
| MobileTokens.EverySubmissionIsCurrent | apps/rshare-daemon/src/mobile_gateway.rs:1230-1271 | in every run the backend changes only in a submission step whose token is its client's in-flight token at that moment |
| MobileTokens.CleanupSupersedes | apps/rshare-daemon/src/mobile_gateway.rs:299-330 | the cleanup's first region makes every older operation of the client superseded |
| MobileTokens.SupersededIsInertInEveryRun | apps/rshare-daemon/src/mobile_gateway.rs:1138-1320 | once superseded, always superseded, and none of the operation's later steps submits or changes what anybody holds or owns |
| MobileTokens.OthersLeaveClientAloneInRuns | apps/rshare-daemon/src/mobile_gateway.rs:1138-1320 | while a request is pending and stays current, no list of steps of others changes what its client holds, owns, or where its pointer was |
| MobileTokens.RejectedPressIsUndone | apps/rshare-daemon/src/mobile_gateway.rs:1734-1757 | a request that is reserved and later rejected under a current token leaves its client's held keys, held buttons, pointer position and ownership as they were before, whatever other clients did in between |
| MobileBackend.DownControlsAreOwned | apps/rshare-daemon/src/mobile_gateway.rs:1176-1228 | if current requests on one control do not overlap, in every run each control that is down at the backend is held by some client, even with supersession and aborts |
| MobileBackend.DownIffHeldWhenCalm | apps/rshare-daemon/src/mobile_gateway.rs:1176-1228 | if moreover nothing was superseded or aborted halfway, a control without a pending request is down exactly when some client holds it |
| MobileGateway.Gateway.BeginOperation | apps/rshare-daemon/src/mobile_gateway.rs:1122-1136 | succeeds exactly for an idle client with a larger sequence number, with a fresh token; a refusal uses up a token and changes nothing else |
| MobileGateway.Gateway.ReserveRequest | apps/rshare-daemon/src/mobile_gateway.rs:1138-1174 | the updates of the session and of both owner tables are the protocol's reservation step; it refuses and asks the backend exactly when the payload and the tables say so, and a press that is handed to the backend is held and owned |
| MobileGateway.Gateway.Provision | apps/rshare-daemon/src/mobile_gateway.rs:1695-1732 | a press is entered in the held map and the owner table together with what is needed to take it back |
| MobileGateway.Gateway.SubmitReserved | apps/rshare-daemon/src/mobile_gateway.rs:1230-1271 | submits exactly when the token is still in flight and its reservation is still the client's |
| MobileGateway.Gateway.FinishReserved | apps/rshare-daemon/src/mobile_gateway.rs:1273-1300 | applies an accepted request, rolls back a rejected one and ignores a superseded one: the protocol's finishing step |
| MobileGateway.Gateway.RollbackPress | apps/rshare-daemon/src/mobile_gateway.rs:1734-1757 | takes back exactly what the press introduced, in the session and in the owner table |
| MobileGateway.Gateway.ApplyHeld | apps/rshare-daemon/src/mobile_gateway.rs:1759-1803 | an accepted transition in the client's held map and pointer position |
| MobileGateway.Gateway.ApplyOwnership | apps/rshare-daemon/src/mobile_gateway.rs:1574-1614 | an accepted transition in the owner tables |
| MobileGateway.Gateway.RemoveKeyOwner | apps/rshare-daemon/src/mobile_gateway.rs:1616-1630 | removes one owner, and the entry with its last owner |
| MobileGateway.Gateway.EndOperation | apps/rshare-daemon/src/mobile_gateway.rs:1302-1320 | the two regions in turn; the second is enabled after the first, and only the operation's own reservation and token go |
| MobileGateway.Gateway.ProcessRequest | apps/rshare-daemon/src/mobile_gateway.rs:1176-1228 | a request of any kind, whatever other operations exist and whatever the backend answers, takes the protocol's three steps, and leaves exactly what the payload asks for, or what was there before |
| MobileGateway.ReleaseOutcome | apps/rshare-daemon/src/mobile_gateway.rs:1176-1228 | a current release taken through its regions is applied to its client's session, or the client goes on holding and then the backend had refused; no other session and no other operation changes |
| MobileGateway.RequestKeepsBackendInv | apps/rshare-daemon/src/mobile_gateway.rs:1176-1228 | with no other request pending, a request taken through its regions keeps every control that is down owned |
| MobileGateway.Gateway.StartRelease | apps/rshare-daemon/src/mobile_gateway.rs:299-320 | whatever other operations exist, it is the protocol's cleanup step: a fresh token replaces the client's, and the listed releases cover everything it holds |
| MobileGateway.Gateway.PrepareRelease | apps/rshare-daemon/src/mobile_gateway.rs:299-330 | after the first two regions the new operation is in flight with releases of everything the client holds |
| MobileGateway.Gateway.ClearSuperseded | apps/rshare-daemon/src/mobile_gateway.rs:321-330 | drops the previous token's reservation if it belongs to the client |
| MobileGateway.Gateway.SendReleases | apps/rshare-daemon/src/mobile_gateway.rs:332-379 | whatever other operations exist, the client afterwards holds none of the controls whose release the backend accepts, so nothing if it accepts all, and no other session and no other operation changed |
| MobileGateway.Gateway.EndRelease | apps/rshare-daemon/src/mobile_gateway.rs:380 | the client is idle again and holds what it held |
| MobileGateway.Gateway.ReleaseHeldInputs | apps/rshare-daemon/src/mobile_gateway.rs:291-381 | the whole cleanup of one client beside any other operations and with any answers: the client is idle and holds at most what it held, nothing if the backend accepts, and other sessions and operations are as before |
| MobileGateway.Gateway.ReleaseAllHeldInputs | apps/rshare-daemon/src/mobile_gateway.rs:260-279 | after the shutdown cleanup with an accepting backend no control is down and both owner tables are empty |
| UiState.PreparedIsFixed | crates/rshare-core/src/ui_state.rs:418-481 | preparing a snapshot is idempotent, and the prepared snapshots are exactly its fixed points |
| UiState.ChangeKeepsPrepared | crates/rshare-core/src/ui_state.rs:320-406 | a view that applies an accepted change stays a prepared snapshot |
| UiState.StatusFollowsSession | crates/rshare-core/src/ui_state.rs:427-443 | status, snapshot and session change agree on the session and on the device it reaches for; a status of its own yields to the session |
| UiState.DeltaAppliesExactlyWhen | crates/rshare-core/src/ui_state.rs:320-416 | a delta is applied exactly when the view is not waiting and it is the next revision of its boot with acceptable content; otherwise nothing shown changes and the view waits, with the error the difference calls for |
| UiState.OtherEnvelopesApply | crates/rshare-core/src/ui_state.rs:277-318 | a full snapshot replaces the view iff it can be prepared, a heartbeat only compares the cursor, and a resync notice only makes the view wait |
| UiState.TransitionsExactly | crates/rshare-core/src/ui_state.rs:483-532 | a transition adds its control to the pressed ones or takes it away, and turning the wheel presses nothing |
| UiState.EntriesKeepOrder | crates/rshare-core/src/ui_state.rs:330-380 | a device or media session keeps its place when replaced and comes last when new, and removing it only closes the gap |
| UiStream.StepKeepsInv | apps/rshare-daemon/src/state_aggregator.rs:533-627 | each emission, rebuild, subscription, receive, lag, recovery, dropped recovery and heartbeat keeps the invariant that ties every subscriber's view to the log |
| UiStream.EveryEnvelopeFits | apps/rshare-daemon/src/state_aggregator.rs:371-401 | in every run the next envelope of a subscriber that was not led astray is the next revision, or a resync notice, or the snapshot that follows one, and a drained one has exactly the actor's view |
| UiStream.OnlyDropsAndBeatsLeadAstray | apps/rshare-daemon/src/ui_state_server.rs:287-309 | in a run without dropped recoveries and without heartbeats nobody is led astray |
| UiStream.StraysShowTrueStates | apps/rshare-daemon/src/state_aggregator.rs:371-401 | in every run a subscriber that was led astray shows a state that the actor had, unless it still waits for a snapshot, and the next full snapshot it reads brings it back in step |
| UiStream.TrueViewsStayTrue | apps/rshare-daemon/src/state_aggregator.rs:371-401 | once a subscriber shows a state that the actor had, it does so after any further steps of anybody, until it subscribes anew |
| UiStream.LatestStateIsTheView | apps/rshare-daemon/src/state_aggregator.rs:629-653 | readers of the latest state always see the actor's view, although realtime deltas are not published in full, and the replay window holds the newest reliable deltas |
| UiStream.ResumesExactlyWhen | apps/rshare-daemon/src/state_aggregator.rs:548-572 | a cursor of the current boot is resumed by deltas exactly when all later revisions are still retained, and the deltas are the log from there; otherwise a resync and a snapshot |
| UiStream.ContiguousExactlyWhen | apps/rshare-daemon/src/state_aggregator.rs:549-562 | the position-by-position test for a gap-free replay is passed exactly when every later revision is retained |
| UiStream.BacklogExactly | apps/rshare-daemon/src/state_aggregator.rs:554-598 | which backlog a subscriber gets for no cursor, the current one, one of another boot, one ahead and one that cannot be continued, with the reason it is told |
| UiStream.EmissionExactly | apps/rshare-daemon/src/state_aggregator.rs:600-653 | a change becomes the next revision if there is one and it is acceptable; otherwise a reliable one makes the actor start over from the projection under a new boot and tell everybody, and without a projection, or for a realtime one, the actor stops |
| UiStream.ReadersMayResume | apps/rshare-daemon/src/state_aggregator.rs:534-579 | a subscriber that has read its backlog, or was led astray, may subscribe again at any time with its cursor |
| UiStream.DroppedRecoveryFitsExactlyWhen | apps/rshare-daemon/src/ui_state_server.rs:287-309 | if a lagging receive is dropped before the actor answers, the next envelope fits the view exactly when it is not a delta |
| UiStream.ADroppedRecoveryMissesADelta | apps/rshare-daemon/src/ui_state_server.rs:287-291 | from every initial snapshot a run with a lag and a dropped recovery after which the next delta does not fit |
| UiStream.HeartbeatFitsExactlyWhenCaughtUp | apps/rshare-daemon/src/ui_state_server.rs:292-295 | a heartbeat with the published cursor is accepted by a subscriber in step, whatever it has left unread, exactly when it has read its whole backlog and the whole log |
| UiStream.AHeartbeatFreezesAView | apps/rshare-daemon/src/ui_state_server.rs:292-295 | from every initial snapshot a run in which a heartbeat overtakes unread deltas and the view refuses them |
| UiDiff.DiscreteChangesReach | apps/rshare-daemon/src/state_aggregator.rs:1045-1122 | folding the transitions over the view gives the projected keys and buttons, with one transition for each control that differs (of the sets: a source list that names one control twice could repeat its transition) |
| UiDiff.DiscreteChangesExactly | apps/rshare-daemon/src/state_aggregator.rs:1045-1122 | a release is in the list for exactly each control no longer pressed and a press for each new one, all of the given time |
| UiDiff.PadTransitionsReach | apps/rshare-daemon/src/input_state.rs:247-287 | both ways of computing gamepad transitions lead a view with the previous set to the current one |
| UiDiff.PadChangesExactly | apps/rshare-daemon/src/state_aggregator.rs:983-1016 | the same for gamepad buttons, in both ways of computing them |
| UiDiff.QuietWhenEqual | apps/rshare-daemon/src/state_aggregator.rs:983-1016 | each of the three lists of transitions is empty exactly when the sets agree |
| InputCut.StepKeepsInv | apps/rshare-daemon/src/input_state.rs:147-224 | every step of publisher and actor keeps the invariant between queue, flag, cut, view and authority |
| InputCut.MutationFollows | apps/rshare-daemon/src/state_aggregator.rs:655-701 | a publication's mutation does to an agreeing view what the publication does to the authority |
| InputCut.PressedExactlyWhen | apps/rshare-daemon/src/input_state.rs:227-245 | a gamepad button counts as pressed exactly when a connected gamepad reports it |
| InputCut.PublicationChanges | apps/rshare-daemon/src/input_state.rs:147-225 | a publication counts one generation and changes its own part of the authority |
| InputCut.QueuesExactly | apps/rshare-daemon/src/input_state.rs:147-225 | what is queued for a publication: its content under the new generation, and nothing for a gamepad report that changes no button |
| InputCut.InputStatePublisher.Enqueue | apps/rshare-daemon/src/input_state.rs:167-177 | a mutation is queued, or the flag is set if the queue is full or closed |
| InputCut.InputStatePublisher.PublishDiscrete | apps/rshare-daemon/src/input_state.rs:180-201 | publishing keys and buttons is the model's publication with its queueing, and keeps the invariant |
| InputCut.InputStatePublisher.PublishGamepads | apps/rshare-daemon/src/input_state.rs:147-178 | the same for gamepads; a report that changes no button queues nothing |
| InputCut.InputStatePublisher.PublishSession | apps/rshare-daemon/src/input_state.rs:203-224 | the same for the control session |
| InputCut.PendingMutationsLeadToAuthority | apps/rshare-daemon/src/state_aggregator.rs:428-472 | in every run with any queue capacity, whenever the flag is clear and no rebuild is under way, folding the mutations still to come, above the cut, over the view gives the publisher's keys, buttons, gamepad buttons and session |
| InputCut.DirtyIsRepaired | apps/rshare-daemon/src/state_aggregator.rs:433-446 | testing a set flag ends with an agreeing view, directly or through the rebuild it starts |
| InputCut.FailuresRebuildOrStop | apps/rshare-daemon/src/state_aggregator.rs:429-531 | a failed emission is made good by a rebuild whatever part of it went out; without a projection the actor stops for good |
| InputCut.FlagMustBeTestedFirst | apps/rshare-daemon/src/state_aggregator.rs:431-446 | a remark on the order of the branches: a run with a queue of one in which a variant that takes a mutation before the flag leaves the view wrong with nothing to come |
| UiReconcile.ChangesReachTheProjection | apps/rshare-daemon/src/state_aggregator.rs:777-892 | for every view and projection, applying the emitted changes in order gives the projected slices, with devices and media sessions as sets keyed by identity |
| UiReconcile.ProjectionShowsExactlyWhen | apps/rshare-daemon/src/state_aggregator.rs:839-854 | the exact conditions under which the pointer and the status of the projection arrive |
| UiReconcile.AProjectionIsNotReached | apps/rshare-daemon/src/state_aggregator.rs:839-854 | from every prepared view with a pointer and a session, projections whose pointer or whose status does not arrive |
| UiReconcile.QuietForPrepared | apps/rshare-daemon/src/state_aggregator.rs:777-890 | nothing is emitted exactly when the view shows all of a prepared projection, a missing pointer aside |
| UiReconcile.QuietExactlyWhenOnlyTimesDiffer | apps/rshare-daemon/src/state_aggregator.rs:735-775 | after the volatile fields are settled, nothing is emitted exactly when view and projection agree but for observation times |
| UiReconcile.DiagnosticsAreReached | apps/rshare-daemon/src/state_aggregator.rs:847-851 | the diagnostics delta is never part of the emitted list |
| UiReconcile.SettlesExactly | apps/rshare-daemon/src/state_aggregator.rs:733-790 | only times of observation are taken over from the view, each exactly where nothing else differs |
| UiReconcile.ChangesAcceptable | apps/rshare-daemon/src/state_aggregator.rs:733-893 | no emitted change can be refused by the view |
| UiAggregator.ProjectionWithInputAgrees | apps/rshare-daemon/src/state_aggregator.rs:895-920 | a projection with the input state laid over it agrees with the publisher, whether it replaces the view or the view is reconciled with it: pressed controls, gamepads, pointer, session and the status that names it |
| UiAggregator.OverlayReplacesInput | apps/rshare-daemon/src/state_aggregator.rs:1018-1043 | the overlay replaces pressed controls, gamepads, session, and the pointer if there is one, and nothing else |
| UiAggregator.Aggregator.ApplyDelta | apps/rshare-daemon/src/state_aggregator.rs:615-627 | allocates the next revision, or changes nothing if revisions are exhausted or the view refuses |
| UiAggregator.Aggregator.EmitReliable | apps/rshare-daemon/src/state_aggregator.rs:600-609 | one revision further, with the change applied, logged and retained for replay |
| UiAggregator.Aggregator.EmitRealtime | apps/rshare-daemon/src/state_aggregator.rs:611-613 | the same without entering the replay window |
| UiAggregator.Aggregator.PublishView | apps/rshare-daemon/src/state_aggregator.rs:629-653 | readers that saw the view before a change see it after the change, whether it is published in full or only as a pointer or gamepads |
| UiAggregator.Aggregator.Subscribe | apps/rshare-daemon/src/state_aggregator.rs:534-579 | for every view that may subscribe with the cursor, a subscriber with that view and this backlog meets the stream's invariant, so all it reads fits |
| UiAggregator.Aggregator.Rebuild | apps/rshare-daemon/src/state_aggregator.rs:703-731 | a new boot at revision 0 with an empty window and the given cut, exactly when the projection is valid |
| UiAggregator.Aggregator.ApplyInputMutation | apps/rshare-daemon/src/state_aggregator.rs:655-701 | skips what the cut covers; otherwise emits the mutation's changes as far as revisions last, and the cut moves exactly when all of them went out; the shown input state is then the mutated one |
| UiAggregator.MutationShows | apps/rshare-daemon/src/state_aggregator.rs:655-701 | the changes emitted for a mutation, folded over any view, do to the shown input state what the mutation says |
| UiAggregator.MutationEmitsNews | apps/rshare-daemon/src/state_aggregator.rs:655-701 | nothing is emitted for pressed controls or a session that the view shows already |
| UiAggregator.ChangingTakesNews | apps/rshare-daemon/src/state_aggregator.rs:962-981 | a gamepad transition is emitted exactly when it changes the view it meets |
| UiAggregator.Aggregator.Reconcile | apps/rshare-daemon/src/state_aggregator.rs:733-893 | fails exactly without a valid projection or when revisions do not last; the view is the one after the emitted prefix of the changes, and on success it shows the projection, one revision for each change, with the projection's cut |
| UiAggregator.Aggregator.EmitAll | apps/rshare-daemon/src/state_aggregator.rs:797-815 | emits exactly the prefix of the changes that revisions last for, in order |
| UiAggregator.EmittedTwice | apps/rshare-daemon/src/state_aggregator.rs:777-890 | emitting two lists in turn, the second only after the whole first, is emitting both as one list |
| AudioCodec.EncodeFrame | crates/rshare-audio/src/media.rs:26-72 | refuses exactly what the format, size, mtu and fragment limits refuse; otherwise the i-th datagram is the packet of the i-th chunk |
| AudioCodec.EncodesExactlyWhen | crates/rshare-audio/src/media.rs:26-46 | a frame is cut exactly when its format is valid, its generation not 0, its data of the format's size, and 32 datagrams of the MTU hold it |
| AudioCodec.PacketBytesRead | crates/rshare-audio/src/media.rs:47-70 | where magic number, stream, channel count, encoding and data are in a datagram |
| AudioCodec.PacketShortsRead | crates/rshare-audio/src/media.rs:47-70 | where its two-byte numbers are: version, header size, frames, index, count, data size |
| AudioCodec.PacketWordsRead | crates/rshare-audio/src/media.rs:47-70 | where its four- and eight-byte numbers are: rate, offset, total, generation, sequence, position |
| AudioCodec.DecodeOfPacket | crates/rshare-audio/src/media.rs:82-130 | decoding a written packet gives its header back, and its payload is the chunk |
| AudioCodec.DecodeAcceptsOnlyPackets | crates/rshare-audio/src/media.rs:82-130 | whatever decode accepts is byte for byte the packet written for the header it returns |
| AudioCodec.FragmentDecodes | crates/rshare-audio/src/media.rs:46-70 | each datagram of an encoded frame is accepted and carries its own chunk at its own offset |
| AudioReassembly.Reassembler.Create | crates/rshare-audio/src/media.rs:150-166 | an empty table, or the error for the format or for generation 0 |
| AudioReassembly.Reassembler.ExpireOld | crates/rshare-audio/src/media.rs:170-175 | keeps exactly the partial frames younger than 20 ms, unchanged, and counts the others |
| AudioReassembly.Reassembler.PushPacket | crates/rshare-audio/src/media.rs:176-239 | new table and outcome for any datagram, accepted, duplicate or refused |
| AudioReassembly.Reassembler.AdmitFragment | crates/rshare-audio/src/media.rs:186-207 | repeated and too old numbers are refused, and the oldest of twenty partial frames makes room |
| AudioReassembly.Reassembler.StoreFragment | crates/rshare-audio/src/media.rs:208-238 | writes a fragment only into bytes not covered before, in place |
| AudioReassembly.Reassembler.SettleFragment | crates/rshare-audio/src/media.rs:222-238 | a frame with all its fragments leaves the table, and comes out if every byte is covered |
| AudioReassembly.Reassembler.TrimCompleted | crates/rshare-audio/src/media.rs:229-231 | the loop leaves the 128 largest completed numbers |
| AudioReassembly.PushKeepsShape | crates/rshare-audio/src/media.rs:176-239 | the buffers of every partial frame keep the size its header announces |
| AudioReassembly.PushExpiresExactly | crates/rshare-audio/src/media.rs:170-200 | push drops and counts the partial frames that have waited 20 ms, and the one with the smallest number when twenty are left and another is to be opened; the others stay as they were, and none in the table is 20 ms old |
| AudioReassembly.PushCountsExactly | crates/rshare-audio/src/media.rs:176-215 | which datagrams are counted as rejected and which as duplicates, and what is answered to those that are not stored |
| AudioAnyOrder.AnyOrderReturnsTheFrameOnce | crates/rshare-audio/src/media.rs:26-239 | for every frame that can be sent, its datagrams in any order and any multiplicity within 20 ms return the frame unchanged on the last missing one, and nothing on all the others |
| AudioAnyOrder.FreshIsOpen | crates/rshare-audio/src/media.rs:150-166 | a new reassembler of the stream meets the premise of the round trip for every frame |
| AudioWindow.Run | crates/rshare-audio/src/media.rs:176-239 | whatever arrives, at most 20 partial frames are kept, and the completed numbers are the up to 128 largest emitted ones |
| AudioWindow.EmittedFramesAreAssembled | crates/rshare-audio/src/media.rs:208-237 | each emitted frame consists of datagrams that arrived for it, one per fragment index, each byte from exactly one of them, and all of them arrived less than 20 ms after the first of them |
| AudioWindow.NothingTwiceWithinTheWindow | crates/rshare-audio/src/media.rs:186-196 | a frame fewer than 128 behind the newest comes out once and one further behind not at all; a repetition happens at distance 128 only |
| AudioWindow.ForgottenExactlyWhen | crates/rshare-audio/src/media.rs:186-231 | which emitted numbers are neither remembered nor too old |
| AudioWindow.TwiceExactlyAtTheEdge | crates/rshare-audio/src/media.rs:186-231 | an emitted frame can come out again iff it is exactly 128 behind the newest and every number from it to the newest was emitted |
| AudioWindow.AFrameComesOutTwice | crates/rshare-audio/src/media.rs:186-231 | for every number there is a run that emits the frame, the 128 after it, and then the frame again |
| AudioRing.StepKeepsInv | crates/rshare-audio/src/bridge.rs:64-127 | each load, frame copy and publication of either side keeps the ring invariant |
| AudioRing.ConsumedIsWrittenInOrder | crates/rshare-audio/src/bridge.rs:64-127 | in every interleaving, with cursors that wrap at 2^64, depth is written minus delivered and at most 4096, unread frames are intact in their slots, and the i-th delivered frame is the i-th written one or silence taken offline |
| AudioRing.RefusedWriteOnlyCounts | crates/rshare-audio/src/bridge.rs:74-80 | a write is refused exactly when it does not fit, and then only the overrun counter changes |
| AudioRing.SlotOfIndex | crates/rshare-audio/src/bridge.rs:83 | the slot computed from a wrapped cursor is the slot of the unwrapped frame number |
| AudioRing.WriteAloneAppends | drivers/audio-common/rshare_audio_bridge.h:41-62 | an uninterrupted write appends all its frames in order, or none and counts an overrun, or nothing offline |
| AudioRing.ReadAloneTakes | drivers/audio-common/rshare_audio_bridge.h:63-92 | an uninterrupted read takes the oldest unread frames in order, silence after them, and counts a short read as an underrun |
| AudioRing.CopySamples | drivers/audio-common/rshare_audio_bridge.h:57-59 | the native sample loop replaces one range of the target and nothing else |
| AudioRing.Ring.Create | crates/rshare-audio/src/bridge.rs:28-45 | an empty ring for a valid format, an error otherwise |
| AudioRing.Ring.Write | crates/rshare-audio/src/bridge.rs:64-93 | the in-place write is the uninterrupted write of the model and returns the number of frames appended |
| AudioRing.Ring.Fill | crates/rshare-audio/src/bridge.rs:82-89 | the copy loop does all the frame copies of the model |
| AudioRing.Ring.Read | crates/rshare-audio/src/bridge.rs:97-127 | the read into the caller's buffer is the uninterrupted read of the model and returns the number of frames taken |
| AudioRing.Ring.Drain | crates/rshare-audio/src/bridge.rs:112-119 | the copy loop fills the caller's buffer as the model's frame copies do |
| AudioRing.OnlyTheSwitchSwitches | crates/rshare-audio/src/bridge.rs:49-51 | neither side touches the online flag, and switching it touches nothing else |
| AudioRing.Ring.SetOnline | crates/rshare-audio/src/bridge.rs:49-51 | changes the flag and nothing else |
| AudioPlayout.Run | crates/rshare-audio/src/engine.rs:140-253 | over every run a tag other than the sentinel belongs to its slot, the slot holds the samples last accepted for that frame, and the drift correction stays within its clamp |
| AudioPlayout.HitSlot | crates/rshare-audio/src/engine.rs:170-180 | every frame of an accepted packet is found afterwards under its own tag with its own samples |
| AudioPlayout.StoredSlot | crates/rshare-audio/src/engine.rs:170-180 | after an accepted packet every tagged slot holds the samples last accepted for its frame |
| AudioPlayout.FrameKeeps | crates/rshare-audio/src/engine.rs:213-245 | playing a frame moves the position by 0.999 to 1.001 and changes no slot |
| AudioPlayout.DriftCorrects | crates/rshare-audio/src/engine.rs:66-71 | more than the target is corrected upwards and less downwards, once the integral does not point the other way; at the target nothing is corrected |
| AudioPlayout.DriftIntegrates | crates/rshare-audio/src/engine.rs:66-71 | the integral moves towards the sign of the deviation, until it is at its bound |
| AudioPlayout.DriftIsMonotone | crates/rshare-audio/src/engine.rs:66-71 | a fuller buffer is never corrected less, and the two directions are mirror images |
| AudioPlayout.DriftAtOneDepth | crates/rshare-audio/src/engine.rs:66-71 | n updates at one depth, in closed form: the integral grows linearly to its bound and the correction follows the deviation at 10 ppm a frame on top of it |
| AudioPlayout.FrameCorrectsDrift | crates/rshare-audio/src/engine.rs:213-219 | when an update is due the position advances by more than 1 if more than the target is buffered, and by less than 1 if less; between updates, once a millisecond, the ratio stays |
| AudioPlayout.FullGainAfterAMillisecond | crates/rshare-audio/src/engine.rs:220-226 | a millisecond of frames without a gap brings the gain to 1 |
| AudioPlayout.RenderExactly | crates/rshare-audio/src/engine.rs:197-249 | an underrun is counted exactly when a frame of the call was missing; a call for part of a frame, or before playing may begin, does nothing |
| AudioPlayout.BeginsExactlyWhen | crates/rshare-audio/src/engine.rs:203-210 | playing starts, at the first buffered frame, exactly when the target lies between it and the end |
| AudioPlayout.InsertExactly | crates/rshare-audio/src/engine.rs:140-185 | for which packets each of the five verdicts is given, and the one counter it raises |
| AudioPlayout.CleanedKeepsFinite | crates/rshare-audio/src/engine.rs:171-180 | a sample is kept unless all its exponent bits are set; then silence is stored |
| AudioPlayout.ResetIsNew | crates/rshare-audio/src/engine.rs:186-195 | a reset ring is as new, but for the counters and for samples that no tag points to |
| AudioPlayout.RenderedPositions | crates/rshare-audio/src/engine.rs:197-253 | which frame the k-th output plays, when it is silent, and where the play position is |
| AudioPlayout.AcceptedPacketSparesUpcomingFrames | crates/rshare-audio/src/engine.rs:150-180 | if what is buffered fits and the packet is not too early, an accepted packet changes no slot whose frame is still to be played |
| AudioPlayout.FitsExactlyWhenNotTooEarly | crates/rshare-audio/src/engine.rs:158-165 | accepting a packet keeps the buffered frames within one ring exactly when it is not too far before the end |
| AudioPlayout.OnlyPlayedFramesAreReplaced | crates/rshare-audio/src/engine.rs:140-253 | in every run in which no packet is accepted that is too early for the ring, a buffered frame stays in its slot, sample for sample, through any further packets and frames, until the play position has passed it or a reset clears it |
| AudioPlayout.PacketsSpareUpcomingFramesInEveryRun | crates/rshare-audio/src/engine.rs:140-185 | in such a run an arriving packet changes no slot whose frame is still to be played |
| AudioPlayout.AlwaysFitsExactlyWhen | crates/rshare-audio/src/engine.rs:140-185 | what is buffered fits into one ring throughout a run, which is the premise of the single-packet lemmas, exactly when no packet is accepted that is too early |
| AudioPlayout.AnEarlyPacketCostsALaterOne | crates/rshare-audio/src/engine.rs:158-165 | three packets after which an upcoming frame is overwritten |
| AudioPlayout.PlayoutRing.Create | crates/rshare-audio/src/engine.rs:96-139 | format and buffer limits, and the empty ring |
| AudioPlayout.PlayoutRing.InsertPacket | crates/rshare-audio/src/engine.rs:140-185 | accepts exactly what the tests for size, lateness, room and repetition let through, and updates tags, samples and counters |
| AudioPlayout.PlayoutRing.StoreFrames | crates/rshare-audio/src/engine.rs:170-180 | the in-place loop writes each frame's tag and cleaned samples into its slot |
| AudioPlayout.PlayoutRing.AnyPresent | crates/rshare-audio/src/engine.rs:166 | found iff some frame of the packet is buffered under its tag |
| AudioPlayout.PlayoutRing.RenderInto | crates/rshare-audio/src/engine.rs:197-253 | which frame each output of a render call plays or that it is silent, start of playing, positions, drift updates and underruns |
| AudioPlayout.PlayoutRing.PlayOne | crates/rshare-audio/src/engine.rs:213-245 | which frame is played, and that a due update moves the position by more or less than 1 as more or less than the target is buffered |
| AudioPlayout.PlayoutRing.ResetAll | crates/rshare-audio/src/engine.rs:186-196 | clears all tags and the clock, and keeps the counters |
| AudioRegistry.StepKeepsInv | crates/rshare-audio/src/registry.rs:91-222 | each operation keeps the invariant, and no peer's generation goes back |
| AudioRegistry.SessionsAreServed | crates/rshare-audio/src/registry.rs:91-222 | after any operations each session has exactly one device of its peer and generation that offers its rate and its distinct channels, a peer's sessions share one rate, and per direction use at most 8 channels |
| AudioRegistry.GenerationsNeverGoBack | crates/rshare-audio/src/registry.rs:99-106 | between any two points of a run a peer's generation does not decrease |
| AudioRegistry.ReconcilesExactlyWhen | crates/rshare-audio/src/registry.rs:91-112 | exactly which catalogs are taken over: at most 256 well-formed, distinct, not virtual endpoints, a name of at most 1024, a generation that is not 0 and does not go back |
| AudioRegistry.ReconcileReplaces | crates/rshare-audio/src/registry.rs:112-148 | afterwards the peer has one device per endpoint, registered iff it was and still is there, its sessions are those that a device goes on offering, and other peers are left alone |
| AudioRegistry.RegisteredOnlyByRegistration | crates/rshare-audio/src/registry.rs:91-169 | in every run a registered device was registered by an answer of its own that no failure and no disconnection has undone since |
| AudioRegistry.MarksAndCloses | crates/rshare-audio/src/registry.rs:150-223 | a registration's answer changes its own device only, and closing ends one session |
| AudioRegistry.DisconnectedIsClosed | crates/rshare-audio/src/registry.rs:164-169 | after a disconnection the peer's devices are offline and its sessions gone, and nothing of it opens |
| AudioRegistry.OpensExactlyWhen | crates/rshare-audio/src/registry.rs:170-219 | a session opens on a device exactly when that one is registered and offers what is asked for, the peer's sessions have the same rate, and enough of the eight channels are left |
| AudioRegistry.OpenRefusals | crates/rshare-audio/src/registry.rs:170-205 | which of the refusals is given for what |
| AudioRegistry.ValidateCatalog | crates/rshare-audio/src/registry.rs:224-236 | the loop with its set of seen identities finds the first error of the catalog, or none |
| AudioRegistry.Registry.ReconcilePeer | crates/rshare-audio/src/registry.rs:91-149 | errors in the order of the tests; otherwise new devices for the peer, and only the sessions they still serve |
| AudioRegistry.Registry.MarkRegistration | crates/rshare-audio/src/registry.rs:150-163 | changes status and error of the first device with the key |
| AudioRegistry.Registry.Disconnect | crates/rshare-audio/src/registry.rs:164-169 | the peer's devices go offline and its sessions end |
| AudioRegistry.Registry.UsedChannels | crates/rshare-audio/src/registry.rs:196-204 | the loop over a peer's sessions reports a rate conflict iff there is one, and otherwise the sum of channels in the direction |
| AudioRegistry.Registry.OpenSession | crates/rshare-audio/src/registry.rs:170-219 | each refusal in the order of the tests; otherwise one new session |
| AudioRegistry.Registry.CloseSession | crates/rshare-audio/src/registry.rs:220-222 | removes the session and nothing else |
| UsbBudget.Run | crates/rshare-core/src/usb_budget.rs:32-92 | over any reservations and drops the total, each peer and each lease equal the sums over the live reservations, peers equal the sums of their leases, the caps hold, and entries exist exactly with a positive count |
| UsbBudget.ReserveKeepsInv | crates/rshare-core/src/usb_budget.rs:32-64 | an admitted reservation keeps the books balanced and within the caps |
| UsbBudget.DropKeepsInv | crates/rshare-core/src/usb_budget.rs:77-92 | dropping a live reservation keeps the books balanced |
| UsbBudget.LiveCanDrop | crates/rshare-core/src/usb_budget.rs:73-92 | no drop of a live reservation misses an entry or underflows, and a removed entry carries no bytes |
| UsbBudget.AllDroppedIsEmpty | crates/rshare-core/src/usb_budget.rs:77-92 | when every reservation is dropped the budget is as new |
| UsbBudget.AdmitsExactlyWhen | crates/rshare-core/src/usb_budget.rs:32-64 | measured by the live reservations: admitted exactly with at most 1 MiB of payload, three times that and 1 KiB more within 64, 16 and 4 MiB, and fewer than 512, 128 and 32 requests; then charged that much |
| UsbBudget.LiveWasCharged | crates/rshare-core/src/usb_budget.rs:32-64 | every live reservation of a run is charged for three copies of the payload it was admitted with |
| UsbBudget.Budget.TryReserve | crates/rshare-core/src/usb_budget.rs:32-64 | refuses exactly at the caps and then charges nothing; otherwise charges total, peer and lease |
| UsbBudget.Budget.Release | crates/rshare-core/src/usb_budget.rs:77-92 | refunds total, peer and lease |
| UsbBudget.Budget.Charge | crates/rshare-core/src/usb_budget.rs:55-57 | books an admitted request in total, peer and lease, after which all sums and caps hold with the new reservation |
| UsbBudget.Budget.RefundCounts | crates/rshare-core/src/usb_budget.rs:79-90 | subtracts them, and removes entries that reach zero requests |
| InputLedger.StepKeepsInv | crates/rshare-core/src/input.rs:353-396 | held generations stay distinct and below the next one, and a control keeps its generation while it is held |
| InputLedger.BatchCoversHeld | crates/rshare-core/src/input.rs:403-439 | a batch releases each held control once, with the generation of its press and, for a button, its position and anchor, under the ledger's identity and next token |
| InputLedger.ConfirmClearsWhatStayedHeld | crates/rshare-core/src/input.rs:446-469 | after any steps since the batch was taken, confirming clears exactly the controls that were held all the time; one released and pressed again survives |
| InputLedger.ForeignBatchClearsNothing | crates/rshare-core/src/input.rs:446-449 | a batch of another ledger changes nothing |
| InputLedger.RecordsExactly | crates/rshare-core/src/input.rs:353-401 | a new press is remembered under the next generation, with its position and anchor; a repeated press and the release of what is not held change nothing, and each reports whether it changed anything |
| InputLedger.ConfirmCountsCleared | crates/rshare-core/src/input.rs:446-469 | confirming clears and counts exactly the controls of the batch that are held with the generation they were taken with |
| InputLedger.BatchTokensDiffer | crates/rshare-core/src/input.rs:403-409 | no two batches of a ledger have the same token, whatever happens in between |
| InputLedger.GateBelongsToLastHandover | crates/rshare-core/src/input.rs:204-221 | after any run the gate's owner and epoch are those of the last handover whose epoch grew |
| InputLedger.AdmittedOnlyFromHolder | crates/rshare-core/src/input.rs:204-266 | a frame is admitted only from the owner, and at the epoch, of the last handover before it whose epoch grew |
| InputLedger.HandoverStartsAfresh | crates/rshare-core/src/input.rs:204-266 | after such a handover, until the next, the new owner's first frame of each stream is accepted whatever its number, and every frame of another owner or epoch is turned away |
| InputLedger.VerdictExactly | crates/rshare-core/src/input.rs:223-285 | the verdict on a frame of the owner, by the last number let through of its stream |
| InputLedger.AdmittedOnlyForward | crates/rshare-core/src/input.rs:204-285 | over any run of the gate, of two admitted frames the later has a later epoch, or the same epoch and owner and, in one stream, a larger sequence number |
| InputLedger.AdmittedIsRemembered | crates/rshare-core/src/input.rs:204-285 | the gate keeps the last number of each stream for as long as the epoch lasts |
| InputLedger.InputOwnershipGate.HandOver | crates/rshare-core/src/input.rs:204-221 | a handover needs a later epoch; then the gate has the new owner and epoch and no sequence numbers, otherwise nothing changes |
| InputLedger.InputOwnershipGate.AcceptRealtime | crates/rshare-core/src/input.rs:223-238 | the gate's step for a realtime frame and its verdict |
| InputLedger.InputOwnershipGate.AcceptReliable | crates/rshare-core/src/input.rs:240-255 | the gate's step for a reliable frame and its verdict |
| InputLedger.InputOwnershipGate.Accept | crates/rshare-core/src/input.rs:268-285 | out of order exactly for a number that is not larger than the last, and the gap is the count of skipped numbers |
| InputLedger.PressedStateLedger.Record | crates/rshare-core/src/input.rs:353-367 | records a key change, with a new generation for a new press, or reports exhaustion and changes nothing |
| InputLedger.PressedStateLedger.RecordMouse | crates/rshare-core/src/input.rs:369-396 | the same for mouse buttons with their position and anchor |
| InputLedger.PressedStateLedger.ReleaseAllEvents | crates/rshare-core/src/input.rs:403-439 | takes a batch and changes nothing but the token counter |
| InputLedger.PressedStateLedger.CollectReleases | crates/rshare-core/src/input.rs:408-430 | the two loops over the held controls collect the batch of the model |
| InputLedger.PressedStateLedger.ConfirmReleaseAll | crates/rshare-core/src/input.rs:446-469 | the two loops clear what the model clears, and count it |
| FolderDrag.StepKeepsInv | apps/rshare-daemon/src/folder_drag_runtime.rs:82-283 | every step of the observer and of the runner, between any two awaits, keeps the invariant |
| FolderDrag.EverySendIsOneGesture | apps/rshare-daemon/src/folder_drag_runtime.rs:183-283 | in every interleaving a send follows a Begin, at least 8 px of travel, a Cross and a Drop of one generation that agree on peer, epoch and connection, the crossing's connection was registered once, and no cancel, Escape, new press or queue overflow fell in between |
| FolderDrag.EachBeginSendsOnce | apps/rshare-daemon/src/folder_drag_runtime.rs:260-281 | two sends have different Begins and different generations |
| FolderDrag.SendsKeepTheConnection | apps/rshare-daemon/src/folder_drag_runtime.rs:248-276 | in every run the connection registered for the crossing a send comes from is the one found when the release was decided and the one the send goes to |
| FolderDrag.TurnsKeepInv | apps/rshare-daemon/src/folder_drag_runtime.rs:91-283 | an uninterrupted call of the observer or turn of the runner keeps the invariant |
| FolderDrag.TurnOutcome | apps/rshare-daemon/src/folder_drag_runtime.rs:204-281 | what one turn makes of the gesture, and when it sends, for each kind of event |
| FolderDrag.StagesExactly | apps/rshare-daemon/src/folder_drag_runtime.rs:211-258 | what each stage of a turn makes of its answer, whatever the observer did in between: without files, after a bump, or without a connection the gesture is over |
| FolderDrag.MovesExactlyWhen | apps/rshare-daemon/src/folder_drag_runtime.rs:94-105 | a press counts as moved exactly once the pointer was 8 px away from it in x or in y, to either side |
| FolderDrag.CallbackOutcome | apps/rshare-daemon/src/folder_drag_runtime.rs:88-168 | what each callback of the observer does when nothing interrupts it |
| FolderDrag.GestureSendsExactlyWhen | apps/rshare-daemon/src/folder_drag_runtime.rs:88-282 | a press, a motion, a crossing and a release that nothing interrupts send the files exactly when the pointer got 8 px away and the release belongs to the epoch of the crossing |
| FolderDrag.FolderDragRuntime.SendEvent | apps/rshare-daemon/src/folder_drag_runtime.rs:82-88 | stamps an event and queues it behind the others, or bumps the generation when 32 are waiting |
| FolderDrag.FolderDragRuntime.CancelGesture | apps/rshare-daemon/src/folder_drag_runtime.rs:170-173 | the callback's effect, after which nothing queued, no event at work and no held gesture has the current generation, so none of it can lead to a send |
| FolderDrag.FolderDragRuntime.CapturedInput | apps/rshare-daemon/src/folder_drag_runtime.rs:92-134 | the travel, left-button and Escape handling of the observer; a local motion makes the press moved exactly from 8 px in x or y on |
| FolderDrag.FolderDragRuntime.SentEnter | apps/rshare-daemon/src/folder_drag_runtime.rs:138-150 | a crossing is stamped only after the press has moved |
| FolderDrag.FolderDragRuntime.SentRelease | apps/rshare-daemon/src/folder_drag_runtime.rs:151-165 | a release is stamped with its point |
| FolderDrag.FolderDragRuntime.TakeNext | apps/rshare-daemon/src/folder_drag_runtime.rs:204 | takes the oldest queued event |
| FolderDrag.FolderDragRuntime.CompareTaken | apps/rshare-daemon/src/folder_drag_runtime.rs:205-261 | drops an event of another generation with the gesture, and otherwise decides what its kind needs |
| FolderDrag.FolderDragRuntime.AfterBegin | apps/rshare-daemon/src/folder_drag_runtime.rs:211-219 | the answer to the native begin decides whether there is a gesture, whatever happened meanwhile |
| FolderDrag.FolderDragRuntime.AfterFiles | apps/rshare-daemon/src/folder_drag_runtime.rs:228-238 | without files the gesture is over |
| FolderDrag.FolderDragRuntime.CheckGeneration | apps/rshare-daemon/src/folder_drag_runtime.rs:239-241 | a generation bumped meanwhile ends the gesture |
| FolderDrag.FolderDragRuntime.AfterCancel | apps/rshare-daemon/src/folder_drag_runtime.rs:244-258 | binds the crossing to the registered connection, or ends the gesture |
| FolderDrag.FolderDragRuntime.FinishDrop | apps/rshare-daemon/src/folder_drag_runtime.rs:264-279 | reports a transfer exactly when the model decides a send, and keeps the invariant |
| FolderDrag.FolderDragRuntime.HandleNext | apps/rshare-daemon/src/folder_drag_runtime.rs:204-282 | one iteration of the runner that nothing interrupts is the model's turn, and it starts at most the one transfer it reports |
| EndpointEvents.PushOnDiscrete | crates/rshare-core/src/endpoint_events.rs:383-419 | a metrics sample or a repeated event changes no discrete event; another one is appended and may cost the oldest ones only |
| EndpointEvents.PushExactly | crates/rshare-core/src/endpoint_events.rs:383-419 | a pushed event comes last unless it repeats the newest or is a sample with no room beside discrete events only; it costs the sample it renews, or in a full store the oldest sample or the oldest event |
| EndpointEvents.SamplesAreBackendEvents | crates/rshare-core/src/endpoint_events.rs:453-475 | which backend events are samples |
| EndpointEvents.DiscreteEventsAreTheLastAdmitted | crates/rshare-core/src/endpoint_events.rs:383-419 | over any pushes the store stays within its limit and its discrete events are a suffix of the admitted ones, in order |
| EndpointEvents.QueryReturnsTheNewest | crates/rshare-core/src/endpoint_events.rs:425-443 | a query returns wanted events only, the newest ones, in order, as many as asked for or there are |
| EndpointEvents.EventStore.PushEvent | crates/rshare-core/src/endpoint_events.rs:383-419 | replacing, evicting and trimming in place give the modelled history |
| EndpointEvents.EventStore.QueryEvents | crates/rshare-core/src/endpoint_events.rs:425-443 | the walk back from the newest event gives the modelled query |
| ByteOrder.NumberOfBigEndian | crates/rshare-core/src/ipc_frame.rs:115-198 | big-endian bytes read back as the number |
| ByteOrder.BigEndianOfNumber | crates/rshare-core/src/ipc_frame.rs:115-198 | a number read from bytes is written as the same bytes |
| IpcFrames.ReadWritten | crates/rshare-core/src/ipc_frame.rs:115-198 | a frame within its limit reads back, whatever follows it, or is refused if its kind is not wanted |
| IpcFrames.ReadIsWritten | crates/rshare-core/src/ipc_frame.rs:115-164 | what is read is exactly what writing the frame produces, and it is within the limits and of a wanted kind |
| IpcFrames.WritesExactlyWhen | crates/rshare-core/src/ipc_frame.rs:166-198 | with the default limits up to 32 MiB of binary data and 4 MiB of anything else are written, behind four bytes of length and one for the kind |
| IpcFrames.StreamRoundTrip | crates/rshare-core/src/ipc_frame.rs:115-198 | any list of frames within limits reads back as the same list and a clean end |
| IpcFrames.CutStream | crates/rshare-core/src/ipc_frame.rs:115-164 | a stream cut anywhere gives the frames before the cut, and then a clean end exactly at a frame boundary and an unexpected end elsewhere |
| IpcFrames.CaptureRoundTrip | crates/rshare-core/src/ipc_binary.rs:14-65 | decoding inverts encoding, and up to the size limit accepts nothing else |
| IpcFrames.ResponseRoundTrip | crates/rshare-core/src/ipc_binary.rs:67-107 | an encoded display-capture response reads back as its metadata and its image |
| IpcFrames.ResponseEncodesExactlyWhen | crates/rshare-core/src/ipc_binary.rs:67-107 | exactly which responses can be encoded |
| IpcFrames.ReadFrameFrom | crates/rshare-core/src/ipc_frame.rs:115-164 | reading step by step with early exits gives the modelled result and consumes exactly one frame |
| IpcFrames.WriteFrameTo | crates/rshare-core/src/ipc_frame.rs:166-198 | appends the frame's bytes, or refuses an oversized payload |

## Left out

- HTTP, WebSocket and JSON parsing and serving, authorization, timeouts, the mobile web page, the CLI and the desktop shell.
- CPAL, Core Audio, PipeWire, memory mapping, the USB runtime and virtual displays; the injection backend is an oracle that accepts or rejects, with the set of controls that are down.
- Memory orderings: atomic accesses are sequentially consistent steps, and copying one frame of samples is one step.
- Clocks are numbers given from outside; SHA-256 device identities are taken as injective, and random identities as fresh.
- Mobile operation tokens, folder-drag generations and the aggregator's input generations are unbounded numbers; their wrap at 2^64 is not modelled.
- The textual names of keys and buttons in cleanup requests; the model sends the canonical code itself.
- MobileBackend.DownControlsAreOwned: assumes that current requests on one control do not overlap between reservation and finish, because the code checks the token there and not the owner set; the owner and token theorems need no such premise.
- MobileBackend.DownIffHeldWhenCalm: assumes moreover that no pending request is superseded or aborted, after which a rejected or unfinished release leaves the tables behind the backend.
- Pressed keys and buttons of the view are sets; the sorted lists of the source have the same members, and one transition for each control that differs is meant of lists without repetitions.
- Changes of keys, buttons or the control session published by others than the input publisher.
- UiStream.StraysShowTrueStates: says nothing of the view of a subscriber that still waits for a snapshot, because it may have subscribed with any view; TrueViewsStayTrue covers it if that view was true.
- The publisher's calls come one after the other; a call's publication and its queueing are separate steps.
- AudioPlayout.PlayoutRing.RenderInto: leaves out the sample values of the output, which are floating-point filter sums; the model says which frame is played. Positions and the drift controller are real numbers.
- AudioPlayout.PlayoutRing.PlayOne: likewise for the sample values of one frame.
- MobileGateway.Gateway.ReleaseAllHeldInputs: stated for a backend that accepts and after every task was aborted; with refusals SendReleases says what each client goes on holding.
- FolderDrag.FolderDragRuntime.HandleNext: runs without interruption; the methods for the single stages of the runner may be interleaved with those of the observer, and the folder-drop version of a peer is part of whether it has a connection.
- Sums of a play position and the ring's capacity that would exceed 2^64.
- Diagnostic values of the playout ring that nothing reads back, such as the depth in milliseconds.
- Grants, catalogs for peers and the local endpoints of the audio registry.
- Conversions of diagnostics into endpoint events, and payload fields that the store does not look into.
- wake.rs, diagnostics_runtime.rs, capabilities.rs, config.rs, hardware_assets.rs and extended_display.rs.
