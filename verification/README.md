# Verified models of Ardurbot's protocols, stores and codecs

A Dafny model of the parts of Ardurbot whose correctness depends on the order of events rather than on
one function: the relay between workers and a host, bounded event windows, the export archive, tool
grants across re-sign-in, host credentials and their cleanup intents, the server configuration editor,
the preview store and the feature documentation checks. `dafny verify dfyconfig.toml` checks all of it.

Where the original awaits, the model has a step: every step is the code between two awaits, one database
transaction, one action of the other side, or a timer that may fire at any time. The theorems are about
every sequence of such steps. Objects that the original updates in place are classes whose methods are
proved to take exactly the step of the value model, so the theorems hold of them as well.

| file | what it holds |
|---|---|
| `HubModel`, `HubSafety`, `HubSteps` | the hub's state machine and the invariant every step keeps |
| `HubMonitor`, `HubHistory`, `HubAnswers`, `HubRuns`, `HubTheorems` | an observer that sees only the frames, and what the log of a run says |
| `HubMemory`, `HubDrops` | which ids a worker's memory holds, and exactly which steps drop a request |
| `HubGuarantees`, `HubEffects`, `HubDuties` | what no run of the hub does, and what each event of every run does exactly |
| `HostHub` | the hub object |
| `EventWindow`, `EventOutcomes`, `EventClock` | resumable event windows, what each turn does to them, their clock and feed |
| `DeviceSlots`, `DeviceStreams` | the per-grant slots, and windows and slots together |
| `TarFormat`, `TarArchive`, `TarRoundTrip` | the archive writer and its readers |
| `ToolGrants` | which tool definitions stay allowed |
| `HostSecrets`, `SavedConnections`, `SecretCleanup` | host credentials, cleanup intents, the calls that save and the sweep |
| `McpConfig`, `McpApply`, `McpRuns` | masking, preview, two-phase apply, concurrent applies |
| `PendingPreviews` | the shared, capped, expiring preview store |
| `RelatedFeatures`, `Interlace` | the related-feature cycle check and PNG raster sizes |

Properties that the code does not have in full are stated with the input that breaks them and with the
exact condition under which they hold:

- a request under an id that was used before may never be answered, after a failed authorization of the
  earlier request (`ReusedIdDropsSilently`) or after its relayed end frame, even when a worker uses its own id
  again (`RelayedEndDropsSilently`); `SilentDropExactly` says for every step and every held, unanswered
  request whether the step drops it;
- a visible event above the frame limit is never passed (`OversizeBlocks`), and no other event is stuck
  (`PassedExactly`);
- a save that imports two credentials leaves the first on the host for good (`TwoImportsOrphan`,
  `CommitExact`), and so does a credential stored after its deletion (`LateStoreOrphan`, `StoreExact`);
- an apply never deletes a server named `constructor`, because looking that name up in the previewed
  object finds an inherited property (`InheritedNameSurvives`, `AppliedExact`).

## Model

| member | source | states |
|---|---|---|
| HubSafety.PromoteReserves | apps/api/src/host-hub.ts:325-332 | a promoted probe is never refused: it takes exactly one slot, under the current host, and leaves the queue's order alone |
| HubSafety.DrainKeeps | apps/api/src/host-hub.ts:325-332 | draining keeps every bound and stops only when the queue is empty, the host is gone or there is no probe capacity |
| HubModel.DrainShrinks | apps/api/src/host-hub.ts:325-332 | draining never enlarges the queue nor the number of requests held, so the loop terminates |
| HubSafety.FinishKeeps | apps/api/src/host-hub.ts:302-310 | ending a request frees its slot, hands it to the queue and keeps the invariant |
| HubSteps.NoOvertaking | apps/api/src/host-hub.ts:131-137 | a probe arriving while others are queued opens nothing: it is refused or appended behind them |
| HubSteps.StepStable | apps/api/src/host-hub.ts:64-332 | every step of the hub keeps the invariant, under any interleaving of authorizations |
| HubGuarantees.SlotLimits | apps/api/src/host-hub.ts:99-152 | in every run: in-flight requests within the limit, probes within half of it, at most 128 queued, nothing held without a host, and a queued probe means no probe capacity |
| HubGuarantees.ProbesInArrivalOrder | apps/api/src/host-hub.ts:131-137 | probes are opened in the order in which they arrived, whether or not they were queued |
| HubTheorems.StepChron | apps/api/src/host-hub.ts:177-268 | every step keeps the agreement between the hub's fields and what an observer of the frames computes |
| HubGuarantees.NeverBad | apps/api/src/host-hub.ts:177-238 | an observer that sees only frames never sees one relayed out of sequence, outside the window, from another connection, by another worker, or after the operation ended |
| HubGuarantees.RelayedInOrder | apps/api/src/host-hub.ts:193-216 | the stream frames of an operation are exactly 0, 1, 2, …; bytes each way stay within the budget; open callbacks within the window |
| HubGuarantees.OpenCounters | apps/api/src/host-hub.ts:193-266 | the counters of an open operation are the sums over its frames; ack ≤ seq ≤ ack + window; for Hermes turns provider bytes plus other bytes are the worker bytes, each within its cap |
| HubGuarantees.ForwardedOnce | apps/api/src/host-hub.ts:153-166 | an id is forwarded at most once per process, and at most 100,000 requests in total |
| HubGuarantees.LostRunFence | apps/api/src/host-hub.ts:103-115 | once a run is lost, nothing of it but a board run is ever forwarded, even when the loss lands during authorization |
| HubGuarantees.DetachMarksRuns | apps/api/src/host-hub.ts:76-98 | a detach marks the run of everything in flight or queued as lost |
| HubGuarantees.EveryRequestAnswered | apps/api/src/host-hub.ts:81-97 | with distinct ids every request is open, queued, or its own worker was sent an end frame |
| HubMemory.StepLinked | apps/api/src/host-hub.ts:302-316 | every step keeps the agreement between what the hub remembered and what ended, read off the history without looking at what was remembered |
| HubGuarantees.RemembersEnded | apps/api/src/host-hub.ts:302-316 | in every run a worker's memory is what its ended ids leave: operations finished while their host was there and withdrawn probes, never operations lost in a detach; at most 64, and with distinct ids the 64 most recent |
| HubGuarantees.LateFramesAbsorbed | apps/api/src/host-hub.ts:222-233 | a late ack, cancel or reply for an id no longer held is absorbed exactly when that id is one of those, and refused otherwise |
| HubDrops.StepServed | apps/api/src/host-hub.ts:64-332 | every step but a settled continuation keeps each request held or answered |
| HubDrops.ResumeServed | apps/api/src/host-hub.ts:153-216 | a settled continuation leaves an unanswered request neither held nor answered exactly when it finishes an id that this request has taken over and sends its worker no end frame |
| HubDrops.SilentDropExactly | apps/api/src/host-hub.ts:64-332 | in every run, for every request that is held and was sent no end frame since it was taken in, the next step leaves it neither held nor answered if and only if it settles the relayed end frame of an earlier request under the same id, or the failed authorization or send of such a request from another worker |
| HubGuarantees.ReusedIdDropsSilently | apps/api/src/host-hub.ts:153-175 | a run in which a worker reusing an id loses its request with no end frame |
| HubGuarantees.RelayedEndDropsSilently | apps/api/src/host-hub.ts:214-215 | the same with no failure at all, after the first request's end frame, for any worker that opens the id next: another one or the same |
| HubDuties.ForwardsExactly | apps/api/src/host-hub.ts:153-166 | in every run, settling an authorization forwards its request if and only if it was granted, the operation's own record is still held, and fewer than 100,000 ids were seen before; then the log grows by exactly that entry, and everything in hand and the host stay |
| HubDuties.ForwardExactly | apps/api/src/host-hub.ts:153-175 | and otherwise: a record that is gone stays gone; a full history costs the hub its host and ends everything; without leave, or without the host it was opened on, the worker is told and the request open under the id is released |
| HubDuties.RelaysExactly | apps/api/src/host-hub.ts:186-214 | in every run, settling the authorization of a frame relays it if and only if it was granted, the operation is still open, and the observer accepts the frame: next in sequence, within the window, a callback it may make, within the byte budget |
| HubDuties.RelayExactly | apps/api/src/host-hub.ts:186-215 | and otherwise: a proper frame that is too large and a frame without leave stop the operation, a frame out of order is refused, and a frame of an operation that is gone changes nothing; no other record changes |
| HubDuties.HeardExactly | apps/api/src/host-hub.ts:177-187 | a frame of the present host under an open id waits for its authorization, health is taken as it is, anything else is ignored |
| HubDuties.AcksExactly | apps/api/src/host-hub.ts:235-267 | in every run, an ack or reply of an operation's own worker goes to the host if and only if the observer accepts it and a reply that reports no failure has the shape its callback demands |
| HubDuties.UpstreamExactly | apps/api/src/host-hub.ts:235-267 | and otherwise: a reply to an open callback that is too large stops the operation, anything else is refused; no other record changes |
| HubDuties.HandledExactly | apps/api/src/host-hub.ts:217-234 | every other worker frame: a cancellation stops the worker's own request, a late frame of an id that ended for the worker is absorbed, the rest is refused |
| HubDuties.AdmitExactly | apps/api/src/host-hub.ts:99-152 | a request is refused if and only if there is no host, no slot or place in the queue, its id is in hand or seen, its run was lost, 100,000 runs were lost, or a Hermes turn finds no relay of its connection; otherwise it is in hand, queued exactly if it is a probe without a slot, and nothing is said |
| HubDuties.HermesOpens | apps/api/src/host-hub.ts:111-115 | in every run each Hermes turn was opened by its own worker's request, under the connection its provider broker was issued for, after the host of that connection last announced that it relays providers |
| HubDuties.RelayAnnounced | apps/api/src/host-hub.ts:177-182 | the hub's relay flag is what the host last announced on its present connection |
| HubDuties.SeenExactly | apps/api/src/host-hub.ts:156-165 | until the history is full an id is refused as seen exactly if it was forwarded |
| HubEffects.CancelExactly | apps/api/src/host-hub.ts:269-297 | cancelling tells the host of an open operation, ends the worker's request under that id, releases it and nothing else; without such a request nothing changes |
| HubEffects.CloseWorkerEffect | apps/api/src/host-hub.ts:298-301 | closing a worker ends each of its requests, tells the host of each that was open, and touches no other worker's |
| HubEffects.DetachExactly | apps/api/src/host-hub.ts:76-98 | losing the host ends everything in hand in order, adds exactly the runs in hand to the lost ones, and changes nothing else |
| HubDuties.AttachExactly | apps/api/src/host-hub.ts:64-71 | attaching does that first and then knows the given host under a new connection, with no relay announced |
| HubEffects.UnavailableEffect | apps/api/src/host-hub.ts:167-175 | a failed request releases the request open under its id and tells the first request's worker |
| HubEffects.FinishEffect | apps/api/src/host-hub.ts:302-332 | finishing releases the request open under the id, whichever it is, opens only probes from the queue and says nothing |
| HubDuties.RespondsExactly | apps/api/src/host-hub.ts:64-333 | all of these together: for every event of every run, the messages that leave the hub, the requests in hand and the continuations that wait afterwards |
| HostHubObject.HostHub.constructor | apps/api/src/host-hub.ts:41-60 | a new hub is in the initial state and satisfies the invariant |
| HostHubObject.HostHub.Attach | apps/api/src/host-hub.ts:64-75 | attaching drops the old host with everything it held and opens a new connection generation |
| HostHubObject.HostHub.DetachWire | apps/api/src/host-hub.ts:72-74 | the returned closure detaches only while its own wire is the host |
| HostHubObject.HostHub.Detach | apps/api/src/host-hub.ts:76-98 | the new state is the model's: all runs lost, every worker told, queue and slots empty |
| HostHubObject.HostHub.EndPending | apps/api/src/host-hub.ts:81-93 | the loop over the pending map ends every record, in order |
| HostHubObject.HostHub.EndProbes | apps/api/src/host-hub.ts:94-97 | the loop over the queue cancels every probe and remembers its id |
| HostHubObject.HostHub.Request | apps/api/src/host-hub.ts:99-152 | refuses, queues or reserves exactly as the model does |
| HostHubObject.HostHub.Resume | apps/api/src/host-hub.ts:153-176 | what follows an authorization or a send, whenever it settles |
| HostHubObject.HostHub.FromHost | apps/api/src/host-hub.ts:177-192 | health frames, unknown ids and frames of an old wire |
| HostHubObject.HostHub.Deliver | apps/api/src/host-hub.ts:193-216 | the window, callback and byte checks and the relay of a host frame |
| HostHubObject.HostHub.FromWorker | apps/api/src/host-hub.ts:217-268 | a worker frame reaches the host only for the operation that worker opened |
| HostHubObject.HostHub.TakeReply | apps/api/src/host-hub.ts:239-265 | a reply closes its callback and is charged to the right byte counters, or the operation is cancelled |
| HostHubObject.HostHub.Cancel | apps/api/src/host-hub.ts:269-297 | cancels the worker's own probe or operation and nothing else |
| HostHubObject.HostHub.CloseWorker | apps/api/src/host-hub.ts:298-301 | cancels everything the worker holds |
| HubModel.InsertKeeps | apps/api/src/host-hub.ts:311-316 | adding an id keeps at most 64, has the id among them, adds nothing else, and only the oldest of 64 gives way |
| HostHubObject.HostHub.RememberCompleted | apps/api/src/host-hub.ts:311-316 | the same of the worker's set in place; the other workers' sets are untouched |
| HostHubObject.HostHub.DrainProbes | apps/api/src/host-hub.ts:325-332 | the loop promotes from the head of the queue while there is capacity |
| HostHubObject.HostHub.Handle | apps/api/src/host-hub.ts:41-333 | any event, handled by the object, is the model's step and keeps the invariant |
| HostHubObject.Play | apps/api/src/host-hub.ts:41-333 | an object that handles a whole run ends in the state the model's run reaches |
| EventWindow.WindowDelivers | apps/api/src/device-event-window.ts:87-132 | at every moment a window has delivered exactly the visible events between its start and its cursor |
| EventWindow.ChainDelivers | apps/api/src/device-event-window.ts:45-132 | windows restarted at the previous cursor deliver exactly the visible log, in order, without gap or duplicate, wherever they were cut |
| EventWindow.ResumeAtLastEvent | apps/api/src/device-event-window.ts:116-131 | a reader without the final frame may restart at its last event and still gets the same rest |
| EventWindow.WithinLimits | apps/api/src/device-event-window.ts:28-77 | frames and bytes, the final frame included, never exceed the limits |
| EventWindow.FinalFits | apps/api/src/device-event-window.ts:28-29 | the final frame fits its reserve for every cursor of a thread and every reason |
| EventWindow.ReleasedOnce | apps/api/src/device-event-window.ts:30-63 | however a window ends, its slot is released exactly once |
| EventWindow.LimitEndsAdvance | apps/api/src/device-event-window.ts:64-77 | a limit-ended window with room for one largest event has moved its cursor and fewer events remain |
| EventClock.BatchInOrder | packages/db/src/events.ts:2379-2390 | each event of a query is the next one after its predecessor, however the log grew since |
| EventClock.YieldsInOrder | packages/db/src/events.ts:2392-2425 | successive queries over a growing log, each from the last event yielded, yield every event after the cursor in order, none twice and none skipped |
| EventClock.PullsAreFed | apps/api/src/device-event-window.ts:93-131 | a window that pulls from that feed only when it is done with the event before always stands at the last event it took |
| EventClock.BeatsInTime | apps/api/src/device-event-window.ts:104-111 | heartbeats keep their distance and come before the deadline, in every window on time |
| EventClock.AdvancesExactly | apps/api/src/device-event-window.ts:64-77 | windows on time that a limit ends always advance if and only if the limits leave room for one largest event after the heartbeats that fit in the time |
| EventClock.DeviceWindowsAdvance | packages/contracts/src/dispatch.ts:213-221 | as deployed, pulling from that feed over any growing log, every window that a limit ends has moved its cursor, and fewer events remain |
| EventWindow.OversizeBlocks | apps/api/src/device-event-window.ts:126-128 | no window ever passes a visible event above the frame limit |
| EventWindow.PassedExactly | apps/api/src/device-event-window.ts:119-131 | some window passes the next event if and only if it is hidden or within the frame limit |
| EventOutcomes.EndsExactly | apps/api/src/device-event-window.ts:45-132 | in every run and for each reason a turn ends an open window for that reason exactly when it is due: by its limit if and only if the next frame does not fit what was sent or as many events were pulled as may be scanned; then the final frame is the last one sent, at the cursor reached |
| EventOutcomes.StaysExactly | apps/api/src/device-event-window.ts:64-131 | a turn that ends nothing sends exactly the judged visible event or a heartbeat, and the cursor moves exactly past a judged event |
| EventClock.YieldsAll | packages/db/src/events.ts:2379-2425 | enough queries yield every event after the cursor: the feed never stops early |
| EventWindow.DeviceEventWindow.EmitFrame | apps/api/src/device-event-window.ts:64-77 | a frame is sent and counted if and only if it fits with room for the final frame; otherwise the window ends by its limit at the same cursor with its slot released |
| EventWindow.DeviceEventWindow.End | apps/api/src/device-event-window.ts:45-57 | the window is closed at its cursor, its slot released once, and the final frame is the last one sent; a second end changes nothing |
| EventWindow.DeviceEventWindow.Pull | apps/api/src/device-event-window.ts:87-132 | one pull plays turns of the model until it has sent a frame or the window is closed |
| EventWindow.Serve | apps/api/src/device-event-window.ts:78-146 | a window pulled again and again goes through exactly a run of the model |
| DeviceSlots.SlotsAgree | apps/api/src/device-events.ts:23-43 | in every run the counter of a grant is the number of its unreleased windows, at most four, with no entry at zero |
| DeviceSlots.RefusedWhenFull | apps/api/src/device-events.ts:24-30 | a window is refused exactly when four are unreleased |
| DeviceSlots.ReleaseTwice | apps/api/src/device-events.ts:32-42 | releasing twice is releasing once |
| DeviceSlots.SlotRegistry.AcquireWindow | apps/api/src/device-events.ts:23-31 | counts the window under a new lease, or refuses it and changes nothing, exactly when four of the grant are unreleased |
| DeviceSlots.SlotRegistry.ReleaseWindow | apps/api/src/device-events.ts:33-42 | gives the slot back the first time and does nothing after that |
| DeviceStreams.CounterTracksWindows | apps/api/src/device-events.ts:103-132 | with windows and slots together: a lease is released exactly when its own window has closed, and the counter of a grant is the number of its open windows, at most four |
| DeviceStreams.OpensExactly | apps/api/src/device-events.ts:103-132 | in every run a stream is opened exactly while fewer than four of its grant are open, at the cursor asked for; otherwise nothing changes |
| DeviceStreams.TurnsExactly | apps/api/src/device-events.ts:23-43 | a turn of one window changes no other window and gives back no slot but its own, exactly when it closed |
| TarFormat.FieldFits | apps/api/src/export-archive.ts:65-71 | a number that fits fills its octal field exactly and parses back |
| TarFormat.ChecksumFits | apps/api/src/export-archive.ts:76-77 | the sum of any block fits its six digits and parses back |
| TarFormat.HeaderFields | apps/api/src/export-archive.ts:62-79 | every field can be read back, and the checksum equals a recomputation with its own field blanked |
| TarFormat.HeaderLayout | apps/api/src/export-archive.ts:62-79 | the whole block, field after field |
| TarFormat.ComputePaxLength | apps/api/src/export-archive.ts:41-43 | the loop terminates with the least length that counts its own digits |
| TarArchive.ArchiveSucceeds | apps/api/src/export-archive.ts:27-37 | writing succeeds exactly when every path and size is valid and every content has its announced size |
| TarArchive.ValidPathExactly | apps/api/src/export-archive.ts:28-34 | a path is valid exactly when it has no backslash, NUL or line break and no empty, `.` or `..` component |
| TarArchive.FailsAtFirst | apps/api/src/export-archive.ts:27-57 | a failing archive reports the first problem of the first file that has one |
| TarArchive.ConcatBoth | apps/api/src/export-archive.ts:50-56 | chunks are joined in their order |
| TarRoundTrip.RecordParses | apps/api/src/export-archive.ts:40-46 | a pax record reads back to its path |
| TarRoundTrip.RoundTrip | apps/api/src/export-archive.ts:26-60 | a pax-aware reader returns, for every valid list of files and any chunking, each path, its content and mode 0700 or 0600 |
| TarRoundTrip.PaxExactly | apps/api/src/export-archive.ts:38-49 | a pax record comes first exactly for a path above 100 bytes or with a byte that is not printable ASCII |
| TarRoundTrip.Aligned | apps/api/src/export-archive.ts:47-59 | the archive is a whole number of blocks |
| TarRoundTrip.FileAligned | apps/api/src/export-archive.ts:45-57 | so is every file and every pax record with its header |
| TarRoundTrip.HeadersOnBoundaries | apps/api/src/export-archive.ts:38-59 | every header of an archive, those of pax records included, is found at an offset that is a multiple of 512 |
| TarRoundTrip.ShortRoundTrip | apps/api/src/evidence-test-fixture.ts:72-85 | for short printable paths the paired reader returns the files of the archive, the later of two with one name |
| TarRoundTrip.StoreFinds | apps/api/src/evidence-test-fixture.ts:75-84 | each file whose name no later file has is found with its own content |
| TarRoundTrip.StoreNames | apps/api/src/evidence-test-fixture.ts:74-84 | and no other names are there |
| TarRoundTrip.HeaderBlock | apps/api/src/export-archive.ts:62-79 | the block written in place is the header of the format |
| TarRoundTrip.SumOf | apps/api/src/export-archive.ts:76-76 | the loop sums the block |
| TarRoundTrip.CopyContent | apps/api/src/export-archive.ts:50-56 | chunks are copied if and only if they add up to the announced size |
| TarRoundTrip.WriteFile | apps/api/src/export-archive.ts:28-57 | one file, or the first problem with it |
| TarRoundTrip.Tar | apps/api/src/export-archive.ts:26-60 | the writer's loop produces the archive |
| TarRoundTrip.Extract | apps/api/src/evidence-test-fixture.ts:72-85 | the reader's loop returns what the archive holds |
| ToolGrants.CaptureManifest | packages/adapters/src/integration-manifest.ts:39-66 | what the vendor lists becomes a manifest exactly when no name comes twice |
| ToolGrants.KeptStaysBacked | apps/api/src/integration-connections.ts:547-565 | on re-sign-in a kept tool still has its approved definition |
| ToolGrants.CommitBacked | apps/api/src/integration-connections.ts:525-616 | a capture, however stale its read, leaves every allowed tool at its approved definition |
| ToolGrants.NothingNewAllowed | apps/api/src/integration-connections.ts:559-583 | over a known manifest a capture allows no tool that was not allowed, and added tools, changed definitions or another account ask for a review |
| ToolGrants.KeptExactly | apps/api/src/integration-connections.ts:559-563 | a re-sign-in keeps every allowed tool that is still offered, once and in order, and no other |
| ToolGrants.SignInExactly | apps/api/src/integration-connections.ts:547-558 | it counts as the same sign-in exactly when consent was awaited under the same account and workspace and every known tool still offered has its definition |
| ToolGrants.CapturedExactly | apps/api/src/integration-connections.ts:547-583 | the grants of a changed manifest: kept tools with their policies, or none and a review, or every listed tool of the first capture |
| ToolGrants.DistinctExactly | apps/api/src/integration-connections.ts:896-948 | repeated ids are dropped and the order of the first ones stays |
| ToolGrants.AssignInv | apps/api/src/integration-connections.ts:896-948 | assigning keeps every allowed tool at the definition approved for it |
| ToolGrants.ReviewInv | apps/api/src/integration-connections.ts:1043-1090 | so does a review, for the space or for one bot |
| ToolGrants.StepInv | apps/api/src/integration-connections.ts:525-627 | so does every step, and a read that still carries the row's revision saw the row's grants |
| ToolGrants.AllowedAsApproved | apps/api/src/integration-connections.ts:525-627 | in every run every allowed id is in the stored manifest under exactly the digest and description it had when an owner last allowed it or the connection was first captured |
| ToolGrants.SupersededIsInert | apps/api/src/integration-connections.ts:190-213 | a superseded or released sign-in attempt never changes the connection again |
| ToolGrants.Connections.Read | apps/api/src/integration-connections.ts:525-527 | what a capture reads before it asks the vendor |
| ToolGrants.KeepIdentity | apps/api/src/integration-connections.ts:531-538 | a profile that could not be read does not erase a known account or workspace, exactly while the connection is alive |
| ToolGrants.Regrant | apps/api/src/integration-connections.ts:549-583 | over a known manifest under the same sign-in exactly the allowed tools still offered stay, in order and with their policies; under another sign-in none stays and a review is asked for; at the first capture every listed tool is allowed |
| ToolGrants.Connections.Commit | apps/api/src/integration-connections.ts:584-616 | commits exactly when no listed name repeats and the row is enabled and unchanged since it was read; then the row is connected with the new manifest and, if that changed anything, has exactly those grants one revision on; otherwise nothing else changed |
| ToolGrants.Connections.Assign | apps/api/src/integration-connections.ts:896-948 | accepted exactly when every given tool is offered and enabled and the caller is an owner or changes nothing; then the allowed tools are exactly the given ones, each once, one revision on; otherwise nothing changes |
| ToolGrants.Connections.Review | apps/api/src/integration-connections.ts:1018-1090 | accepted exactly under the revision that was reviewed, with tools that are offered, by an owner or by a bot for tools already allowed; an owner's review allows exactly the given tools and, for a bot without open review, every earlier tool still offered; a bot's own review changes no grant of the space |
| ToolGrants.Connections.Revoke | apps/api/src/integration-connections.ts:1106-1133 | the row is disabled one revision on; grants and manifest are gone, or all as they were if they are to be preserved |
| ToolGrants.Connections.Claim | apps/api/src/integration-connections.ts:190-213 | the pending id is replaced exactly while it is the one that was seen, by one never used before; a connection outside the catalog that is not connected stops waiting for consent |
| ToolGrants.Connections.EndAttempt | apps/api/src/integration-connections.ts:252-268 | an attempt is given up, with the state its failure leaves, exactly while it still holds the connection, and is over from then on |
| HostSecrets.ImportChores | apps/api/src/fleet.ts:80-111 | an import writes the intent first and guards the new credential for its save |
| HostSecrets.CommitStores | apps/api/src/computer-settings.ts:175-200 | a commit names a credential that is on the host and that nothing will delete; a replaced one gets an intent |
| HostSecrets.CommitOwned | apps/api/src/computer-settings.ts:364-424 | and it leaves no credential without an owner |
| HostSecrets.CommitExact | apps/api/src/computer-settings.ts:364-424 | an accepted commit keeps both promises if and only if the imports it does not name are off the host and the cleanup of the one it names has not begun |
| HostSecrets.RemoveOwned | apps/api/src/fleet.ts:404-478 | removing a connection hands its credential to an intent |
| HostSecrets.QuietChores | apps/api/src/computer-settings.ts:442-467 | the error path of an update never makes the credential of an unfinished save due |
| HostSecrets.CheckStores | apps/api/src/fleet.ts:150-161 | the sweep's reference check never marks a named credential for deletion |
| HostSecrets.DeleteStores | apps/api/src/fleet.ts:120-127 | a deletion on the host never hits a named credential |
| HostSecrets.StepKeeps | apps/api/src/fleet.ts:80-176 | every timely step keeps the whole invariant |
| HostSecrets.SecretsAccountedFor | apps/api/src/fleet.ts:80-176 | at every point of every timely run, cut anywhere by crashes, each credential on the host is named, has an intent, or arrived after the host had deleted it; and each named one is on the host, unshared, with no intent and no deletion under way |
| HostSecrets.LeadIsTimely | apps/api/src/fleet.ts:90-97 | a commit within the one-hour lead is timely: no cleanup of its credential has begun |
| HostSecrets.SavedWithinLead | apps/api/src/computer-settings.ts:170-200 | the same for every run whose saves import once and commit within the hour |
| HostSecrets.PromptlyOwned | apps/api/src/fleet.ts:98-110 | if the host also never stores after deleting, every credential on it is named or has an intent |
| HostSecrets.StoreExact | apps/api/src/fleet.ts:98-110 | a credential arriving on the host becomes an orphan if and only if its deletion was already performed |
| HostSecrets.LateStoreOrphan | apps/api/src/fleet.ts:98-140 | a run in which that happens: the hour passes, the sweep cleans up, and then the credential arrives |
| HostSecrets.TwoImportsOrphan | apps/api/src/computer-settings.ts:141-165 | a save with two imports that leaves the first on the host with neither owner nor intent |
| SavedConnections.NoClash | apps/api/src/computer-settings.ts:415-423 | a replaced credential has no intent yet, so the unique intent can always be written |
| SavedConnections.Connections.Open | apps/api/src/computer-settings.ts:213-222 | an update starts with the row as it is, and only of a row that exists |
| SavedConnections.UpdateRowExactly | apps/api/src/computer-settings.ts:345-400 | which credential an updated row names, case by case; all other rows stay |
| SavedConnections.UpdateIntentsExactly | apps/api/src/computer-settings.ts:400-424 | which intents and cleanups an update leaves, one credential after another |
| SavedConnections.RecoveryKeeps | apps/api/src/computer-settings.ts:441-467 | any number of recoveries keeps the whole invariant |
| SavedConnections.Connections.Import | apps/api/src/fleet.ts:80-104 | an import is written ahead by an hour under a fresh credential, at most one for an update and two for a save; otherwise nothing changes |
| SavedConnections.Connections.Create | apps/api/src/computer-settings.ts:175-200 | the new row names the newest import or nothing, exactly the imports' intents are gone, and all other rows and intents are as they were |
| SavedConnections.Connections.Update | apps/api/src/computer-settings.ts:364-424 | it succeeds exactly when the row is unchanged since it was read; then the row names the newest import, else the stored credential if it is kept, else none; a credential gets an intent and goes to cleanup exactly when the row named it and names it no longer; all other rows and intents stay; otherwise nothing is written |
| SavedConnections.Connections.Recover | apps/api/src/computer-settings.ts:441-467 | the loop makes due exactly the imports that the connection does not name and that still have an intent, and keeps the invariant |
| SavedConnections.Connections.Remove | apps/api/src/fleet.ts:404-475 | where no bot is pinned the row goes and no other, and exactly its credential gets an intent due at once and is cleaned up |
| SecretCleanup.CleanupRunKeeps | apps/api/src/fleet.ts:114-141 | any sequence of cleanup steps keeps the invariant and the connections |
| SecretCleanup.Fleet.CleanupSecret | apps/api/src/fleet.ts:114-141 | the credential leaves the host exactly if the host was reached; an acknowledged deletion drops its intent, anything else postpones it; no other changes |
| SecretCleanup.Fleet.Settle | apps/api/src/fleet.ts:150-174 | one intent of the sweep: a credential in use stays and loses its intent, an unreferenced one is cleaned up, no other is touched |
| SecretCleanup.SweptMore | apps/api/src/fleet.ts:150-174 | settling one more intent extends what the sweep has done by exactly that credential |
| SecretCleanup.Fleet.Reconcile | apps/api/src/fleet.ts:144-176 | the sweep's loop is a run of the model that keeps the invariant: exactly the unreferenced due credentials for which the host was reached leave it, each due intent is dropped or postponed as its credential and answer demand, and everything else stays |
| McpConfig.ResolvesOnce | apps/api/src/mcp-settings.ts:384-414 | a resolution is unique |
| McpConfig.ResolvableIff | apps/api/src/mcp-settings.ts:384-414 | there is one exactly when every "[saved]" slot has a stored counterpart |
| McpConfig.MaskThenResolve | apps/api/src/mcp-settings.ts:170-205 | the masked server resolves to the stored one for any redaction, even where a stored value is literally "[saved]" |
| McpConfig.MaskThenResolveAll | apps/api/src/mcp-settings.ts:384-414 | the unedited masked configuration is accepted and resolves to the stored configuration and to nothing else |
| McpConfig.MaskHides | apps/api/src/mcp-settings.ts:188-199 | what is shown does not depend on the hidden values |
| McpConfig.MaskShows | apps/api/src/mcp-settings.ts:188-199 | a value is shown exactly where redaction left it alone; environment values and credentials never are, their names always |
| McpConfig.RevealsExactly | apps/api/src/mcp-settings.ts:176-199 | what an encrypted part lacks is read from the plain columns, and what it has wins |
| McpConfig.DiffExact | apps/api/src/mcp-settings.ts:85-107 | a server is reported exactly when it changed, hidden values and the order of environment fields included, as added or removed exactly when it is new or gone; nothing is reported exactly when nothing changed |
| McpConfig.DiffPatches | apps/api/src/mcp-settings.ts:92-106 | the reported servers are exactly those that must be replaced to get from the stored configuration to the new one |
| McpConfig.ReorderedIsChange | apps/api/src/mcp-settings.ts:95-97 | environment fields in another order are a change |
| McpConfig.ResolveArgs | apps/api/src/mcp-settings.ts:393-398 | arguments are filled in place, or refused when one has no stored counterpart |
| McpConfig.ResolveEnv | apps/api/src/mcp-settings.ts:399-406 | the same for environment fields |
| McpConfig.ResolveServer | apps/api/src/mcp-settings.ts:387-413 | a server is resolved exactly when all its slots can be filled |
| McpConfig.Preview | apps/api/src/mcp-settings.ts:384-437 | a preview succeeds exactly when no server is managed and all slots can be filled, and reports no change exactly when nothing changed |
| McpConfig.PreviewUnedited | apps/api/src/mcp-settings.ts:348-437 | previewing what was shown reports nothing |
| McpApply.RemoveSound | apps/api/src/mcp-settings.ts:219-224 | removing a row removes its secret and no other |
| McpApply.UpdateSound | apps/api/src/mcp-settings.ts:530-572 | updating a row gives it a fresh secret and leaves no orphan |
| McpApply.CreateSound | apps/api/src/mcp-settings.ts:530-573 | creating a row keeps names unique and every secret owned by one row |
| McpApply.AppliedReadsBack | apps/api/src/mcp-settings.ts:484-578 | after an apply the editor reads back every previewed server exactly |
| McpApply.AppliedExact | apps/api/src/mcp-settings.ts:493-497 | the editable rows are then exactly the previewed ones if and only if no row named after the inherited property was to be deleted |
| McpApply.PlainHides | apps/api/src/mcp-settings.ts:536-562 | the plain columns hold of a previewed server only its name, description, enabled flag and redacted command line: commits that differ in anything else leave the same plain columns |
| McpApply.InheritedNameSurvives | apps/api/src/mcp-settings.ts:494-497 | a table in which such a row survives |
| McpApply.ServerTable.RemoveRows | apps/api/src/mcp-settings.ts:219-224 | the loop removes exactly the rows the preview does not name, with their secrets, and changes no other row |
| McpApply.ServerTable.Commit | apps/api/src/mcp-settings.ts:484-578 | the transaction succeeds exactly when no stored secret is unreadable and no name is taken; then every previewed server has one row with one live secret of its own and only the redacted command line in its plain columns, kept rows move one revision on, and all other rows are as they were; otherwise nothing changed |
| McpApply.ServerTable.Stage | apps/api/src/mcp-settings.ts:460-468 | the loop disables exactly the editable host rows, one revision on, and changes nothing else |
| McpApply.ServerTable.RestoreAll | apps/api/src/mcp-settings.ts:584-588 | the loop restores exactly the rows still under their staged revision to the enabled flag they had, and changes nothing else |
| McpRuns.PluginFlips | apps/api/src/customization-plugins.ts:483-486 | enabling or disabling a plugin's own row, which keeps its revision and so the digest, is among the writes allowed |
| McpRuns.StepMoves | apps/api/src/mcp-settings.ts:451-589 | no step lowers a revision, changes a row of the editor without raising it, or reuses an id |
| McpRuns.RevisionsNeverFall | apps/api/src/mcp-settings.ts:449-590 | over whole runs of concurrent applies and other writers no row's revision falls |
| McpRuns.RunInv | apps/api/src/mcp-settings.ts:449-590 | every run keeps unique names, owned secrets and what each apply knows of its rows |
| McpRuns.RestoreExact | apps/api/src/mcp-settings.ts:582-588 | a restore acts if and only if nobody else changed the row since staging, and then the row is what it was, two revisions on; no other row changes |
| McpRuns.CommitSeesStaged | apps/api/src/mcp-settings.ts:488-492 | a commit goes ahead if and only if the editor's rows are exactly as they were staged and the managed local rows have the same ids and revisions |
| PendingPreviews.DisjointUnion | apps/api/src/pending-previews.ts:5-7 | the shared set is the disjoint union of all owners' entries |
| PendingPreviews.RemoveConsistent | apps/api/src/pending-previews.ts:53-57 | an entry's removal keeps the tables in agreement and leaves no empty owner map |
| PendingPreviews.AddConsistent | apps/api/src/pending-previews.ts:49-61 | so does adding one |
| PendingPreviews.Previews.RemoveEntry | apps/api/src/pending-previews.ts:53-57 | exactly one entry goes |
| PendingPreviews.Previews.Expire | apps/api/src/pending-previews.ts:18-25 | exactly the unexpired entries of all owners stay |
| PendingPreviews.Previews.Size | apps/api/src/pending-previews.ts:34-36 | the number of the owner's entries |
| PendingPreviews.Previews.Get | apps/api/src/pending-previews.ts:37-39 | the entry under the owner and id, if any |
| PendingPreviews.Previews.Set | apps/api/src/pending-previews.ts:40-63 | succeeds exactly when the id is replaced or fewer than 256 unexpired entries exist, and changes nothing but that entry and the expired ones |
| PendingPreviews.Previews.Delete | apps/api/src/pending-previews.ts:64-69 | removes that entry alone |
| RelatedFeatures.BackEdge | scripts/feature-docs.ts:577-577 | coming back to a feature on the current path closes a circle |
| RelatedFeatures.OrderedIsAcyclic | scripts/feature-docs.ts:572-584 | a finishing order that covers the graph rules circles out |
| RelatedFeatures.Visitor.Visit | scripts/feature-docs.ts:576-583 | fails only when there is a circle; otherwise the feature is finished after everything it relates to, and nothing is expanded twice |
| RelatedFeatures.Visitor.VisitAll | scripts/feature-docs.ts:572-584 | succeeds if and only if the graph has no circle, for every graph whose related features exist; then every feature was expanded once and the visited set is closed |
| Interlace.OnePass | scripts/feature-docs.ts:222-232 | every pixel belongs to exactly one of the seven passes |
| Interlace.PatternPass | scripts/feature-docs.ts:222-232 | and that pass is the one that the eight by eight pattern in section 8.2 of the PNG specification gives |
| Interlace.LinesCount | scripts/feature-docs.ts:234-236 | the column and row formulas count exactly the lines of a pass |
| Interlace.PassesCover | scripts/feature-docs.ts:222-237 | for every width and height columns times rows add up to the picture |
| Interlace.ChannelsOfType | scripts/feature-docs.ts:218-220 | the channels of a colour type: a palette index, or grey or colour, and an alpha sample |
| Interlace.Expected | scripts/feature-docs.ts:215-238 | the expected length is the sum over scan lines of one filter byte and the packed pixels, empty lines not counted |

## Left out

- Host hub: a wire whose `send` calls back into the hub before it returns; a send is a step of its own here.
- Host hub: the encoding of frames (a size is a number), the schemas of provider replies (a reply is accepted or not) and `HostBridge.authorize` (an arbitrary answer that comes later).
- HubDrops.SilentDropExactly: an end frame names only an id, so one that refuses a repeated id counts as an answer to the request held under it.
- Timers and clocks: a timeout, heartbeat or expiry is a step that may happen at any time; the timer that `scheduleExpiry` keeps is not modelled.
- EventClock: the clock is assumed not to jump and the deadline to fire before anything due later; notifications and polling of the feed are not part of this model.
- EventWindow.WithinLimits: assumes cursors of at most ten digits, the range of the sequence column, so that the final frame fits its reserve.
- `resetDeviceEventWindows`, which clears the counters under live windows.
- Export archive: gzip and UTF-8; paths are byte strings. Leading blanks or a sign before a number, which `parseInt` would accept and the writer never produces.
- The pax-aware reader is a specification; the repository's own reader handles short paths only.
- Tool grants: `connectHost`, which writes a manifest without the revision check; the cleaning of names and descriptions when a manifest is captured; bot-level assignments, resource constraints, approvals and the check of policy texts; an account or workspace is either known or not.
- Host secrets: which inputs make a save import, keep or drop a credential; the model allows every choice the branches can make. Connection revisions are counters, so two updates within one millisecond are told apart. The refusal to remove a connection with pinned bots, the encrypted kubeconfig in the database and the audit rows are not modelled.
- HostSecrets.SecretsAccountedFor: assumes that a commit is timely; `CommitExact` shows that this is needed.
- Server configuration: JSON text, the schema of a configuration, the sorting of reported changes and how redaction finds credentials; a redaction is any text.
- McpConfig.ResolvableIff: names that a JavaScript object inherits are not modelled in a preview; in an apply the one name that the schema lets through is.
- McpRuns: other writers are assumed to raise the revision of a row of the editor with every change, as all that write such rows do, and the revision digest to have no collisions. Stopping the host is a step that may fail.
- Preview store: the limit of 128 entries per owner that a caller checks.
- Feature documentation: everything but the cycle check and the raster size; walking the PNG chunks and inflating them.
- Encryption, OAuth, discovery, team chat, settings services, site and video scripts: thin wrappers or code whose rules live elsewhere.
