# plex-transcode-offload: a verified model

Plex offloads a transcode from a master to a worker. On the master a shim takes the place of the
transcoder: it rewrites the argv, sends it to a worker and follows the worker's events stream. The
worker runs the real transcoder, watches its out dir, and uploads every completed chunk to `masterd`,
which renames it into the media server's session dir. The transcoder announces its chunks in playlists;
the worker's proxy holds an announce until `masterd` has acknowledged every chunk that it names.

This project models that system in Dafny and proves what its design promises. The lowest modules are
plain definitions; each theorem module states its results for every input, every run or every reachable
state.

## How the model is organised

- **The job as a step system** (`System.dfy`, with `JobSections.dfy` and `EventHub.dfy` below it). One
  action is one critical section under the job's mutex, one file operation, one channel operation, one
  hub call or one step of `masterd`'s PUT handler. Which goroutine moves next, network errors, exit codes,
  file contents and time are free. The condition variable is a generation counter, so a wakeup can be lost
  in the model if it can be lost in the program. `SystemChunks`, `SystemFiles`, `SystemLife`, `SystemGate`
  and `SystemInv` hold the invariants, `SystemTheorems` and `SystemLifeline` what follows from them,
  `CancelDecision` and `ExitLast` two exact conditions over runs, `PushReplies` each upload worker as one call
  of the retry loop, `SystemExamples` and `ExitExample` concrete runs that show where a tempting claim fails,
  and `AnnouncedChunks` the gate seen from the text of an announce.
- **The same system told from the outside.** Each of these modules keeps a history of the actions of a run,
  by rules that do not look at the code's own functions, and proves that the state is what the history says:
  `RunStory` (cancels, failures, exit code and drain decide how a job ends), `SystemPuts` (what a PUT is
  answered), `HubHistory` and `HubStreams` (what each events client is sent, and who loses the stream),
  `QueueOrder` and `SystemReports` (the upload queue and the reports that feed it), `GateVerdicts` (who is held,
  refused or let through) and `JobEnds` (what a job leaves behind).
- **Objects updated in place**: `JobMonitor.Job`, `EventHubImpl.EventHub`, `SessionStoreImpl.SessionStore`,
  `RewriterImpl.Rewriter`, `CodecFetch.CodecDirs`, `CodecCache.CodecCache` and `Admission.Daemon` are classes with the fields and
  loops of the Go objects. Each method is proved against a function, and the theorems are about those
  functions; `JobLoops` has the functions for the two loops that sleep on the job's condition variable.
- **Text**: `Text`, `Decimal` and `Paths` are the parts of Go's standard library the argv code uses;
  `Placeholders`, `Filters`, `RewriteSpec`, `RewriteShape`, `Prepare`, `Substitute` and `RoundTrip` are the
  argv rewrite, its inverse and the proof that they fit; `FilterMeaning`, `FilterMerge` and `FilterSwallow`
  say what the two scans of a filter string do together, `FilterPaths` which argv put a '{' into a path, and
  `SpoolOrder` what can come of that; `WorkerArgv` and `FilterOnWorker` say where every argument points on the
  worker; `RelPaths` is what is accepted as a file name; `Announce` is the chunk-name pattern; `Tonemap`
  the filtergraph rewrite, and `TonemapDocumented` its documented instance.
- **Provisioning** (`Provision`, `ProvisionProof`, `ProvisionCallers`, `ProvisionNames`) is a step system of
  its own, with crashes; `CodecFetch` is one fetch as the program's loops, `CodecFetchProof` what it achieves.

## Assumptions about the environment

- A completed file is reported once and not rewritten; only the worker deletes files in the out dir.
- PUT attempts for one name do not overlap on the server (they share one tmp name).
- Job ids are unique: a reaped job leaves the map first and its dir later (internal/workerd/workerd.go:409-418),
  so a new job of the same id could lose its out dir in between. The media server deletes a session dir only
  as a whole.
- Where a theorem asks for `Unambiguous` manifests: a codec manifest lists a name once, and no name is another
  one's `.fetching` name (`ProvisionNames` has what happens without). No build is named after another one plus
  `.partial`.
- Signed URLs, and the configured dirs and addresses, are free of '{' (URLs are query-escaped).
- Lines of stderr come from the goroutine that mirrors the transcoder's, from a run that gives up early, or from
  an `abortFail` that has marked the job; how many of them come, and when, is free.
- Hashes are a parameter: nothing is assumed about them but that they are a function of the content.

## Where the code and its own comments disagree, or surprise

- `ParseMediaPlaceholder` is documented to match only what `MediaPlaceholder` prints; it also accepts
  leading zeros (`Placeholders.ParsedIsPrinted`, `Placeholders.LeadingZeroParses`).
- The hub's comment says that the exit event is the last one before end of stream. For a subscriber that is
  still attached when the hub closes it is exactly when no stderr line published between the exit and the close
  met it with room (`ExitLast.ExitIsLast`; in `ExitExample.StderrComesLast` the transcoder's last line comes
  after the exit of a COMPLETED job). A subscriber that was cut off for a full buffer reaches end of stream
  without the exit event.
- COMPLETED does not mean that every accepted upload was acknowledged: the decrement of `pending` and the
  report of a failed push are two critical sections (`SystemTheorems.CompletedAllAcked` has the exact
  condition, `SystemExamples.CompletedWithFailedUpload` a run). Nor that every completed chunk was
  (`SystemTheorems.CompletedEveryChunk`, `SystemExamples.CompletedWithLateReport`).
- A recorded cancel decides how the job ends if and only if it was recorded before the step that takes the
  verdict (`CancelDecision.CancelDecides`, `CancelDecision.CancelledExactly`); one that lands between the verdict
  and `finalize` is recorded, and the job ends COMPLETED all the same (`SystemExamples.CompletedThoughCancelled`).
- The two scans of a filter string agree on one segmentation of it if and only if no standalone `fontsdir=`
  value runs into a reference of a `subtitles=` list (`FilterSwallow.MergedExactly`; `FilterSwallow.OpenExactly`
  reads the condition off the string). In `fontsdir=xsubtitles=/a` the value takes the front of the
  placeholder along as a path (`FilterSwallow.GarbledOutput`).
- Such a path puts a '{' into the media table, and only that or a reference behind the server's URL does
  (`FilterPaths.ArgsAdd`). If the '{' is in its extension, it gets into the name of the spooled file, and the
  worker prepares the argv or refuses it depending on the order in which it walks over its map:
  `fontsdir=x.ysubtitles=/a` (`SpoolOrder.OrderDecides`).
- A fetch of codecs can succeed with a file missing, when one file has the tmp name of another
  (`ProvisionNames.ClashLoses`, `CodecFetchProof.WarmLoses`; `ProvisionNames.ColdComplete` and
  `CodecFetchProof.WarmComplete` have the exact conditions for a cold and a warm cache).
- The second check that masterd makes of a PUT's path, after cleaning it, can never refuse
  (`RelPaths.AcceptedStaysBelow`); and the worker's check of a manifest name lets "." through
  (`RelPaths.WorkerAccepts`).
- A codec manifest can list an old sum for a file that was rewritten under the same size and mtime
  (`CodecCache.StaleExactly` has the exact condition).
- The gate takes a missing file for a foreign name. In a COMPLETED job whose dir was reaped it lets an
  announce pass that names a chunk which was never uploaded (`SystemTheorems.SkipExactly` has the exact
  condition, `SystemExamples.ForwardedAfterReaping` a run).

## Model

| member | source | states |
|---|---|---|
| SystemTheorems.ChunkBeforeAnnounce | internal/workerd/job.go:559-590 | over every run: an announce that was let through before reaping names no chunk, completed before it was posted, that masterd has not renamed into the session dir byte for byte |
| SystemTheorems.ForwardedOwesNothing | internal/workerd/proxy.go:84-97 | the same as an invariant of every reachable state |
| SystemTheorems.AckMeansLanded | internal/masterd/sessions.go:260-298 | a recorded ACK implies that the whole chunk has been renamed into place |
| SystemPuts.PutAnswered | internal/masterd/sessions.go:236-310 | over every run: a PUT is answered 200 if and only if its own rename has taken place, with a retryable status if and only if its I/O failed, and 410 otherwise, and then the session is no longer live |
| SystemPuts.GoneHasCause | internal/masterd/sessions.go:299-310 | over every run in which nobody closes the session or deletes its dir, it is live and no PUT is answered 410 |
| SystemPuts.PutSucceeds | internal/workerd/pusher.go:97-113 | from every state in which a worker takes up a chunk that is on its disk, with a live session and its dir there, ten steps lead to the bytes in the session dir, the ACK on record and the local copy gone, and change nothing else |
| SystemPuts.NoTmpLeft | internal/masterd/sessions.go:264-295 | in every reachable state a tmp file belongs to a PUT that is copying or renaming |
| SystemExamples.DeliveredAndCompleted | internal/workerd/pusher.go:97-113 | a run in which a held announce goes out after the ACK of its chunk, and the job ends COMPLETED with the chunk in the session dir and no local copy left |
| SystemTheorems.LandedIsThere | internal/masterd/sessions.go:286-297 | until the session dir is deleted, exactly what has landed is there |
| AnnouncedChunks.WrittenNameHasLanded | internal/workerd/proxy.go:84-97 | from the text of a forwarded body: a whole chunk name in it is a chunk that masterd has |
| SystemTheorems.SkipExactly | internal/workerd/job.go:576-585 | in every reachable state an un-ACKed completed chunk is skipped by the gate if and only if the dir was reaped after an untroubled COMPLETED |
| SystemTheorems.MissingMeansBroken | internal/workerd/job.go:577-585 | in every reachable state a missing un-ACKed chunk means a broken or reaped job, so the broken check has to come before the existence check |
| SystemExamples.ForwardedAfterReaping | internal/workerd/workerd.go:402-419 | a run in which reaping opens the gate for a chunk that was never uploaded |
| SystemTheorems.AcceptedSplits | internal/workerd/pusher.go:76-113 | accepted names are exactly queued, in flight, ACKed or failed, no two of these overlap, and pending counts the first two and is never negative |
| SystemReports.NoReportLost | internal/workerd/pusher.go:37-70 | in every reachable state of a sound job every completed chunk was accepted by the queue or its report is still on its way there |
| SystemReports.WatcherIsClosed | internal/workerd/job.go:156-160 | in DRAINING, and when the run goroutine is done, the watcher is closed |
| QueueOrder.FirstInFirstOut | internal/workerd/pusher.go:76-98 | over every run the names that the queue took are, in that order, those that workers have taken off it and then those it holds, and they are the accepted ones |
| QueueOrder.QueueBounded | internal/workerd/pusher.go:82-87 | over every run the queue never holds more than its capacity |
| QueueOrder.ReportDecides | internal/workerd/pusher.go:76-90 | in every reachable state: a report is accepted if and only if intake is open, the job sound, the chunk without an ACK and room there, and overflows if and only if only room is wanting |
| SystemTheorems.LocalCopyKept | internal/workerd/pusher.go:95-113 | until CANCELLED, LOST or reaping, a completed chunk without an ACK still has its local file and bytes |
| JobEnds.OutDirAfterEnd | internal/workerd/job.go:383-412 | when the run goroutine is done, the out dir is gone if the job ended CANCELLED or LOST, and else holds every completed chunk without an ACK until it is reaped |
| JobEnds.ForgottenLate | internal/workerd/workerd.go:402-413 | over every run a job that is no longer in the map entered its terminal state at least five minutes ago |
| SystemTheorems.NoChannelFault | internal/workerd/job.go:392-408 | the upload queue and every subscriber channel are closed at most once and never sent to after closing, and no snapshot send blocks |
| SystemTheorems.NoLostWakeup | internal/workerd/job.go:564-590 | a gate or drain waiter that no broadcast has reached is right to wait |
| GateVerdicts.SleepersCanWake | internal/workerd/job.go:564-590 | in every reachable state a held announce whose name is ACKed, whose job is in trouble or whose client has given up can wake up, and so can a drain with nothing left to wait for |
| GateVerdicts.CheckDecides | internal/workerd/job.go:576-596 | a check refuses if and only if the name has no ACK and the job is in trouble or the client gone; holds if and only if the job is sound, the client there and the file present; else goes on |
| GateVerdicts.RefusedHasCause | internal/workerd/job.go:578-596 | in every reachable state a refused announce has its client gone, or the job has a failure or cancel on record or has ended other than COMPLETED |
| GateVerdicts.ClientGaveUp | internal/workerd/job.go:565-575 | over every run the gate knows that its client has given up if and only if it has |
| GateVerdicts.AckedPasses | internal/workerd/job.go:576-590 | from every state in which the names that a gate has left are all ACKed, its steps lead to forwarding, whatever has become of the job |
| SystemTheorems.PublishedLifecycle | internal/workerd/job.go:116-177 | every run publishes a prefix of PENDING, PREPARING, RUNNING, DRAINING and at most one terminal state, skipping only on early FAILED or CANCELLED; the exit comes once, after it |
| SystemTheorems.TerminalStays | internal/workerd/job.go:598-605 | terminal states are absorbing over every continuation |
| JobSections.TerminalAbsorbs | internal/workerd/job.go:362-397 | no critical section at all, clients and uploads included, leaves a terminal state |
| SystemTheorems.CompletedIsSettled | internal/workerd/job.go:159-176 | a COMPLETED job came through DRAINING with exit code 0 and has nothing queued, in flight or still to be accepted |
| SystemTheorems.CompletedVerdict | internal/workerd/job.go:167-175 | the verdict is COMPLETED if and only if the exit code is 0, the drain succeeded and no failure or cancel is recorded; then nothing is pending |
| RunStory.EndsByStory | internal/workerd/job.go:116-177 | every ended run has a deciding step, and the terminal state is what happened up to it: the first cancel asked for, else COMPLETED if the job could be started, the process exited with 0, no failure was reported and the drain found nothing outstanding, else FAILED |
| RunStory.StartedClear | internal/workerd/job.go:132-153 | over every run the process is started only after an abort check that found no cancel and no failure, and not after preparing or the pushers failed |
| RunStory.StartsUnlessAborted | internal/workerd/job.go:136-139 | the abort check goes on if and only if no cancel was asked for and no failure reported, and otherwise settles on the cancel or on FAILED |
| RunStory.ExitSays | internal/workerd/job.go:383-412 | over every run the exit event carries the code that the process exited with, or 1 if it was never started |
| RunStory.DrainWaitsFor | internal/workerd/pusher.go:181-202 | over every run the drain sleeps only with an upload outstanding, no failure and its 30 seconds not over, and reports an error if and only if its last look found an upload outstanding or a failure |
| SystemTheorems.CompletedAllAcked | internal/workerd/pusher.go:100-111 | at a COMPLETED verdict all accepted uploads are ACKed if and only if no worker stands between recording a failure and reporting it |
| SystemTheorems.CompletedEveryChunk | internal/workerd/pusher.go:76-113 | at a COMPLETED verdict every completed chunk is ACKed if and only if, besides, each of them was accepted by the queue |
| SystemExamples.CompletedWithFailedUpload | internal/workerd/pusher.go:100-111 | a run that ends COMPLETED with a failed upload |
| SystemExamples.CompletedWithLateReport | internal/workerd/pusher.go:76-81 | a run that ends COMPLETED with a completed chunk that was never accepted |
| CancelDecision.CancelDecides | internal/workerd/job.go:136-176 | over every run through a deciding step (abort check, early failure, verdict): a recorded cancel is the final state if and only if it was recorded before that step |
| RunStory.RecordIsStory | internal/workerd/job.go:427-456 | over every run the cancel on record is the first one asked for before the job had ended, and the job is failing if and only if an abortFail came before that |
| RunStory.RequestIsRecorded | internal/workerd/job.go:445-453 | a DELETE or lifeline cancel of a job that has not ended is on record from then on, unless another was there before |
| RunStory.RequestDecides | internal/workerd/job.go:167-176 | a first cancel asked for before the deciding step is the terminal state of every run that ends |
| CancelDecision.CancelledExactly | internal/workerd/job.go:167-176 | every terminal run with a cancel on record has such a step, and the cancel decided if and only if it came first |
| SystemExamples.CompletedThoughCancelled | internal/workerd/job.go:167-176 | a run on the other side of that condition: a cancel after the verdict, recorded, and the job COMPLETED |
| SystemTheorems.StepOnward | internal/workerd/job.go:427-456 | no step takes back a failure, a cancel, an ACK or a terminal state |
| SystemLifeline.LostOnlyAfterSilence | internal/workerd/job.go:509-536 | a lifeline cancel, over every run, follows a full PeerTimeout of RUNNING without one counted events client |
| SystemLifeline.LostExactly | internal/workerd/job.go:509-536 | over every run a tick of the monitor finds the lifeline lost if and only if the job has been RUNNING without one counted client for the last ten seconds with no cancel on record, and stops watching if and only if the job has ended or a cancel is on record |
| SystemLifeline.ClientsCounted | internal/workerd/job.go:538-557 | clients is exactly the number of counted and not yet cancelled subscriptions |
| SystemInv.ReachableHub | internal/workerd/events.go:37-114 | in every reachable state an attached subscriber has been given all states and the exit in order, and its stderr is a subsequence of all stderr |
| HubHistory.StreamsAreFollowed | internal/workerd/events.go:37-114 | over every sequence of hub operations each channel is the stream that a reference client, told without the hub, has been given |
| HubStreams.ClientStream | internal/workerd/events.go:37-114 | the same over every run: which clients have a channel, what was sent, what is unread, whether it is closed and whether it is attached |
| HubStreams.SentExactly | internal/workerd/events.go:42-99 | over every run a client is sent all states, the last 200 lines and the exit so far, and then exactly those later events that met its channel attached and with room |
| HubStreams.LeavesExactly | internal/workerd/events.go:60-69 | over every run a client has lost its subscription if and only if it detached, the hub was closed, or a state or exit event met its channel with 1024 events unread |
| EventHubSpec.PublishKeeps | internal/workerd/events.go:37-70 | one publish keeps the delivery promise of every channel |
| EventHubSpec.SubscribeKeeps | internal/workerd/events.go:72-99 | a snapshot fits the new channel, so a late subscriber has been given the whole state and exit history |
| EventHubSpec.SnapshotLoads | internal/workerd/events.go:9-17 | loading the snapshot never blocks when the state history is short enough |
| EventHubSpec.CloseHubKeeps | internal/workerd/events.go:101-114 | closing ends every attached channel with all that it was given, closed once, and leaves the others alone |
| ExitLast.ExitIsLast | internal/workerd/events.go:19-23 | over every run from the exit to the close: a channel attached at the close ends with the exit event if and only if no stderr line in between met it with room |
| ExitExample.StderrComesLast | internal/workerd/job.go:332-338 | a run of a COMPLETED job in which the mirror's last line, published after the exit, is what a client attached at the close was sent last |
| EventHubImpl.EventHub.Publish | internal/workerd/events.go:42-70 | the method with its loop over the subscribers does what the hub function says |
| EventHubImpl.EventHub.Subscribe | internal/workerd/events.go:76-99 | the method with its replay loops does what the hub function says |
| EventHubImpl.EventHub.Close | internal/workerd/events.go:103-114 | the method with its loop closes every attached channel |
| JobMonitor.Job.SetState | internal/workerd/job.go:363-376 | the whole new state of the critical section |
| JobMonitor.Job.Finalize | internal/workerd/job.go:383-397 | the whole new state, and whether this call has to close the queue |
| JobMonitor.Job.AbortFail | internal/workerd/job.go:427-436 | the whole new state of the critical section |
| JobMonitor.Job.RequestCancel | internal/workerd/job.go:445-453 | the whole new state of the critical section |
| JobMonitor.Job.GateWait | internal/workerd/job.go:564-590 | the loop over the names with the wait inside it gives the result of the loop function, for everything that can happen while it sleeps |
| JobLoops.GateDecides | internal/workerd/job.go:559-590 | for the job's own chunks the state in which the loop stops decides how: through if and only if every name is ACKed, refused if and only if one is not and the job is broken, and otherwise still waiting |
| JobLoops.GatePassesOver | internal/workerd/job.go:576-587 | in general an announce is let through only over names that are ACKed or were missing from the out dir |
| SystemGate.CheckIsTurn | internal/workerd/job.go:576-587 | a check of the step system leaves a held announce exactly where a pass of that loop does |
| JobMonitor.Job.Enqueue | internal/workerd/pusher.go:76-90 | the new job and queue, and whether the queue overflowed |
| JobMonitor.Job.Resolve | internal/workerd/pusher.go:100-106 | the recorded outcome of one push |
| PushRetry.PushFile | internal/workerd/pusher.go:115-140 | at most four attempts, stopped by a stored chunk or a gone session; succeeds if and only if a stored one comes first; the waits double and never exceed the cap |
| PushReplies.WorkerIsLoop | internal/workerd/pusher.go:115-140 | over every run of the step system: a worker that goes from opening a file to a result does so after the same replies, with the same result and number of attempts, as the retry loop |
| JobMonitor.Job.DrainUploads | internal/workerd/pusher.go:181-201 | intake is closed; the loop waits exactly as long as uploads are pending in a sound job before the deadline, and succeeds if and only if it stops with none |
| Sessions.PurgingUnobservable | internal/masterd/sessions.go:53-55 | on every sequence of operations the store answers like one that keeps live sessions only |
| Sessions.ReapedExactlyWhenIdle | internal/masterd/sessions.go:139-153 | the TTL ends a live session if and only if its last registration or stored segment is more than a TTL ago |
| Sessions.ExpiryIsLatestActivity | internal/masterd/sessions.go:103-112 | a live session expires one TTL after its latest activity |
| Sessions.PurgedExactly | internal/masterd/sessions.go:139-153 | over every sequence of operations that does not register the id again, a tombstone is gone if and only if some reap came later than its retention, and is unchanged until then |
| SessionStoreImpl.SessionStore.Reap | internal/masterd/sessions.go:140-153 | the loop over the table does what the reap function says |
| SessionStoreImpl.SessionStore.Tombstone | internal/masterd/sessions.go:130-137 | only a live session is tombstoned |
| RoundTrip.RewriteSubstitute | internal/workerd/subst.go:36-52 | substituting the master's own values into the rewritten argv gives the argv back up to the spelling of file inputs, and exactly if and only if every file input is absolute and clean |
| RoundTrip.SentArgvResolves | internal/workerd/subst.go:43-48 | under values free of '{', no token of a rewritten '{'-free argv is refused, none keeps a placeholder, and every map iteration order gives the same argv |
| RoundTrip.SentJobPrepares | internal/workerd/job.go:182-219 | end to end: where no listed path has a '{' in its extension, what the shim sends for a '{'-free argv can be prepared if and only if it has two tokens and every spool reference can be fetched, and then has every placeholder replaced by its own value |
| RoundTrip.CleanArgvPrepares | internal/workerd/job.go:182-219 | the same from the argv alone: for a '{'-free argv whose filter strings are clean |
| WorkerArgv.ArgvOnWorker | internal/shim/rewrite.go:50-102 | end to end: on the worker a path below the session dir is below the out dir, one below the install dir below the worker's, every server URL starts with the proxy's base, a file input at or below the session dir is the spooled copy and any other the signed URL, and the rest is as it was |
| WorkerArgv.CutsMean | internal/shim/rewrite.go:70-72 | the parts between the URLs joined with the URL are the text, and none of them holds it |
| FilterOnWorker.FilterArgOnWorker | internal/shim/rewrite.go:104-178 | end to end: a filter string arrives with its literal text in place and for each file reference the worker's spooled copy of its unescaped absolute path |
| FilterPaths.ArgsAdd | internal/shim/rewrite.go:50-102 | for a '{'-free argv the shim lists only '{'-free paths if and only if no filter string has a value that runs into a reference or a reference whose own path has a '{' |
| FilterPaths.CleanExactly | internal/shim/rewrite.go:104-114 | for a '{'-free filter string the first half of that condition is the whole |
| SpoolOrder.OrderDecides | internal/workerd/subst.go:43-48 | otherwise: for `fontsdir=x.ysubtitles=/a` one map order gives a token without placeholders and the other one leaves a media placeholder, which is refused |
| FilterSwallow.MergedExactly | internal/shim/rewrite.go:104-114 | a '{'-free filter string has a segmentation whose literals the shim keeps, with each reference replaced by the placeholder of its unescaped absolute path, if and only if no standalone value runs into a reference of the first scan |
| FilterMerge.MergedIsWritten | internal/shim/rewrite.go:104-114 | under that condition the output is the merged segmentation of the input, for any string whose only placeholders are those of the server URL |
| FilterSwallow.MergedMeans | internal/shim/rewrite.go:104-114 | and the worker's transcoder sees the literals in place and each file's local value |
| FilterSwallow.OpenExactly | internal/shim/rewrite.go:158-194 | the condition read off the string: a value runs into what follows a text if and only if the text ends in the key and a value that nothing has ended |
| FilterSwallow.GarbledOutput | internal/shim/rewrite.go:158-178 | what the shim makes of `fontsdir=xsubtitles=/a`: the placeholder in pieces, and a path with its front inside |
| FilterSwallow.GarbledUnmerged | internal/shim/rewrite.go:104-114 | no segmentation of that string explains that output |
| FilterMeaning.FilterRefsMean | internal/shim/rewrite.go:104-114 | in every case, also where there is no single segmentation: each scan's pieces make up the text it is given, and the worker sees the second scan's literals with each of its references as the local value of its path |
| FilterMeaning.OneScanMeans | internal/shim/rewrite.go:107-114 | where the second scan finds no further file, the first one's pieces alone say what the worker sees |
| FilterMeaning.WholeRender | internal/shim/rewrite.go:155-178 | cutting a placeholder at its ':' writes the same text as keeping it whole |
| RewriteShape.ArgsGood | internal/shim/rewrite.go:50-102 | whatever the filter strings look like, a rewritten argv is plain text with placeholders of the table sent along |
| RewriteShape.KeyGood | internal/shim/rewrite.go:155-178 | the second scan keeps text well made even where it cuts a placeholder at its ':' |
| RewriteSpec.RenderPrints | internal/shim/rewrite.go:104-114 | the rewritten filter string is the same segmentation with identical literals and each reference printed as the placeholder of its unescaped absolute path in the final table |
| RewriteSpec.ArgsGrow | internal/shim/rewrite.go:217-232 | the media table only grows, without duplicates, so placeholders handed out stay valid |
| RewriterImpl.Rewriter.AddMedia | internal/shim/rewrite.go:219-232 | keys stay exactly 0..n-1 and (mode, path) pairs and indices correspond one to one in both maps |
| RewriterImpl.Rewriter.RewriteSubtitlesOpts | internal/shim/rewrite.go:120-153 | the nested loops terminate and give the rendered segmentation |
| RewriterImpl.Rewriter.RewriteKeyValues | internal/shim/rewrite.go:158-178 | the loop terminates and gives the rendered segmentation |
| RewriterImpl.Rewriter.RewriteInput | internal/shim/rewrite.go:69-84 | which inputs pass through, and which become stream or spool placeholders |
| RewriterImpl.Rewriter.RewriteToken | internal/shim/rewrite.go:89-102 | URL, filter references and directory prefixes, in that order |
| RewriterImpl.Rewriter.RewriteArgs | internal/shim/rewrite.go:52-65 | `-i` takes its value with it; every other token is rewritten by itself |
| RewriterImpl.KeyInjective | internal/shim/rewrite.go:220 | the deduplication key determines mode and path |
| Filters.FilterRecognised | internal/shim/rewrite.go:120-153 | every file of a well-formed subtitles= list is recognised with its path whole, and nothing else is |
| Filters.ListRecognised | internal/shim/rewrite.go:132-151 | the same for one option list, which ends where the list ends |
| Filters.SubtitleSource | internal/shim/rewrite.go:120-153 | the pieces of the first scan make up the text |
| Filters.KeySource | internal/shim/rewrite.go:158-178 | the pieces of the second scan make up the text |
| Filters.CutEscaped | internal/shim/rewrite.go:180-194 | a path with every metacharacter and backslash escaped is cut out whole |
| Filters.UnescapeEscape | internal/shim/rewrite.go:196-210 | unescaping an escaped path recovers it |
| Filters.CutFilterValue | internal/shim/rewrite.go:184-194 | the loop cuts at the first metacharacter that no backslash escapes |
| Filters.UnescapeFilter | internal/shim/rewrite.go:198-210 | the loop, with its shortcut, removes one level of escapes |
| Paths.AbsoluteIsClean | internal/shim/rewrite.go:242-248 | a resolved path is absolute and clean |
| Paths.AbsoluteKeeps | internal/shim/rewrite.go:242-248 | a path is used as it stands if and only if it is absolute and clean |
| Paths.CleanLaws | internal/shim/rewrite.go:242-248 | empty elements, dots, a name followed by two dots and two dots at the root make no difference to what cleaning gives, and a path without them stays |
| Paths.AbsoluteOf | internal/shim/rewrite.go:242-248 | a relative path is taken from the session dir |
| RelPaths.WorkerAccepts | internal/workerd/provision.go:213-219 | the worker accepts exactly the paths of plain names as they are written, and "." |
| RelPaths.MasterAccepts | internal/masterd/sessions.go:221-230 | masterd accepts exactly the relative paths that cleaning turns into plain names |
| RelPaths.AcceptedStaysBelow | internal/masterd/sessions.go:250-259 | an accepted path joined to a dir lies below it, name by name, so the second check never refuses |
| Substitute.SubstituteArgv | internal/workerd/subst.go:36-52 | every token with its placeholders replaced in some map order and no media reference left, or a token that has one left |
| Substitute.SubstitutedIs | internal/workerd/subst.go:40-45 | what the loops give for a well-made token is determined, whatever the map order |
| Substitute.AnyOrderResolves | internal/workerd/subst.go:43-45 | every iteration order gives the token with all placeholders replaced at once |
| Substitute.RefusedExactlyWhenMissing | internal/workerd/subst.go:46-48 | a token is refused if and only if it references a media placeholder outside the map |
| Prepare.MediaValues | internal/workerd/job.go:186-215 | the first key that is no index, has an unknown mode or cannot be spooled stops the job; otherwise each placeholder has its value, of two keys with one index the later |
| Prepare.PrepareArgv | internal/workerd/job.go:182-219 | too short an argv, the first bad key, an unresolved token, or the substituted argv, in that order |
| Prepare.KeyDecides | internal/workerd/job.go:193-214 | which media keys have a value, what it is, and what is wrong with the others |
| Prepare.ExtMeans | internal/workerd/job.go:289-300 | the kept extension is what stands behind the last dot of the last element |
| Prepare.SpoolFileIs | internal/workerd/job.go:276 | the spooled file lies in the spool dir under its index and extension |
| Prepare.ShimValues | internal/workerd/job.go:186-216 | for the shim's media map no key is refused and no value is lost, in any key order |
| Placeholders.ParsePrinted | internal/protocol/protocol.go:62-86 | a printed index parses back exactly when it fits an int |
| Placeholders.ParsedIsPrinted | internal/protocol/protocol.go:66-86 | a parsed text is the printed form if and only if it has no leading zero |
| Placeholders.LeadingZeroParses | internal/protocol/protocol.go:66-86 | a text that parses and that MediaPlaceholder never prints |
| Placeholders.MediaInjective | internal/protocol/protocol.go:62-64 | different indices print differently |
| Placeholders.ReplacePassesOver | internal/workerd/subst.go:43-45 | a placeholder never matches inside another one |
| Placeholders.ReplaceThenResolve | internal/workerd/subst.go:40-45 | replacing one placeholder first makes no difference |
| Announce.RunIsFound | internal/workerd/proxy.go:60-70 | every maximal run of name characters that starts with a prefix is matched whole, up to its last alphanumeric character |
| Announce.NameIsReferenced | internal/workerd/proxy.go:67-82 | such a run is in the result |
| Announce.ReferencesAreNames | internal/workerd/proxy.go:67-82 | the result has no duplicates and holds only names of the pattern |
| Announce.DistinctMeans | internal/workerd/proxy.go:71-81 | the result has the matches, each once, by first appearance |
| Announce.MatchLongest | internal/workerd/proxy.go:65 | the match is the longest reference at its position |
| Announce.PatternIs | internal/workerd/proxy.go:65 | the names that count as references are exactly the texts of the pattern, spelled out |
| Announce.ReferencedChunks | internal/workerd/proxy.go:69-82 | the loop with its seen set gives the distinct matches |
| Tonemap.RewriteTonemapChain | internal/workerd/tonemap.go:36-78 | a change is reported if and only if the text is the known pipeline; the result keeps outer labels and dimensions; a refused text comes back unchanged |
| Tonemap.KnownExactly | internal/workerd/tonemap.go:17-35 | the texts that are rewritten are exactly the printed pipelines: the five filters in order, spread over linked chains in any way |
| Tonemap.KnownUnique | internal/workerd/tonemap.go:36-78 | a text is the known pipeline in at most one way |
| Tonemap.RewrittenParses | internal/workerd/tonemap.go:75-77 | the output is one well-formed chain between the old labels |
| Tonemap.RewrittenKeepsSize | internal/workerd/tonemap.go:75-77 | the output parses to one chain with the first input label and the last output label, which uploads, scales and maps tones, and whose options give the width and height that the old scale filter's options give |
| TonemapDocumented.DocumentedRewrite | internal/workerd/tonemap.go:17-35 | for all labels, sizes and curves: the documented pipeline is known, and its replacement is the documented text |
| TonemapDocumented.ScaleExactly | internal/workerd/tonemap.go:143-172 | a scale filter is accepted for a size if and only if every option is for w, h or force_divisible_by, the last w and the last h give that size, and both are positive numbers |
| TonemapDocumented.CurveIs | internal/workerd/tonemap.go:66-70 | a tone map is accepted if and only if it is `tonemap=` and a non-empty curve without ':' and '=' |
| TonemapDocumented.VideoLabels | internal/workerd/tonemap.go:117-129 | the labels taken for those of a single video input are exactly a:b, a:v and a:v:b with numerals a and b |
| Tonemap.RewrittenIsStable | internal/workerd/tonemap.go:36-78 | rewriting the output again changes nothing |
| Tonemap.ParsesExactly | internal/workerd/tonemap.go:87-115 | parsing succeeds exactly on printed chains, and printing gives back the text |
| Tonemap.ScaleDims | internal/workerd/tonemap.go:143-172 | accepted if and only if all options are known and the last w and h are positive numbers |
| ProvisionProof.OneFetch | internal/workerd/provision.go:45-62 | at most one fetch of a build runs at any time |
| ProvisionCallers.JoinersShare | internal/workerd/provision.go:45-69 | over every run: a caller that arrives while a fetch is listed starts none and is tied to that fetch until a crash; unless it gives up it is told that fetch's result |
| ProvisionCallers.ResultStays | internal/workerd/provision.go:49-69 | a result, once there, is what every caller of that fetch is told, whenever it asks |
| ProvisionProof.FinalIsWhole | internal/workerd/provision.go:71-115 | at every step, after failures and crashes, the final dir has every file of the manifest it was assembled from, and only checked files besides tmp files |
| ProvisionCallers.SuccessIsComplete | internal/workerd/provision.go:117-141 | a caller that is told of success finds every file of that fetch's manifest, checked, and with its size unless another manifest lists the name with a different one, at any later time |
| ProvisionProof.FilePlaced | internal/workerd/provision.go:163-189 | the rename adds the checked file and loses no other |
| ProvisionNames.ColdComplete | internal/workerd/provision.go:91-115 | a cold fetch leaves every entry present with its size if and only if no entry is overwritten by a later one of another size or by the tmp file of a later one, whatever the names are |
| ProvisionNames.AssembledComplete | internal/workerd/provision.go:163-189 | the same for the directory that the loop assembles |
| ProvisionNames.ColdDelivers | internal/workerd/provision.go:45-115 | for every manifest of safe names and all bodies that match it there is a run in which the fetch puts every file in place and its caller is told of success |
| ProvisionNames.ClashLoses | internal/workerd/provision.go:167-189 | such a run where a manifest entry is missing at the end |
| CodecFetch.CodecDirs.FetchCodecFile | internal/workerd/provision.go:143-190 | for every entry and every reply, the resulting directory and success |
| CodecFetchProof.FetchOne | internal/workerd/provision.go:163-189 | the file is there, checked, if and only if it was answered in full, matches its entry and could be renamed; every name but the tmp name, and its own on success, is as it was |
| CodecFetchProof.LoopSucceeds | internal/workerd/provision.go:99-134 | the file loop succeeds if and only if every name is safe and every file is there already with its size (in a top-up) or is delivered in full with its size and sum |
| CodecFetchProof.PresentStays | internal/workerd/provision.go:128-131 | a top-up leaves a file that is there with its size as it is |
| CodecFetchProof.FetchSucceeds | internal/workerd/provision.go:77-141 | a fetch succeeds if and only if it has a manifest and its loop succeeds, and from cold the partial dir could be made afresh and renamed |
| Provision.EqualFoldMeans | internal/workerd/provision.go:178-184 | sums are compared but for the case of their letters |
| CodecFetch.CodecDirs.SyncCodecs | internal/workerd/provision.go:122-141 | for every manifest and all replies, the loop with its early returns gives the resulting directory and success |
| CodecFetchProof.WarmComplete | internal/workerd/provision.go:122-141 | whatever the names are, a successful top-up leaves every entry present with its size if and only if the loop does so on the names and sizes of the starting dir |
| CodecFetchProof.ClashDepends | internal/workerd/provision.go:122-141 | under one manifest with a clash that is false from an empty dir and true from one that has the second file |
| CodecFetchProof.WarmLoses | internal/workerd/provision.go:122-141 | from the empty dir that top-up succeeds with an entry missing |
| CodecFetchProof.TwoSizes | internal/workerd/provision.go:122-141 | a name listed with two sizes is never complete |
| CodecFetchProof.SyncLosesNone | internal/workerd/provision.go:122-141 | where names do not clash, no file but tmp files is lost either way, only outdated ones are replaced and only the manifest's are added |
| CodecFetch.CodecDirs.FetchCodecs | internal/workerd/provision.go:77-115 | for every manifest and all replies, both resulting directories and success |
| CodecFetchProof.AllOrNothing | internal/workerd/provision.go:77-115 | with no assumption on names: a cold fetch is all or nothing; a warm one keeps the final dir, files of other names and the partial dir |
| CodecFetchProof.ColdLoopComplete | internal/workerd/provision.go:99-107 | a successful cold loop leaves every entry present with its size if and only if every entry lasts |
| CodecFetchProof.FetchComplete | internal/workerd/provision.go:77-141 | where names do not clash, success means every entry present with its size, and both dirs hold checked files and whole manifests either way |
| CodecCache.CodecCache.Manifest | internal/masterd/files.go:129-163 | the loop, with its early return, gives the manifest and the memo of the scan function |
| CodecCache.ManifestTells | internal/masterd/files.go:142-160 | a manifest lists exactly the regular files in their order, each with its size, and with the sum on record if that was taken under the same size and mtime, else with that of its content |
| CodecCache.ManifestFails | internal/masterd/files.go:148-152 | it fails if and only if a regular file is neither on record nor readable |
| CodecCache.OthersKept | internal/masterd/files.go:153-154 | what is on record for other paths stays as it was |
| CodecCache.ManifestKeeps | internal/masterd/files.go:153-154 | after it every file it told is on record with the present stamp and the sum it told |
| CodecCache.StaleExactly | internal/masterd/files.go:145-160 | the manifest differs from the one that hashes every regular file afresh if and only if some remembered sum is not that of the file's present content, and fails if and only if a regular file is neither remembered nor readable |
| CodecCache.StaleNeedsSameStamp | internal/masterd/files.go:147-155 | over every sequence of requests, a manifest that differs means that a file was rewritten under the same size and mtime since an earlier request |
| Admission.NeverOverCapacity | internal/workerd/workerd.go:283-322 | over every sequence of requests, endings and reapings at most max_jobs jobs are active |
| Admission.FirstObjection | internal/workerd/workerd.go:262-329 | the response is the first refusal that applies, and the job is created if and only if none does, with the running jobs counted against max_jobs |
| Admission.ForgetsOnlyOldEnded | internal/workerd/workerd.go:402-413 | over every sequence of operations, an id that left the map was taken out by a reap at least the reap age after its job's reported end |
| Admission.RunningStays | internal/workerd/workerd.go:283-288 | over every sequence that does not report its end, a running job keeps its place in the map, and its id is refused as a duplicate all that time |
| Admission.Daemon.CreateJob | internal/workerd/workerd.go:262-329 | the response by the order of the checks, and the new map |
| Admission.Daemon.ActiveJobs | internal/workerd/workerd.go:208-218 | the count over the map, in any order |
| Admission.Daemon.ReapOnce | internal/workerd/workerd.go:402-413 | exactly the old ended jobs leave the map |

## Left out

- HTTP serving and clients, JSON, header copying, process spawning and signals: a PUT, a forward or a kill is a step with a free outcome.
- Tokens, their hashing and the signing of media URLs: authentication is taken as passed, and a media reference stands for the path that its URL names.
- inotify parsing (`watcher_linux.go`): the watcher is a source of completed names and one possible fatal error.
- Real time: a natural-number clock that moves by free amounts; backoff and settle delays are free waits.
- `eae.go`, `relay.go`, `workers.go`, `classify.go`, `shim.go`, `internal/ndjson`, `internal/config`, `cmd/prt`, driver discovery and `buildEnv`: supervision, plumbing and lookups with only easy claims. The shim appears as an events client that may vanish.
- The daemon's shutdown context reaches the model only where it ends the lifeline monitor, a backoff or a network operation.
- The gate keeps the mutex from one name to the next while it does not wait; the model lets other sections in between, which allows more runs than the program has.
- `codecCache.resolveDir`: the choice of the newest codec dir is not modelled; a listing names its dir.
- RoundTrip.RewriteSubstitute: covers argv whose tokens other than inputs hold no filter file references; for those that do, FilterSwallow.MergedMeans says what the worker sees.
- WorkerArgv.ArgvOnWorker: says nothing of arguments with a file reference in a filter string; for those FilterOnWorker.FilterArgOnWorker does, unless they start with '/' or a standalone value runs into a file.
- Prepare.PrepareArgv: ends with the argv; the environment, and which token the tonemap rewrite is applied to, are not modelled.
- Provision.Next: is modelled on values, as the steps of several goroutines, and holds the files of one build only.
- PushRetry.PushFile: a retry loop that the daemon's shutdown cuts short is only in the step system (`QuitRetry`).
- Filters.FilterRecognised: options other than files are taken as text with its metacharacters escaped.
- The meaning of filters on pixels, and the tone curve that the worker's rewrite deliberately drops.
