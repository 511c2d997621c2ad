# VideoInterop: a verified model of leases, dispatcher and importer

VideoInterop passes DMA-BUF frames between producers and consumers without copying them. A buffer may be
reused only when nobody holds it any more, and nothing about a frame may be trusted before it is checked.
This project models the code that keeps those promises and proves what it promises, in six parts.

**The lease owner** (`Lease*.dfy`). One process owns every producer token. `LeaseModel` has the state record and
one transition for each message; references, clocks, guard and callback results are arguments.
`LeaseInvariant` and `LeaseHandlers` hold the invariant over the coupled tables and its proof for every
message. `LeaseRefinement` shows that, seen as tokens, holders and reservations only, each message makes one
simple step. `LeaseOwnerProcess` is the same owner as the process that runs: a class with one field per entry
of the state map and one method per message, proved against the transitions.

**Owner and clients** (`LeaseSystem*.dfy`). One owner and any number of processes that run `issue` and `retain`,
as a step relation with one FIFO mailbox per sender. Time-outs, deaths, kills, crashes of the release executor,
stale results, releases of any (token, holder) and drains may happen at any step; the `DOWN` of a dead process
arrives after everything that process sent. The theorems are about every state of every run.

**The release dispatcher** (`Dispatcher*.dfy`). Every atomic operation is one interleaved step, for any number of
threads that want a client and any number of threads that close; the channel is FIFO.

**The Vulkan importer** (`SyncLane*.dfy`, `SourceCache*.dfy`, `Barriers.dfy`, `OutputPool.dfy`). The one-shot
synchronization lanes over an in-order queue, the bounded source cache under lookups and creations that
interleave (with the order of its stamps in `SourceCacheOrder.dfy`), the bounded output pool, and the barriers each command buffer records, with the layout and owning queue
family of every image and buffer ("Queue Family Ownership Transfer" in the Synchronization chapter of the Vulkan
specification).

**NV12 and packed arithmetic** (`Nv12.dfy`). Layout checks, spans, copy regions and texel addresses on 32- and
64-bit machine integers ("Buffer and Image Addressing" in the Vulkan specification).

**Descriptors and frames** (`Descriptors.dfy`, `Frames.dfy`, `OwnedFds.dfy`). The Elixir validators on unbounded
terms, the Rust validators on decoded machine integers, what they agree on, and the duplication of a frame's
file descriptors against an abstract descriptor table.

Where the source changes things in place the model does too: `LeaseOwnerProcess.LeaseOwner`,
`DispatcherObject.ReleaseDispatcher`, `DispatcherObject.ClaimedLease`, `SyncLaneObject.ImportedImageSync`,
`SourceCacheObject.LockedCache`, `OutputPool.LockedPool` and `OwnedFds.FdTable` are classes whose methods are
proved to make the steps the run theorems are about.

## What the proofs found

- Eviction picks the smallest stamp, but a request takes its stamp before the cache's lock, so stamps order requests
  and not claims. Picking by stamp is picking the least recently claimed, whichever entries are idle, if and only if
  the stamps are in the order of the claims (`SourceCacheOrder.EvictionAgreesIff`); a step keeps them in that order if
  and only if its claim is not late, that is, no other cached source already carries a later stamp
  (`SourceCacheOrder.OrderKeptIff`). Late claims happen: `SourceCacheOrder.LateClaimHappens` is a run with one.
- For DMA-BUF frames the two validators accept the same frames (`FrameAgreement.SameDmaBufFrames`). For binary
  frames the Rust validator only asks that each row begins inside the data, so it accepts frames whose pixels are
  cut off; `FrameAgreement.NativeAcceptsCutPixels` is one, and `FrameAgreement.SameBinaryFrames` states exactly
  what it does not look at.
- A lost release leaves nothing in the lane that keeps a second one out: the guards of `submit_release` let it through,
  it resets a release fence that may still be pending, and if the queue takes it the lane can be reset for reuse.
  `SyncLane.LostReleaseReused` is such a run. `SyncLane.StuckStepIff` says exactly when a lane that lost a submit
  gets out: at a release of its own that is taken, and at nothing else.
- The clamps at zero on `active_holders`, the eviction that would raise, the "invalid or expired reservation" stop,
  the client underflow, the failed enqueue and "worker is unavailable" are never reached.

## Model

| member | source | states |
|---|---|---|
| `LeaseHandlers.HandleGood` | lib/video_interop/lease_owner.ex:290-656 | any admissible message to a running owner leaves every table consistent with work left, or stops it normally with every table empty; the corruption stop is not taken |
| `LeaseRefinement.HandleRefines` | lib/video_interop/lease_owner.ex:290-656 | seen as tokens, holders, reservations and successes, every message makes exactly the one step the lease protocol describes |
| `LeaseResults.StepConserves` | lib/video_interop/lease_owner.ex:885-1003 | entries plus acknowledged successes grow by one at an accepted commit, guard-rejected ones included, and by nothing else; no token that is gone reappears |
| `LeaseResults.DrainProgress` | lib/video_interop/lease_owner.ex:548-570 | while draining, whatever changes holders, entries or reservations strictly lowers 3·reservations + leases + holders, and draining never reopens |
| `LeaseResults.CommitFalls` | lib/video_interop/lease_owner.ex:360-401 | while draining an accepted commit strictly lowers the weight |
| `LeaseResults.CancellationFalls` | lib/video_interop/lease_owner.ex:403-407 | so does cancelling an existing reservation |
| `LeaseResults.HolderRemovalFalls` | lib/video_interop/lease_owner.ex:1048-1062 | so does every message that takes a holder away |
| `LeaseResults.SuccessFalls` | lib/video_interop/lease_owner.ex:1114-1145 | so does every message that removes an entry, which only an acknowledged success does |
| `LeaseResults.WeightZeroIsDrained` | lib/video_interop/lease_owner.ex:1446-1449 | that weight is zero exactly when the owner is drained |
| `LeaseHandlers.DrainTestIsDrained` | lib/video_interop/lease_owner.ex:563-565 | the drain handler's shorter test (no leases, no reservations) decides the same as `drained?` |
| `LeaseReleases.CallbackOnlyWhenUnheld` | lib/video_interop/lease_owner.ex:1092-1112 | the release callback is asked for only when the entry has no holder, pending issue or pending retain, with its own backend token, and never for an entry already with the executor |
| `LeaseReleases.HandleDispatches` | lib/video_interop/lease_owner.ex:1064-1112 | every message sends the executor nothing but the job it newly made current |
| `LeaseReleases.RetryDelaysGrow` | lib/video_interop/lease_owner.ex:1365-1368 | retry delays start at `initial_ms`, never shrink and never pass `max_ms` |
| `LeaseReleases.TimersExact` | lib/video_interop/lease_owner.ex:1331-1360 | exactly the failed entries with attempts left have a timer, with the delay of their attempt, and a timer message of another generation changes nothing |
| `LeaseReleases.OldestIsSmallest` | lib/video_interop/lease_owner.ex:1451-1460 | the smallest element of the age index is the oldest entry a full scan finds |
| `LeaseReleases.AgeIndexEmptyTogether` | lib/video_interop/lease_owner.ex:1454-1460 | the age index has one element per entry, so it is empty exactly when there are none |
| `LeaseRejections.HandleFaithful` | lib/video_interop/lease_owner.ex:1179-1195 | an issue is answered with an error only by a rejected commit's own job, and such a job stays in the pipeline until it has answered |
| `LeaseReplies.HandleBland` | lib/video_interop/lease_owner.ex:403-656 | messages that ask for nothing answer no reservation, issue or retain, and add no tombstone beyond the holder they name |
| `LeaseSystemTheorems.RunConsistent` | lib/video_interop/lease_owner.ex:669-737 | the invariant of owner, mailboxes, calls and replies holds in every state of every run |
| `LeaseSystemTheorems.CommitsKeepReservations` | lib/video_interop/lease_owner.ex:360-401 | whatever times out, dies or drains, a commit in flight to a running owner still has its reservation, so the owner never raises and never stops for an invalid or expired one |
| `LeaseSystemTheorems.NormalStopStrandsNothing` | lib/video_interop/lease_owner.ex:1265-1281 | after a normal stop no token-bearing message is in flight, no entry is left, and every accepted commit was acknowledged as released |
| `LeaseSystemTheorems.CallerOwnedNeverSeen` | lib/video_interop/lease_owner.ex:690-714 | after `{:error, {:caller_owned, _}}` the owner has not and never will see the token: no commit of that call is in flight or accepted in any later state |
| `LeaseSystemTheorems.HoldersFollowCalls` | lib/video_interop/lease.ex:76-147 | a retain that returned ok has its child registered until a release or abandonment names it; one that returned an error leaves no holder once its messages are read; an issued lease keeps its first holder until it is named |
| `LeaseSystemTheorems.ReturnedIssueLeavesNothingPending` | lib/video_interop/lease_owner.ex:669-737 | an issue that has returned, its messages read, leaves neither reservation nor unconfirmed entry |
| `LeaseSystemTheorems.ReturnedForever` | lib/video_interop/lease_owner.ex:669-737 | what a call returned never changes again |
| `LeaseSystemTheorems.ConservationAndCapacity` | lib/video_interop/lease_owner.ex:1440-1444 | in every state accepted commits equal live entries plus `release_callbacks` minus `release_failures`, and entries plus reservations never exceed `max_active` |
| `LeaseSystemRuns.ReleasedOnce` | lib/video_interop/lease_owner.ex:1114-1177 | after an acknowledged success the token is in no later state and its callback is never asked for again, across executor crashes, stale results, retries and drains |
| `LeaseSystemRuns.GoneForever` | lib/video_interop/lease_owner.ex:885-894 | a token that is gone stays gone and unreleased in every later state |
| `LeaseSystemRuns.CallbackFindsNoHolder` | lib/video_interop/lease_owner.ex:1092-1112 | every callback a run newly asks for finds its entry releasing under that generation and held by nobody |
| `LeaseSystemRuns.PipelineExact` | lib/video_interop/lease_owner.ex:1064-1177 | in every reachable state an entry is queued or releasing exactly under the generation of its one job, active means held, and the executor is not idle while a job waits |
| `LeaseSystemRuns.TablesAgree` | lib/video_interop/lease_owner.ex:852-964 | in every reachable state `active_holders` is the sum of the holder sets, monitors are in bijection with reservations, pending issues and pending retains, no live holder has a tombstone, the tombstone order lists the at most 1024 keys once each, and no drain waiter is left while a release is failed |
| `LeaseSystemRuns.DrainingOnlyShrinks` | lib/video_interop/lease_owner.ex:548-570 | over any run admission that closed stays closed and the weight never rises |
| `LeaseSystemRuns.DrainEndsAtZero` | lib/video_interop/lease_owner.ex:1265-1281 | a running draining owner has weight above zero, a normally stopped one has zero |
| `LeaseSystemRuns.DrainedMeansEmpty` | lib/video_interop/lease_owner.ex:751-767 | a drain that was answered ok means the owner has stopped with nothing leased and every accepted commit acknowledged as released |
| `LeaseDrains.HandleHonest` | lib/video_interop/lease_owner.ex:1265-1281 | no message makes the owner tell a waiter the drain is done unless it stops normally with it |
| `LeaseSystemRuns.ServedAdmissible` | lib/video_interop/lease_owner.ex:326-656 | every message read in a run is one the handler theorems speak of, the clients' fresh references included |
| `LeaseOwnerProcess.LeaseOwner.constructor` | lib/video_interop/lease_owner.ex:242-287 | the state map `init` builds satisfies the invariant |
| `LeaseOwnerProcess.LeaseOwner.Serve` | lib/video_interop/lease_owner.ex:290-656 | the process itself: one turn of the mailbox does what the transition says, keeps every table consistent, and stops only normally and empty |
| `LeaseOwnerProcess.LeaseOwner.HandleInfo` | lib/video_interop/lease_owner.ex:290-656 | the clause that takes a message leaves the state, the messages and the fate its transition says |
| `LeaseOwnerProcess.LeaseOwner.HandleReserveIssue` | lib/video_interop/lease_owner.ex:327-358 | refused while draining, then at capacity; otherwise one reservation and one monitor, answered once |
| `LeaseOwnerProcess.LeaseOwner.HandleCommitIssue` | lib/video_interop/lease_owner.ex:360-401 | only the reservation of the same call, reference and process is committed; anything else is the corruption stop |
| `LeaseOwnerProcess.LeaseOwner.PublishLease` | lib/video_interop/lease_owner.ex:885-931 | a built guard: one entry with one holder awaiting confirmation, counted in every table, and one answer |
| `LeaseOwnerProcess.LeaseOwner.RejectIssue` | lib/video_interop/lease_owner.ex:933-1003 | a failed guard factory: the token still becomes an entry, goes straight to its release, and the caller is answered by that job |
| `LeaseOwnerProcess.LeaseOwner.HandleCancelReservation` | lib/video_interop/lease_owner.ex:403-407 | forgets the reservation with its monitor, and stops if that drained the owner |
| `LeaseOwnerProcess.LeaseOwner.HandleAbandoned` | lib/video_interop/lease_owner.ex:409-429 | removes a live holder once and buries it; changes nothing otherwise |
| `LeaseOwnerProcess.LeaseOwner.HandleConfirmIssue` | lib/video_interop/lease_owner.ex:431-441 | ends the wait only for the call's own request |
| `LeaseOwnerProcess.LeaseOwner.HandleCancelIssue` | lib/video_interop/lease_owner.ex:443-449 | an unconfirmed entry loses all its holders and enters the pipeline; a confirmed one is untouched |
| `LeaseOwnerProcess.LeaseOwner.HandleRetain` | lib/video_interop/lease_owner.ex:451-467 | counts the request and refuses while draining |
| `LeaseOwnerProcess.LeaseOwner.RetainHolder` | lib/video_interop/lease_owner.ex:793-850 | the refusals in the order of the checks, or one new holder with its monitor and one answer |
| `LeaseOwnerProcess.LeaseOwner.HandleConfirmRetain` | lib/video_interop/lease_owner.ex:469-494 | ends the wait of that child only for its own request |
| `LeaseOwnerProcess.LeaseOwner.HandleCancelRetain` | lib/video_interop/lease_owner.ex:496-508 | removes the child unless it is the entry's first holder |
| `LeaseOwnerProcess.LeaseOwner.HandleRelease` | lib/video_interop/lease_owner.ex:510-546 | late and repeated releases only change counters and tombstone kinds; the first removes the holder |
| `LeaseOwnerProcess.LeaseOwner.HandleDrain` | lib/video_interop/lease_owner.ex:548-570 | closes admission, then answers a failed release, completes an empty owner, or leaves the waiter |
| `LeaseOwnerProcess.LeaseOwner.FirstReleaseFailure` | lib/video_interop/lease_owner.ex:1283-1291 | finds some failed entry without holders, or there is none |
| `LeaseOwnerProcess.LeaseOwner.HandleCancelDrain` | lib/video_interop/lease_owner.ex:572-575 | forgets the waiter and its monitor, keeps admission closed |
| `LeaseOwnerProcess.LeaseOwner.HandleReleaseResult` | lib/video_interop/lease_owner.ex:577-585 | results of an executor that is no longer current change nothing |
| `LeaseOwnerProcess.LeaseOwner.FinishReleaseJob` | lib/video_interop/lease_owner.ex:1114-1177 | a matching result settles the one current job, dispatches the next, then stops or goes on; any other is only counted |
| `LeaseOwnerProcess.LeaseOwner.RecordFailure` | lib/video_interop/lease_owner.ex:1147-1168 | the entry stays failed, every drain waiter hears of it, and a retry is scheduled while attempts are left |
| `LeaseOwnerProcess.LeaseOwner.HandleReleaseExecutorDown` | lib/video_interop/lease_owner.ex:1197-1215 | a new executor, and the job in flight counts as failed |
| `LeaseOwnerProcess.LeaseOwner.HandleRetryTimer` | lib/video_interop/lease_owner.ex:587-605 | a live timer requeues its failed entry; a stale one changes nothing |
| `LeaseOwnerProcess.LeaseOwner.HandleRetryCall` | lib/video_interop/lease_owner.ex:302-322 | cancels the timer, requeues a failed entry, and refuses the other states by name |
| `LeaseOwnerProcess.LeaseOwner.HandleClose` | lib/video_interop/lease_owner.ex:291-300 | closes admission and completes at once if drained; the producer's death does the same |
| `LeaseOwnerProcess.LeaseOwner.HandleMonitorDown` | lib/video_interop/lease_owner.ex:852-883 | a dead client's reservation, unconfirmed entry, unconfirmed child or drain waiter is undone |
| `LeaseOwnerProcess.LeaseOwner.HandleMalformed` | lib/video_interop/lease_owner.ex:631-656 | a message of a known tag and wrong shape is counted and changes nothing else |
| `LeaseOwnerProcess.LeaseOwner.RemoveHolder` | lib/video_interop/lease_owner.ex:1048-1062 | the last holder to leave queues the release, and may end a drain |
| `LeaseOwnerProcess.LeaseOwner.CancelPendingIssue` | lib/video_interop/lease_owner.ex:1005-1018 | takes back an entry nobody confirmed |
| `LeaseOwnerProcess.LeaseOwner.ReleaseEntry` | lib/video_interop/lease_owner.ex:1064-1090 | every monitor and timer of the entry is gone before its job is queued under a new generation |
| `LeaseOwnerProcess.LeaseOwner.DispatchNextRelease` | lib/video_interop/lease_owner.ex:1092-1112 | one job at a time, in the order queued |
| `LeaseOwnerProcess.LeaseOwner.ClearAllPendingRetains` | lib/video_interop/lease_owner.ex:1254-1263 | the loop removes exactly the entry's retain monitors, in any order |
| `LeaseOwnerProcess.LeaseOwner.ReplyAllDrainWaiters` | lib/video_interop/lease_owner.ex:1293-1313 | the loop answers every waiter once and forgets exactly their monitors, in any order |
| `LeaseOwnerProcess.LeaseOwner.StopOrContinueAfterRelease` | lib/video_interop/lease_owner.ex:1265-1281 | completes the drain exactly when draining and drained |
| `LeaseOwnerProcess.LeaseOwner.PutReleaseTombstone` | lib/video_interop/lease_owner.ex:1488-1525 | buries a holder, evicting the oldest beyond the limit |
| `LeaseOwnerProcess.LeaseOwner.ScheduleRetry` | lib/video_interop/lease_owner.ex:1331-1349 | a timer only under an exponential policy with attempts left |
| `Dispatcher.RunInv` | rust/video-interop/src/beam.rs:174-346 | in every run the fatal branches (count underflow, failed send, worker unavailable, guard acquire refused by a healthy dispatcher) are not taken |
| `Dispatcher.QuietForever` | rust/video-interop/src/beam.rs:204-226 | once a closer has read zero clients after Stopping, no thread holds a client and no command is sent, in any continuation |
| `Dispatcher.ZeroReadIsQuiet` | rust/video-interop/src/beam.rs:204-211 | the load that reads zero is that moment |
| `Dispatcher.Lifecycle` | rust/video-interop/src/beam.rs:184-289 | at most one Stop and one join, Stopped only after the join, nothing behind Stop in the channel, and at Stopped every dispatched command was taken once, in order, and sent or counted undelivered |
| `Dispatcher.CountIsExact` | rust/video-interop/src/beam.rs:291-318 | the client count is exactly the threads between their add and their subtract |
| `DispatcherObject.ReleaseDispatcher.constructor` | rust/video-interop/src/beam.rs:126-151 | a started dispatcher satisfies the invariant |
| `DispatcherObject.ReleaseDispatcher.LoadForAdmission` | rust/video-interop/src/beam.rs:291-297 | the first health load, as one step of the protocol |
| `DispatcherObject.ReleaseDispatcher.FetchAdd` | rust/video-interop/src/beam.rs:298-300 | the count rises before the second load |
| `DispatcherObject.ReleaseDispatcher.Recheck` | rust/video-interop/src/beam.rs:300-311 | a client is granted only if closing has not begun, and so never once quiet |
| `DispatcherObject.ReleaseDispatcher.ReleaseClient` | rust/video-interop/src/beam.rs:313-318 | the count falls by one and never below zero |
| `DispatcherObject.ReleaseDispatcher.Send` | rust/video-interop/src/beam.rs:397-404 | a granted client's command is appended to the channel, whose receiver is there |
| `DispatcherObject.ReleaseDispatcher.CompareExchange` | rust/video-interop/src/beam.rs:184-202 | one closer wins the swap to Stopping, and after it nobody finds the dispatcher healthy |
| `DispatcherObject.ReleaseDispatcher.LoadActive` | rust/video-interop/src/beam.rs:204-211 | waiting goes on until zero is read |
| `DispatcherObject.ReleaseDispatcher.EnqueueStopOnce` | rust/video-interop/src/beam.rs:213-226 | Stop is in the channel once, whoever comes first |
| `DispatcherObject.ReleaseDispatcher.TakeWorker` | rust/video-interop/src/beam.rs:228-256 | the handle is taken by one closer, exactly when the worker has exited and nobody joins |
| `DispatcherObject.ReleaseDispatcher.JoinAndPublish` | rust/video-interop/src/beam.rs:257-272 | Stopped is published after the join, with the channel empty and every command accounted for |
| `DispatcherObject.ReleaseDispatcher.ReceiveOne` | rust/video-interop/src/beam.rs:649-660 | one `recv` is the protocol's step: the head command is taken with its outcome, or Stop ends the worker with the channel empty |
| `DispatcherObject.ReleaseDispatcher.DispatchWorker` | rust/video-interop/src/beam.rs:642-678 | run to Stop or an empty channel, the loop has taken every sent command once, in order and with its outcome, counted exactly the failed sends, and exited if and only if Stop was sent |
| `DispatcherObject.ClaimedLease.DispatchRelease` | rust/video-interop/src/beam.rs:576-597 | `retire` and `drop` together send one release, while the client is still held, and only then let the guard go |
| `SyncLane.NoMisuse` | rust/video-interop/src/vulkan/sync.rs:221-552 | in every run, up to a real loss of the device and whatever lanes were dropped in flight, no pool, fence or semaphore is reset, reused or destroyed while a pending submission refers to it, and each ready semaphore belongs to the lane or the renderer, never both |
| `SyncLane.QuarantineHolds` | rust/video-interop/src/vulkan/sync.rs:627-633 | in the same runs the handles of a lane dropped in flight stay alive and belong to nobody else, whatever the other lanes and the rest of the program do |
| `SyncLane.SignaledIsIdle` | rust/video-interop/src/vulkan/sync.rs:492-514 | a release fence seen signalled leaves nothing of the lane in flight |
| `SyncLane.LostSubmitSticks` | rust/video-interop/src/vulkan/sync.rs:280-315 | a lost submit, acquire or release, first or later, leaves the lane submitted and unreleased and the device marked |
| `SyncLane.StuckStepIff` | rust/video-interop/src/vulkan/sync.rs:409-486 | a lane submitted and unreleased, and not dropped, stays so over a step if and only if the step is not its own release, past every guard and taken by the queue |
| `SyncLane.StuckRefuses` | rust/video-interop/src/vulkan/sync.rs:520-552 | meanwhile it cannot be reset for reuse, and its drop destroys none of its handles |
| `SyncLane.StuckInRuns` | rust/video-interop/src/vulkan/sync.rs:615-654 | over any run such a lane stays so until it is dropped or a release of its own is taken, and a drop before that leaves every live handle alive |
| `SyncLane.LostReleaseReused` | rust/video-interop/src/vulkan/sync.rs:409-486 | a run in which a lost release is followed by a second one that resets the pending fence and is taken, and the lane is then reset for reuse |
| `SyncLane.NewFails` | rust/video-interop/src/vulkan/sync.rs:119-219 | a lane whose construction fails, at whichever step, leaves no object behind |
| `SyncLane.DropKeeps` | rust/video-interop/src/vulkan/sync.rs:615-654 | dropping a lane destroys exactly its handles, all idle, or nothing |
| `SyncLane.AcquireKeeps` | rust/video-interop/src/vulkan/sync.rs:221-315 | whatever fails inside `submit_acquire`, nothing in use is touched and nothing created for it leaks into another lane |
| `SyncLane.ReleaseKeeps` | rust/video-interop/src/vulkan/sync.rs:409-486 | the same for `submit_release` |
| `SyncLaneObject.ImportedImageSync.New` | rust/video-interop/src/vulkan/sync.rs:119-219 | a new lane owns fresh, idle objects, and every failing step destroys what the earlier ones made, in an order the device accepts |
| `SyncLaneObject.ImportedImageSync.ImportSyncFd` | rust/video-interop/src/vulkan/sync.rs:1388-1441 | reuses the lane's semaphore or keeps a new one only on success |
| `SyncLaneObject.ImportedImageSync.SubmitAcquire` | rust/video-interop/src/vulkan/sync.rs:221-315 | never resets or reuses a pending object of a working device; the outcome is the model's step, on a lost device too |
| `SyncLaneObject.ImportedImageSync.WaitAccepted` | rust/video-interop/src/vulkan/sync.rs:386-396 | acceptance hands exactly the ready semaphore over, so the lane no longer owns it |
| `SyncLaneObject.ImportedImageSync.WaitRejected` | rust/video-interop/src/vulkan/sync.rs:398-407 | rejection leaves it with the lane |
| `SyncLaneObject.ImportedImageSync.SubmitRelease` | rust/video-interop/src/vulkan/sync.rs:409-486 | taken only once, after the acquire and an answer of the renderer, with idle release objects while the device works; the model's step also on a lost device |
| `SyncLaneObject.ImportedImageSync.ResetForReuse` | rust/video-interop/src/vulkan/sync.rs:520-552 | a lane is reused only after its release completed, and while the device works only when nothing of it is in flight |
| `SyncLaneObject.ImportedImageSync.Drop` | rust/video-interop/src/vulkan/sync.rs:615-654 | destroys every handle once, in an order a working device accepts, or none, and then marks the device |
| `SourceCache.CacheIsSound` | rust/video-interop/src/vulkan/mod.rs:1699-1797 | under interleaved lookups, unlocked creations and inserts: never more than `max_entries`, one entry per stream, device and inode, one unreleased lease per source, and a live lease's source stays cached |
| `SourceCache.OnlyOwnClaimFreed` | rust/video-interop/src/vulkan/mod.rs:807-826 | a claim is freed only by the first release of the lease that holds it; late and repeated releases free nobody's |
| `SourceCache.EvictsLeastRecent` | rust/video-interop/src/vulkan/mod.rs:841-851 | what is evicted is idle, and no entry idle through the scan has a smaller stamp |
| `SourceCacheObject.PickOldest` | rust/video-interop/src/vulkan/mod.rs:841-850 | the scan, in any order, finds an idle entry of least stamp or there is none |
| `SourceCacheObject.LockedCache.EvictOneIdle` | rust/video-interop/src/vulkan/mod.rs:841-851 | removes that entry and nothing else |
| `SourceCacheObject.LockedCache.EvictStream` | rust/video-interop/src/vulkan/mod.rs:853-868 | removes exactly the idle entries of the stream, and the two counts are exact |
| `SourceCacheOrder.ClaimLowersIff` | rust/video-interop/src/vulkan/mod.rs:791-801 | in every run a claim lowers a source's stamp if and only if the request took its own before that one |
| `SourceCacheOrder.OrderKeptIff` | rust/video-interop/src/vulkan/mod.rs:1699-1797 | in every run, stamps in the order of the claims stay so over a step if and only if the step makes no late claim |
| `SourceCacheOrder.OrderedWithoutLateClaims` | rust/video-interop/src/vulkan/mod.rs:1699-1797 | a run without late claims has its stamps in the order of the claims throughout |
| `SourceCacheOrder.EvictionAgreesIff` | rust/video-interop/src/vulkan/mod.rs:841-851 | in every reachable state, picking by stamp is picking the least recently claimed, whichever entries are idle, if and only if the stamps are in the order of the claims |
| `SourceCacheOrder.EvictsLeastRecentlyClaimed` | rust/video-interop/src/vulkan/mod.rs:841-851 | in a run without late claims the evicted entry was claimed before every other entry idle through the scan |
| `SourceCacheOrder.LateClaimHappens` | rust/video-interop/src/vulkan/mod.rs:1699-1720 | a complete run with a late claim, after which a pick by stamp is not the least recently claimed |
| `SourceCacheOrder.RunStamps` | rust/video-interop/src/vulkan/mod.rs:1699-1720 | requests have distinct stamps, each cached source carries an answered request's, and no two cached sources the same |
| `OutputPool.PoolIsSound` | rust/video-interop/src/vulkan/mod.rs:2051-2133 | in every run: at most `max_slots`, one unreleased lease per slot, every barrier names the layout its image really has, `initialized` tracks a submitted write exactly, and sources are back in the external family |
| `OutputPool.LockedPool.FindFree` | rust/video-interop/src/vulkan/mod.rs:2071-2088 | the first free slot of the shape, or none is free |
| `OutputPool.LockedPool.FindReplaceable` | rust/video-interop/src/vulkan/mod.rs:2089-2096 | the first idle slot of another shape, or there is none |
| `OutputPool.LockedPool.Claim` | rust/video-interop/src/vulkan/mod.rs:2063-2114 | a claim is one sound step of the pool, or saturated exactly when the pool is full and no slot may be taken or replaced |
| `Barriers.StagedRuns` | rust/video-interop/src/vulkan/sync.rs:813-951 | each staged command buffer names every layout and owner correctly, leaves its outputs readable and ends with the source in the external family |
| `Barriers.WrongFlagMisnames` | rust/video-interop/src/vulkan/mod.rs:2513-2638 | a wrong `initialized` flag always records a wrong layout, so the flag must be exact |
| `Barriers.DirectBracket` | rust/video-interop/src/vulkan/sync.rs:775-802 | a direct image goes to the shader and back to the external family |
| `Nv12.SharedIffSound` | rust/video-interop/src/vulkan/mod.rs:487-520 | the layout check accepts exactly the even layouts whose every plane byte lies in the object with one plane wholly before the other; nothing overflows 64 bits |
| `Nv12.AddressesDistinct` | rust/video-interop/src/vulkan/mod.rs:487-520 | accepted (plane, row, byte) addresses are pairwise distinct and inside the object |
| `Nv12.RegionReadsPlane` | rust/video-interop/src/vulkan/sync.rs:953-1017 | the copy regions read exactly the plane's bytes, each once, and meet the alignment rules |
| `Nv12.TexelIsByte` | rust/video-interop/src/vulkan/sync.rs:953-977 | row length `pitch`, or half of it with two-byte texels, addresses the plane's own bytes |
| `Nv12.TransferSpanExact` | rust/video-interop/src/vulkan/mod.rs:522-540 | the span covers every copied byte, fits the object, and its last byte is one of them |
| `Nv12.ComputeSpanLeast` | rust/video-interop/src/vulkan/mod.rs:3063-3074 | the rounded span is the least multiple of four covering both planes |
| `Nv12.StagedAddressing` | rust/video-interop/src/vulkan/mod.rs:3076-3107 | an accepted staged layout addresses every plane byte below 2^32, every texel below span / 4, and the later 32-bit conversions of both offsets succeed |
| `Nv12.PackedIffInside` | rust/video-interop/src/vulkan/mod.rs:3712-3750 | the packed check accepts exactly the layouts whose every byte is inside the object |
| `Nv12.DeltaIsElapsed` | rust/video-interop/src/vulkan/sync.rs:736-742 | if fewer ticks passed than the counter can tell apart, the delta of two wrapped readings is exactly that many |
| `RustDescriptors.Validate` | rust/video-interop/src/dmabuf.rs:137-237 | the nested loops accept exactly the usable descriptors, and an error names the first defect in the order of the checks |
| `RustDescriptors.FirstDefectIsUnique` | rust/video-interop/src/dmabuf.rs:137-237 | a rejected descriptor has one first defect, so the error is determined |
| `ElixirDescriptors.LayersFold` | lib/video_interop/validator.ex:146-168 | the fold that halts at the first error accepts exactly when every layer is valid |
| `DescriptorAgreement.SameDescriptors` | lib/video_interop/validator.ex:33-43 | for every term: the Elixir validator accepts it exactly when it decodes and the Rust validator accepts what it decoded |
| `RustFrames.ValidateRect` | rust/video-interop/src/geometry.rs:14-49 | accepts exactly the nonempty rectangles inside the coded picture; the checked additions fail only on a real overflow |
| `RustFrames.ValidateHeight` | rust/video-interop/src/frame.rs:91-108 | accepts exactly when every row begins inside the data, and its unchecked product never overflows |
| `RustFrames.Validate` | rust/video-interop/src/frame.rs:111-134 | accepts exactly the usable frames |
| `FrameAgreement.AcceptedByBoth` | lib/video_interop/validator.ex:48-58 | every frame the Elixir validator accepts decodes and is accepted by the Rust validator |
| `FrameAgreement.SameDmaBufFrames` | lib/video_interop/validator.ex:48-58 | for DMA-BUF frames the two accept the same, given the format and lease only Elixir sees |
| `FrameAgreement.SameBinaryFrames` | lib/video_interop/validator.ex:357-412 | for binary frames Elixir accepts exactly what Rust accepts and whose whole rows of pixels fit stride and data |
| `FrameAgreement.NativeAcceptsCutPixels` | rust/video-interop/src/frame.rs:70-108 | a frame Rust accepts whose last pixel is cut off, and Elixir rejects |
| `FrameAgreement.AcceptedPixelsAreInside` | lib/video_interop/validator.ex:357-412 | the pixel bytes of an accepted binary frame are inside the data and pairwise distinct |
| `OwnedFds.FdTable.DuplicateDescriptor` | rust/video-interop/src/dmabuf.rs:243-279 | every descriptor is duplicated, in order and with its object's size and modifier, or none is left open and the error names the first that failed |
| `OwnedFds.FdTable.DuplicateStorage` | rust/video-interop/src/frame.rs:60-65 | binary storage is carried over and opens nothing; DMA-BUF storage owns a duplicate of each descriptor or opens none |
| `OwnedFds.FdTable.DuplicateFrame` | rust/video-interop/src/frame.rs:136-149 | storage and fence are both owned, or the descriptor table is as it was |
| `OwnedFds.FdTable.DropObjects` | rust/video-interop/src/dmabuf.rs:243-279 | dropping owned objects closes each of their descriptors once and no other |
| `OwnedFds.OpenFile.ProbeDmaBuf` | rust/video-interop/src/dmabuf.rs:31-83 | the shared file position is restored on every path that can restore it, and a size is reported exactly when both probes agree |

## Left out

- LeaseOwnerProcess.LeaseOwner.Serve: the messages one handler sends are a set, so their order, and sending one twice, are not told apart; the source sends to drain waiters in the order of a map.
- LeaseOwnerProcess.LeaseOwner.FinishReleaseJob: callback durations and their statistics are left out.
- LeaseOwnerProcess.LeaseOwner.HandleRelease: `duplicate_releases` is carried but no exact count is claimed for it, since cancelling a rejected retain also raises it.
- LeaseSystemTheorems.RunConsistent: time is not measured; a time-out is a step that may happen whenever a client waits.
- SyncLane.NoMisuse: states after a real device loss are left out, because polls and submissions may then answer anything: `SyncLane.LostReleaseReused` is a run that resets a pending fence there. What a lost submit does to its own lane is stated by the rows on stuck lanes.
- SourceCache.EvictsLeastRecent: least is by stamp and among entries idle during the whole scan; for the order of claims see the condition in SourceCacheOrder.
- OutputPool.PoolIsSound: which of several free slots a racing scan takes is left open, so the theorem covers every interleaving of the scan with releases and some the source cannot make; recording and submitting a command buffer are one step, and that no two operations use one source at a time is taken from the exclusive claims of the source cache (`SourceCache.CacheIsSound`).
- DispatcherObject.ReleaseDispatcher.DispatchWorker: no other thread steps between two receives; interleaved, each receive is `ReceiveOne`, and the run theorems of `Dispatcher` cover every interleaving.
- Contents and delivery of notifications, and statistics other than the oldest age.
- Garbage collection of guards: abandonment is an event that may happen at any time.
- The client side of `drain` beyond what its answer means, and of `retry`: a drain, its cancellation or a retry may reach the owner at any time.
- Options, child specifications, the linking of the producer and remote nodes.
- Test injections of the dispatcher, the worker panic and failed health they create, and dropping the dispatcher without joining it, the only way its channel disconnects.
- Orderings weaker than sequential consistency, and poisoned mutexes.
- Real Vulkan, EGL and libc calls: they are nondeterministic results over abstract handles, an abstract descriptor table and an in-order queue.
- Access masks and pipeline stages of barriers: only layouts and queue families are checked.
- Formats and colorimetry of frames: their acceptance is an input of the frame theorems, except for what binary sizes need.
- Encoders, struct tags and enumerations of the terms; in a frame only the descriptor may hold terms of any kind, the other fields are of the kind their struct declares.
- The shaders: the project stops at the address range the native code guarantees them.
- `rust/video-interop/src/egl.rs` and `rust/video-interop/src/vulkan/capability.rs`: function selection and driver queries.
