# A verified model of the megadw transfer engine

megadw downloads files from MEGA into a sparse part file, resumes after crashes, and moves a verified
file to its final place. This project models the engine that does so, and the algorithms it stands on,
in Dafny, and proves what the engine promises over every run rather than over examples.

`dafny verify dfyconfig.toml` checks the whole project.

## How it is built

Two forms are used, after the code they describe.

- Code that one goroutine runs alone is imperative Dafny: classes with fields, arrays changed in
  place, loops with invariants. Every such method is tied to a function of its inputs or of the old
  state, and the properties are proved of that function.
- Protocols between goroutines, the disk, the database and crashes are step systems: a state, the
  steps (`Enabled`, `Do`), and laws over every sequence of steps (`Runs`, `Last`). One mutex region,
  atomic operation, channel operation, system call, transaction or single UPDATE is one step. Nothing
  is assumed about the order of steps.

| files | part of the program |
|---|---|
| `SegmentPlan.dfy`, `Bitmap.dfy` | segment planner, committed bytes and byte bitmap |
| `Ctr.dfy`, `Worker.dfy` | AES-CTR at an offset; the read, decrypt and write loop; retries |
| `Transfer.dfy`, `TransferSafety.dfy`, `TransferAnyRun.dfy`, `TransferEnds.dfy` | segment workers, collector, checkpoints, crashes, restarts, the end of a run |
| `Integrity.dfy` | the chunked CBC-MAC |
| `Move.dfy`, `MoveSafety.dfy`, `MoveEnds.dfy` | verify, persist, rename, sync, complete; move recovery |
| `Dispatcher.dfy`, `DispatcherRuns.dfy`, `DispatcherSafety.dfy`, `DispatcherControls.dfy`, `DispatcherPause.dfy`, `DispatcherClosing.dfy` | the queue: heap, maps, goroutines, shutdown, controls, pauses, closing |
| `States.dfy`, `JobLifecycle.dfy`, `JobSafety.dfy`, `JobEnds.dfy` | transition tables; persisted job and file states; how runs and operations end |
| `QuotaTimers.dfy` | quota retry timers and `CloseContext` |
| `Limiter.dfy`, `Coalescer.dfy`, `FolderTree.dfy` | token bucket, event coalescer, parent walks |
| `Text.dfy`, `Naming.dfy`, `JobNames.dfy`, `NamesFound.dfy`, `NameLaws.dfy` | path text, conflict planning, the names of a job's files |

## What the proofs found

Most promises hold as made. These hold only under a condition, which is proved to be the exact one, or
fail for a concrete input that is given as a lemma.

- The segment count written when a download is created agrees with the planner's exactly when
  `size - 1 + segmentSize` fits 64 bits (`SegmentPlan.CreateTimeCountAgreesIff`).
- Removing the part file between runs is harmless exactly when nothing was persisted for it; otherwise
  the in-memory reset of the bitmap can be lost and wrong bytes trusted
  (`TransferSafety.DeletionSafeIff`, `TransferSafety.DeletedPartIsTrusted`).
- A cancelled run can reach the verification step with nothing downloaded, for every number of workers;
  only the cancelled context stops it there (`TransferAnyRun.CancelledRunReachesVerification`). Cancelled
  runs are complete at verification exactly when the file is empty (`TransferAnyRun.CancelledRunsCompleteIff`).
- A row rewritten outside a run (pause, quota wait, failure of another file) while its rename has taken
  effect is fetched again, exactly when the part file is gone and the file is not empty
  (`MoveSafety.OverruleKeepsPayloadIff`).
- `recoverMovedFile` completes a row without syncing the complete directory, so after a process stop
  between rename and sync the completed file can still vanish in a power loss
  (`MoveSafety.RecoveredCompletionIsNotDurable`, exact condition in `MoveSafety.CompletionDurableIff`).
- Two files of a job can get the same remote path, and so the same part file, because the naming loop
  remembers final paths only (`NameLaws.SameInputTwice`, `NameLaws.SameInputTwiceAtRoot`). Below a
  destination with no dot past its first character, and with no input already below it, remote paths are
  distinct exactly when the inputs are (`NameLaws.RemotesDistinctIff`). At the root they collide only under
  the rename policy and only on a path that is on disk (`NameLaws.RootCollisionNeedsDisk`,
  `NameLaws.RootRemotesDistinctIff`).
- `uniqueRelativePath` splits at the last dot of the whole path, so a file can leave its directory:
  exactly when its name is taken and that dot is in the directory part
  (`NameLaws.UniqueKeepsDirectoryIff`, `NameLaws.LeavesDestination`). The destinations that keep every
  file of every job below them are exactly those with no dot past the first character
  (`NameLaws.FinalsStayBelowIff`).
- An accepted event that must not be dropped can be evicted exactly when its own key begins with `job:` or
  `file:`, which no declared event name leads to (`Coalescer.EvictableIff`).
- Below a node whose handle the listing repeats, both folder walks refuse what lies beyond the repetition,
  although the selected node is on the chain (`FolderTree.DuplicateHandleIsRefused`; the exact
  conditions are in the contracts of the two walks).
- A `CloseContext` that is not the first returns nil at once, possibly with a quota callback still
  inside `ResumeJob`; the nil return means what it says exactly for the first call
  (`QuotaTimers.OnlyFirstCloseWaits`).
- A job that was paused with the queue comes back with the next `ResumeQueue` exactly if its requeueing was
  decided in the first region of `finishJob`, or it was marked there and neither a `ResumeQueue` nor a
  `PauseJob` of it came before the second region (`DispatcherPause.ComesBackIff`).
- `CancelJob` of a job without a control takes its ticket but not its mark, so a job that the queue pause
  stopped, cancelled while the queue is paused, is queued again by `ResumeQueue`, exactly if it was marked
  (`DispatcherPause.CancelledJobComesBackIff`). `PauseJob` takes both (`DispatcherPause.WithdrawnJobStaysOut`).
- A job that comes back with `ResumeQueue` has the default priority, whatever it was started with, and waits
  behind all jobs of that priority that were pending (`DispatcherSafety.ResumedJobsWaitBehind`).
- A job paused individually while it has a control stays out of the queue exactly if its requeueing had
  not been decided before (`DispatcherPause.PausedJobStaysPausedIff`).
- `Start` writes `queued` from a list it read before the dispatcher ran, so it can take a running job's
  state back. Every change of a job's state along a run is an edge of the table exactly if each such write
  finds the job neither downloading, finalizing, completed nor cancelled
  (`JobSafety.EveryChangeIsAnEdge`, an instance in `JobSafety.StaleStartIsNoEdge`). What the job state
  says about the file rows holds on every run.

## What the laws presuppose

- File rows of one job have distinct remote paths.
- Nobody deletes the part file under a non-empty persisted bitmap (`Transfer.KeepsPart`), and nobody
  else touches the part path or a target that already carries the payload.
- No-refetch after a move is about crashes, not about pauses (`Move.Orderly`). A cancellation or an error
  (open, remove, sync, database) inside move recovery fails the row and counts as a pause
  (`MoveSafety.Rewrites`).
- The bodies that the server sends agree with the file's ciphertext (`Worker.Serves`); in the transfer's
  step system every write decrypts a stretch of that ciphertext.
- For the job table: `Start` writes `queued` only over a job that is not running, completed or cancelled
  (`JobLifecycle.Punctual`, which is exact).
- A manager operation on a job that is not running reads, checks and writes the database as one step,
  and database reads succeed. `ResumeJob` in fact reads first and writes later.
- fsync of the part file also makes its directory entry durable; a rename survives a power loss whole,
  not at all, or with both names.

## Model

| member | source | states |
|---|---|---|
| SegmentPlan.NewSegmentPlanner | internal/download/planner.go:58-71 | refused exactly for a negative size or non-positive segment size; otherwise the count is the least that covers the file |
| SegmentPlan.SegmentAtExact | internal/download/planner.go:73-90 | with 64-bit wrap-around written out, a segment is returned exactly for indices whose end fits int64, and is then the intended byte range |
| SegmentPlan.PlanFitsIff | internal/download/planner.go:58-90 | every planned index is served if and only if count times segment size fits, which follows from size-1+segmentSize fitting |
| SegmentPlan.RangeOf | internal/download/planner.go:73-90 | each range is non-empty, inside the file, at most one segment long, and meets the next one or the end of the file |
| SegmentPlan.RangesApart | internal/download/planner.go:73-90 | different segments do not overlap |
| SegmentPlan.SegmentsPartition | internal/download/planner.go:73-90 | every byte of the file lies in exactly one segment |
| SegmentPlan.CreateTimeCountAgreesIff | internal/api/api.go:967-970 | the count computed at creation equals the planner's if and only if its sum does not overflow |
| SegmentPlan.CommittedBounds | internal/download/manager.go:1914-1925 | committed bytes lie between zero and the size, and equal the size if and only if every segment is set |
| SegmentPlan.CommittedAdd | internal/download/manager.go:1643-1649 | marking one more segment adds exactly its size |
| SegmentPlan.CommittedBytes | internal/download/manager.go:1914-1925 | the loop returns the summed sizes of the set segments the planner serves, all of them when the plan fits |
| Bitmap.Set | internal/download/planner.go:192-200 | in place, the denoted set gains exactly the index; out of range is refused and changes nothing |
| Bitmap.Clear | internal/download/planner.go:202-209 | in place, the denoted set loses exactly the index; out of range is refused and changes nothing |
| Bitmap.PopCount8 | internal/download/planner.go:262-269 | the clear-lowest-bit loop counts the one bits |
| Bitmap.Count | internal/download/planner.go:211-218 | the byte loop returns the cardinality of the denoted set |
| Bitmap.Validate | internal/download/planner.go:153-182 | accepts exactly the bitmaps of the right length with no index at or past the count |
| Bitmap.BitmapForFile | internal/download/manager.go:1903-1912 | accepts exactly an absent or a valid stored bitmap and keeps the set it denotes |
| Ctr.CounterNeverCarries | internal/mega/crypto.go:149-167 | before block 2^64 - 1, which no 64-bit offset and no slice from one passes, the counter increment stays in the index half and leaves the nonce alone |
| Ctr.Stream.XorKeyStream | internal/mega/crypto.go:149-167 | the stateful stream xors, in place, exactly the key stream bytes of its position, across block borders; CtrEquation says which bits those are |
| Ctr.NewCtr | internal/mega/crypto.go:149-167 | a stream positioned at any non-negative offset, the partial first block discarded |
| Ctr.DecryptAt | internal/mega/crypto.go:169-183 | the transform of the data at its offset, whose bits CtrEquation gives; negative offsets are refused |
| Ctr.CryptAppend | internal/mega/crypto.go:169-183 | splitting the data anywhere and transforming the parts at their offsets gives the transform of the whole |
| Ctr.SliceOfWhole | internal/mega/crypto.go:169-183 | any slice decrypted at its own offset is that slice of the single decryption from offset 0 |
| Ctr.CryptRoundTrip | internal/mega/crypto.go:169-183 | encryption undoes decryption at every offset |
| Ctr.CtrEquation | internal/mega/crypto.go:149-183 | bit by bit, the output is the input flipped exactly where the encrypted counter block has a one: the block whose nonce half is the nonce and whose index half has the value of the block number, at the byte's place in its block |
| Worker.PartialFile.WriteAt | internal/download/writer.go:91-99 | bounded: outside the file nothing is written and an error returned; inside, exactly a prefix of the data replaces the bytes at the offset |
| Worker.WriteAllAt | internal/download/worker.go:201-218 | over any short writes, success means all the data is in place, and it succeeds if the range is inside the open file and every write accepts a byte without an error; failure leaves a prefix and nothing else changed |
| Worker.DownloadRange | internal/download/worker.go:61-141 | for any headers, read sizes, waits and failures: no byte outside the segment changes, a prefix of the decrypted body is in place; success means status 206, the exact range, an agreeing content length and a body of exactly the segment's size, all in place; and with these, the segment inside the open file and no failing wait, read, write or tail, it succeeds |
| Worker.DownloadSegmentWithRetry | internal/download/manager.go:1728-1793 | over any attempts the segment holds a prefix of the decryption of the whole file from offset 0, all of it on success, and nothing outside the segment changes; it succeeds whenever some attempt is one that DownloadRange accepts and those before it failed in ways that are tried again within the limit, at most one of them by a refresh of the address |
| TransferSafety.StepKeepsInv | internal/download/manager.go:1548-1679 | every step of workers, collector, checkpoint, process stop, crash and restart keeps the invariant of the transfer |
| TransferSafety.WriteStoresPlain | internal/download/worker.go:61-141 | what any worker decrypts and writes at its own offset is that stretch of the single decryption of the whole file |
| TransferSafety.CrashDurability | internal/download/checkpoint.go:48-89 | in every reachable state, whatever a crash leaves on disk, each segment in the persisted bitmap has its plaintext |
| TransferAnyRun.ClaimedAtMostOnce | internal/download/manager.go:1566-1620 | for any number of workers and interleaving, also after the part file was removed, no segment is claimed twice and none that was set at the start; every set segment was set before or claimed |
| TransferAnyRun.CommittedAlwaysExact | internal/download/manager.go:1643-1649 | over every run, also after the part file was removed, committed bytes in memory and as persisted equal the summed sizes of the set segments and never exceed the size |
| TransferAnyRun.WorkersAreBounded | internal/download/manager.go:1566-1573 | over every run there are no more workers than configured or than segments were missing, some whenever any were, and never fewer than both bounds allow |
| TransferEnds.CheckpointSaves | internal/download/checkpoint.go:48-89 | an undisturbed checkpoint during a run persists exactly the collected segments and their bytes, leaves no write before it unsynced, and the run goes on as it was |
| TransferEnds.FailedRunHasSaved | internal/download/manager.go:1643-1675 | over every run: one that returns has failed, and unless a checkpoint failed every segment it collected is persisted, the row being exactly what was collected if the part file was there |
| TransferEnds.VerifiesIffNothingFailed | internal/download/manager.go:1617-1679 | over every run that comes to its end, it goes on to verification if and only if no attempt at a segment failed for good and no checkpoint failed |
| TransferEnds.VerifiedPartIsDurable | internal/download/manager.go:1675-1679 | over every run without cancellation, also for an empty file, a crash at verification leaves exactly the decrypted file |
| TransferSafety.VerificationIsComplete | internal/download/manager.go:1667-1679 | for every interleaving, an uncancelled run that reaches verification has persisted a full bitmap with all bytes committed, and the part file is the single decryption of the whole ciphertext from offset 0 |
| TransferSafety.DeletionSafeIff | internal/download/manager.go:1543-1546 | deleting the part file between runs keeps crash durability if and only if the persisted bitmap is empty |
| TransferSafety.DeletedPartIsTrusted | internal/download/manager.go:1543-1546 | a deletion, a restart and a crash before the next checkpoint lead to a run that trusts wrong bytes |
| TransferAnyRun.CancelledRunReachesVerification | internal/download/manager.go:1574-1679 | for every number of workers, a cancelled run reaches verification without an error and without data |
| TransferAnyRun.CancelledRunsCompleteIff | internal/download/manager.go:1574-1679 | every run that reaches verification, cancelled or not, is complete if and only if the file has no segments |
| Integrity.ChunksPartition | internal/mega/integrity.go:82-87 | the growing chunk schedule partitions the file: chunks in order are the file, none empty, all but the last full |
| Integrity.CbcAppend | internal/mega/integrity.go:56-61 | block-at-a-time CBC with a carried chaining value equals whole-message CBC |
| Integrity.CbcEquation | internal/mega/integrity.go:56-61 | the defining equation of CBC in bytes: decrypting an output block gives the input block xored with the output block before it, or with the initial vector |
| Integrity.OneBlockMatters | internal/mega/integrity.go:56-61 | two messages that differ in one block only, anywhere, end in different chaining values under any invertible block cipher |
| Integrity.ChunkIvIsNonceTwice | internal/mega/integrity.go:35-37 | the initial vector of every chunk is the nonce twice |
| Integrity.FoldWords | internal/mega/integrity.go:67-78 | as 32-bit big-endian words, the condensed MAC is the first word xored with the second and the third with the fourth |
| Integrity.ChunkStarts | internal/mega/integrity.go:82-87 | chunk n begins 64 KiB times n(n-1) into the file, up to the ninth, and one MiB after the one before it from then on |
| Integrity.MacOfChunk | internal/mega/integrity.go:48-61 | the block loop with its zero padding computes the CBC-MAC of the chunk, which CbcEquation defines in bytes |
| Integrity.VerifyIntegrity | internal/mega/integrity.go:19-80 | consumes exactly size bytes when they are there, and accepts if and only if the recursively defined condensed MAC equals the key's |
| Integrity.VerifyFile | internal/download/integrity.go:20-48 | accepts if and only if the length matches and the MAC of the whole content does |
| MoveSafety.StepKeepsSafe | internal/download/manager.go:1680-1720 | every step, including pauses, errors, kills and power losses, keeps what each position of the move has established |
| MoveSafety.CompletedOnlyIfVerified | internal/download/manager.go:2029-2043 | over every run, a row becomes completed only while its target holds bytes that pass the size and MAC check |
| MoveSafety.StepKeepsTracked | internal/download/manager.go:2074-2127 | every orderly step keeps the payload, the persisted target and the durable state in step |
| MoveSafety.PayloadIsNeverLost | internal/download/manager.go:2074-2127 | after verification, with a stop at any point, the payload is at the part path or at the persisted target |
| MoveSafety.NothingIsRefetched | internal/download/manager.go:1697-1720 | after verification no later step of any orderly run fetches a byte |
| MoveSafety.RecoveryPass | internal/download/manager.go:1974-2045 | one recovery pass completes in place if and only if the target holds passing bytes, always when the rename took effect; otherwise the part file is intact and the run resumes from it, or fails at a symbolic link with the part file intact |
| MoveSafety.OverruleKeepsPayloadIff | internal/download/manager.go:1927-1972 | a row rewritten outside a run, or failed by an error inside move recovery, leaves every file in place and resumes with every segment if and only if the part file is still there or the file is empty |
| MoveSafety.CompletionDurableIff | internal/download/manager.go:2117-2122 | a completed file survives every power loss if and only if its rename has been synced |
| MoveSafety.OrdinaryCompletionIsDurable | internal/download/manager.go:2117-2124 | a completion by finalize survives every power loss |
| MoveSafety.RecoveredCompletionIsNotDurable | internal/download/manager.go:2031-2043 | after a process stop between rename and sync, recovery completes a row whose file a power loss can take back to the part path |
| MoveEnds.CheckDecides | internal/download/manager.go:1685-1693 | the file goes on to its move if and only if size and MAC pass; otherwise the row fails and the part file stays |
| MoveEnds.MoveCompletes | internal/download/manager.go:2100-2127 | undisturbed, a verified file ends as a completed row naming the planned target, which holds the payload; the part name is gone and no other path changed |
| MoveEnds.LostRaceEndsElsewhere | internal/download/manager.go:2101-2111 | over every run, a target taken between plan and rename is never overwritten under the rename policy, and the same run completes at any other free path, leaving what took the first; no other policy tries again |
| MoveEnds.FinalizeErrorLosesNothing | internal/download/manager.go:1699-1711 | over every orderly run an error while finalizing fails the row, leaves every file in place, and the next start finds all segments in the part file |
| MoveEnds.RestartGoesOn | internal/download/manager.go:1533-1546 | after a stop while downloading or verifying, the next start keeps the row and the part file and fetches nothing more exactly if the bitmap was full and the part file there, or the file is empty |
| Dispatcher.LaunchTakesBest | internal/download/manager.go:580-596 | the least heap entry, if its ticket still backs it, is the pending job of highest priority and then lowest sequence |
| Dispatcher.PopKeepsCover | internal/download/manager.go:580-598 | a pop changes the pending map only if it launches, and keeps the entry of every job still pending |
| Dispatcher.CompactionLosesNothing | internal/download/manager.go:523-535 | compaction keeps every backed entry with all its copies and no other |
| Dispatcher.HeapStaysLean | internal/download/manager.go:513-535 | after a job is queued or a waiting one is paused the heap holds at most 256 entries or only backed ones, whatever it held before |
| Dispatcher.PushKeepsCover | internal/download/manager.go:513-519 | a push adds one ticket with a new sequence number and its entry, and disturbs no other |
| Dispatcher.LaunchAllExhausts | internal/download/manager.go:580-609 | launching the best job while there is room ends only at a paused queue, a full house or an empty pending map, and loses no job |
| Dispatcher.Manager.StartJobWithPriority | internal/download/manager.go:474-497 | verdict and whole new state: closed, already there, full at 128, or enqueued with the next sequence |
| Dispatcher.Manager.CompactQueue | internal/download/manager.go:523-535 | the loop leaves exactly the backed entries once the heap holds more than 256 |
| Dispatcher.Manager.PromotePending | internal/download/manager.go:504-511 | every pending job gets its entry, in whatever order the map is visited |
| Dispatcher.Manager.LaunchNext | internal/download/manager.go:582-602 | one turn pops a least entry and launches its job exactly if the ticket backs it, with a control nobody has asked to stop (StoppedExactlyIfAsked), or finds the queue paused, full or empty |
| Dispatcher.Manager.LaunchQueuedJobs | internal/download/manager.go:580-609 | the loop over the lazily deleted heap launches exactly what the plain pending map would, best first |
| DispatcherControls.StoppedExactlyIfAsked | internal/download/manager.go:596-615 | over every run the context of a launched job is cancelled if and only if its pause, its cancellation or a queue pause was requested, or the queue goroutine is shutting down |
| DispatcherControls.FlagsSinceLaunch | internal/download/manager.go:594-602 | over every run from its launch to its finish, a job's pause, queue pause and cancel flags are set if and only if a PauseJob, PauseQueue or CancelJob of it came since, and the last CancelJob decides about its partial files |
| DispatcherPause.FinishRequeuesOrMarks | internal/download/manager.go:620-648 | a job that stopped with the queue and only for that is requeued or marked for the next resume, never both; any other job is neither |
| DispatcherPause.ComesBackIff | internal/download/manager.go:620-648 | over every run, whatever happens between the two regions of finishJob, the job is pending after the second and the next ResumeQueue if and only if it was to be requeued, or it was marked and neither a ResumeQueue nor a PauseJob of it came between |
| DispatcherPause.RunningJobsAreUnmarked | internal/download/manager.go:627-633 | over every run a job with a control is marked as queue-paused only while it is being finished |
| DispatcherPause.PausedJobStaysPausedIff | internal/download/manager.go:809-822 | over every run, after PauseJob of a job with a control its finishJob leaves it out of the queue if and only if its requeueing had not been decided before |
| DispatcherPause.WithdrawnJobStaysOut | internal/download/manager.go:809-831 | over every run a job paused while it has no control, or cancelled or deleted while it has neither control nor mark, is neither queued nor launched again, however often the queue is paused and resumed, until it is started |
| DispatcherPause.CancelledJobComesBackIff | internal/download/manager.go:1021-1027 | over every run a job cancelled while it has no control loses its ticket, and the next ResumeQueue queues it again if and only if it was marked as queue-paused and is not inside RunJob |
| Dispatcher.Manager.BeginFinish | internal/download/manager.go:620-633 | a job that stopped with the queue and only for that is either to be requeued or marked, never both; any other is neither, and nothing else changes |
| Dispatcher.Manager.EndFinish | internal/download/manager.go:639-648 | the second region: the job leaves active and controls, and is requeued at the end if so decided |
| Dispatcher.Manager.PauseQueue | internal/download/manager.go:1165-1175 | launching stops and every control is asked to pause, each once |
| Dispatcher.Manager.ResumeQueue | internal/download/manager.go:1179-1194 | every queue-paused job that is neither active nor pending is requeued, in whatever order the map is visited |
| Dispatcher.Manager.PauseJob | internal/download/manager.go:809-831 | a running job is asked to stop, any other loses its ticket |
| Dispatcher.Manager.CancelJob | internal/download/manager.go:1002-1027 | a running job is asked to cancel, any other loses its ticket |
| Dispatcher.Manager.FinishShutdown | internal/download/manager.go:570-578 | every remaining control is removed and its done channel closed, each once |
| DispatcherSafety.StepKeepsInv | internal/download/manager.go:547-649 | every mutex region of every goroutine, in any order, keeps the dispatcher's invariant |
| DispatcherSafety.LaunchesAreBest | internal/download/manager.go:580-609 | in every reachable state a launch takes the best pending job, never a stale or launched entry, and a stale pop changes only the heap |
| DispatcherSafety.EachEnqueueLaunchesOnce | internal/download/manager.go:462-497 | over every run no sequence number is launched twice, nor is one still pending that was launched |
| DispatcherSafety.NothingLaunchesWhilePaused | internal/download/manager.go:580-586 | along any steps without ResumeQueue from a paused state no queued job is launched, and only RunJob makes a job active |
| DispatcherSafety.NoJobIsForgotten | internal/download/manager.go:537-568 | the queue goroutine sleeps without a pending wake-up only if the queue is paused, full or has nothing pending |
| DispatcherSafety.NewJobIsNextIff | internal/download/manager.go:458-497 | a newly queued job is next in line if and only if every pending job has a lower priority, and no other ticket changes |
| DispatcherSafety.ResumeRequeuesAll | internal/download/manager.go:1182-1190 | afterwards every job that was marked queue-paused is pending or active and unmarked, and no earlier ticket changes |
| DispatcherSafety.ResumedJobsWaitBehind | internal/download/manager.go:1182-1190 | whoever ResumeQueue queues has priority zero and a place behind every ticket there was |
| DispatcherSafety.JobsAreConserved | internal/download/manager.go:547-649 | pending and active are disjoint, active is bounded, running jobs, undelivered results and the job in hand are exactly the controls, each once, and every slot in use belongs to one control or one RunJob |
| DispatcherSafety.SendNeverBlocks | internal/download/manager.go:604-607 | a job goroutine can always send its result, also during shutdown |
| DispatcherSafety.DoneClosedExactlyOnce | internal/download/manager.go:570-578 | no done channel is closed twice, and after shutdown every launch has had its channel closed |
| DispatcherClosing.ClosedTakesNobodyIn | internal/download/manager.go:474-497 | over every run, once the manager is closed a job that is not in it never becomes pending, active or running again, whoever calls StartJob, ResumeQueue or RunJob |
| States.AbsorbingStates | internal/download/state.go:43-64 | along any sequence of table edges completed and cancelled are never left |
| States.CompletedFilesWereVerified | internal/download/state.go:66-101 | along any sequence of table edges a completed file was downloading, then verifying, then moving before that |
| JobSafety.StepKeepsRows | internal/download/manager.go:1327-1489 | every step, also a late write of Start, moves no completed file row and keeps what the run knows of its rows |
| JobSafety.StepKeepsJob | internal/download/manager.go:1327-1489 | every step except a late write of Start over a running or ended job is an edge of the job table |
| JobSafety.EveryChangeIsAnEdge | internal/download/manager.go:1446-1487 | over every run with crashes anywhere, start, run, pause, resume, cancel, quota wait, failure and recovery change the job state only along the table if and only if every late write of Start finds the job neither running, completed nor cancelled; completed and cancelled then absorb |
| JobSafety.StaleStartIsNoEdge | internal/download/manager.go:402-437 | with a stale list Start can write queued over downloading |
| JobSafety.CompletedJobHasCompletedFiles | internal/download/manager.go:1367-1487 | on every run a job is persisted completed only when every file row is |
| JobSafety.EndedJobsHaveEndedFiles | internal/download/manager.go:1116-1137 | on every run the rows of a cancelled job are completed or cancelled, and those of a failed job completed, failed or cancelled |
| JobSafety.CompletedFilesStay | internal/store/downloads.go:558-577 | on every run a completed file row stays completed through every later step |
| JobSafety.AllAccounted | internal/download/manager.go:1391-1440 | when all file workers have left without error or cancellation, every file has been claimed and completed |
| JobEnds.RunEndsBy | internal/download/manager.go:1440-1487 | over every run whose workers have left: waiting_quota if and only if the first error is a quota error, with every open row waiting; otherwise paused if and only if cancelled or a cancellation error; paused_recovery if and only if finalization is pending and nothing was cancelled, with no row changed; failed if and only if any other error, with every open row failed; completed if and only if no error and not cancelled |
| JobEnds.FirstErrorStands | internal/download/manager.go:1423-1440 | over every run the error that decides is the first one since the workers began, with its own file, whatever fails later; the run counts as cancelled if and only if it was |
| JobEnds.BusyRowsShowStage | internal/download/manager.go:1391-1440 | over every run the persisted row of a file that a worker holds is downloading, verifying or moving as the worker's stage is |
| JobEnds.FailureShows | internal/download/manager.go:1428-1437 | over every run a worker whose file fails leaves; its row is failed if the failure marks it and else shows how far the file got; no other row or worker changes |
| JobEnds.WorkBeginsPrepared | internal/download/manager.go:1345-1372 | over every run, when the file workers begin every row is completed or downloading |
| JobEnds.PrepareDecides | internal/download/manager.go:1346-1370 | over every run, before the workers begin: a row that is verifying or cancelled, or whose move recovery ends in an error, fails the job and all open rows; a completed or recovered one is completed; any other is downloading |
| JobEnds.CancelledBeforeWork | internal/download/manager.go:1372-1375 | a run that was cancelled before its workers begin pauses the job and its busy rows |
| JobEnds.PauseEnds | internal/download/manager.go:1956-1972 | pausing a job that does not run pauses exactly its busy rows, and the job where the table allows it |
| JobEnds.CancelEnds | internal/download/manager.go:1116-1137 | cancelling a job that is neither completed nor cancelled cancels it and exactly its open rows |
| JobEnds.RecoveryParks | internal/store/downloads.go:558-577 | recovery parks exactly the resolving, downloading and finalizing jobs and pauses exactly the downloading and verifying rows of parked jobs; moving rows are left for move recovery |
| JobEnds.ResumedJobRuns | internal/download/manager.go:844-887 | a resumed job is queued with its rows as they are, and its next launch downloads with those rows loaded |
| JobEnds.ParkedJobRestarts | internal/download/manager.go:402-437 | a job that a stop cut off is parked, queued again by Start and downloads with the rows recovery left |
| QuotaTimers.StepKeepsInv | internal/download/manager.go:918-955 | every schedule, stop, fire, callback and close step keeps each armed timer and live callback listed or in the snapshot |
| QuotaTimers.NoCallbackAfterClose | internal/download/manager.go:699-749 | once the first CloseContext has returned nil, then and after every later step no callback is inside ResumeJob or about to enter it and no timer is armed |
| QuotaTimers.OneArmedTimerPerJob | internal/download/manager.go:926-952 | in every reachable state a job has at most one armed timer, and none after the region of PauseJob, ResumeJob or CancelJob |
| QuotaTimers.OnlyOwnTimerIsStopped | internal/download/manager.go:801-807 | over every run the stop region of a job stops and unlists that job's armed timer only: every timer of another job, and every callback already fired, stays as it is |
| QuotaTimers.NewRetryReplacesOld | internal/download/manager.go:926-953 | over every run a new retry is armed, listed and named, the job's earlier armed timer is stopped and unlisted, and timers of other jobs stay |
| QuotaTimers.FiredTimerResumesIff | internal/download/manager.go:935-951 | a timer that fires goes on to ResumeJob if and only if the manager is neither closed nor cancelled when its callback looks |
| QuotaTimers.NoTimerLeaks | internal/download/manager.go:933-953 | over every run a listed timer is armed or has a live callback, until the drain every such timer is listed, and a job's named timer is a listed one of that job |
| QuotaTimers.CloseCancelsFirst | internal/download/manager.go:703-749 | over every run, from the drain of CloseContext on the context is cancelled and no retry can be scheduled |
| QuotaTimers.OtherCloseMayReturnEarly | internal/download/manager.go:703-707 | a further CloseContext returns nil while a callback is inside ResumeJob |
| QuotaTimers.OnlyFirstCloseWaits | internal/download/manager.go:703-749 | on every run the nil return of a CloseContext means that no callback is inside ResumeJob or about to enter it, if and only if it is the first call |
| Limiter.RateBound | internal/download/limiter.go:69-135 | over any interval, whoever waits when it begins, and any interleaving of callers, cancellations and rate changes, bytes granted are at most the tokens at its start plus rate times elapsed time, and tokens stay within the burst |
| Limiter.SteadyRateBound | internal/download/limiter.go:94-165 | at one rate on a monotone clock the bound over any interval is the tokens at its start, at most the burst, plus rate times elapsed time |
| Limiter.FinishedCallersGotAll | internal/download/limiter.go:94-135 | a WaitN(n) that finishes limited was granted exactly n |
| Limiter.WaitIsEnough | internal/download/limiter.go:103-135 | left alone, a caller who waits as told is granted all that remains, at most the lesser of the rate and one MiB; a caller who comes back earlier, the microsecond floor aside, has to wait again |
| Limiter.ChangeKeepsTokens | internal/download/limiter.go:69-91 | a change to an equal or higher rate loses no token, and time before it counts at the old rate |
| Limiter.BandwidthLimiter.ChangeRate | internal/download/limiter.go:69-91 | refills at the old rate, then sets rate and burst and caps the tokens |
| Limiter.BandwidthLimiter.Take | internal/download/limiter.go:103-121 | one region of WaitN: grant, wait for at least a microsecond, or let pass unlimited |
| Limiter.BandwidthLimiter.WaitN | internal/download/limiter.go:94-135 | whatever other callers take or set between its turns, the loop never grants more than n, and ends as done exactly when it granted n |
| Coalescer.AddKeepsInv | internal/events/coalesce.go:27-56 | for any event the order list enumerates the pending keys without duplicates and within the bound |
| Coalescer.FlushDeliversFolds | internal/events/coalesce.go:58-115 | over any history a flush delivers, per pending key and in order of entry, the fold of merge over the events accepted since it entered |
| Coalescer.FoldHasLatestData | internal/events/coalesce.go:99-107 | the fold of a history has exactly the data keys that some event carried, each with the value of the last event that carries it |
| Coalescer.FoldIsLatest | internal/events/coalesce.go:94-98 | the fold has the greatest timestamp of its history and the name of the last event |
| Coalescer.FoldHasLastIds | internal/events/coalesce.go:108-113 | the fold has the last job id and the last file id that were given |
| Coalescer.SameKeyIff | internal/events/coalesce.go:73-92 | progress events share a key if and only if they are of the same job or, without jobs, of the same file |
| Coalescer.OldestIsDropped | internal/events/coalesce.go:40-47 | the entry dropped for room is the oldest that may be dropped, and no other |
| Coalescer.AcceptedIsNeverEvicted | internal/events/coalesce.go:27-56 | an accepted event under a key that is not replaceable stays in its history through any further additions, whatever their names |
| Coalescer.UndeclaredNameIsEvicted | internal/events/coalesce.go:27-92 | an instance of EvictableIff: an accepted event named job is lost after two more additions to a queue of one |
| Coalescer.EvictableIff | internal/events/coalesce.go:27-92 | an accepted event that may not be dropped can be evicted by some later additions if and only if its own key begins like a progress key, which a declared name never gives |
| Coalescer.EventCoalescer.Add | internal/events/coalesce.go:27-56 | merge, insert, evict-and-insert or refuse, in place |
| Coalescer.EventCoalescer.Flush | internal/events/coalesce.go:58-71 | the pending events in order; the coalescer is empty afterwards |
| FolderTree.NodeIsWithinSelection | internal/mega/client.go:601-619 | on any parent graph, cyclic or with repeated handles, the walk terminates and accepts exactly if the chain reaches the selected handle before it repeats one |
| FolderTree.FolderNodePathFrom | internal/mega/client.go:573-599 | on any parent graph the walk terminates; it succeeds exactly if the chain can stop before it repeats a handle, with the names down from the first stop |
| FolderTree.SelectedPath | internal/mega/client.go:573-619 | the two walks agree on any parent graph: a node the first accepts always gets a path, the names from the selected node down to it |
| FolderTree.ListedReachesIff | internal/mega/client.go:601-619 | for a node that its handle finds, the first walk accepts exactly if the selected handle is on the parent chain |
| FolderTree.ListedStopsIff | internal/mega/client.go:573-599 | for such a node the path walk succeeds exactly if the chain ends anywhere |
| FolderTree.DuplicateHandleIsRefused | internal/mega/client.go:235-240 | in a listing that repeats a handle both walks refuse a node although the selected node is on its chain |
| Naming.SanitizeComponent | internal/fsroot/paths.go:86-97 | accepts exactly the plain names, unchanged |
| Naming.SanitizeRelativePath | internal/fsroot/paths.go:99-119 | accepts exactly the clean relative paths, unchanged |
| Naming.PlanConflict | internal/fsroot/paths.go:28-82 | the path itself or the first free candidate after a row of regular files, never an existing name unless overwriting a regular file; the refusals of each policy |
| Naming.UniqueIsFresh | internal/api/api.go:1344-1358 | the suffixed name is outside the set and longer than the original if that was taken |
| Naming.UniqueRelativePath | internal/api/api.go:1344-1358 | the unbounded counter loop terminates for every finite set |
| Naming.UniqueIsClean | internal/api/api.go:1344-1358 | the suffixed name of a clean path is clean |
| Naming.CandidateIsClean | internal/fsroot/paths.go:60-82 | every rename candidate of a clean path is clean, so PlanConflict refuses none as invalid |
| Naming.TakenPathIsPlanned | internal/fsroot/paths.go:46-82 | on a path taken by a regular file, overwriting plans the path itself, refusing refuses, and renaming plans the first free candidate after a row of regular files if it is among the first hundred thousand |
| NameLaws.CandidateKeepsPlace | internal/fsroot/paths.go:57-66 | a rename candidate stays in the directory of its path, keeps the extension and is another name |
| Naming.ChooseFinal | internal/api/api.go:943-956 | the plan and unique retry loop terminates for every disk, set and policy, with a name no earlier file has; a free name is kept |
| JobNames.NameFiles | internal/api/api.go:935-956 | the job's final paths are pairwise distinct, clean and free on disk when renaming; inputs that need no renaming keep their names |
| NamesFound.NamesAreFoundIff | internal/api/api.go:935-956 | renaming or overwriting, on a disk of fewer than a hundred thousand entries, all regular, and below any clean destination, naming a job succeeds if and only if every input is a clean path, empty only where there is a destination |
| NameLaws.RemotesDistinctIff | internal/api/api.go:935-956 | in a successful job below a destination with no dot past its first character, with no input empty or below it, remote paths are pairwise distinct if and only if the inputs are |
| NameLaws.SameInputTwice | internal/api/api.go:935-956 | the naming loop gives the same clean input twice below any clean destination the same remote path |
| NameLaws.SameInputTwiceAtRoot | internal/api/api.go:935-956 | at the root, with a file of that name on disk, the same input twice gets the same remote path |
| NameLaws.RootCollisionNeedsDisk | internal/api/api.go:935-956 | at the root two files of a successful job share a remote path only under the rename policy and only if that path is on disk |
| NameLaws.RootRemotesDistinctIff | internal/api/api.go:935-956 | at the root remote paths are distinct in every job on every disk if and only if the policy is not rename |
| NameLaws.FinalsStayBelow | internal/api/api.go:942-956 | below a destination with no dot past its first character every file of a job stays below it, for any disk and policy |
| NameLaws.FinalsStayBelowIff | internal/api/api.go:942-956 | for all inputs, policies and disks the files of a job stay below the destination if and only if it has no dot past its first character |
| NameLaws.UniqueKeepsDirectoryIff | internal/api/api.go:1344-1358 | the suffix keeps a file in its directory if and only if the name is free or the last dot of the path is not inside the directory part |
| NameLaws.LeavesDestination | internal/api/api.go:935-956 | the naming loop places the second of two equal inputs below v1.0 outside v1.0 |

## Left out

- HTTP handlers, server-sent events, cookies, origin checks and the web frontend: plumbing around the engine.
- SQL text, migrations and SQLite: rows are values, and each transaction or single UPDATE is one step.
- The system call layer of fsroot: directories are maps with create-or-open, atomic no-replace rename, sync and crash outcomes.
- AES, key decoding, secrets and account login: the block cipher is an arbitrary function on blocks, and node attributes do not occur.
- The mutexes themselves: the manager's concurrent parts (transfer, move, dispatcher goroutines, job lifecycle, quota timers) are step systems on values, so update in place is modelled for the dispatcher's own regions only, and Go's memory model is not.
- container/heap: the heap is a sequence from which a pop removes some least entry; the sift operations are not modelled.
- The 64-bit wrap-around of the enqueue sequence, and floating-point rounding in the token bucket, which uses reals.
- Ctr.DecryptAt: requires that the length of the slice fits a signed 64-bit integer, as the length of every Go slice does.
- Ctr.Stream.XorKeyStream: does not model positions past 16 times 2^64 - 1, where the block index would carry into the nonce; no 64-bit offset with a slice reaches them.
- Limiter.WaitIsEnough: is about reals; the source cuts the wait to whole nanoseconds, so a caller may have to wait once more.
- SegmentPlan.CommittedBytes: sums without wrap-around, since the sum is proved to stay within the file size.
- Parsing of Content-Range text and the classification of retryable errors: given to the worker as values.
- When a checkpoint is due, and how long a wait lasts: a checkpoint may happen at any time, and waiting is a parameter.
- NameLaws.RemotesDistinctIff: for a destination with a dot past its first character only the collision is given, because files may then leave the destination.
- Liveness: no claim says that a job eventually finishes; DispatcherSafety.NoJobIsForgotten is the safety part.
- Uniqueness of final paths across jobs: recovery may accept an existing target with verified content.
- Escalating quota delays, `SpeedMeter`, client caches, settings validation, `DeleteJob` on disk and `ParseLink`: they would only add easy members.
- Event payloads are maps of texts rather than JSON values, and node handles are tokens.
