# qrypt, verified

A Dafny model of the hard parts of qrypt's core and configuration: the download
stream batch, the durable offline and share tasks, parallel chunk downloads,
batch moves and copies, the reading of torrent files and the identity of
offline requests, the placement of fetched files, and the adoption of
credentials.

| module | what it models |
|---|---|
| `StreamBatch` | the batch of download streams: items, handles, item and task cancel, the runner; a read is two steps with any other steps between |
| `OfflineLog`, `OfflineProgram`, `OfflineFetch`, `OfflineGaps` | offline downloads and fetches: what a task may do to the world, the runner as a step function, the runner as it changes its record, and the promises it does not keep |
| `ShareLog`, `ShareProgram`, `ShareReceive`, `ShareGaps` | share saves and fetches, in the same way |
| `UrlFetch`, `ChunkFetch` | one attempt at a download URL, and within it the parallel chunk workers and the prefix they report |
| `StagedTree` | the listing of a staged tree: whether it shows the results, whether a folder may go, which folder that is |
| `WorkerPool`, `MoveBatch`, `CopyTask` | the worker pool of moves and copies under any interleaving, retries of a move, deletion of sources after a copy |
| `Bencode` | the bencoding parser (BEP 3) with byte spans, and what is hashed of a torrent file |
| `Fingerprint` | the fingerprint that identifies an offline request |
| `Paths`, `Text` | staged paths, their validation, and the destinations of a fetch |
| `ResultFiles` | merging a provider's file lists |
| `ShareOutcome` | folding a provider's save outcome into one result per selected entry |
| `Config` | adopting and removing a credential |

## How to read it

Code that changes state is a class or a method here too. A class whose methods
are critical sections (`DownloadStreamBatch`, `Batch`, `Attempt`, `ConfigFile`)
ties each method to a function on values; theorems about every schedule are
about runs of those functions.

The offline and share runners are told three times, and the three are tied together.

- A *log* is what a task did and what answers it got: records written, provider
  work submitted and asked for, destinations opened, finished and discarded, cloud
  copies removed, runs started and ended, retries. `OfflineLog` and `ShareLog` say
  which events keep the promises of a task (`Safe`) and prove, by induction over the
  log, what safe logs promise.
- A *program* (`OfflineProgram`, `ShareProgram`) is a function `Step(p, e)`: at each
  point of the runner, which event can come next and where it leads. The answers are
  part of the events, so a log leaves no choice. `History` holds of the logs of this
  program, and `HistoryIsSafe` shows that they are safe.
- The *classes* (`OfflineTask`, `ShareTask`) are the runners in the form of the source,
  with loops and records that change. Providers, drivers, file systems and the task
  manager answer as they please; after each event the process may die, and then `alive`
  is false and nothing further reaches the world. Each method is proved to take the
  program from one point to another, so whatever happens the log is a `History`.

So what is proved of safe logs holds of every life of a task, and a history shown in
`OfflineGaps` or `ShareGaps` is one that the runner produces, event for event, when it
gets those answers. Every run starts from the record on disk. One runner at a time is
assumed, as the active-runner registry provides.

## What turned out false

Each is kept as the code has it, shown as a history of the program or as an input, and
with the exact condition under which the expectation holds.

- A URL transfer trusts the size that the URL discloses over the size the provider
  reported (`pkg/core/transfer.go:80-82`). A file is finished short, and without
  retention its cloud copy removed, exactly if a URL discloses a positive size below the
  reported one: `OfflineGaps.ShortExactly`.
- A fetched file can be lost: a process that dies after the record says complete, a
  cancel before the task is taken up again, and a retry start the task over, and its
  destination is truncated although the cloud copy is gone. Without retention this can
  happen to every file, and it takes such a retry: `OfflineGaps.LossExactly`,
  `OfflineGaps.LossNeedsARetry`; otherwise `OfflineLog.NothingIsLost`.
- When a saved share entry is removed, the entries stand at their destinations in every
  history exactly if their ids and their places are distinct, or cloud copies are kept and
  none is removed: `ShareGaps.ClearExactly`.
  Of two with one place the later overwrites the earlier; of two with one id the second
  is taken for transferred after it failed.
- An entry that is on record as transferred is transferred again in some history exactly
  if two entries have one id: `ShareGaps.RepeatExactly`.
- A run can submit a save again exactly if the record does not settle it, and for a fetch
  the complete phase does not: `ShareGaps.ResubmitExactly`, `ShareGaps.RunningIsResubmitted`.
- A fetch can report something else than failure without having transferred everything
  exactly if it starts from a record that is complete, has its save done, and lacks a
  transfer: `ShareGaps.HollowExactly`. A retried save whose answer is written down right
  before the process dies leaves such a record: `ShareGaps.HollowIsReached`.
- A saved copy is read to its end, however long that is, with no comparison of sizes, and
  then removed, exactly if cloud copies are not kept: `ShareGaps.LengthIsNotChecked`.
- A canceled attempt of a move forgets earlier successes that it has not got to. The record
  of a moved item can be lost exactly if one of the items that the workers take first, one
  for each worker, is another one: `MoveBatch.ForgottenExactly`. And exactly then an
  interrupted retry can be followed by one that moves the item again:
  `MoveBatch.CanceledAttemptForgets`.
- Two different requests can have one fingerprint, because the character that separates
  includes from excludes can be a glob itself. Another request has the fingerprint of this
  one exactly if that character is among its globs, it includes nothing but that character
  and empty globs, and it does not exclude the empty glob: `Fingerprint.IdentityExactly`.
- A retained result file is kept by an observation exactly if one of the observed files
  speaks of it: `ResultFiles.KeptExactly`.
- The comment on share reconciliation says that an id match comes before a name match;
  the code takes the first item that matches in any way: `ShareOutcome.NameBeatsId`.
  Every entry gets the item reported under its id exactly if the items stand in a fitting
  order: `ShareOutcome.OwnExactly`. The model follows the code.
- A bencoded string whose length and position add up to 2^63 or more passes the check
  against an overrun and then ends the program: `Bencode.PanicExactly`.
- The sequential download of a file of unknown size returns zero as the number of bytes
  copied: `UrlFetch.ShortFileIsNotCounted`. The number is right exactly if nothing was
  copied or the first answer that is not a full part is the whole file:
  `UrlFetch.SequentialCount`.

## Model

| member | source | states |
|---|---|---|
| `StreamBatch.ItemsStaySound` | pkg/core/download_stream_task.go:126-318 | in every interleaving of open, both halves of a read, ack, commit, fail, close, item cancel, task cancel and finish: 0 <= acked <= read offset <= size, succeeded means all acknowledged, running exactly when open, a resting item resumes at what was acknowledged, an open item has an unclosed handle, only open, failed or canceled items have one, never two |
| `StreamBatch.PublishedNumbers` | pkg/core/download_stream_task.go:423-476 | bytes done are the sum of the acknowledged bytes, at most the sum of the sizes; failed <= done <= total items; the phase is complete iff all items succeeded, and then all bytes are done; it is failed iff all items failed or were canceled |
| `StreamBatch.ProgressNeverDecreases` | pkg/core/download_stream_task.go:193-213 | however a run goes on, no current or published counter goes down |
| `StreamBatch.BatchEnd` | pkg/core/download_stream_task.go:103-124 | all items have ended iff `done` is closed or the batch was canceled; once `done` is closed they stay ended with the same numbers, and finishing finds nothing to abandon |
| `StreamBatch.OutcomeIsExact` | pkg/core/download_stream_task.go:478-530 | a task that returns uninterrupted is complete, partial or failed exactly as none, some or all items failed or were canceled |
| `StreamBatch.StepKeeps` | pkg/core/download_stream_task.go:126-318 | every single step keeps the batch invariant and only lets items evolve forward |
| `StreamBatch.DownloadStreamBatch.Summarize` | pkg/core/download_stream_task.go:445-476 | the loop computes the summary that the theorems speak of |
| `StreamBatch.DownloadStreamBatch.UpdateSnapshot` | pkg/core/download_stream_task.go:423-443 | publishes the current summary and changes nothing else |
| `StreamBatch.DownloadStreamBatch.CloseDoneIfTerminal` | pkg/core/download_stream_task.go:546-553 | closes `done` iff every item has ended |
| `StreamBatch.DownloadStreamBatch.OpenItem` | pkg/core/download_stream_task.go:126-160 | the open step, with its errors |
| `StreamBatch.DownloadStreamBatch.BeginRead` | pkg/core/download_stream_task.go:162-176 | the first half of a read, up to where the batch lock is dropped |
| `StreamBatch.DownloadStreamBatch.EndRead` | pkg/core/download_stream_task.go:176-191 | the second half of a read, on an item that others may have changed meanwhile |
| `StreamBatch.DownloadStreamBatch.AckBytes` | pkg/core/download_stream_task.go:193-213 | the acknowledge step, with its errors |
| `StreamBatch.DownloadStreamBatch.CommitItem` | pkg/core/download_stream_task.go:215-237 | the commit step, refused unless all is acknowledged |
| `StreamBatch.DownloadStreamBatch.FailItem` | pkg/core/download_stream_task.go:239-258 | the fail step, which returns the item to waiting |
| `StreamBatch.DownloadStreamBatch.CloseHandle` | pkg/core/download_stream_task.go:260-279 | the close step |
| `StreamBatch.DownloadStreamBatch.CancelOne` | pkg/core/download_stream_task.go:295-318 | the cancel of one item, with its errors |
| `StreamBatch.DownloadStreamBatch.MarkAllCanceled` | pkg/core/download_stream_task.go:532-544 | the cancel of the whole task |
| `StreamBatch.DownloadStreamBatch.Finish` | pkg/core/download_stream_task.go:478-494 | the first part of finishing, which converts what has not ended |
| `StreamBatch.DownloadStreamBatch.PublishFinish` | pkg/core/download_stream_task.go:494-530 | the final update and the result of the task |
| `StreamBatch.DownloadStreamBatch.Sound` | pkg/core/download_stream_task.go:103-318 | whatever its callers and its runner do, the batch is what the theorems are about, and its invariant holds |
| `StreamBatch.DownloadStreamBatch.RunnerUpdates` | pkg/core/download_stream_task.go:103-124 | the snapshots of the runner, and its end after an interruption |
| `StreamBatch.DownloadStreamBatch.Interrupts` | pkg/core/download_stream_task.go:111-118 | the context ends while the runner waits |
| `OfflineLog.RemovalIsLast` | pkg/core/offline_fetch.go:736-802 | when a staged file or folder is removed, the task is in cleanup, retention was not asked for, and every result file stands finished at a destination of its own, untouched since; a folder goes only if every result file lies properly below it and was, with everything listed below it, confirmed removed in this run |
| `OfflineLog.NothingIsLost` | pkg/core/offline_runner.go:135-201 | at every moment, crashes included, a staged file whose removal was ever asked for stands finished at a destination, unless the task was started over after that; under retention none is removed |
| `OfflineLog.RestartIsARetry` | pkg/core/offline_task.go:127-141 | a task is started over after a removal only by a retry that found it complete on disk |
| `OfflineLog.SuccessIsWhole` | pkg/core/offline_runner.go:120-201 | a fetch that returns without error has every result file finished at a destination of its own; a download was seen to succeed in that run |
| `OfflineLog.DestinationsAreLeftAlone` | pkg/core/offline_fetch.go:516-674 | no destination is opened or discarded once a copy was removed, unless the task was started over |
| `OfflineLog.IdsAreConserved` | pkg/core/offline_task.go:127-141 | a provider id once on record is later the current one or among the previous ones |
| `OfflineLog.SubmittedOnce` | pkg/core/offline_runner.go:206-226 | after a provider id was written down only a retry can lead to another submission |
| `OfflineLog.CancelsAreAsked` | pkg/core/offline_runner.go:566-604 | a provider task is canceled only after the user asked for it or the provider reported it canceled, in the same run; never because of a shutdown |
| `OfflineLog.SafeIsSound` | pkg/core/offline_runner.go:135-201 | what every moment of a safe history satisfies: cleanup and completion only over finished files, removals only without retention |
| `OfflineProgram.HistoryIsSafe` | pkg/core/offline_runner.go:96-201 | every log of the runner, through crashes, cancels, shutdowns, refusals and retries, is safe, and at each of its points the record on disk and in memory are what the point promises |
| `OfflineProgram.StepDurable` | pkg/core/offline_runner.go:606-613 | of the events of a run only a written record changes the one on disk, and the program goes on until it returns |
| `OfflineProgram.OverIsSuccess` | pkg/task/manager.go:173-238 | a task is over only after a run that returned without an error, and nothing happens to it then |
| `OfflineGaps.FinishedIsWhole` | pkg/core/offline_fetch.go:633-674 | a finished file has the bytes that its URL disclosed last, else those the provider reported, and through URLs every one of them was written |
| `OfflineGaps.ShortExactly` | pkg/core/transfer.go:78-85 | for every file that can be placed and every disclosed size: the file is finished short in some history iff the size is positive and below the reported one, and then its cloud copy goes in some history iff it has an id and is not retained |
| `OfflineGaps.LossExactly` | pkg/core/offline_task.go:104-141 | every fetched file with an id can be lost, iff its cloud copy is not retained |
| `OfflineGaps.LossNeedsARetry` | pkg/core/offline_task.go:104-141 | a lost file means a retry that found the task complete after a removal |
| `StagedTree.OwnedExactly` | pkg/core/offline_fetch.go:806-827 | a listing counts as owned iff all files below it were removed and it is nested at most 32 deep |
| `StagedTree.StagedTreeOwned` | pkg/core/offline_fetch.go:806-827 | the recursive walk answers exactly that question |
| `StagedTree.DestinationHasResults` | pkg/core/offline_runner.go:472-498 | true iff the tree could be listed and shows every expected file at its path, with its size where both are known |
| `StagedTree.FoundIsThere` | pkg/core/offline_runner.go:500-525 | what the listing gives for a path is the size of a file that stands at that path of the tree |
| `StagedTree.StagedRootFolder` | pkg/core/offline_fetch.go:833-857 | the folder all result files share, or none |
| `StagedTree.AllInRootFolder` | pkg/core/offline_fetch.go:833-857 | every result file lies properly below that folder, so it is not the parse destination itself |
| `UrlFetch.DoneIsWhole` | pkg/core/transfer.go:78-183 | every byte that an attempt counts was written, without a gap from where it started; one that is done with a known size has reached it, and that is the disclosed size if there is one |
| `UrlFetch.HonouredIsDone` | pkg/core/transfer.go:78-294 | with a known size, a URL that honours its ranges and does not fail gets the attempt done |
| `UrlFetch.SizedIsWhole` | pkg/core/transfer.go:149-183 | with a known size a single range and the chunk workers are done only at that size |
| `UrlFetch.SequentialCount` | pkg/core/transfer.go:298-343 | for all answers: the number of bytes reported is the number copied iff none was copied or the first answer that is not a full valid part is the whole file; otherwise it is zero |
| `UrlFetch.ShortFileIsNotCounted` | pkg/core/transfer.go:336-340 | a file shorter than a chunk is reported done with zero bytes |
| `UrlFetch.RunSequentialRanges` | pkg/core/transfer.go:298-343 | the loop computes the function that the theorems are about |
| `OfflineFetch.OfflineTask.Do` | pkg/core/offline_runner.go:606-613 | one event that the program allows, after which the user may cancel, the context end or the process die |
| `OfflineFetch.OfflineTask.Advance` | pkg/core/offline_runner.go:606-613 | from the point where the silent steps led, one event on |
| `OfflineFetch.OfflineTask.EnsureProvider` | pkg/core/offline_runner.go:206-269 | success leaves a provider id that is on disk; a cancel after the submission cancels the provider task |
| `OfflineFetch.OfflineTask.Adopt` | pkg/core/offline_runner.go:236-254 | what a submission adds: the id, monotone availability, merged files |
| `OfflineFetch.OfflineTask.RecordObservation` | pkg/core/offline_runner.go:295-314 | availability is monotone, the first root id stays, files are merged, and the record on disk is the one in memory |
| `OfflineFetch.OfflineTask.ObserveStagedFiles` | pkg/core/offline_runner.go:275-286 | an answer is recorded and decides where the run goes on, an error leads to polling |
| `OfflineFetch.OfflineTask.PollToTerminal` | pkg/core/offline_runner.go:318-386 | it returns a terminal state, a result set declared complete and not empty, or an error after too many transient ones, a refusal, a lost task or an interruption |
| `OfflineFetch.OfflineTask.Ask` | pkg/core/offline_runner.go:333-365 | the provider is asked by the id on record |
| `OfflineFetch.OfflineTask.VerifyDestination` | pkg/core/offline_runner.go:447-466 | never true without known files, and else what the listed tree shows |
| `OfflineFetch.OfflineTask.ReconcileMissing` | pkg/core/offline_runner.go:426-441 | a lost provider task counts as succeeded only if the listed tree shows every known file |
| `OfflineFetch.OfflineTask.CompleteStaging` | pkg/core/offline_runner.go:391-420 | an error unless the provider succeeded; success merges the files into those observed before |
| `OfflineFetch.OfflineTask.CancelOnInterrupt` | pkg/core/offline_runner.go:576-580 | cancels the provider task only if the user asked to cancel |
| `OfflineFetch.OfflineTask.FailCanceled` | pkg/core/offline_runner.go:595-604 | the provider task is canceled after the provider reported it canceled |
| `OfflineFetch.OfflineTask.Close` | pkg/core/offline_fetch.go:925-944 | closing finishes the destination with this file, or it is discarded |
| `OfflineFetch.OfflineTask.FromStaging` | pkg/core/offline_fetch.go:548-593 | success finishes the destination with a copy that is not short, anything else discards it |
| `OfflineFetch.OfflineTask.FromUrl` | pkg/core/offline_fetch.go:633-674 | at most five URLs, each from where the last one stopped; success finishes the destination, anything else discards it |
| `OfflineFetch.OfflineTask.TransferFile` | pkg/core/offline_fetch.go:516-531 | an accelerated fetch tries the URL first and then the staged file, any other the staged file if it is readable |
| `OfflineFetch.OfflineTask.TransferPhase` | pkg/core/offline_fetch.go:45-92 | every target in turn; the first failure ends the run |
| `OfflineFetch.OfflineTask.CleanupPhase` | pkg/core/offline_fetch.go:736-767 | removes nothing under retention, keeps the record, and removes the folder only after every file |
| `OfflineFetch.OfflineTask.CleanupRootFolder` | pkg/core/offline_fetch.go:774-802 | nothing without a root id and a common folder; at most three attempts, each only over a listing of that folder that is owned |
| `OfflineFetch.OfflineTask.StageFetch` | pkg/core/offline_runner.go:139-181 | ends with the transfer phase on disk, or with an error |
| `OfflineFetch.OfflineTask.BeginTransfer` | pkg/core/offline_runner.go:164-184 | the transfer begins only over known results; canceled and failed tasks never get there |
| `OfflineFetch.OfflineTask.RunFetch` | pkg/core/offline_runner.go:135-201 | the phase on disk decides where the run takes up its work; transfer, cleanup and completion in this order, each over the record of the one before |
| `OfflineFetch.OfflineTask.RunDownload` | pkg/core/offline_runner.go:120-132 | a download ends with its staging |
| `OfflineFetch.OfflineTask.RetryTask` | pkg/core/offline_task.go:104-167 | a staging or completed task starts over with its id kept among the previous ones, any other resumes |
| `OfflineFetch.OfflineTask.Refuse` | pkg/task/manager.go:248-276 | a task that was canceled before its run began keeps its record |
| `OfflineFetch.OfflineTask.Begin` | pkg/core/offline_runner.go:96-109 | a run starts from the record on disk; a cancel or a shutdown can come before it has done anything |
| `OfflineFetch.OfflineTask.Run` | pkg/core/offline_runner.go:96-109 | the log is a history of the program; a task that is over has its result files finished |
| `OfflineFetch.OfflineTask.Live` | pkg/core/offline_task.go:104-167 | any number of runs, crashes, refusals, restarts and retries gives a history of the program, which is safe, so the theorems hold of every life of a task |
| `ShareLog.RemovalIsEarned` | pkg/core/share_fetch.go:560-577 | a saved copy is removed only in the cleanup of a fetch that saved it, without retention, and after its own transfer was finished in this or an earlier run |
| `ShareLog.RemovedStillStands` | pkg/core/share_fetch.go:233-299 | with distinct ids and places, every downloaded entry then stands finished at its place, untouched |
| `ShareLog.LaterMeansSaved` | pkg/core/share_fetch.go:29-74 | a fetch from a save whose record says download or cleanup has its save done |
| `ShareLog.NeverTransferredAgain` | pkg/core/share_fetch.go:257-299 | with distinct remote ids, an entry recorded as transferred without error is never transferred again |
| `ShareLog.NeverResubmitted` | pkg/core/share_fetch.go:63-74 | once a run begins with its save done, no save is submitted any more and the result of the save stays |
| `ShareLog.SaveNeverResubmits` | pkg/core/share_runner.go:286-296 | a plain save whose record says verify or complete with a saved entry never submits again |
| `ShareLog.HandleIsKept` | pkg/core/share_runner.go:182-206 | a save handle on record goes only after the provider said it does not know it |
| `ShareLog.SubmittedOnlyWithoutHandle` | pkg/core/share_fetch.go:76-115 | no save is submitted while a handle is on record |
| `ShareLog.ReportedIsTransferred` | pkg/core/share_fetch.go:579-641 | a fetch that does not report failure finished the transfer of every saved entry, unless its run began with the save done and the phase complete |
| `ShareLog.SafeIsSound` | pkg/core/share_fetch.go:29-57 | what every moment of a safe share history satisfies |
| `ShareLog.OthersStand` | pkg/core/share_fetch.go:532-556 | with distinct ids and places, touching the place of an unrecorded entry leaves the recorded ones standing |
| `ShareProgram.HistoryIsSafe` | pkg/core/share_runner.go:88-177 | every log of the runner, through any number of runs and deaths, is safe, and at each of its points the records are what the point promises |
| `ShareProgram.EarlierIs` | pkg/core/share_fetch.go:260-280 | a target with an id is skipped iff its id is recorded as transferred without error |
| `ShareProgram.Passed` | pkg/core/share_fetch.go:268-297 | when an unrecorded target is reached, all recorded ones have been passed, so the record never shrinks |
| `ShareProgram.NotFailedIsSaved` | pkg/core/share_outcome.go:12-57 | a save that is over and not failed has saved something |
| `ShareProgram.FileKeeps` | pkg/core/share_fetch.go:266-280 | skipping what is recorded keeps the results in step with the targets, to the end |
| `ShareGaps.ClearExactly` | pkg/core/share_fetch.go:233-299 | for every outcome of a save and every selection: at some removal in some history an entry does not stand at its place iff copies are not kept and two entries share an id or a place |
| `ShareGaps.RepeatExactly` | pkg/core/share_fetch.go:260-280 | in some history a recorded id is transferred again iff two entries share an id |
| `ShareGaps.ResubmitExactly` | pkg/core/share_runner.go:286-296 | after any history, a run that starts now can lead to a submission iff the record does not settle the save |
| `ShareGaps.RunningIsResubmitted` | pkg/core/share_fetch.go:193-199 | every running save with a saved entry can leave a fetch complete on record that is submitted again |
| `ShareGaps.HollowExactly` | pkg/core/share_fetch.go:29-57 | after any history, the run that starts now can report something else than failure with a saved entry not transferred iff it starts from a complete record with the save done, a transfer missing and no failure listed |
| `ShareGaps.HollowIsReached` | pkg/core/share_fetch.go:116-128 | every finished save without a failed entry can leave such a record |
| `ShareGaps.LengthIsNotChecked` | pkg/core/share_fetch.go:389-405 | for every number of bytes there is a history in which a saved entry is finished with that many and a copy then removed, iff copies are not kept |
| `ShareReceive.ShareSavedEntries` | pkg/core/share_runner.go:591-613 | one record per item, with the saved identity and size taken over where there is one |
| `ShareReceive.Completed` | pkg/core/share_fetch.go:260-265 | the lookup table finds for every key the last recorded transfer without error, and nothing else |
| `ShareReceive.ShareTask.Do` | pkg/core/share_runner.go:523-528 | one event that the program allows, after which the process may die |
| `ShareReceive.ShareTask.PollSave` | pkg/core/share_runner.go:228-248 | every answer is recorded; success means the save is over; the run leaves if the provider cannot be asked or the context ends while it waits |
| `ShareReceive.ShareTask.ResumeSave` | pkg/core/share_runner.go:182-206 | a save taken up again is over; the handle is dropped only when the provider does not know it |
| `ShareReceive.ShareTask.ResumeSelection` | pkg/core/share_runner.go:211-226 | the selection on record is used, else a new one that is written down, never an empty one |
| `ShareReceive.ShareTask.SaveSelected` | pkg/core/share_fetch.go:171-211 | the selection is on disk before the submission and the handle right after; it ends with a save that is over, reconciled with the selection |
| `ShareReceive.ShareTask.RunSave` | pkg/core/share_runner.go:105-177 | success means complete on disk with a saved entry |
| `ShareReceive.ShareTask.Recheck` | pkg/core/share_runner.go:114-122 | a save that is done is only verified again |
| `ShareReceive.ShareTask.ResumeRun` | pkg/core/share_runner.go:125-158 | a submitted save is taken up, or submitted once more if the provider does not know it |
| `ShareReceive.ShareTask.FinishSave` | pkg/core/share_runner.go:252-282 | a save with no success ends as failed, any other as complete with a saved entry |
| `ShareReceive.ShareTask.FetchSavePhase` | pkg/core/share_fetch.go:76-134 | success means that the save is done on disk |
| `ShareReceive.ShareTask.FetchTargets` | pkg/core/share_fetch.go:311-327 | the targets are the saved entries without error in order; an entry without id, or none at all, is an error |
| `ShareReceive.ShareTask.ReadTarget` | pkg/core/share_fetch.go:389-405 | a saved entry is finished with what was read, or discarded |
| `ShareReceive.ShareTask.StreamTarget` | pkg/core/share_fetch.go:359-388 | three attempts at the URL at most, each from where the last one stopped; the file is finished only if one was done |
| `ShareReceive.ShareTask.Transfer` | pkg/core/share_fetch.go:280-293 | a target not yet recorded is transferred and written down, failed or not |
| `ShareReceive.ShareTask.DownloadPhase` | pkg/core/share_fetch.go:233-299 | every target in turn, skipped if recorded; success means that all were passed |
| `ShareReceive.ShareTask.CleanupFetch` | pkg/core/share_fetch.go:560-577 | removes saved copies only, none for a direct fetch or under retention, and stops at the first error |
| `ShareReceive.ShareTask.FinishFetch` | pkg/core/share_fetch.go:579-641 | the result counts the failed saves and every transfer, and is written with the record |
| `ShareReceive.ShareTask.RunFetch` | pkg/core/share_fetch.go:29-57 | the phase on record decides where the run takes up its work; one that does not fail is complete on disk |
| `ShareReceive.ShareTask.Live` | pkg/core/share_runner.go:636-660 | any number of runs, deaths, restarts and retries gives a history of the program, which is safe |
| `ChunkFetch.ReportedPrefixIsWritten` | pkg/core/transfer.go:185-294 | whatever the order of the workers and whatever fails, every byte of the reported prefix was written; done means all of them |
| `ChunkFetch.NoFailureIsDone` | pkg/core/transfer.go:185-294 | without a failure and with ranges honoured, the attempt does report the file done |
| `ChunkFetch.StepKeeps` | pkg/core/transfer.go:206-272 | each step keeps what is noted written, and every chunk handed out passed, noted or in flight |
| `ChunkFetch.AdvanceCovers` | pkg/core/transfer.go:262-269 | the prefix moves only over written bytes |
| `ChunkFetch.AdvanceAccounts` | pkg/core/transfer.go:262-269 | the prefix stops only at a border whose chunk is not noted, and forgets no noted chunk |
| `ChunkFetch.Attempt.TakeChunk` | pkg/core/transfer.go:208-215 | hands out the next offset unless the attempt failed, was taken over or is exhausted |
| `ChunkFetch.Attempt.RecordChunk` | pkg/core/transfer.go:260-270 | notes a chunk and moves the prefix over all that now follow it |
| `ChunkFetch.Attempt.TakeWhole` | pkg/core/transfer.go:221-227 | a whole-file answer takes the attempt over, so that no further chunk is handed out |
| `ChunkFetch.Attempt.Fail` | pkg/core/transfer.go:196-203 | marks the attempt failed and changes nothing else |
| `ChunkFetch.Attempt.RecordWhole` | pkg/core/transfer.go:234-237 | a whole-file answer replaces what was noted |
| `WorkerPool.Batch.FinishItem` | pkg/core/move.go:291-300 | the critical section fills a slot, counts it and publishes exactly the new numbers |
| `WorkerPool.Batch.CompactItems` | pkg/core/delete_task.go:197-206 | the snapshot holds the filled slots in order |
| `WorkerPool.PublishedIsExact` | pkg/core/move.go:219-233 | under any interleaving the items done shown are the filled slots, the failed ones those less the successes |
| `WorkerPool.ProgressNeverDecreases` | pkg/core/copy.go:160-187 | no number shown ever goes down |
| `WorkerPool.FilledAtMostOnce` | pkg/core/move.go:234-301 | no slot is filled twice |
| `WorkerPool.EndIsExact` | pkg/core/move.go:303-362 | a batch that ends without a cancel has filled every slot exactly once and is all done, partial or failed exactly as all, some or none succeeded |
| `WorkerPool.StepKeeps` | pkg/core/copy.go:120-200 | each step keeps the pool invariant: one worker per item, exact counters, nothing dropped before a cancel |
| `WorkerPool.NeverStuck` | pkg/core/move.go:303-334 | a pool that is not over can always take a step, also when all workers have left it after a cancel |
| `WorkerPool.CanceledIsInterrupted` | pkg/core/move.go:321-334 | a pool that saw a cancel ends as interrupted, whatever it finished |
| `MoveBatch.ReadPrior` | pkg/core/move.go:205-210 | the table of completed items |
| `MoveBatch.CompletedIsRecorded` | pkg/core/move.go:205-210 | it holds a pair iff the record says that pair was moved |
| `MoveBatch.MoveOne` | pkg/core/move.go:234-301 | its slot is filled; the move is carried out iff no earlier success is on record, which is otherwise taken over |
| `MoveBatch.IsPoolRun` | pkg/core/move.go:234-334 | an attempt is a run of the worker pool |
| `MoveBatch.NotMovedAgain` | pkg/core/move.go:234-246 | a pair on record as moved is not moved in the attempt that reads the record |
| `MoveBatch.CompleteAttempt` | pkg/core/move.go:303-362 | a complete attempt fills every slot, remembers every success, is partial iff some but not all succeeded, and an error iff none did |
| `MoveBatch.SuccessSurvivesIff` | pkg/core/move.go:219-233 | after any attempt, canceled or not, a success stays on record iff nothing was published or its slot was filled |
| `MoveBatch.NeverMovedAgain` | pkg/core/move.go:180-210 | over any number of complete attempts, an item that succeeded is never moved again, nor one of the same source and destination |
| `MoveBatch.CanceledAttemptForgets` | pkg/core/move.go:321-329 | for all items, records and numbers of workers: after an interrupted retry a move on record can be carried out again iff one of the items the workers take first is another one |
| `MoveBatch.ForgottenExactly` | pkg/core/move.go:204-334 | the record of a move can be lost in a retry iff one of the items the workers take first is another one |
| `CopyTask.CopyOne` | pkg/core/copy.go:247-298 | every path through it ends where it may report, with the result it has to report, and touches only its own item |
| `CopyTask.SourceGoesAfterItsCopy` | pkg/core/copy.go:247-298 | under any interleaving a source is removed only if asked for and after its own copy passed, a whole directory only if nothing was skipped |
| `CopyTask.DirectoryGoesLast` | pkg/core/copy.go:200-219 | an expanded source directory goes only without a cancel, after every item succeeded and its source went, and after every listed directory below it |
| `CopyTask.StepKeeps` | pkg/core/copy.go:100-239 | each step keeps what the log of removals satisfies |
| `CopyTask.DeepestFirstIsSorted` | pkg/core/task_tree.go:76-89 | the order is a permutation by falling depth |
| `CopyTask.BelowComesFirst` | pkg/core/task_tree.go:76-89 | in it, whatever is below another comes first |
| `Bencode.ParseBencodeAt` | pkg/core/offline_source.go:290-314 | the parser is the function that the theorems are about |
| `Bencode.ParseBencodeString` | pkg/core/offline_source.go:316-330 | the same for strings, with the sum of position and length as the machine computes it, and the slice out of bounds that this can lead to |
| `Bencode.ParseBencodeList` | pkg/core/offline_source.go:332-351 | the same for the loop over a list |
| `Bencode.ParseBencodeDict` | pkg/core/offline_source.go:353-377 | the same for the loop over a dictionary |
| `Bencode.IndexByte` | pkg/core/offline_source.go:379-386 | the first position of the byte, or -1 |
| `Bencode.ParseAt` | pkg/core/offline_source.go:290-314 | an accepted value starts at the base and ends where the rest begins, at least one byte on |
| `Bencode.RoundTrip` | pkg/core/offline_source.go:286-377 | any tree whose encoded strings fit in a slice, encoded canonically, at any base and before any suffix, is read back as that tree with exactly that suffix left |
| `Bencode.ScannedRoundTrip` | pkg/core/offline_source.go:286-377 | the same with the library's number scanner, which is exact on canonical decimals |
| `Bencode.ScanIsExact` | pkg/core/offline_source.go:296-327 | the scanner reads every canonical decimal of 64 bits as its number |
| `Bencode.ParseIsLocal` | pkg/core/offline_source.go:290-377 | the outcome depends only on the bytes consumed, whatever follows them |
| `Bencode.SpansAreNested` | pkg/core/offline_source.go:290-377 | children lie in order inside their parent, at every depth |
| `Bencode.NestedValuesReadAlone` | pkg/core/offline_source.go:226-242 | the slice of every nested value parses alone to the same value with nothing left over |
| `Bencode.CollectTrackers` | pkg/core/offline_source.go:244-260 | the announce string, then the strings of all tiers in order |
| `Bencode.ParseTorrentMeta` | pkg/core/offline_source.go:226-262 | the bytes hashed are a slice that parses alone to the info dictionary; every refusal has its reason; the program ends iff the parser does |
| `Bencode.StringRoundTripExactly` | pkg/core/offline_source.go:316-330 | a string is read back from its encoding iff the two fit together in a slice; a longer one ends the program |
| `Bencode.PanicExactly` | pkg/core/offline_source.go:321-329 | on any input that fits in a slice, a string ends the program iff its length passes the checks and its sum with the position is 2^63 or more; what is accepted is as long as it says |
| `Bencode.PanicIsAString` | pkg/core/offline_source.go:290-377 | wherever the parser ends the program it does so at such a string of the input |
| `Bencode.LargestLengthPanics` | pkg/core/offline_source.go:321-329 | the largest length in front of a colon is such a string, whatever follows |
| `Fingerprint.EqualFingerprints` | pkg/core/offline_source.go:392-422 | for strings without NUL, equal fingerprints iff all parts are equal one by one |
| `Fingerprint.FingerprintIsIdentity` | pkg/core/offline_source.go:392-422 | equal iff mount, cleaned directory, kind, identity, mode, largest and the multisets of includes and excludes are equal, unless the globs of the first are blurred and one of the two includes the separator |
| `Fingerprint.IdentityExactly` | pkg/core/offline_source.go:392-422 | for every request without NUL: another one has its fingerprint iff its globs are blurred, that is the separator is among them, only the separator and the empty glob are included, and the empty glob is not excluded |
| `Fingerprint.BlurredCollides` | pkg/core/offline_source.go:407-422 | if they are, moving one separator between includes and excludes gives such a request |
| `Fingerprint.SortIsMultiset` | pkg/core/offline_source.go:407-422 | sorted lists are equal iff the lists are equal as multisets |
| `Paths.SplitStagedPath` | pkg/core/offline_path.go:62-77 | splits at both separators, keeps empty components, and joins back to the path |
| `Paths.RelPath` | pkg/core/offline_path.go:23-46 | an accepted path has between one and 32 valid components that join back to it |
| `Paths.Component` | pkg/core/offline_path.go:48-60 | an accepted name is unchanged, valid and without a separator |
| `Paths.Place` | pkg/core/offline_fetch.go:183-196 | an accepted placement has between one and 32 valid components |
| `Paths.FetchTargets` | pkg/core/offline_fetch.go:110-166 | targets match the files one to one in order, pairwise distinct, each below the root at its components; it fails iff some file cannot be placed or two share a place |
| `Paths.TargetsStayBelow` | pkg/core/offline_fetch.go:143-165 | the root is a proper prefix at a border and at most 32 valid components follow |
| `Paths.LocateIsBelow` | pkg/core/offline_fetch.go:227-238 | the joined and cleaned path is the cleaned root followed by the components |
| `Paths.VirtualBelow` | pkg/vfs/vfstypes/vfstypes.go:61-94 | the same for a namespace destination |
| `Paths.LocalBelow` | pkg/core/offline_fetch.go:230-232 | the same for a local destination |
| `Paths.BelowIsInjective` | pkg/core/offline_fetch.go:159-162 | different placements are different destinations |
| `ResultFiles.MergeOfflineResultFiles` | pkg/core/offline_state.go:223-289 | the loops compute the merge that the lemmas are about |
| `ResultFiles.MergeById` | pkg/core/offline_state.go:253-287 | under distinct ids a file keeps its own earlier fields where the new ones are empty |
| `ResultFiles.RetainedIsLatest` | pkg/core/offline_state.go:220-289 | after any run of observations of the same distinct ids, each size, name and path is the latest one that was reported |
| `ResultFiles.LastKnownStays` | pkg/core/offline_state.go:220-222 | a value once known stays known |
| `ResultFiles.ReplayIsIdle` | pkg/core/offline_state.go:223-289 | replaying the last observation changes nothing |
| `ResultFiles.OmittedFileIsForgotten` | pkg/core/offline_state.go:253-287 | a file that the latest observation leaves out is dropped |
| `ResultFiles.KeptExactly` | pkg/core/offline_state.go:223-289 | for every retained list and observation: a retained id is kept iff the observation is empty, names it, or has a file without an id that speaks of it by path, by a name or by an index that only it has |
| `ResultFiles.TakesId` | pkg/core/offline_state.go:253-287 | a file without an id takes the id of the one retained file it speaks of |
| `ShareOutcome.ReconcileShareOutcome` | pkg/core/share_outcome.go:64-115 | the loops compute the reconciliation that the lemmas are about |
| `ShareOutcome.ReconcileCovers` | pkg/core/share_outcome.go:64-115 | one item per selected entry in order, each provider item used at most once, an entry without one is failed |
| `ShareOutcome.StatesAgree` | pkg/core/share_outcome.go:64-115 | the reconciled state and the task state agree |
| `ShareOutcome.ReconcileIsIdempotent` | pkg/core/share_outcome.go:64-115 | reconciling again changes nothing, duplicate ids and names included |
| `ShareOutcome.MissingIsExact` | pkg/core/share_outcome.go:64-115 | without ambiguity an entry is reported missing iff no provider item matches it |
| `ShareOutcome.NameBeatsId` | pkg/core/share_outcome.go:59-100 | a name match that comes first takes the place of an id match |
| `ShareOutcome.ShareOutcomeResult` | pkg/core/share_outcome.go:12-57 | saved and failed items add up to all of them, and decide the state |
| `ShareOutcome.MissingExactly` | pkg/core/share_outcome.go:64-115 | an entry is reported missing iff every item that matches it was taken by an entry before it |
| `ShareOutcome.OwnExactly` | pkg/core/share_outcome.go:59-100 | every entry gets the item reported under its id iff whatever matches an entry before its own item is the own item of an earlier entry |
| `ShareOutcome.PickIs` | pkg/core/share_outcome.go:80-100 | each entry takes the first matching item that no entry before it took |
| `Config.ConfigFile.AdoptMountCredential` | pkg/config/credentials.go:45-89 | on error the configuration is unchanged and the error is the first that applies; on success it is the adopted one |
| `Config.AdoptPreservesMeaning` | pkg/config/credentials.go:45-89 | every mount resolves as before, to parameters or to an error, except those that already named the new credential, which now get it if the types agree |
| `Config.ResolvedStaysResolved` | pkg/config/config.go:357-378 | a mount that resolved before resolves to the same parameters |
| `Config.PartsAreTheWhole` | pkg/config/credentials.go:66-80 | the moved and the remaining parameters are disjoint and together the original |
| `Config.ConfigFile.SplitParams` | pkg/config/credentials.go:66-80 | the loop computes the two parts |
| `Config.ConfigFile.LookupCredential` | pkg/config/config.go:345-355 | the first credential of that name; none for the empty name |
| `Config.ConfigFile.MountIndex` | pkg/config/mounts.go:6-16 | the first mount of that name, or -1 |
| `Config.ConfigFile.UpsertMount` | pkg/config/mounts.go:20-35 | replaces the first mount of that name, else appends; credentials stay |
| `Config.ConfigFile.CredentialUsedBy` | pkg/config/credentials.go:10-21 | the names of the mounts that reference the credential |
| `Config.ConfigFile.RemoveCredential` | pkg/config/credentials.go:92-109 | removes an unused credential, and succeeds iff it is named, unused and present |
| `Config.RemovePreservesMeaning` | pkg/config/credentials.go:92-109 | removing an unused credential changes what no mount resolves to |

## Left out

- Providers, drivers, HTTP, file systems and the task manager: their answers are part of the log; opening a destination truncates it, closing finishes it, aborting discards it.
- Timers, poll intervals and backoff: replaced by nondeterministic scheduling. A polling loop runs any finite number of rounds and ends with an answer, with the context or with the process.
- OfflineFetch.OfflineTask.PollToTerminal: whether a task has been missing for too long is an answer.
- OfflineFetch.OfflineTask.VerifyDestination: one listing decides; that it is repeated a few times is not modelled.
- OfflineFetch.OfflineTask.TransferPhase: pinning the local root, creating directories, and symlink and alias probing may only fail; destinations are compared as strings.
- OfflineFetch.OfflineTask.FromStaging: the copy loop is one step that brings any number of bytes; contents are not modelled.
- OfflineFetch.OfflineTask.FromUrl: an attempt that fails after the context has ended is taken to fail because of that.
- OfflineFetch.OfflineTask.RetryTask: it may happen whenever no run is active and the task is not over, also where the task manager would refuse it.
- ShareReceive.ShareTask.DownloadPhase: of a direct fetch, whose listing may change between runs, only the safety of the log is stated.
- ShareReceive.ShareTask.RunSave: whether the destination shows the saved entries is an answer, and error codes are taken to be non-empty.
- ShareReceive.ShareTask.FinishFetch: the tracked items shown to the user are not modelled.
- ShareReceive.ShareTask.Live: a run may start whenever none is active, also where the task manager would refuse it.
- ShareGaps.ClearExactly: the condition is that of every entry standing at its own place; that some copy of an id stands somewhere asks for less.
- ChunkFetch.NoFailureIsDone: the byte counts of a download shown while it runs are not modelled.
- Bencode.ScanIsExact: the blanks of other scripts that the library scanner skips are not modelled.
- Bencode.RoundTrip: strings whose encoding is 2^63 bytes or longer are left to Bencode.StringRoundTripExactly.
- StreamBatch.ItemsStaySound: items are known by position, at least one per batch, with sizes that are not negative.
- WorkerPool.Batch.FinishItem: the list of active paths and the current path are not modelled.
- MoveBatch.CompleteAttempt: whether an item is renamed or copied and deleted is left open.
- CopyTask.DirectoryGoesLast: expanding a directory into items, and creating the remote directories, are not modelled.
- Config.ConfigFile.SplitParams: driver parameter specifications are an arbitrary function from type to scopes.
- SHA-1, percent-encoding, magnet links and URL canonicalisation: library behaviour around the parser.
- Delete tasks, uploads, mounts, encryption, the control API and the command line: outside this model.
