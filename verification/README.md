# A verified model of the py-qgis-wps server core

py-qgis-wps runs OGC Web Processing Service jobs in a pool of worker processes. This
project models the parts of it that are state machines, and proves what every run of
them keeps:

- **The worker pool** (`PoolProtocol`, `PoolInvariants`, `PoolSafety`, `PoolTheorems`,
  `PoolOutstanding`, `PoolPotential`, `PoolQueue`, `PoolClient`). The dispatching client, the worker loop and the FIFO
  channels between them are one step system: READY, DONE and reply messages, receive timeouts, restarts,
  kills, lost tails of a dying worker's channel, caller timeouts racing replies, failed
  sends. A step that is not enabled changes nothing, so a run is any sequence of steps.
  The loops of `_Client` and `worker_handler` are methods proved equal to those steps.
- **The supervisor** (`Supervision`, `SupervisedWorkers`, `WorkerKills`). One kill timer
  per busy pid, driven by BUSY and DONE notifications that may be lost or repeated, and
  kill requests from dismissals.
- **The caches** (`LruTable`, `LruLaws`, `LruCaches`, `ProjectCache`, `ProjectCacheLaws`,
  `ContextProcesses`). `lrucache` as a class over an ordered table, the two
  timestamp-validated project caches on top of it, and the contextual processes; each
  agrees with the uncached computation.
- **Job records** (`JobRecords`, `JobLifecycle`, `JobTheorems`, `JobFinality`,
  `JobReaping`, `JobDismissal`, `JobRuns`). The log store
  and its reaper as a class, and then one job's record under every interleaving of the
  server's and the worker's updates, each Redis command a step of its own, with
  deletions, kills and late timeouts.
- **The policy index** (`Text`, `PolicyIndex`, `AccessPolicies`). The lizmap user and
  group index against a plain scan of the rules, through to the access decision.
- **Execute inputs in key-value form** (`KvpInputs`). Parser and encoder, inverse to each
  other on all delimiter-free inputs, and the exact effect of malformed segments.

Some properties one would expect do not hold of the code. Each has a lemma that shows it
and the exact condition under which the property holds:

| expected | shown to fail by | holds exactly when |
|---|---|---|
| a worker has one outstanding job | `PoolOutstanding.BoundIsExact` | on all runs: its receive has never timed out (`OneJobIff`); from a state on, with no further timeout: its READYs in flight or to come, its listing and its jobs number one at most, or it is gone (`PoolPotential.HoldsIff`) |
| a timer kills only after a full timeout | `SupervisedWorkers.EarlyKillAfterLoss` | the worker is calm: no BUSY comes on top of a BUSY, its flag is up when the supervisor takes it for busy, and no timer but its entry's is armed (`EarlyKillIff`); so it is until one of its own DONEs is refused (`EarlyKillNeedsLoss`) |
| a lookup returns the current file | `ProjectCacheLaws.StaleRun` | the changed file has a greater mtime (`Reread`, `FreshIffNewer`) |
| both project caches answer alike and hold the same table | `ProjectCacheLaws.RefusedProject` | every lookup needs no read or passes the strict layer check (`SameLookup`, `SameRunsIff`) |
| a terminal status is final | `JobRuns.LatePidReturns`, `JobRuns.LateDoneOverwrites` | ERROR: no worker is before the end of the job or about to store another status; DONE: nobody is left to write (`JobFinality.StatusFinalIff`) |
| a terminal status stays terminal | `JobRuns.LatePidReturns` | no worker is still before the end of the job (`TerminalAbsorbingIff`) |
| a pid never returns to an ended record | `JobRuns.LatePidReturns` | the worker holds no stale copy (`PidReturnsIff`) |
| a dismissal kills the job it dismisses | `WorkerKills.KillHitsLaterJob` | the supervisor takes the worker for busy and the worker has sent nothing since the record was read (`DismissalHitsIff`) |
| a kill request ends the job the supervisor knows of | `WorkerKills.KillHitsLaterJob` | nothing sent by the worker is still on its way (`KillHitsKnownJobIff`) |
| every document has or regains a record | `JobRuns.LeakHappens` | somebody is still to write (`LeakForGoodIff`); never lost without a deletion (`DocumentsHaveRecords`) |
| a bad input segment leaves the others alone | `KvpInputs.InputLost` | it is not an identifier in use (`GroupedIff`) |
| an input's attributes can be read back | `KvpInputs.ClashingInput` | no two attributes clash (`ReadsBackIff`) |

## Model

| member | source | states |
|---|---|---|
| PoolSafety.Always | pyqgiswps/poolserver/client.py:79-193 | every run of client, channels and workers keeps the protocol invariant, whatever times out, restarts, dies or is lost |
| PoolTheorems.ExactlyOnePlace | pyqgiswps/poolserver/client.py:164-193 | a dispatched id is in exactly one place, at the worker it was sent to: waiting, running, in a reply, answered or lost; an id not dispatched is nowhere |
| PoolTheorems.RunsAtMostOnce | pyqgiswps/poolserver/worker.py:84-99 | a request is received by one worker once in the whole pool, with the payload it was submitted with |
| PoolTheorems.AnswerIsOwn | pyqgiswps/poolserver/client.py:119-134 | the result of a future is what the request's own payload gave on the worker its id went to |
| PoolTheorems.SettledForGood | pyqgiswps/poolserver/client.py:186-193 | a call that was answered, timed out, refused or failed to send keeps that end in every continuation |
| PoolTheorems.HandlersExact | pyqgiswps/poolserver/client.py:184-193 | `_handlers` is the dispatched ids less those whose reply was polled and those whose timed-out call cleaned up |
| PoolTheorems.NoReplyDropped | pyqgiswps/poolserver/client.py:119-143 | a polled reply finds its handler unless that call timed out, and resolves its own waiting caller and nobody else |
| PoolTheorems.ServedInOrder | pyqgiswps/poolserver/worker.py:84-99 | a worker receives and answers its jobs in the order sent, and never more than `maxcycles` |
| PoolTheorems.Accounting | pyqgiswps/poolserver/client.py:79-99 | accepted READYs are hand-outs, plus removals on DONE, plus one if listed; the list has no duplicates; a listed worker is queued or held by the call that popped it |
| PoolTheorems.OutstandingBound | pyqgiswps/poolserver/worker.py:84-101 | jobs sent and not completed exceed the worker's receive timeouts by one at most |
| PoolOutstanding.BoundIsExact | pyqgiswps/poolserver/worker.py:33-33 | for every number of receive timeouts some run gives the worker one job more, all waiting, by the READYs it resent |
| PoolOutstanding.OneJobIff | pyqgiswps/poolserver/worker.py:84-101 | on all runs a worker with so many receive timeouts holds one job at most if and only if that number is zero |
| PoolPotential.HoldsIff | pyqgiswps/poolserver/worker.py:84-101 | from any reachable state a worker can come to hold n jobs, running or waiting, with no further receive timeout if and only if n is zero, or it is alive and its READYs in flight or to come, its listing and the jobs it holds number n or more |
| PoolPotential.OwesIff | pyqgiswps/poolserver/client.py:164-193 | the same of jobs sent and not completed, for a worker that is gone too, whose lost jobs count |
| PoolPotential.NeverGrows | pyqgiswps/poolserver/client.py:79-193 | that number never grows while the worker's receive does not time out |
| PoolTheorems.DoneIsFinal | pyqgiswps/poolserver/client.py:113-117 | after its DONE is processed a worker is never listed, handed out or sent a job in any continuation |
| PoolClient.TakeFirst | pyqgiswps/poolserver/client.py:90-99 | the worker taken is the first queue entry still listed, and none is taken exactly when no entry is |
| PoolClient.TakeKeepsLists | pyqgiswps/poolserver/client.py:90-99 | when every listed worker is queued, taking keeps that, and finds a worker if and only if one is listed |
| PoolClient.ReachedLists | pyqgiswps/poolserver/client.py:79-99 | in every reachable state with no call between its pop and its lookup, every listed worker is queued, so a listed worker is found without blocking |
| PoolQueue.QueueIsFifo | pyqgiswps/poolserver/client.py:79-99 | over every run the queue passes on the READYs accepted in their order: queued plus accepted are popped plus still queued |
| PoolQueue.FirstReadyServed | pyqgiswps/poolserver/client.py:79-99 | on every run the worker a call gets is the one whose READY was accepted first, among those listed and not yet popped |
| PoolQueue.ReadyOvertakesNobody | pyqgiswps/poolserver/client.py:79-99 | in a reachable state with no entry in the hand of a call and some worker listed, the next READY does not change whose turn it is |
| PoolQueue.StaleOnlyAfterDone | pyqgiswps/poolserver/client.py:93-98 | an entry thrown away because it is not listed is always of a worker whose DONE was processed |
| PoolQueue.QueueCheck | pyqgiswps/poolserver/client.py:167-172 | a call is refused at its first run exactly when more than `maxqueue` dispatched calls await their replies |
| PoolQueue.RefusalHappens | pyqgiswps/poolserver/client.py:167-168 | for every `maxqueue` some run comes to refuse a call |
| PoolQueue.PayloadKept | pyqgiswps/poolserver/client.py:150-162 | a call keeps the payload it was submitted with in every continuation |
| PoolQueue.CallsTimeOut | pyqgiswps/poolserver/client.py:172-193 | a call may end by a timeout while it waits for a worker, and while it waits for its reply, when its handler goes and no other |
| PoolQueue.FailedSend | pyqgiswps/poolserver/client.py:176-182 | a send that fails ends its call with an error and takes the worker off the list, with no handler left |
| PoolQueue.RestartIsAnnounced | pyqgiswps/poolserver/worker.py:103-111 | a worker that meets the RESTART broadcast is gone, and off the list once its channel is read |
| PoolClient.TakeIsSteps | pyqgiswps/poolserver/client.py:90-99 | the loop of one caller is a sequence of protocol steps, ending with that worker held, or with the queue dry and the caller waiting |
| PoolClient.PollingIsSteps | pyqgiswps/poolserver/client.py:101-143 | polling any workers in any order leaves the client as one run of the polling loop over the messages met |
| PoolClient.PoolClient.PutWorker | pyqgiswps/poolserver/client.py:79-83 | a worker not listed goes to the end of list and queue, a listed one changes nothing |
| PoolClient.PoolClient.RemoveWorker | pyqgiswps/poolserver/client.py:85-88 | the worker leaves the list, its queue entry stays |
| PoolClient.PoolClient.GetWorker | pyqgiswps/poolserver/client.py:90-99 | the loop takes what `Take` takes |
| PoolClient.PoolClient.Poll | pyqgiswps/poolserver/client.py:101-143 | the loop handles every message of the channel in order and resolves exactly the futures of the handled replies |
| PoolClient.WorkerHandler | pyqgiswps/poolserver/worker.py:81-119 | the messages a worker sends for a script of receptions, and that the notifier, driven as in the loop, notifies BUSY and DONE in turn, once around each job |
| PoolClient.SendsJobs | pyqgiswps/poolserver/worker.py:84-101 | jobs back to back are served with a READY and a reply each, up to exactly `maxcycles` of them, and the end at `maxcycles` is silent |
| PoolClient.SendsTurn | pyqgiswps/poolserver/worker.py:84-115 | a receive timeout sends its READY alone, a restart ends the loop with DONE |
| PoolClient.LoopIsSteps | pyqgiswps/poolserver/worker.py:81-119 | the worker loop on any script is a run of the protocol's worker steps with the same messages |
| Supervision.Client.NotifyBusy | pyqgiswps/poolserver/supervisor.py:59-64 | BUSY is sent only when the flag was down, which is up afterwards even if the send fails |
| Supervision.Client.NotifyDone | pyqgiswps/poolserver/supervisor.py:52-57 | DONE is sent only when the flag was up, which is down afterwards |
| Supervision.Supervisor.KillWorkerBusy | pyqgiswps/poolserver/supervisor.py:93-100 | a busy pid is killed and forgotten, its timer staying armed; another pid is left alone |
| Supervision.Supervisor.Receive | pyqgiswps/poolserver/supervisor.py:114-124 | a BUSY arms a new timer and overwrites the old entry, a DONE pops and cancels the entry, a DONE without one changes nothing |
| Supervision.Supervisor.RunTimer | pyqgiswps/poolserver/supervisor.py:107-110 | a timer due is disarmed and kills the pid it was armed for if and only if the pid is busy; one not due changes nothing |
| Supervision.Supervisor.StopAll | pyqgiswps/poolserver/supervisor.py:133-143 | exactly the held timers are cancelled and nobody is busy |
| Supervision.FireKeeps | pyqgiswps/poolserver/supervisor.py:107-110 | a firing keeps entries, timers and books in agreement and adds at most the one kill |
| Supervision.DueTimerKills | pyqgiswps/poolserver/supervisor.py:107-119 | the timer an entry holds kills its pid from one timeout after the BUSY that armed it on, and not before |
| SupervisedWorkers.StalledWorkerDies | pyqgiswps/poolserver/supervisor.py:102-124 | in every run, losses included: a live worker whose last processed notification is a BUSY has a timer, whose firing kills it exactly from one timeout after that BUSY on |
| SupervisedWorkers.KillConservation | pyqgiswps/poolserver/supervisor.py:93-143 | in every run, losses and repetitions included: BUSYs that found the pid absent are DONE pops plus kills plus the stop plus one if still busy |
| SupervisedWorkers.NoKillAfterStop | pyqgiswps/poolserver/supervisor.py:133-143 | nothing is killed after the stop, overwritten timers included |
| SupervisedWorkers.InTimeIff | pyqgiswps/poolserver/supervisor.py:107-124 | a timer kills one full timeout after the last BUSY exactly when the entry's own timer is due |
| SupervisedWorkers.EarlyKillAfterLoss | pyqgiswps/poolserver/supervisor.py:45-57 | a lost DONE lets the timer of an earlier job kill the live worker one second of ten into its next one |
| SupervisedWorkers.TimerKillsStalledJob | pyqgiswps/poolserver/supervisor.py:102-124 | as long as none of the worker's own DONEs is refused, a timer kills it alive only if its BUSY was processed a timeout ago with nothing since, and its job is that one unless its DONE is next to come |
| SupervisedWorkers.EarlyKillNeedsLoss | pyqgiswps/poolserver/supervisor.py:45-57 | an early kill of a live worker is by a timer other than its entry's, and one of its own DONEs was refused |
| SupervisedWorkers.EarlyKillIff | pyqgiswps/poolserver/supervisor.py:102-124 | from any reachable state, some continuation that refuses no DONE of a live worker ends in its early kill if and only if the worker is not calm, and then one that refuses nothing of it does |
| SupervisedWorkers.EarlyKillAheadIff | pyqgiswps/poolserver/supervisor.py:107-124 | by waiting alone a busy live worker can come to an early kill if and only if a leftover timer of its pid is armed and due before its entry's |
| LruCaches.LruCache.SetItem | pyqgiswps/utils/lru.py:49-62 | the key becomes the newest entry, the oldest ones beyond the capacity go |
| LruCaches.LruCache.GetItem | pyqgiswps/utils/lru.py:42-47 | a held key is returned and becomes the newest; a missing one changes nothing |
| LruCaches.LruCache.DelItem | pyqgiswps/utils/lru.py:64-67 | the key goes, the others keep their order; a missing key changes nothing |
| LruCaches.LruCache.Resize | pyqgiswps/utils/lru.py:103-117 | exactly the `size` newest entries stay, and a size not above zero is refused |
| LruLaws.RunIncluded | pyqgiswps/utils/lru.py:42-67 | on the same operations a smaller cache always holds an ordered part of a larger one, same values, behind by the spare capacity at most |
| LruLaws.RunIsNewestRecent | pyqgiswps/utils/lru.py:42-62 | the bounded table is the newest `capacity` entries of the unbounded history of touches |
| LruLaws.Exactness | pyqgiswps/utils/lru.py:42-62 | after sets and successful gets the table is exactly the last `capacity` distinct keys touched, oldest first, each with its last set value |
| LruLaws.DelCuts | pyqgiswps/utils/lru.py:64-67 | a deletion cuts one entry out of its place and leaves the rest in order |
| LruLaws.SetAllHolds | pyqgiswps/utils/lru.py:49-62 | entries set one after the other are all held as long as they fit |
| ProjectCache.GetProject | pyqgiswps/qgscache/handlers/file_handler.py:37-70 | the suffix search and the reload-if-newer rule give the same answer as the lookup of the first existing candidate |
| ProjectCache.QgsCacheManager.UpdateEntry | pyqgiswps/qgscache/cachemanager.py:223-242 | the entry holds what was fetched, and the update flag tells whether it was absent or its timestamp changed; a project the layer check refuses is an error that changes nothing |
| ProjectCache.QgsCacheManager.Lookup | pyqgiswps/qgscache/cachemanager.py:249-253 | table and answer are those of the lookup function; the final access never misses |
| ProjectCache.QgsCacheManager.RemoveEntry | pyqgiswps/qgscache/cachemanager.py:168-171 | the entry goes, and a missing one is an error that changes nothing |
| ProjectCache.FileCache.Validate | pyqgiswps/utils/filecache.py:50-66 | an outdated entry is deleted before the read, whose project is stored as it is; an up-to-date one is left alone |
| ProjectCache.FileCache.Lookup | pyqgiswps/utils/filecache.py:73-75 | table and answer are those of the lookup function; the final access never misses |
| ProjectCacheLaws.Transparency | pyqgiswps/qgscache/cachemanager.py:223-253 | after any run in which the key's own files grow newer, with lookups, evictions, removals and clears, a lookup of it gives what a fresh read gives and reports a reload exactly when no up-to-date entry was held; for both caches |
| ProjectCacheLaws.FreshIffNewer | pyqgiswps/qgscache/handlers/file_handler.py:64-70 | a changed file is seen if and only if its modification time is greater than the cached one |
| ProjectCacheLaws.Reread | pyqgiswps/qgscache/handlers/file_handler.py:64-70 | over a run of lookup, change, lookup: the second gives the new project if its time is greater and the old one if not |
| ProjectCacheLaws.StaleRun | pyqgiswps/qgscache/handlers/file_handler.py:64-65 | a run in which a change at an unchanged time is not seen, by either cache |
| ProjectCacheLaws.SameLookup | pyqgiswps/qgscache/cachemanager.py:271-276 | the two caches answer alike, and hold the same table after a lookup, if and only if it needs no read or the strict layer check accepts |
| ProjectCacheLaws.RefusedLookup | pyqgiswps/utils/filecache.py:61-66 | on a project the check refuses the manager fails and keeps its table, the file cache answers with it and stores it |
| ProjectCacheLaws.RefusedProject | pyqgiswps/qgscache/cachemanager.py:274-275 | there is such a project |
| ProjectCacheLaws.SameRunsIff | pyqgiswps/utils/filecache.py:50-75 | the two caches have the same table and recency order at every moment of a run if and only if each of its lookups needs no read or passes the check |
| ProjectCacheLaws.LenientRunsAgree | pyqgiswps/qgscache/cachemanager.py:274-276 | without the strict check the two caches are the same on every run |
| ProjectCacheLaws.SuffixOrder | pyqgiswps/qgscache/handlers/file_handler.py:50-62 | a path without a project suffix finds the ".qgs" file before the ".qgz" one, or fails |
| ContextProcesses.ProcessingExecutor.GetProcesses | pyqgiswps/executors/processingexecutor.py:195-227 | an unknown identifier is an error; with a map, one process per identifier in order, equal to a fresh creation in the current generation, cached or not; created ones are cached in order and held ones touched, so that up to fifty identifiers are all held afterwards |
| ContextProcesses.ProcessingExecutor.ReloadQgisProcesses | pyqgiswps/executors/processingexecutor.py:229-239 | a successful reload replaces the processes and empties the contextual cache, a failed one changes nothing |
| ContextProcesses.CurrentApply | pyqgiswps/executors/processingexecutor.py:212-226 | every cache operation, evictions included, keeps each entry equal to a fresh creation |
| ContextProcesses.StoredHold | pyqgiswps/executors/processingexecutor.py:221-226 | up to fifty processes created together are all cached |
| ContextProcesses.LastWins | pyqgiswps/executors/processingexecutor.py:236-236 | of processes with one identifier the last is kept |
| JobRecords.LogStore.LogRequest | pyqgiswps/executors/logstore.py:37-72 | a new record without status that carries the request's timeout, expiration, identifier, map, realm and conformance, and the request document |
| JobRecords.NewRecordFields | pyqgiswps/executors/logstore.py:45-62 | what a new record holds, field by field |
| JobRecords.LogStore.UpdateResponse | pyqgiswps/executors/logstore.py:90-134 | the stored record, or one logged anew, is edited and stored back; a KeyError leaves it as it was |
| JobRecords.UpdatedKeeps | pyqgiswps/executors/logstore.py:105-134 | an update of a good record never fails and gives a good one: a terminal status has end, expiry and files and no pid, and a pid comes only from a start or from the copy |
| JobRecords.UpdatedFields | pyqgiswps/executors/logstore.py:105-134 | when an update fails, and what it sets and leaves of any record, field by field |
| JobRecords.LogStore.UpdateStatus | pyqgiswps/app/request.py:157-197 | document and record written as one step leave every document with a record |
| JobRecords.LogStore.DeleteResponse | pyqgiswps/executors/logstore.py:169-178 | record and both documents go together |
| JobRecords.LogStore.DeleteResults | pyqgiswps/executors/processingexecutor.py:133-167 | without force, an unknown job is an error and an unfinished one is kept |
| JobRecords.DocumentOfRecord | pyqgiswps/ogc/api/request.py:182-270 | the job document of a good record misses no key and shows the record's fields; a finished job shows when it ended and an expiry one expiration later, an unfinished one neither; each status has its own name |
| JobRecords.DocumentMisses | pyqgiswps/ogc/api/request.py:201-231 | of any record the document misses a key exactly for an unknown status or an end without an expiry |
| JobRecords.LogStore.Dismiss | pyqgiswps/ogc/api/request.py:314-336 | an unknown job is no error; a kill is asked for exactly for an unfinished job with a pid; record and documents go |
| JobRecords.LogStore.CleanProcesses | pyqgiswps/executors/processingexecutor.py:359-404 | exactly the unpinned records that are dangling or expired go, with their documents, and a second pass at that time finds nothing |
| JobRecords.ReapedIff | pyqgiswps/executors/processingexecutor.py:377-393 | the reaper's rule on any record: unpinned, and never updated, or before its end for its timeout or without one, or else for its expiration or the default |
| JobRecords.ReaperBounds | pyqgiswps/executors/processingexecutor.py:377-393 | a pinned record, an unfinished job within its timeout and a finished one within its expiration are spared; every unpinned record is reclaimed by the later of the two |
| JobRecords.ReapedAtExpiry | pyqgiswps/executors/logstore.py:124-127 | the reaper takes a finished job exactly from the expiry its job document shows |
| JobRecords.ReapedAfterUpdate | pyqgiswps/executors/processingexecutor.py:377-393 | a record just updated is reclaimed exactly one expiration later if the status is terminal, one timeout later if not |
| JobReaping.RecordOfRequest | pyqgiswps/executors/logstore.py:94-103 | in every reachable state the record is of the job's own request, even one logged anew after a deletion |
| JobReaping.ReapedOnTime | pyqgiswps/executors/processingexecutor.py:377-393 | in every reachable state the record is reclaimed exactly when never updated, or once the timeout of the request has passed since the last update of an unfinished job, or its expiration since the end |
| JobReaping.OutcomeRecorded | pyqgiswps/executors/processingexecutor.py:336-357 | with no late timeout and no deletion, DONE is recorded once the worker replied with success, ERROR once with a failure |
| JobReaping.FailureRecordable | pyqgiswps/executors/processingexecutor.py:352-357 | until its reply a worker can come to record ERROR, before its start and after DONE too |
| JobReaping.ReplyCloses | pyqgiswps/executors/processingexecutor.py:286-324 | a reply received closes the call, after ERROR is written if it relays a failure |
| JobTheorems.RunKeeps | pyqgiswps/executors/processingexecutor.py:258-357 | every interleaving keeps the invariant of records, writers, turns and documents |
| JobTheorems.AlwaysReadable | pyqgiswps/ogc/api/request.py:201-253 | in every reachable state, late and overlapping writes included, the record is good, its job document misses no key, and an ended job is reaped exactly from the expiry shown |
| JobTheorems.AcceptedOnce | pyqgiswps/executors/processingexecutor.py:267-311 | ACCEPTED is stored once at most, by the server, and before the job can be dispatched |
| JobTheorems.StatusNeverDecreases | pyqgiswps/executors/processingexecutor.py:258-357 | with no late timeout and no deletion the recorded status never decreases, command by command |
| JobTheorems.TerminalAbsorbingIff | pyqgiswps/executors/processingexecutor.py:313-357 | a terminal status can come to be a non-terminal one if and only if the worker is still before the end of its job |
| JobFinality.EndedIsDoneOrError | pyqgiswps/executors/processingexecutor.py:258-357 | a terminal status recorded is DONE or ERROR |
| JobFinality.StatusFinalIff | pyqgiswps/executors/processingexecutor.py:313-357 | some continuation without deletion changes the status of an ended job if and only if, for ERROR, the worker is before the end of its job or about to store another status, and for DONE, somebody is left to write |
| JobDismissal.DismissalHitsOwnJob | pyqgiswps/ogc/api/request.py:326-336 | whenever the record leads to a kill, the pid is that of the job's worker, which is still in this very job or dead |
| JobDismissal.DismissalMissesIff | pyqgiswps/executors/processingexecutor.py:336-357 | after such a read the worker may end the job and reply, if and only if it is alive |
| JobRuns.DismissalKills | pyqgiswps/ogc/api/request.py:326-331 | a reachable state, with no late timeout and no deletion, whose record leads to a kill while the worker is in the job |
| WorkerKills.KillHitsKnownJobIff | pyqgiswps/poolserver/supervisor.py:93-100 | with none of the worker's own DONEs refused, a request kills a live worker taken for busy, and ends the job the supervisor knows of if and only if the worker's channel is empty |
| WorkerKills.DismissalHitsIff | pyqgiswps/ogc/api/request.py:317-331 | a kill requested after the read of the record ends the job the worker was then in if and only if the supervisor takes the worker for busy and the worker has sent nothing since |
| WorkerKills.KillHitsLaterJob | pyqgiswps/poolserver/supervisor.py:93-100 | a run, nothing refused, in which the worker ends its job and begins the next between the read and the kill, which takes the next |
| JobTheorems.PidReturnsIff | pyqgiswps/executors/logstore.py:96-134 | a pid returns to a terminal record if and only if the worker holds a copy read before it and not yet stored |
| JobTheorems.PidGone | pyqgiswps/executors/logstore.py:124-134 | with no late timeout and no deletion it never returns |
| JobTheorems.UninterruptedUpdate | pyqgiswps/app/request.py:175-184 | the Redis commands of an uninterrupted update do together what the one-step update does |
| JobTheorems.DocumentsHaveRecords | pyqgiswps/app/request.py:175-184 | a document without a record needs a deletion, and an update under way or a worker killed in one |
| JobTheorems.LeakForGoodIff | pyqgiswps/executors/processingexecutor.py:377-404 | such a document stays without a record in every continuation that does not delete it if and only if nobody is left to write; any update to come logs the job anew |
| JobRuns.LatePidReturns | pyqgiswps/executors/processingexecutor.py:313-317 | a reachable state with ERROR recorded and no pid, where the worker's next command records STARTED with its pid |
| JobRuns.LateDoneOverwrites | pyqgiswps/executors/processingexecutor.py:313-317 | a reachable state with ERROR recorded and the worker past the start of its last update, where its next command records DONE |
| JobRuns.LeakHappens | pyqgiswps/app/request.py:179-184 | a reachable state with a response document and no record, in which every continuation that deletes nothing leaves it so |
| Text.SplitUnique | pyqgiswps/ogc/ows/request.py:689-704 | splitting gives the only list of delimiter-free parts that joins to the string |
| Text.StripCuts | pyqgisservercontrib/lizmapacl/filters.py:193-194 | stripping cuts exactly the white space at both ends |
| Text.Spaces | pyqgisservercontrib/lizmapacl/filters.py:193-194 | spaces, tabs and line ends are cut, printable characters are not |
| PolicyIndex.ConfiguredRule | pyqgisservercontrib/lizmapacl/filters.py:59-77 | a list is taken as it is and a string cut at its commas, anything else is an error, and an empty string does not make a rule global |
| PolicyIndex.AddressedBy | pyqgisservercontrib/lizmapacl/filters.py:183-196 | with a header of names between commas, a rule is met by its user, by a name with the spaces around it cut, by "all", or by naming nobody |
| PolicyIndex.AddressedAlone | pyqgisservercontrib/lizmapacl/filters.py:188-196 | without a group header only the user counts |
| PolicyIndex.OnMapBy | pyqgisservercontrib/lizmapacl/filters.py:166-179 | a rule bound to maps holds on the last MAP value only, and without one not |
| PolicyIndex.FiledLast | pyqgisservercontrib/lizmapacl/filters.py:119-133 | a new rule goes to the end of the lists it is filed under, once for each time it names the key |
| PolicyIndex.SpacedGroupIsDead | pyqgisservercontrib/lizmapacl/filters.py:192-194 | a configured group with spaces around it is met by no request: the rule holds as its other names do |
| PolicyIndex.IndexFinds | pyqgisservercontrib/lizmapacl/filters.py:119-133 | a key of the index leads to exactly the rules filed under it |
| PolicyIndex.KeysMeet | pyqgisservercontrib/lizmapacl/filters.py:183-196 | a rule is under some key of the request exactly when it names nobody, the user, a group of the user or "all" |
| PolicyIndex.IndexIsScan | pyqgisservercontrib/lizmapacl/filters.py:159-204 | a definition is gathered through the index if and only if a plain scan of the rules finds it |
| AccessPolicies.PolicyManager.ParsePolicy | pyqgisservercontrib/lizmapacl/filters.py:119-133 | the loops file the rules in order |
| AccessPolicies.PolicyManager.AddPolicyFor | pyqgisservercontrib/lizmapacl/filters.py:159-181 | the definitions of a key's rules that hold on the request's map, in order |
| AccessPolicies.PolicyManager.AddPolicy | pyqgisservercontrib/lizmapacl/filters.py:183-204 | what is gathered for a request is what the plain scan finds |
| AccessPolicies.AccessPolicy.AddPolicy | pyqgiswps/accesspolicy.py:41-51 | both lists grow, or an invalid value is an error; an invalid `deny` is found after `allow` was added |
| AccessPolicies.AccessPolicy.Allow | pyqgiswps/accesspolicy.py:81-88 | an allowing pattern wins over denying ones, and with none of either the process is allowed |
| AccessPolicies.DecisionByRules | pyqgiswps/accesspolicy.py:81-88 | the decision through the index, stated on the rules that apply |
| AccessPolicies.AllowsBy | pyqgiswps/accesspolicy.py:25-32 | what a rule allows or denies, by the kind of its value: one pattern, "all", a list, none |
| AccessPolicies.OnlyPatternOpens | pyqgiswps/accesspolicy.py:25-51 | one rule that denies "all" and allows a pattern opens what the pattern matches and what the default policy allows |
| AccessPolicies.AllOpensOrCloses | pyqgiswps/accesspolicy.py:25-32 | an applying rule that allows "all" opens everything, one that denies it closes what nothing allows |
| AccessPolicies.OrderFree | pyqgiswps/accesspolicy.py:81-88 | neither the order of the rules nor repeated ones change the decision |
| AccessPolicies.Authorize | pyqgiswps/middleware.py:91-102 | the loop over the definitions ends in the decision the rules call for, errors included |
| KvpInputs.ParseFields | pyqgiswps/ogc/ows/request.py:690-705 | one segment is parsed, or fails on any part without exactly one "=" |
| KvpInputs.GetDataFromKvp | pyqgiswps/ogc/ows/request.py:678-719 | the loop computes the entries of all segments, fallbacks included |
| KvpInputs.SegmentRoundTrip | pyqgiswps/ogc/ows/request.py:690-705 | parsing an encoded input gives its identifier and fields |
| KvpInputs.SegmentAcceptedIff | pyqgiswps/ogc/ows/request.py:690-717 | a segment is accepted if and only if it is the encoding of an input |
| KvpInputs.ReadsBackIff | pyqgiswps/ogc/ows/request.py:700-705 | all attributes can be read back if and only if none clash, "xlink:href" and "href" being one |
| KvpInputs.ClashingInput | pyqgiswps/ogc/ows/request.py:696-705 | an attribute called "data" takes the place of the value |
| KvpInputs.HrefReadsBack | pyqgiswps/ogc/ows/request.py:702-705 | a reference written as "xlink:href" is read back as "href" and nothing else |
| KvpInputs.AttributeReadsBack | pyqgiswps/ogc/ows/request.py:695-705 | any other attribute is read back under its own name, with identifier and data |
| KvpInputs.RepeatedAttribute | pyqgiswps/ogc/ows/request.py:700-705 | of two attributes of one name the later stays |
| KvpInputs.EntryAt | pyqgiswps/ogc/ows/request.py:709-717 | a bad segment always ends as its fallback, and every identifier that is not one leads to its inputs in order |
| KvpInputs.EntryOf | pyqgiswps/ogc/ows/request.py:709-717 | every entry is of some segment, under its text or its identifier |
| KvpInputs.GroupedIff | pyqgiswps/ogc/ows/request.py:709-717 | bad segments leave all inputs grouped if and only if none is the text of an identifier in use |
| KvpInputs.InputLost | pyqgiswps/ogc/ows/request.py:715-717 | an input followed by its bare identifier is lost |
| KvpInputs.RoundTrip | pyqgiswps/ogc/ows/request.py:678-719 | any non-empty list of delimiter-free inputs, encoded and parsed, is grouped by identifier in order, with all attributes when their names are distinct |
| KvpInputs.TwoInputs | pyqgiswps/ogc/ows/request.py:689-712 | the encoding written out: an input with an attribute and a second one of its identifier |
| KvpInputs.NoInputs | pyqgiswps/ogc/ows/request.py:684-689 | no parameter gives nothing, an empty one an empty entry |
| KvpInputs.OutputKeys | pyqgiswps/ogc/ows/request.py:713-717 | the entries of outputs are those of the segments and no others |
| KvpInputs.LastOutputWins | pyqgiswps/ogc/ows/request.py:713-717 | for outputs the last segment with a key wins |

## Left out

- ZeroMQ, pickle, asyncio and Redis themselves: channels are FIFO per worker, event-loop steps between awaits are atomic, correlation ids are fresh, jobs and results can be pickled, Redis commands succeed.
- The number of seconds of a wait: any waiting call may time out at any moment. `maxqueue` is checked as in the code, on dispatched calls only, and no bound on waiting calls is claimed.
- Cancellation of a caller from outside, and the closing of the client.
- `_FactoryDelegate` (pyqgiswps/executors/processfactory.py:55-128): one queue carries requests and replies, so what it does rests on the lock order of the operating system.
- `Pool` repopulation, `componentmanager`, `watchfiles`: short case analysis.
- `pin_response` (pyqgiswps/executors/logstore.py:136-159): it looks up the `uuid` module and not the job, so it never pins; the reaper takes `pinned` as any flag.
- Clocks: the reaper compares a naive time with aware ones, and `expire_at` is written in local time; they agree on a UTC host only, and one clock is modelled.
- Working directories of jobs, and the document texts themselves; whether a response document is empty is an input of each update.
- Exceptions raised inside an update by a failing Redis or file system; an exception of the job itself, before, during or after it, is modelled.
- Read flags and the bad-layer handler, which the cache manager sets and the file cache does not: both read a content into the same project, whatever `QgsProject.read` returns, and the manager's strict check is any predicate of the content.
- QGIS: a project is a function of file content, a contextual process a function of generation, map and identifier. Creation that fails gives an empty list, as the factory does.
- URL aliases and query merging of the cache manager: an abstract resolution from key to path. `QgisStorageHandler` has the same timestamp rule and is not repeated.
- `FileCache.on_cache_update`, a hook that does nothing.
- Iteration, `items`, `keys` and `values` of `lrucache`.
- `Path.match` is an arbitrary predicate; its exception on an empty pattern is not modelled. Reading the YAML policy files is not modelled; names in lists are strings.
- The order of the identifiers in the dictionary of parsed inputs; the order within an identifier is modelled.
- HTTP handlers, XML and JSON documents beyond the keys of the job document, middleware path rewriting, logging, configuration.
- JobRecords.DocumentOfRecord: links and titles of the job document are not modelled, because no record key decides them except the conformance, which is.
- WorkerKills.DismissalHitsIff: the job record and the supervisor are two state machines; that a worker's flag is up whenever it updates its record is taken from the loop (pyqgiswps/poolserver/worker.py:88-97) as a precondition.
