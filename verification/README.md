# A model of async-task-worker

This project models an asyncio task worker in Dafny and proves what its parts promise together: a
cancellable priority queue, a worker pool, an executor with a result cache, task records and
futures, a publish/subscribe manager and an event-stream parser.

Each component comes in up to three layers. Functions say what an operation does to a state given
as a value; classes carry the source's fields and run the operations in place, with contracts that
tie the objects to those functions; lemmas prove properties of the functions over all inputs and
all runs.

- `Queue`, `QueueHistory`: the lazy-deletion priority queue and its statistics.
- `Status`, `Futures`: task records with throttled progress, and the futures clients wait on.
- `Protocol`: clients, workers and executions as a transition system. With an unbounded queue no
  lock is held across a suspending `await`, so the code between two suspensions is one step; what
  the scheduler, the user's functions and the garbage collector choose is in the step's label.
  `ProtocolInvariant`, `Lifecycle`, `Outcomes`, `Cancellation`, `QueueAccounting`, `Drain` and
  `PoolLoss` prove its properties; `Witnesses` gives runs that show how cancelling can go wrong.
- `Worker`, `WaitForTasks`: the worker's objects in place, carrying out the protocol's steps.
- `LockOrder`, `Deadlock`: the locks, handed over first come, first served, and interleaved at every
  lock operation, also with a bounded queue.
- `MemoryCache`, `MemoryCacheRuns`, `AsyncCache` (module `AsyncCaching`), `Executor`: the LRU and TTL
  store, the cache with its id index, and execution with the cache. `Invalidation` and `CacheUse` say what
  these do for callers; `CachedWorker` joins the executor
  to the protocol, whose cache answers and returned values are then the executor's.
- `Serialization`, `SerializationExactness`, `Encodability`: the MessagePack hooks as tree transformations.
- `Sse`: the line splitter and event machine, a restricted form of sections 9.2.5 and 9.2.6 of the
  WHATWG HTML Living Standard.
- `EventManager` (module `EventManagement`): publish and subscribe.

Check everything with `dafny verify dfyconfig.toml`.

Clocks are parameters. The key functions, `str()`, the size of packed bytes, JSON parsing and the
results of user functions are parameters too. Task ids and subscriber ids are unique, as the
source makes them with `uuid4` unless the caller supplies a task id.

Where the code differs from its own documentation, the model follows the code:

- A cancelled running task usually ends up FAILED, since the executor turns the cancellation into an
  error the pool reports as a failure (`Lifecycle.CancelledFailsExactly`,
  `Lifecycle.CancelStaysExactly`, `Witnesses.CancelledCanFail`).
- A cancellation that arrives before an execution's first step ends the worker's loop, so the pool
  shrinks (`PoolLoss.AliveExactly`, `PoolLoss.LostPoolNeverDrains`).
- Retention can forget a cancelled entry that is still in the heap, which is then executed
  (`Cancellation.CancelledStartsExactly`, `Witnesses.CancelledCanStart`) and counted down twice in
  the queue's size (`QueueAccounting.QueueSizeExactly`).
- A bounded queue can deadlock as soon as two clients use the worker (`Deadlock.DeadlockFreeExactly`).
- The cache key of the worker does not contain the function's name, although its comments say so
  (`Executor.WorkerKeyIgnoresFunction`, `CachedWorker.WorkerKeyMisleads`).
- A memory cache of size 0 stores one entry (`MemoryCacheRuns.SizeBoundExactly`).
- The stream parser loses events whose empty line ends in CR LF, and lets the type and id of an empty
  event pass to the next one (`Sse.CrLfExactly`, `Sse.BlockStandsAloneExactly`).
- Progress reported after completion can be hidden (`Status.LateReports`).

## Model

| member | source | states |
|---|---|---|
| `Queue.PutInserts` | src/async_task_worker/queue.py:99-112 | On consistent tracking, `put` of a new id adds exactly that entry to the live ones, leaves the others as they are, and keeps heap, id sets, entry times and size in step |
| `Queue.RemoveDeletes` | src/async_task_worker/queue.py:200-225 | `remove_task` reports whether the id was live and, seen through the live entries, deletes it, without touching the heap |
| `Queue.GetReturnsMin` | src/async_task_worker/queue.py:143-177 | One get returns the (priority, id) minimum of the live entries, drops exactly the cancelled entries before it, lowers the unfinished counter by their number, and waits exactly when nothing is live |
| `Queue.GetRemovesMin` | src/async_task_worker/queue.py:143-177 | Lazy deletion refines true removal: get takes the returned id, and nothing else, out of the live entries and keeps the tracking consistent |
| `Queue.GetTakesFirst` | src/async_task_worker/queue.py:92-107 | No live entry has a smaller priority number than the one handed out, and among those with the same number its id comes first: as a proper prefix, or by the smaller character at the first difference |
| `Queue.GetsAreOrdered` | src/async_task_worker/queue.py:143-177 | Two tasks handed out with no put in between come in the order of their priorities |
| `Queue.MinExists` | src/async_task_worker/queue.py:107-109 | A nonempty heap has a first entry by priority and then task id |
| `Queue.MinIsUnique` | src/async_task_worker/queue.py:107-109 | With unique ids that first entry is unique: the order never ties |
| `Queue.CleanExactly` | src/async_task_worker/queue.py:227-236 | Forgetting ids keeps the tracking consistent if and only if none of them still has an entry in the heap |
| `Queue.CleanForgets` | src/async_task_worker/queue.py:227-236 | Whatever is in the heap, the given ids are in no tracking collection afterwards and nothing else has changed |
| `Queue.ClearTrackingExactly` | src/async_task_worker/queue.py:253-260 | Clearing the tracking keeps it consistent if and only if the heap is empty |
| `Queue.ClearForgetsAll` | src/async_task_worker/queue.py:253-260 | Clearing leaves no id in any tracking collection, and heap, counter and statistics as they were |
| `Queue.QsizeCountsCancelled` | src/async_task_worker/queue.py:238-241 | The reported length is the number of live entries plus the cancelled ones still in the heap |
| `Queue.QueueStats.RecordEnqueue` | src/async_task_worker/queue.py:28-33 | The counters after an enqueue are those the history lemmas are about |
| `Queue.QueueStats.RecordDequeue` | src/async_task_worker/queue.py:35-55 | The counters, the window of waits and their mean after a dequeue are those the history lemmas are about |
| `Queue.QueueStats.RecordWait` | src/async_task_worker/queue.py:47-55 | The window keeps at most the last hundred waits and the average is theirs |
| `Queue.Total` | src/async_task_worker/queue.py:55 | The loop computes the sum of the waits |
| `Queue.TaskQueue.PutTask` | src/async_task_worker/queue.py:85-112 | The queue in place becomes the specification's queue after a put |
| `Queue.TaskQueue.GetValidTask` | src/async_task_worker/queue.py:136-177 | The skip loop ends and leaves the queue and the item exactly as the specification's get, whichever order the heap is in |
| `Queue.TaskQueue.RemoveTask` | src/async_task_worker/queue.py:200-225 | The queue in place and the answer are the specification's after a removal |
| `Queue.TaskQueue.MarkTaskDone` | src/async_task_worker/queue.py:179-181 | Lowers a positive counter by one and refuses otherwise, as `asyncio` does |
| `Queue.TaskQueue.CleanCancelledTasks` | src/async_task_worker/queue.py:227-236 | The loop over the ids forgets exactly those, whatever their order and repetitions |
| `Queue.TaskQueue.ClearAllTracking` | src/async_task_worker/queue.py:253-260 | All tracking is gone and the heap is untouched |
| `QueueHistory.HistoryIsConsistent` | src/async_task_worker/queue.py:85-236 | The tracking is consistent after every history in which ids are put once at a time and forgotten only off the heap |
| `QueueHistory.Conservation` | src/async_task_worker/queue.py:28-55 | After any such history enqueued = dequeued + removed + queued, counted on the history; the size is the number of live entries and the length is the size plus the cancelled entries |
| `QueueHistory.PeakIsHistoricalMaximum` | src/async_task_worker/queue.py:32 | The peak is the largest number of live entries at any point of the history |
| `QueueHistory.EntryTimesArePutTimes` | src/async_task_worker/queue.py:99-105 | Each recorded entry time is the time of the id's last put in the history |
| `QueueHistory.WaitTimesAreTheLastHundred` | src/async_task_worker/queue.py:46-55 | The recorded waits are the last hundred times between put and get in the history, and the average is their mean |
| `QueueHistory.AverageIsTheirs` | src/async_task_worker/queue.py:53-55 | The average times their number is the sum of the recorded waits, and 0 without any |
| `QueueHistory.SumSplits` | src/async_task_worker/queue.py:55 | That sum adds up however the waits are split |
| `Status.DisplayLagsLittle` | src/async_task_worker/status.py:138-159 | Over any reports and any clock, before completion, the shown progress is in [0,1], is less than the smallest change away from the latest clamped report, and is 1 when that is 1 |
| `Status.ShownIsLastDue` | src/async_task_worker/status.py:52-86 | The display is the last of the reports that were due, each judged against the one shown before it: by the first report, the end, the time passed or the change; every later one came too soon and changed too little |
| `Status.DueByDefault` | src/async_task_worker/status.py:38-50 | With the defaults a report is due a tenth of a second after the one shown or with a change of a fiftieth |
| `Status.ClampIsNearest` | src/async_task_worker/status.py:145 | A report counts as the nearest value from 0 to 1 |
| `Status.ZeroThresholdShowsAll` | src/async_task_worker/status.py:80-84 | Without a smallest change every report is shown |
| `Status.LateReports` | src/async_task_worker/status.py:138-188 | After any reports that arrive once the record is completed, the display is within the bound if and only if one of them passed the throttle as completion left it or the last is itself nearly 1 |
| `Status.LateReportCanBeHidden` | src/async_task_worker/status.py:68-86 | With the default thresholds a report of 0.51 just after completion stays hidden |
| `Status.ProgressUpdateStrategy.Decide` | src/async_task_worker/status.py:52-86 | Answers by the four conditions and remembers time and value exactly when the answer is yes |
| `Status.TaskInfo.Start` | src/async_task_worker/status.py:161-167 | The record in place after `mark_started`, which has no guard |
| `Status.TaskInfo.Complete` | src/async_task_worker/status.py:169-188 | The record in place after `mark_completed`: unchanged if terminal, else completed with result and full progress |
| `Status.TaskInfo.Fail` | src/async_task_worker/status.py:190-200 | The record in place after `mark_failed`, which has no guard |
| `Status.TaskInfo.Cancel` | src/async_task_worker/status.py:202-213 | The record in place after `mark_cancelled`, which has no guard |
| `Status.TaskInfo.ReportProgress` | src/async_task_worker/status.py:138-159 | The progress fields and the throttle's memory in place are those the throttle lemmas are about |
| `Futures.PendingAlwaysCovers` | src/async_task_worker/futures.py:91-195 | Through any operations, unresolved futures are never missing from the pending set |
| `Futures.CancelAllFreesEveryWaiter` | src/async_task_worker/futures.py:197-218 | After any history cancelling all futures leaves none unresolved |
| `Futures.SettledOnce` | src/async_task_worker/futures.py:116-144 | A settled future keeps its outcome through any operations, until it is garbage collected |
| `Futures.CancelAllExactly` | src/async_task_worker/futures.py:197-218 | Cancelling all forgets whom it tracked, cancels those of them who waited and leaves every other future |
| `Futures.CancelTells` | src/async_task_worker/futures.py:178-195 | Cancelling answers whether someone was waiting, frees him and stops tracking him |
| `Futures.CleanupTracksWaiters` | src/async_task_worker/futures.py:74-89 | The cleanup goes on tracking exactly those whose future is there and unresolved |
| `Futures.TaskFutureManager.Obtain` | src/async_task_worker/futures.py:91-114 | An existing future is returned as it is; otherwise a new pending one is made |
| `Futures.TaskFutureManager.StoreResult` | src/async_task_worker/futures.py:116-129 | Only an unresolved future is resolved, and leaves the pending set |
| `Futures.TaskFutureManager.StoreException` | src/async_task_worker/futures.py:131-144 | Only an unresolved future is failed, and leaves the pending set |
| `Futures.TaskFutureManager.StoreFromTask` | src/async_task_worker/futures.py:156-176 | A terminal record settles its future accordingly and a non-terminal one does nothing |
| `Futures.TaskFutureManager.Cancel` | src/async_task_worker/futures.py:178-195 | Cancels an unresolved future and says whether there was one |
| `Futures.TaskFutureManager.CancelEverything` | src/async_task_worker/futures.py:197-218 | Every unresolved pending future is cancelled, the pending set is emptied and the count is the number of waiters freed |
| `Futures.TaskFutureManager.CleanupFutures` | src/async_task_worker/futures.py:74-89 | Exactly the pending ids whose future is done or gone are dropped |
| `ProtocolInvariant.StepKeepsGood` | src/async_task_worker/core.py:574-737 | Every step of clients, workers and executions keeps the per-id agreement of record, queue, execution, pool dictionaries and future |
| `ProtocolInvariant.TakeNextView` | src/async_task_worker/pool.py:229-269 | Taking the next task starts exactly the returned id, drops cancelled ones from the queue and changes nothing else |
| `ProtocolInvariant.StepBalances` | src/async_task_worker/queue.py:143-181 | Every step keeps unfinished = heap size + executions in flight |
| `ProtocolInvariant.StepKeepsWorkers` | src/async_task_worker/pool.py:266-303 | Every step keeps each execution awaited by exactly one worker |
| `ProtocolInvariant.StepKeeps` | src/async_task_worker/pool.py:172-303 | Every enabled step keeps the whole invariant |
| `ProtocolInvariant.ReachableKeeps` | src/async_task_worker/core.py:215-778 | Every state of every run from an idle pool has the invariant, and its number of workers |
| `Protocol.RunsCompose` | src/async_task_worker/pool.py:172-303 | Runs can be put one after the other |
| `Lifecycle.StepFollowsEdge` | src/async_task_worker/status.py:161-213 | Every step changes a record along the allowed edges: no way back to pending, completed keeps its result, failed stays, cancelled may only become failed |
| `Lifecycle.TerminalIsClosed` | src/async_task_worker/core.py:574-737 | In every run a terminal task stays terminal, completed with its result is absorbing, and the only change of label is cancelled to failed |
| `Lifecycle.RunKeepsGone` | src/async_task_worker/core.py:739-778 | A record dropped by retention never comes back |
| `Outcomes.SubmittedIsNew` | src/async_task_worker/core.py:249-255 | A submitted task is pending without any outcome, and no other record is touched |
| `Outcomes.RaisedIsRecorded` | src/async_task_worker/pool.py:286-295 | When a worker resumes after an execution that raised, the record is failed, with that error and that moment |
| `Outcomes.EarlyCancelIsRecorded` | src/async_task_worker/pool.py:275-284 | After one cancelled before its first step it is cancelled, with the reason and the moment |
| `Outcomes.CancelIsRecorded` | src/async_task_worker/core.py:610-649 | `cancel_task` notes the moment and one of three reasons: before execution, during it, or after its end |
| `Outcomes.ReturnIsRecorded` | src/async_task_worker/core.py:684-704 | A value from the cache or the function completes a running task with it, then and there, and notes which it was; a task cancelled meanwhile keeps its outcome |
| `Outcomes.RaisedReachesWaiter` | src/async_task_worker/core.py:707-722 | A waiter is told the error by the step that records it |
| `Outcomes.CancelReachesWaiter` | src/async_task_worker/core.py:620-645 | A waiter on a task that is cancelled is told so by that call |
| `Outcomes.FirstFutureTells` | src/async_task_worker/futures.py:156-176 | A future asked for by the first time holds what the record says by then: nothing yet, the result, or the error or reason, with the source's text if that is empty |
| `Outcomes.ClosedRecordStands` | src/async_task_worker/status.py:161-213 | In every run the whole record of a failed or completed task, or of a cancelled one without an execution, stays as it is while it is kept |
| `Outcomes.FailureStands` | src/async_task_worker/futures.py:170-172 | From the report of an error on, in every run, the record has it, and a future first obtained at any later moment holds it |
| `Outcomes.PendingCancelStands` | src/async_task_worker/core.py:613-624 | The same of the reason and moment of a cancellation while pending |
| `Outcomes.ReturnStands` | src/async_task_worker/core.py:684-704 | The same of a result, the moment it came and whether the cache had it |
| `Outcomes.OnlyHoldersDrop` | src/async_task_worker/futures.py:74-89 | A future is cancelled by its holder only and is gone only when it is collected |
| `Outcomes.CleanupDropsExactly` | src/async_task_worker/core.py:745-770 | A retention pass drops exactly the ended tasks whose end lies before the cutoff, and changes no other record |
| `Outcomes.CleanupCounts` | src/async_task_worker/core.py:757-778 | It answers the number of records it dropped |
| `Outcomes.RetainedExactly` | src/async_task_worker/core.py:739-778 | In every run the record of an ended task is kept, unchanged, if and only if no pass has a cutoff after its end |
| `Lifecycle.CancelledFailsExactly` | src/async_task_worker/pool.py:271-295 | Cancelled becomes failed if and only if the step is a worker resuming after an execution of that task that ended with an error |
| `Lifecycle.CancelStaysExactly` | src/async_task_worker/core.py:610-649 | After `cancel_task` on an unfinished task its record stays cancelled in every run if and only if it was pending or its execution had not taken its first step |
| `Lifecycle.StaysCancelledExactly` | src/async_task_worker/executor.py:247-249 | A cancelled record stays so in every run if and only if its execution is neither in the user's function nor ended with an error |
| `QueueAccounting.StepDrift` | src/async_task_worker/queue.py:143-236 | In the protocol each step keeps the recorded size in step with the queued ids, but for taking a forgotten entry, which counts it down a second time |
| `QueueAccounting.QueueSizeExactly` | src/async_task_worker/queue.py:28-55 | In every run the recorded size is the number of pending tasks less the number of forgotten entries workers have taken |
| `Witnesses.CancelledCanFail` | src/async_task_worker/executor.py:247-249 | With any pool there is a run in which a cancelled task becomes a failed one |
| `Lifecycle.FuturesAgreeWithTasks` | src/async_task_worker/core.py:424-458 | In every reachable state: an unresolved future has an unfinished task on record, a result is the record's result, an exception belongs to a failed or cancelled task, and both future dictionaries have the same ids |
| `Lifecycle.FutureSettlesOnce` | src/async_task_worker/futures.py:116-144 | In every run that does not collect it, a settled future never changes |
| `Lifecycle.WaitedResultStands` | src/async_task_worker/core.py:481-512 | A result read from a record or a future at any moment is the task's result in every later state |
| `Lifecycle.ConcurrencyBound` | src/async_task_worker/pool.py:266-303 | In every reachable state at most `max_workers` tasks are running, the pool's two dictionaries have equal domains, and each tracked id is held by exactly one worker |
| `Lifecycle.WorkerExitsExactly` | src/async_task_worker/pool.py:203-205 | A worker leaves the pool if and only if the execution it awaits was cancelled before its first step |
| `Cancellation.CancelTaskDoes` | src/async_task_worker/core.py:574-651 | Returns true exactly for a known unfinished task; then the record is cancelled, no one waits on its future, a pending one is marked in the queue and a running one has been asked to stop; else nothing changes |
| `Cancellation.CancelledNeverStarts` | src/async_task_worker/queue.py:153-160 | In any run in which retention does not drop its record while it is in the heap, an entry marked cancelled is never handed to a worker |
| `Cancellation.ForgottenStarts` | src/async_task_worker/core.py:773-774 | An entry whose record is gone can leave the heap only by being executed |
| `Cancellation.CancelledStartsExactly` | src/async_task_worker/queue.py:227-236 | In a run that takes a cancelled entry out of the heap it is executed if and only if retention forgot it while it was there |
| `Cancellation.CancelledPendingNeverRuns` | src/async_task_worker/core.py:613-624 | After `cancel_task` on a pending task it returned true, and no later step of any worker starts that task, unless retention forgets the mark too early |
| `Witnesses.CancelledCanStart` | src/async_task_worker/core.py:773-774 | With any pool there is a run in which a task cancelled while pending is forgotten by retention and then started |
| `Drain.WorkDecreases` | src/async_task_worker/pool.py:184-205 | Every step of a worker or an execution lowers the measure, whatever the outcome of the user's function |
| `Drain.OthersAddNoWork` | src/async_task_worker/core.py:424-778 | Client calls other than submitting, retention and idle polls leave the measure as it is |
| `Drain.DrainIsBounded` | src/async_task_worker/pool.py:184-205 | In any run without submissions the number of worker and execution steps is at most the measure at its start |
| `Drain.DrainedExactly` | src/async_task_worker/queue.py:179-185 | The unfinished counter is zero if and only if the measure is, and never below the heap size |
| `Drain.CanWorkExactly` | src/async_task_worker/pool.py:184-205 | Some worker or execution can step if and only if something is unfinished and a worker is left |
| `Drain.TaskDoneIsMatched` | src/async_task_worker/pool.py:197-201 | Whenever a worker is about to call `task_done` the counter exceeds the heap size, so it is never called too often |
| `PoolLoss.RunLoses` | src/async_task_worker/pool.py:276-285 | In every run the workers gone, or about to leave when they resume, grow by exactly the number of cancellations of running tasks whose executions had not begun |
| `PoolLoss.AliveExactly` | src/async_task_worker/pool.py:203-205 | After any run that leaves no execution in progress, a worker is left if and only if there were fewer such cancellations than workers |
| `PoolLoss.DrainFinishesEverything` | src/async_task_worker/pool.py:184-205 | A run without submissions, after any other, that has come to rest has joined the queue, finished every record and left no one waiting, if fewer such cancellations than workers were made in all |
| `PoolLoss.EarlyCancellationLosesTheWorker` | src/async_task_worker/pool.py:203-205 | From any reachable state with an execution that has not begun, a cancellation can cost exactly the worker that awaits it |
| `PoolLoss.LostPoolNeverDrains` | src/async_task_worker/pool.py:203-205 | A pool of any size can reach a state with a pending task, no worker left and no step to take |
| `Worker.WorkerPool.CancelRunningTask` | src/async_task_worker/pool.py:305-346 | The pool in place after the request: a finished execution is only untracked, an unfinished one asked to stop, and the answer says which |
| `Worker.AsyncTaskWorker.constructor` | src/async_task_worker/core.py:71-122 | The worker starts in the protocol's initial state |
| `Worker.AsyncTaskWorker.AddTask` | src/async_task_worker/core.py:251-302 | The objects in place show the protocol's state after a submission, with a new record of their own |
| `Worker.AsyncTaskWorker.CancelTask` | src/async_task_worker/core.py:592-651 | The objects in place and the answer are the protocol's after a cancellation |
| `Worker.AsyncTaskWorker.GetTaskFuture` | src/async_task_worker/core.py:437-458 | The future dictionaries in place are the protocol's; false exactly for an unknown id |
| `Worker.AsyncTaskWorker.OnTaskStarted` | src/async_task_worker/core.py:680-682 | The record in place after the start callback, other records untouched |
| `Worker.AsyncTaskWorker.OnTaskCompleted` | src/async_task_worker/core.py:697-703 | Record and future in place after the completion callback |
| `Worker.AsyncTaskWorker.OnTaskFailed` | src/async_task_worker/core.py:716-720 | Record and future in place after the failure callback |
| `Worker.AsyncTaskWorker.OnTaskCancelled` | src/async_task_worker/core.py:733-737 | Record and future in place after the cancellation callback |
| `Worker.AsyncTaskWorker.CleanupOldTasks` | src/async_task_worker/core.py:749-778 | The three loops drop exactly the expired terminal records, cancel their futures and forget them in the queue, and count them |
| `Worker.AsyncTaskWorker.TakeTask` | src/async_task_worker/pool.py:187-269 | The worker's turn up to waiting for its execution is the protocol's step |
| `Worker.AsyncTaskWorker.BeginExecution` | src/async_task_worker/executor.py:121-142 | The execution's first step is the protocol's: cancelled, served from the cache or calling the user |
| `Worker.AsyncTaskWorker.EndExecution` | src/async_task_worker/executor.py:191-254 | The end of the user's function is the protocol's step |
| `Worker.AsyncTaskWorker.FinishTask` | src/async_task_worker/pool.py:271-303 | The rest of the worker's turn, with callbacks, untracking and `task_done`, is the protocol's step |
| `Worker.AsyncTaskWorker.Step` | src/async_task_worker/core.py:215-778 | Each enabled step of the protocol, from a state with the invariant, is carried out by these methods with exactly the protocol's effect |
| `Worker.CancelEach` | src/async_task_worker/core.py:768-771 | Cancelling the futures one by one cancels exactly the unresolved ones among the ids |
| `WaitForTasks.ScanCompleted` | src/async_task_worker/core.py:477-488 | Exactly the positions of complete tasks get their result and all the others are waited for, in order |
| `WaitForTasks.ObtainFutures` | src/async_task_worker/core.py:494-498 | Futures are obtained in order; the call goes on if and only if every id is known, and otherwise the first unknown one is the error |
| `WaitForTasks.CollectResults` | src/async_task_worker/core.py:500-512 | Returns one value per position, from the scan or the future, if and only if every future has a result; otherwise the first one without decides the error, also with unresolved ones behind it |
| `WaitForTasks.WaitReturnsResults` | src/async_task_worker/core.py:460-515 | Whatever runs between scan, obtaining and reading, each value is the result of the task asked for at that position, if its record is still kept |
| `WaitForTasks.BeginWait` | src/async_task_worker/core.py:474-498 | Scan and obtaining composed: fails exactly when an id is unknown, with the first one, else gives what was complete and the positions to wait for |
| `WaitForTasks.EndWait` | src/async_task_worker/core.py:500-515 | Once the wait is over it returns if and only if every awaited future has a result, each value then being the result of its task; otherwise the first future without one decides the error |
| `WaitForTasks.WaitForTasks` | src/async_task_worker/core.py:460-515 | The whole call returns if and only if every id is known and every awaited future has a result, with the results of the tasks at their positions after any run in between; else the first unknown id, or the first future without a result, decides the error |
| `LockOrder.EveryCallKeepsTheOrder` | src/async_task_worker/core.py:593-649 | Every call of worker, pool, queue, futures, cache and event manager takes its locks in one order, awaits nothing under a lock but a put under the queue lock alone, and gives every lock back |
| `LockOrder.ClientsCallIsTheirs` | src/async_task_worker/queue.py:103-112 | No call of a client or maintenance task takes an item out of the queue, and one that puts an item has just been given the queue lock |
| `LockOrder.WorkersCallIsPart` | src/async_task_worker/queue.py:143-154 | A worker's turn puts no item, and needs the queue lock only right after it has taken one |
| `LockOrder.TurnSplits` | src/async_task_worker/pool.py:229-303 | A turn on a cache miss is taking an item, the sections up to the user's function, and those after it |
| `Deadlock.StepKeeps` | src/async_task_worker/futures.py:101-114 | At run time every actor holds exactly the locks its remaining script will give back |
| `Deadlock.SomeoneCanStep` | src/async_task_worker/core.py:593-649 | In every state where a lock is held and no one waits for a slot of the queue, the holder of the highest lock can step, or the first in line for the free lock it needs |
| `Deadlock.LocksCanBeFreed` | src/async_task_worker/pool.py:267-303 | With an unbounded queue, or without clients, calls already begun can release every lock within as many steps as there are instructions left |
| `Deadlock.OneClientKeeps` | src/async_task_worker/queue.py:103-112 | With one client every step keeps this: behind a client that is in line for the queue lock, or waits for a slot under it, no worker is in line unless the queue has a slot |
| `Deadlock.SlotOpens` | src/async_task_worker/queue.py:143-154 | So a single client that waits for a slot in a full queue is given one by the workers, without a step of its own |
| `Deadlock.OneClientFrees` | src/async_task_worker/queue.py:103-154 | With one client and at least one worker every lock can be released from every state |
| `Deadlock.JamIsForever` | src/async_task_worker/queue.py:103-112 | A full queue with one client putting, one cancelling and every worker reporting is a deadlock no step ever resolves |
| `Deadlock.BoundedQueueCanJam` | src/async_task_worker/queue.py:103-112 | That deadlock is reachable for every positive queue size and number of workers, given two clients, with locks handed over first come, first served |
| `Deadlock.StrandedIsForever` | src/async_task_worker/queue.py:103-112 | Without workers a client that waits for a slot is the end of every run |
| `Deadlock.DeadlockFreeExactly` | src/async_task_worker/queue.py:66-83 | For every queue size, number of workers and number of actors: the locks can be freed from every reachable state if and only if the queue is unbounded, or there is no client, or there is one client and at least one worker |
| `MemoryCache.RunKeepsValid` | src/async_cache/adapters/memory.py:33-122 | Through any timed trace both dictionaries have the same keys, access times are distinct and past, and the capacity is respected |
| `MemoryCache.MemoryCacheAdapter.Get` | src/async_cache/adapters/memory.py:33-60 | The dictionaries in place and the answer are the specification's after a get |
| `MemoryCache.MemoryCacheAdapter.Set` | src/async_cache/adapters/memory.py:62-83 | The dictionaries in place are the old ones with the entry, after one used least recently has made room if it must; with distinct access times that is the specification's set |
| `MemoryCache.MemoryCacheAdapter.Remove` | src/async_cache/adapters/memory.py:85-100 | The dictionaries in place and the answer are the specification's after a delete |
| `MemoryCache.MemoryCacheAdapter.Reset` | src/async_cache/adapters/memory.py:102-106 | Both dictionaries are emptied |
| `MemoryCache.MemoryCacheAdapter.EvictLeastRecent` | src/async_cache/adapters/memory.py:108-122 | Exactly one key with the least access time leaves both dictionaries |
| `MemoryCache.MemoryCacheAdapter.FindOldest` | src/async_cache/adapters/memory.py:117-118 | The scan finds a key with the least access time |
| `MemoryCacheRuns.SizeBoundExactly` | src/async_cache/adapters/memory.py:77-79 | The size never exceeds `max_size` on any trace if and only if `max_size` is at least 1 |
| `MemoryCacheRuns.Inclusion` | src/async_cache/adapters/memory.py:33-122 | On the same trace a smaller cache stays inside a larger one with equal values, expiries and access times, and lags by no more entries than the difference of sizes |
| `MemoryCacheRuns.SmallHitsAreLargeHits` | src/async_cache/adapters/memory.py:33-60 | On the same trace every hit of a smaller cache is the same hit of a larger one |
| `MemoryCacheRuns.UnlimitedIsTimedMap` | src/async_cache/adapters/memory.py:33-83 | Without a limit a key hits if and only if the history last set it to a value that has not expired, and with that value |
| `MemoryCacheRuns.HitIsLastSet` | src/async_cache/adapters/memory.py:33-83 | At any size, a hit is the value last set in the history and unexpired |
| `MemoryCacheRuns.EvictedAfterMany` | src/async_cache/adapters/memory.py:108-122 | If a key is evicted then at least as many distinct other keys as the capacity were used since its last use |
| `MemoryCacheRuns.Survives` | src/async_cache/adapters/memory.py:77-122 | An entry not deleted or looked up stays unchanged while fewer distinct other keys are set or hit than the capacity |
| `MemoryCacheRuns.SetThenHit` | src/async_cache/adapters/memory.py:62-83 | After a set and such a stretch the key hits with the value set until it expires |
| `MemoryCacheRuns.HitThenHit` | src/async_cache/adapters/memory.py:57-60 | A hit counts as a use: after it the key goes on hitting, with the same value, while fewer distinct other keys are used than the capacity and until it expires |
| `AsyncCaching.CleanupExactly` | src/async_cache/core.py:629-683 | Cleanup removes a listed mapping if and only if its nonempty key is missing or expired when probed, keeps all others, drops an entry exactly when a probe finds it expired, and changes no value |
| `AsyncCaching.IdIsKey` | src/async_task_worker/adapters/cache_adapter.py:196-212 | After a set with an entry id, lookup by id equals lookup by key through any run that does not give the id another key or store the key again after the id was dropped |
| `AsyncCaching.IdIsKeyExactly` | src/async_task_worker/adapters/cache_adapter.py:206-212 | Right after a set the two lookups agree if and only if the key is nonempty or the value has expired |
| `Invalidation.InvalidateDeletes` | src/async_cache/core.py:436-494 | Invalidating a key deletes its entry, with or without an entry id, says whether there was one, drops the given id and leaves every other key and id as it was |
| `Invalidation.InvalidateByIdDeletes` | src/async_cache/core.py:496-527 | Invalidating by id deletes the entry of the id's key, says whether there was one, drops the id exactly then, and leaves the rest |
| `Invalidation.ClearDeletesAll` | src/async_cache/core.py:554-565 | Clearing leaves no entry and no id |
| `Invalidation.MissesUntilSet` | src/async_cache/core.py:488 | After a key was invalidated, by name or by id, or everything was cleared, no lookup of it, by key or by id, hits before it is set again, in any run |
| `Invalidation.SetThenGetExactly` | src/async_cache/core.py:352-434 | A value is stored if and only if the cache is on, the value fits and the key passes; a get then finds it exactly until its own or the default time to live is over |
| `Invalidation.GetRefusedExactly` | src/async_cache/core.py:318-346 | A get is refused if and only if the cache is on and the key does not pass, and then changes nothing |
| `Invalidation.LookupUses` | src/async_cache/adapters/memory.py:43-60 | A lookup that hits, by key or id, counts as a use of that entry; one that finds it expired deletes it; no other entry is touched |
| `Invalidation.ReachingIndexes` | src/async_cache/core.py:242-264 | A get or set that reaches the store gives its entry id the key and, with validation, remembers the key; other ids and keys stay |
| `Invalidation.CleanupForgetsKeys` | src/async_cache/core.py:667-680 | A cleanup pass forgets exactly the keys of the ids it drops |
| `Invalidation.OffIsInert` | src/async_cache/core.py:318-321 | Switched off, the cache finds nothing, stores nothing and changes nothing |
| `AsyncCaching.AsyncCache.Fetch` | src/async_cache/core.py:292-350 | The cache in place and the answer are the specification's after a get, with the index entry and the validation error |
| `AsyncCaching.AsyncCache.Store` | src/async_cache/core.py:352-434 | Answer, index and validated keys are the specification's after a set, and the store is filled after room was made; disabled, unserializable and too large values change nothing |
| `AsyncCaching.AsyncCache.Forget` | src/async_cache/core.py:436-494 | The cache in place and the answer are the specification's after an invalidation by key |
| `AsyncCaching.AsyncCache.ForgetById` | src/async_cache/core.py:496-527 | The cache in place and the answer are the specification's after an invalidation by id |
| `AsyncCaching.AsyncCache.FetchById` | src/async_task_worker/adapters/cache_adapter.py:196-212 | The cache in place and the answer are the specification's lookup by id |
| `AsyncCaching.AsyncCache.Reset` | src/async_cache/core.py:554-565 | Store, index and validated keys are emptied |
| `AsyncCaching.AsyncCache.ResolveKey` | src/async_cache/core.py:242-264 | Validation refuses the empty key and remembers the others; a failing key function falls back to the default key without validation |
| `AsyncCaching.AsyncCache.CleanupStaleMappings` | src/async_cache/core.py:629-683 | The probing and removal loops leave exactly what the specification's cleanup does |
| `Executor.CompletionFiresOnce` | src/async_task_worker/executor.py:134-141 | In every run the completion callback is called exactly once for an execution that returned, with its value, and never for one that raised |
| `Executor.HitIsRight` | src/async_task_worker/executor.py:128-142 | If equal keys mean equal results, a hit is what the function would return |
| `Executor.RunKeeps` | src/async_task_worker/executor.py:113-254 | Under that hypothesis every run, through any interleaving of executions, evictions, expiries, invalidations and cleanups, keeps each return equal to the function's result |
| `Executor.TransparentExactly` | src/async_task_worker/executor.py:113-241 | Every run returns what the functions return if and only if equal keys mean equal results wherever a result can be stored |
| `Executor.WorkerKeyIgnoresFunction` | src/async_task_worker/core.py:291-293 | The key prescribed by `add_task` is the same for two functions called with the same arguments |
| `Executor.WorkerNeedsOneFunction` | src/async_cache/key_utils.py:89-99 | So with that key, two functions that differ on the same arguments make some run return the wrong result |
| `CacheUse.AnsweredExactly` | src/async_task_worker/executor.py:113-142 | A request is answered at once if and only if it did not opt out, the cache is on, its key passes and an unexpired entry is under it; then with that entry's value, told as from the cache; else its function is to be called and no one is told anything |
| `CacheUse.OptOutStaysOut` | src/async_task_worker/executor.py:114-204 | A request that opts out, or whose key is refused, leaves the cache alone when it begins and, after any run in between, however it ends |
| `CacheUse.ReturnIsStored` | src/async_task_worker/executor.py:203-218 | Any other stores what its function returns, if the cache is on by then and the value fits, under its key and its entry id, until its own or the default time to live is over |
| `CacheUse.EndsAs` | src/async_task_worker/executor.py:230-254 | A return is reported as its value, once, and an error, a cancellation and a timeout each as their own error, to no callback and without touching the cache |
| `CachedWorker.TurnKeepsLink` | src/async_task_worker/pool.py:250-269 | With pool and executor stepping together, every step keeps their agreement under each id: the executor runs exactly the executions that are in the user's function, and has given every value an execution, a completed record or a resolved future holds |
| `CachedWorker.RunProjects` | src/async_task_worker/pool.py:241-277 | A run of pool and executor together is a run of the protocol and a run of the executor, so all that is proved of either holds |
| `CachedWorker.HeldWasReported` | src/async_task_worker/pool.py:241-254 | In every joint run the callback was called exactly once for what a record or future holds, with that value |
| `CachedWorker.ValuesAreRight` | src/async_task_worker/executor.py:113-241 | If equal keys mean equal results, every completed record and resolved future of every joint run holds what its task's function returns |
| `CachedWorker.AwaitedIsRight` | src/async_task_worker/core.py:460-515 | So does every value `wait_for_tasks` puts together from its scan and the futures it reads later |
| `CachedWorker.FailureIsReported` | src/async_task_worker/exceptions.py:53-57 | When a user's function fails and the worker has resumed, the record is failed with the text of the error: its message, the cancellation, or the timeout with its limit |
| `CachedWorker.AllRightExactly` | src/async_task_worker/core.py:286-303 | With a key made from the call alone, everything every pool hands out is right if and only if equal keys mean equal results wherever a result can be stored |
| `CachedWorker.WorkerKeyMisleads` | src/async_task_worker/core.py:291-303 | With the worker's own key, two functions that return different results for the same arguments make some run complete a task with the other's result |
| `Executor.TaskExecutor.Begin` | src/async_task_worker/executor.py:113-160 | The first half in place: a hit fires the callback and returns it, an invalid key switches caching off, else the function is to be called |
| `Executor.TaskExecutor.End` | src/async_task_worker/executor.py:191-254 | The second half in place: a return is stored, reported once and returned; each kind of failure is mapped to its error and nothing is stored |
| `Sse.ProcessStream` | src/async_events/sse_client.py:105-117 | The lines yielded are those of the whole text, however it is cut into chunks |
| `Sse.CompleteLinesStand` | src/async_events/sse_client.py:110-113 | Complete lines are not changed by what follows |
| `Sse.LinesKeepText` | src/async_events/sse_client.py:105-117 | The lines put together are the text: none is lost, also not an unfinished last one |
| `Sse.PrintThenParseExactly` | src/async_events/sse_client.py:65-93 | Printing a list of events and parsing the text gives the list back if and only if every event has a strip-stable one-line type and id and strip-stable data lines with a nonempty first line |
| `Sse.ParsedIsRepresentable` | src/async_events/sse_client.py:81-88 | Whatever the text, every event dispatched has that form |
| `Sse.OtherLinesAreIgnored` | src/async_events/sse_client.py:80-93 | A comment or any other line that is not empty and names none of the three fields makes no difference wherever it stands |
| `Sse.StripsEnds` | src/async_events/sse_client.py:81-88 | Stripping takes spaces off both ends and nothing else |
| `Sse.AcceptedSplits` | src/async_events/sse_client.py:118-140 | The events stored are those with JSON data, in their order |
| `Sse.CrLfExactly` | src/async_events/sse_client.py:71-79 | For representable events and any choice of lines that end in CR LF, the events come back if and only if no empty line ends that way |
| `Sse.CrLfYieldsNothing` | src/async_events/sse_client.py:71-79 | A stream of representable events framed with CR LF throughout yields no event |
| `Sse.BlockStandsAloneExactly` | src/async_events/sse_client.py:71-91 | A block of fields leaves nothing behind for whatever follows if and only if it has data, or neither changes the type nor gives an id |
| `Sse.TypeLeaks` | src/async_events/sse_client.py:73-83 | The type of a block without data passes to the next event that names none |
| `Sse.IdLeaks` | src/async_events/sse_client.py:73-88 | So does its id |
| `Sse.SSEClient.ConnectAndProcess` | src/async_events/sse_client.py:65-93 | The events stored are those parsed from the whole text whose data is JSON, in order, independent of the chunks |
| `Serialization.SerializableAttributes` | src/async_cache/serialization.py:66-182 | The attribute loop builds exactly the specified dictionary or fails with it, each attribute tried without the fallback first |
| `Serialization.FallbackKeepsEncodings` | src/async_cache/serialization.py:27-45 | Turning the fallback on never changes the encoding of a value that encodes without it |
| `Serialization.FallbackIsTotal` | src/async_cache/serialization.py:177-179 | With the fallback every finite tree encodes, as far as nesting is not limited |
| `Encodability.EncodesExactly` | src/async_cache/serialization.py:26-45 | Without the fallback a value encodes if and only if there is no function, opaque value or integer beyond 64 bits anywhere in it |
| `Encodability.StorableExactly` | src/async_cache/core.py:375-405 | The cache stores what encodes, with the fallback if that is on, in no more bytes than it allows |
| `Encodability.NormalIsSameExactly` | src/async_cache/serialization.py:184-209 | A value is its own normal form if and only if nothing in it is a tuple or an object or has to be replaced by its text |
| `Encodability.NativeComesBackExactly` | src/async_cache/serialization.py:26-209 | A value without tuples, objects and replacements comes back as itself if and only if none of its dictionaries carries a type code |
| `Encodability.NormalItemwise` | src/async_cache/serialization.py:43-45 | A tuple comes back as a list, item by item |
| `Encodability.AttributeBecomesText` | src/async_cache/serialization.py:140-176 | An attribute that cannot be written is replaced as a whole by the name of its type and its text |
| `Encodability.WireCodes` | src/async_cache/serialization.py:14-24 | Dates, objects, UUIDs and replaced values are written with the codes 1, 2, 3 and 99 and these fields |
| `Encodability.EqualCodesDecode` | src/async_cache/serialization.py:184-209 | `True` and `1.0` are read as the code 1, and `False` as none |
| `Serialization.NormalIsFixed` | src/async_cache/serialization.py:184-209 | The normal form is a fixed point |
| `SerializationExactness.RoundTripExactly` | src/async_cache/serialization.py:26-209 | With the fallback off or on, a value that encodes comes back as its normal form if and only if none of its own dictionaries that are written out carries one of the hooks' type codes |
| `EventManagement.DeliveryIsProjection` | src/async_events/event_manager.py:195-252 | What a subscriber has read and has queued is, in order, the deduplicated events published to its group while it was subscribed |
| `EventManagement.PublishRecords` | src/async_events/event_manager.py:195-252 | A new event is recorded as delivered, with the moment, put at the end of exactly the queues of the group's members still subscribed, and the answer is how many grew; a repetition changes nothing |
| `EventManagement.UnsubscribeLeaves` | src/async_events/event_manager.py:176-191 | Whoever unsubscribes is no subscriber and in no group any more and keeps his queue; the others stay as they were |
| `EventManagement.QueuesAreBounded` | src/async_events/event_manager.py:163 | No queue exceeds its limit as long as publishes find room |
| `EventManagement.AtMostOnceBetweenClears` | src/async_events/event_manager.py:207-215 | Two accepted publishes of the same event id have a clear of the processed ids between them |
| `EventManagement.CleanupExactly` | src/async_events/event_manager.py:112-142 | A cleanup pass drops exactly the results past their time to live and the groups without members, and no subscription or queue |
| `EventManagement.EventManager.AddSubscriber` | src/async_events/event_manager.py:152-174 | The manager in place after a subscription; no group and the empty group receive nothing |
| `EventManagement.EventManager.RemoveSubscriber` | src/async_events/event_manager.py:176-191 | The loop takes the subscriber out of every group and leaves its queue to it |
| `EventManagement.EventManager.PublishEvent` | src/async_events/event_manager.py:195-252 | The manager in place after a publish, and the number notified; a processed id changes nothing |
| `EventManagement.EventManager.Cleanup` | src/async_events/event_manager.py:116-142 | The loops leave exactly what the specification's cleanup pass does |

## Left out

- Worker.AsyncTaskWorker.AddTask: requires that the id is not in the heap; ids given twice by a caller are not modelled, nor is the refusal to add to a worker that is not running.
- Worker.AsyncTaskWorker.Step: covers runs before `stop`; stopping and restarting the pool and the worker are not modelled.
- Queue.TaskQueue.PutTask: requires that the id is not in the heap, and does not model the time of the last enqueue or waiting for a slot.
- Queue.TaskQueue.GetValidTask: returns `None` where the source waits for a later `put`; the timeout of the wait is a poll that changes nothing as long as the queue is unbounded. With a bounded one `Deadlock` has the poll end while the worker waits for the queue lock; that the item it has taken is then lost is not stated.
- Queue.QueueStats.RecordEnqueue: does not model the time of the last enqueue, which nothing reads back.
- Queue.QueueStats.RecordDequeue: does not model the time of the last dequeue; sums are over reals, not floats.
- Queue.PutInserts: like `Queue.TaskQueue.PutTask`, for an id without an entry in the heap; ids are unique.
- Status.TaskInfo.Start: does not model the start time, which nothing reads back.
- Status.TaskInfo.ReportProgress: the pool passes no record to the executor, so executions themselves never report progress.
- Lifecycle.FuturesAgreeWithTasks: a future its holder cancelled, or that retention cancelled, is excepted.
- WaitForTasks.WaitForTasks: the timeout of the wait is not modelled, and `wait_for_any_task` is left out as a selection among the same futures.
- LockOrder.EveryCallKeepsTheOrder: a section of the source that is entered conditionally is entered always.
- Deadlock.DeadlockFreeExactly: a client that gives up its call, by a timeout or a cancellation of its own, is not modelled; doing so would release the locks it holds. Nor is what `stop` makes workers give up.
- MemoryCache.MemoryCacheAdapter.Set: when several entries were used least recently at the same time, either may go; the order of Python's dictionary, which decides then, is not modelled. The lemmas about runs use a strictly increasing clock.
- AsyncCaching.IdIsKey: the key must be nonempty; `AsyncCaching.IdIsKeyExactly` says what happens otherwise.
- AsyncCaching.AsyncCache.CleanupStaleMappings: takes the order of the ids and the clock readings as parameters, and runs without other operations in between, as it does over the memory adapter.
- Executor.TransparentExactly: results are stored by executions only, not by other callers of the cache, and the key does not depend on the cache options, which the executor removes first. Results are values: a caller that changes a returned object in place would change the cached one too.
- CachedWorker.AllRightExactly: joint runs are those of the protocol, before `stop`; a task's caching options are chosen when it is submitted.
- Executor.TaskExecutor.End: the store is the specification's when access times are distinct, as for a set of the memory cache.
- Worker.AsyncTaskWorker.BeginExecution: the cache lookup does not suspend, as over the memory adapter; with an adapter that does, a cancellation could arrive during the lookup and end the worker as an early one does.
- SerializationExactness.RoundTripExactly: dictionaries have text keys; values with cycles are not modelled.
- Serialization.FallbackIsTotal: MessagePack refuses trees nested beyond its own limit, also with the fallback; the model has no such limit.
- Sse.SSEClient.ConnectAndProcess: one connection; the HTTP request, reconnecting, the event queue and the callback are not modelled, and data stays text.
- EventManagement.DeliveryIsProjection: a publish finds room in every queue it writes to; publishers blocked on a full queue are not modelled.
- `api.py`, `registry.py`, `exceptions.py` and logging: routing, field copying and text.
- `adapters/redis.py`: calls into a foreign service.
- The MessagePack byte format, ISO dates, UUID text and MD5: libraries, taken as trusted inverses over an abstract tree.
- `default_key_fn` and key injectivity: keys are opaque, apart from the worker's own key.
- `get_task_info`, `get_all_tasks`, `invalidate_cache`, `get_recent_events` and the property setters: reads and forwarding with no property across calls.
- `temporarily_disabled`: covered by the step that switches the cache.
- Garbage collection of futures: a step of its own that may happen at any time to any future.
