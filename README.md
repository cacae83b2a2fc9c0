# pythreader core, modelled in Dafny

This project models the concurrency toolkit `pythreader` and the two tracing tools that ship with it:

- the bounded blocking queue (`pythreader/Queue.py`);
- the promise (`pythreader/promise.py`);
- the two task queues: `pythreader/task_queue.py`, which has its own scheduling thread, and `pythreader/TaskQueue.py`, which starts work from whichever call changed its state;
- the periodic job scheduler (`pythreader/Scheduler.py`);
- the timer thread (`pythreader/timer.py`);
- the item processor (`pythreader/processor.py`);
- the single- and multi-threaded tracers (`tools/st_tracer.py`, `tools/mt_tracer.py`).

One module per source file:

| module | file | models |
|---|---|---|
| `BoundedQueue` | `queue.dfy` | `Queue.py` |
| `Promises` | `promise.dfy` | `promise.py` |
| `ThreadTaskQueue` | `task_queue.dfy` | `task_queue.py` |
| `TimerTaskQueue` | `timer_task_queue.dfy` | `TaskQueue.py` |
| `PeriodicScheduler` | `scheduler.dfy` | `Scheduler.py` |
| `Timers` | `timer.dfy` | `timer.py` |
| `Processing` | `processor.dfy` | `processor.py` |
| `SingleThreadTracer` | `st_tracer.dfy` | `st_tracer.py` |
| `MultiThreadTracer` | `mt_tracer.dfy` | `mt_tracer.py` |

Three further modules hold what several files share:
- `Common`: `None`-or-value, and exception-or-value.
- `Workers`: the executor threads both task queues keep.
- `Paths`: path resolution, Python's string order, sorting a dictionary's items, the roll-up and the statistics table.

Modelling conventions:

- An object whose fields the source updates is a `class`, and its methods state the whole new state.
- Each `@synchronized` method, and each stretch of a thread between two of its sleeps, is one atomic step.
- Where the source would wait on a condition, the step returns a "would block" outcome and changes nothing. The waiter's next attempt is a further step. Examples: `WouldBlock`, `PopWouldBlock`, `Blocks`, `AddWouldBlock`, `StaggerSleep`.
- Time is a `real`. Every read of `time.time()` and every `random.random()` is a parameter of the step that reads it: `now`, `later`, `after`, `start`, `r`.
- Foreign callables are opaque identities. What one of them does is an input:
  - a promise callback's answer, as `stops`;
  - a job function's return, as `JobReturn`;
  - `process(item)`'s outcome, as `Outcome`.
- Calls into delegates and the output processor are recorded in a trace field: `Fired`, `Reports`, `Effects`.
- Worker threads are `Worker(id, task)` records. There are no real threads.

Facts about this version of the code that shape the model. It has:
- no cancel flag and no run count on tasks;
- no promise chaining, no combinators and no exception delivery;
- no relative/absolute reading of a task's `after` time in `task_queue.py`: it is taken as an absolute time;
- a scheduling pass that starts at most one task per iteration of the queue thread's loop;
- a `TaskQueue.py` start loop that always starts from the front of the queue and never skips a task.

## Model

| member | source | states |
|---|---|---|
| Workers.TasksOf | pythreader/TaskQueue.py:159-160 | the active tasks: exactly one per running thread |
| Workers.TasksOfIndex | pythreader/TaskQueue.py:159-160 | the active task at each position is that thread's task, so they come in start order |
| Workers.TasksOfAppend | pythreader/TaskQueue.py:139-141 | starting one more thread adds exactly its task at the end of the active tasks |
| Workers.TasksOfExtend | pythreader/TaskQueue.py:133-141 | threads appended in order for the first `k` waiting tasks extend the active tasks by exactly those `k` tasks |
| Workers.IdIndex | pythreader/TaskQueue.py:149-150 | the position `list.remove` takes out: the first thread with that identity (threads define no `__eq__`, so `in` and `remove` compare identities) |
| Workers.HasId | pythreader/task_queue.py:288 | `t in self.Threads` by identity: true whenever some listed thread has that identity, and never for an empty list |
| Workers.RemoveIdKeepsDistinct | pythreader/TaskQueue.py:149-150 | removing a finished thread by identity keeps identities distinct and below the next one, and no thread with that identity is left |
| Workers.RemoveIdMultiset | pythreader/task_queue.py:288-289 | removing a listed thread takes out exactly that thread and nothing else; an unlisted one leaves the list as it was |
| Workers.RemoveId | pythreader/task_queue.py:288-289 | `if t in Threads: Threads.remove(t)`: a listed thread makes the list one shorter, an unlisted one leaves it as it was, and no thread is added (the exact position is `IdIndex`) |
| Workers.AddFreshKeepsDistinct | pythreader/TaskQueue.py:139-141 | a thread started with the next fresh identity keeps identities distinct |
| BoundedQueue.Queue.constructor | pythreader/Queue.py:5-9 | a new queue is open and empty, with the given capacity |
| BoundedQueue.Queue.Close | pythreader/Queue.py:12-14 | closing keeps the contents |
| BoundedQueue.Queue.Append | pythreader/Queue.py:17-22 | on a closed queue the assertion fails and nothing changes; with room the item goes to the back; when full the caller waits and nothing changes; the capacity bound is kept |
| BoundedQueue.Queue.RetryAppend | pythreader/Queue.py:19-21 | a woken producer re-tests only the capacity: it pushes exactly when there is room, even on a queue closed meanwhile |
| BoundedQueue.Queue.Insert | pythreader/Queue.py:28-33 | as `append`, but the item goes to the front |
| BoundedQueue.Queue.RetryInsert | pythreader/Queue.py:30-32 | a woken producer of `insert` pushes at the front exactly when there is room |
| BoundedQueue.Queue.Pop | pythreader/Queue.py:39-47 | a non-empty queue yields its front item and keeps the rest in order; an empty one yields the sentinel when closed, otherwise the caller waits |
| BoundedQueue.Queue.Flush | pythreader/Queue.py:50-52 | the queue becomes empty and its closed flag is kept |
| BoundedQueue.Queue.Items | pythreader/Queue.py:55-56 | the contents, front first |
| BoundedQueue.Queue.Look | pythreader/Queue.py:59-60 | the front item, if and only if the queue is not empty, without removing it |
| BoundedQueue.Queue.PopIfFirst | pythreader/Queue.py:63-69 | `x` is removed and returned if and only if it is at the front; otherwise nothing changes |
| BoundedQueue.Queue.Length | pythreader/Queue.py:72-73 | the number of queued items |
| Promises.FiringOrder | pythreader/promise.py:23-26 | the callbacks fired are a prefix of the registered ones; none before the last answered "stop"; if any were skipped, the last one fired answered "stop" |
| Promises.FiringOrderAllWhenNoneStops | pythreader/promise.py:23-26 | when no callback (except perhaps the last) answers "stop", every callback fires, in order |
| Promises.FiringOrderStopsAtFirst | pythreader/promise.py:23-26 | firing ends right after the first callback that answers "stop" |
| Promises.Promise.constructor | pythreader/promise.py:5-11 | a new promise holds its data and a copy of the callbacks, is neither complete nor cancelled, and has no result |
| Promises.Promise.AddCallback | pythreader/promise.py:14-17 | the callback is registered, and fires at once exactly when the promise is complete and not cancelled |
| Promises.Promise.Complete | pythreader/promise.py:20-28 | the result is stored and the promise is complete; unless it is cancelled, the registered callbacks fire in `FiringOrder`; afterwards none are registered |
| Promises.Promise.IsComplete | pythreader/promise.py:30-31 | the completion flag |
| Promises.Promise.Cancel | pythreader/promise.py:34-37 | cancelled, callbacks forgotten, result and completion flag untouched |
| Promises.Promise.Wait | pythreader/promise.py:40-50 | completion wins and yields the result; otherwise cancellation yields None; otherwise it times out exactly when the deadline has passed, and waits exactly when it has not or there is none |
| Promises.CompleteThenCancel | pythreader/promise.py:14-50 | for any callbacks, results and stop answers: the callbacks registered before completion fire once, in `FiringOrder`; after `cancel` a late callback and a second `complete` fire nothing; the second result overwrites the first and is what `wait` returns |
| ThreadTaskQueue.NewTask | pythreader/task_queue.py:32-41 | a new task carries its creation time, has not started, is not queued and has no not-before time |
| ThreadTaskQueue.MarkStarted | pythreader/task_queue.py:67-68 | after `_started` the task has started; it is running exactly when it has not ended; nothing else changes |
| ThreadTaskQueue.MarkEnded | pythreader/task_queue.py:70-71 | after `_ended` a started task has ended and is no longer running |
| ThreadTaskQueue.HasStarted | pythreader/task_queue.py:53-55 | a task has started exactly when it is running or has ended |
| ThreadTaskQueue.IsRunning | pythreader/task_queue.py:57-60 | running and ended exclude each other, and a task that is neither has not started |
| ThreadTaskQueue.HasEnded | pythreader/task_queue.py:62-65 | an ended task has both its start and its end recorded; without an end it has not ended |
| ThreadTaskQueue.MakeTask | pythreader/task_queue.py:167-175 | the submission fails exactly when it is neither a Task nor a callable; a Task passes unchanged; a callable becomes a fresh, unstarted function task |
| ThreadTaskQueue.FirstReady | pythreader/task_queue.py:259-268 | reference definition: the first task in queue order whose not-before time has come, and none at all when no task is ready |
| ThreadTaskQueue.ScanQueue | pythreader/task_queue.py:259-268 | the scan picks `FirstReady`; when none is ready, the sleep target is the earliest not-before time among the waiting tasks and lies in the future |
| ThreadTaskQueue.MoveToWorkerKeepsTasks | pythreader/task_queue.py:269-273 | moving the picked task to a new thread loses and duplicates no task |
| ThreadTaskQueue.TaskQueue.constructor | pythreader/task_queue.py:127-160 | a new queue has no tasks and no threads, is not held or stopped, and a missing stagger is zero |
| ThreadTaskQueue.TaskQueue.StopQueue | pythreader/task_queue.py:162-165 | only the stop flag changes |
| ThreadTaskQueue.TaskQueue.Submit | pythreader/task_queue.py:177-189 | a submission is accepted exactly when it is a Task or a callable and either forced or the queue has room; the accepted task is stamped and pushed at the front or back, and a fresh uncompleted promise with the given data is returned; a refusal changes nothing |
| ThreadTaskQueue.TaskQueue.Append | pythreader/task_queue.py:191-212 | as `Submit`, pushing at the back: accepted exactly when it is a Task or a callable and either forced or the queue has room; a full queue raises QueueFull; the accepted task is stamped and appended, and a fresh promise with the given data, no callbacks, not completed and not cancelled is returned; no other field changes |
| ThreadTaskQueue.TaskQueue.Insert | pythreader/task_queue.py:217-240 | as `Submit`, pushing at the front: the same acceptance, QueueFull error, stamped push, fresh empty unsettled promise, and no other field changes |
| ThreadTaskQueue.TaskQueue.RunPass | pythreader/task_queue.py:250-283 | within the stagger interval the thread sleeps out the rest of it; with nothing to do it sleeps 10 seconds; otherwise it starts the `FirstReady` task if there is one, keeping every task and recording the start time; if none is ready it sleeps until the earliest not-before time, and exactly then |
| ThreadTaskQueue.TaskQueue.StartAt | pythreader/task_queue.py:269-276 | the chosen task leaves the queue and joins the threads under a fresh identity, no task is lost or duplicated, and the start time is recorded |
| ThreadTaskQueue.TaskQueue.ThreadEnded | pythreader/task_queue.py:285-294 | the thread with the finished one's identity is removed and no other; a resubmitting task is appended again, forced, not before its last queue time plus its interval; the hold, stop flag, start time and next thread identity are kept |
| ThreadTaskQueue.TaskQueue.Counts | pythreader/task_queue.py:347-353 | the numbers of waiting and of running tasks |
| ThreadTaskQueue.TaskQueue.Hold | pythreader/task_queue.py:355-360 | only the held flag is set |
| ThreadTaskQueue.TaskQueue.Release | pythreader/task_queue.py:362-368 | only the held flag is cleared |
| ThreadTaskQueue.TaskQueue.IsEmpty | pythreader/task_queue.py:370-376 | true exactly when no task waits and no thread runs |
| ThreadTaskQueue.TaskQueue.Flush | pythreader/task_queue.py:399-405 | waiting tasks are discarded; running ones, the hold, the stop flag, the start time and the next thread identity are kept |
| ThreadTaskQueue.TaskQueue.WaitingTasks | pythreader/task_queue.py:309-315 | the waiting tasks, front first |
| ThreadTaskQueue.TaskQueue.ActiveTasks | pythreader/task_queue.py:317-323 | one task per running thread, in start order |
| ThreadTaskQueue.TaskQueue.Tasks | pythreader/task_queue.py:325-331 | the waiting tasks and the running threads' tasks |
| ThreadTaskQueue.TaskQueue.Length | pythreader/task_queue.py:407-411 | the number of waiting tasks |
| ThreadTaskQueue.TaskQueue.Contains | pythreader/task_queue.py:413-417 | true exactly when a waiting task has the same identity (tasks define no `__eq__`) |
| ThreadTaskQueue.ResubmitAfter | pythreader/task_queue.py:292 | a resubmitted task has a not-before time exactly when it has an interval, and then it lies one interval after its last queue time |
| TimerTaskQueue.Task.constructor | pythreader/TaskQueue.py:8-11 | a new task has neither started nor ended |
| TimerTaskQueue.Task.Start | pythreader/TaskQueue.py:34-36 | the task has started; it is running exactly when it has not ended |
| TimerTaskQueue.Task.End | pythreader/TaskQueue.py:38-40 | a started task has ended and is not running |
| TimerTaskQueue.Task.Started | pythreader/TaskQueue.py:19-22 | a task has started exactly when it is running or has ended |
| TimerTaskQueue.Task.Running | pythreader/TaskQueue.py:24-27 | running and ended exclude each other, and a task that is neither has not started |
| TimerTaskQueue.Task.Ended | pythreader/TaskQueue.py:29-32 | an ended task has both stamps; without an end stamp it has not ended |
| TimerTaskQueue.TaskQueue.constructor | pythreader/TaskQueue.py:75-86 | a new queue is empty, with no threads, no hold and no armed timer |
| TimerTaskQueue.TaskQueue.ArmStartTimer | pythreader/TaskQueue.py:108-123 | the timer is armed at most once, for the non-negative time left in the stagger interval |
| TimerTaskQueue.TaskQueue.StartThreads | pythreader/TaskQueue.py:126-143 | the state after the start loop (`AfterStartLoop`): a front part of the queue moves to new threads in queue order with consecutive fresh identities and nothing lost or duplicated; the start time is the current clock if any started; a hold changes nothing; without stagger it stops only when the queue is empty or every worker is busy; with stagger it starts at most one task, exactly when the interval has passed, and otherwise arms the timer, once, for the rest of the interval |
| TimerTaskQueue.TaskQueue.StartWhileRoom | pythreader/TaskQueue.py:128-143 | the `while` loop without a hold: `k` front tasks start in queue order with fresh identities; at most one with a stagger, and only if the interval had passed; it stops with no task, no free worker, or the timer armed for the rest of the interval |
| TimerTaskQueue.TaskQueue.StartFront | pythreader/TaskQueue.py:136-143 | the front task is popped into a new thread with a fresh identity, and the start time is recorded |
| TimerTaskQueue.TaskQueue.FireStartTimer | pythreader/TaskQueue.py:110-115 | the timer is disarmed and the start loop runs in full (`AfterStartLoop` from a disarmed timer): it is armed again only while tasks and free workers remain |
| TimerTaskQueue.TaskQueue.AddTask | pythreader/TaskQueue.py:87-92 | succeeds exactly when there is room; then the start loop runs in full on the queue with the task appended; without room the caller waits and no field changes |
| TimerTaskQueue.TaskQueue.InsertTask | pythreader/TaskQueue.py:100-103 | as `addTask`, the start loop running on the queue with the task in front |
| TimerTaskQueue.TaskQueue.ThreadEnded | pythreader/TaskQueue.py:147-152 | no thread with the finished one's identity is left, only it is removed, and the start loop then runs in full on the remaining threads |
| TimerTaskQueue.TaskQueue.Hold | pythreader/TaskQueue.py:168-170 | only the held flag is set |
| TimerTaskQueue.TaskQueue.Release | pythreader/TaskQueue.py:172-175 | the flag is cleared and the start loop runs in full as if never held; without stagger nothing is left waiting while a worker is free |
| TimerTaskQueue.TaskQueue.IsEmpty | pythreader/TaskQueue.py:177-179 | true exactly when no task waits and no thread runs |
| TimerTaskQueue.TaskQueue.Flush | pythreader/TaskQueue.py:191-194 | waiting tasks are discarded and running ones kept |
| TimerTaskQueue.TaskQueue.Tasks | pythreader/TaskQueue.py:154-156 | the waiting tasks and the running threads' tasks |
| TimerTaskQueue.TaskQueue.Length | pythreader/TaskQueue.py:196-197 | the number of waiting tasks |
| PeriodicScheduler.JitterBounds | pythreader/Scheduler.py:31 | the random jitter added lies between zero and the job's jitter |
| PeriodicScheduler.ResolveStart | pythreader/Scheduler.py:112-115 | a small `t0` is a delay from now and a large one an absolute time; without `t0` the first run is one interval (or none) from now, plus at most the jitter |
| PeriodicScheduler.ResolveStartClock | pythreader/Scheduler.py:112-115 | an absolute first run time does not depend on when `add` is called; a relative one moves with the clock |
| PeriodicScheduler.NextTime | pythreader/Scheduler.py:29-36 | a job runs again exactly when its function returned a time, or returned None or raised and the job has an interval; a large returned time is kept as absolute; any other next run comes that offset after the run's start, plus at most the jitter |
| PeriodicScheduler.RaisedIsLikeNone | pythreader/Scheduler.py:25-31 | a function that raises is rescheduled like one that returned None |
| PeriodicScheduler.RunJob | pythreader/Scheduler.py:22-37 | a run reports a failure exactly when the function raised, together with the `NextTime` rule |
| PeriodicScheduler.WithoutId | pythreader/Scheduler.py:122 | exactly the jobs with another id remain |
| PeriodicScheduler.WithoutIdAppend | pythreader/Scheduler.py:122 | removal keeps the remaining jobs in their order |
| PeriodicScheduler.WithoutIdAbsent | pythreader/Scheduler.py:122 | removing an id no job has changes nothing |
| PeriodicScheduler.WithoutIdIdempotent | pythreader/Scheduler.py:122 | removing twice is removing once |
| PeriodicScheduler.Due | pythreader/Scheduler.py:128-132 | exactly the jobs whose time has come are started |
| PeriodicScheduler.Kept | pythreader/Scheduler.py:133-136 | exactly the jobs whose time has not come stay on the timeline |
| PeriodicScheduler.DueKeptPartition | pythreader/Scheduler.py:128-136 | every job is started or kept, exactly once |
| PeriodicScheduler.DueKeptStep | pythreader/Scheduler.py:128-135 | each job looked at extends either the started or the kept jobs |
| PeriodicScheduler.RunningMinAppend | pythreader/Scheduler.py:134 | keeping one more job updates the running minimum with its next time, `or`-fallback included |
| PeriodicScheduler.MinStep | pythreader/Scheduler.py:134 | one turn of `min(next_run or job.NextT, job.NextT)`: at most the new time, equal to it or to the old value, at most a non-zero old value, and a 0.0 so far is forgotten |
| PeriodicScheduler.RunningMin | pythreader/Scheduler.py:127-134 | `next_run` after the fold: None exactly for no kept jobs, otherwise some kept job's time and at most the last one's |
| PeriodicScheduler.MinNextT | pythreader/Scheduler.py:134 | reference definition: the earliest next time of a timeline, attained by one of its jobs, and none for an empty timeline |
| PeriodicScheduler.RunningMinIsMin | pythreader/Scheduler.py:134 | when no next time is 0.0, the `or`-based running minimum is the true minimum |
| PeriodicScheduler.KeptRunningMin | pythreader/Scheduler.py:125-137 | for a clock at or after the epoch, `run_jobs` returns the earliest next time among the kept jobs |
| PeriodicScheduler.RunningMinForgetsZero | pythreader/Scheduler.py:134 | a running minimum of 0.0 is falsy and gets replaced: the result is not the true minimum |
| PeriodicScheduler.ScanTimeline | pythreader/Scheduler.py:126-135 | the loop starts the due jobs and keeps the others in order; the running minimum is over the kept jobs, is None exactly when none is kept, and is the true minimum for a clock at or after the epoch |
| PeriodicScheduler.Scheduler.constructor | pythreader/Scheduler.py:57-62 | a new scheduler has an empty timeline and has launched and reported nothing |
| PeriodicScheduler.Scheduler.AddJob | pythreader/Scheduler.py:86-89 | the job, with its next time set, is appended to the timeline |
| PeriodicScheduler.Scheduler.Add | pythreader/Scheduler.py:92-118 | the job is appended with the `ResolveStart` time, under the given id or a fresh one, and that id is returned |
| PeriodicScheduler.Scheduler.Remove | pythreader/Scheduler.py:121-122 | exactly the jobs with another id remain, in order |
| PeriodicScheduler.Scheduler.RunJobs | pythreader/Scheduler.py:125-137 | due jobs are launched in timeline order and the rest kept in order; the result is the running minimum of what is kept, is None exactly when nothing is kept, and is the earliest next time for a clock at or after the epoch |
| PeriodicScheduler.Scheduler.JobEnded | pythreader/Scheduler.py:65-71 | the job is re-added exactly when there is a next time; no report is made |
| PeriodicScheduler.Scheduler.JobFailed | pythreader/Scheduler.py:73-79 | the failure is reported when the delegate listens; the job is re-added exactly when there is a next time |
| PeriodicScheduler.Scheduler.Finish | pythreader/Scheduler.py:46-54 | a finished run is routed to `job_failed` or `job_ended`: the job is reinstated per `RunJob`, and reported only when it raised and the delegate listens |
| PeriodicScheduler.Scheduler.IsEmpty | pythreader/Scheduler.py:140-141 | true exactly when the timeline is empty |
| Timers.TargetTime | pythreader/timer.py:8 | a `t` above the limit is an absolute target time, otherwise a delay from now |
| Timers.TargetTimeClock | pythreader/timer.py:8 | an absolute target does not move with the clock; a relative one does |
| Timers.Advance | pythreader/timer.py:19-42 | one stretch of the thread calls the function at most once, and only when neither cancelled nor paused; a repeating timer then targets one interval after the call returned, and a one-shot timer finishes; a cancelled running timer finishes |
| Timers.AfterSleep | pythreader/timer.py:27-39 | from the pause loop on: a paused, uncancelled timer sleeps; a cancelled one finishes; otherwise `Fcn` is called once, and a repeating timer targets one interval after the call returned while a one-shot finishes; the flags and interval are kept |
| Timers.CancelledStaysSilent | pythreader/timer.py:19-46 | once cancelled, the function is never called again, whatever happens next |
| Timers.PausedStaysSilent | pythreader/timer.py:27-28 | a paused timer that is not cancelled does not call the function |
| Timers.OneShotKept | pythreader/timer.py:37-39 | without a truthy interval, the timer calls at most once and is finished once it has, across any events |
| Timers.OneShotAtMostOnce | pythreader/timer.py:37-39 | a fresh timer without an interval calls the function at most once in any run |
| Timers.Timer.constructor | pythreader/timer.py:6-17 | a new timer targets `TargetTime`, is neither cancelled nor paused, has made no call, and its thread is started if asked |
| Timers.Timer.StartThread | pythreader/timer.py:16-17 | the thread starts at the top of the loop exactly when it was never started; a later `start` is RuntimeError and changes nothing |
| Timers.Timer.Step | pythreader/timer.py:19-42 | the thread's next stretch changes the fields exactly as `Advance` says |
| Timers.Timer.CancelTimer | pythreader/timer.py:44-46 | only the cancelled flag is set |
| Timers.Timer.PauseTimer | pythreader/timer.py:48-50 | only the paused flag is set |
| Timers.Timer.ResumeTimer | pythreader/timer.py:52-54 | only the paused flag is cleared |
| Processing.EffectiveTimeout | pythreader/processor.py:37 | the `-1` default stands for the processor's add timeout and any other timeout is kept |
| Processing.Route | pythreader/processor.py:43-60 | with a delegate, the first effect reports a failure exactly when `process` raised, a discard exactly when it returned None, and otherwise the output; an output is forwarded exactly when a value was returned and there is an output processor; nothing else happens |
| Processing.ReportBeforeForward | pythreader/processor.py:52-57 | with both a delegate and an output, the report precedes the forwarding |
| Processing.Processor.constructor | pythreader/processor.py:21-28 | the worker queue gets the worker limit, capacity and stagger, and starts empty |
| Processing.Processor.Add | pythreader/processor.py:36-38 | a fresh task holding the item and this processor is built; it is added exactly when the worker queue has room, and then the start loop runs on the queue with that task appended; otherwise the caller waits up to the effective timeout and the worker queue is unchanged |
| Processing.Processor.Process | pythreader/processor.py:43-60 | the effects of processing the item, in `Route` order, are appended to the trace |
| Processing.WorkerTask.constructor | pythreader/processor.py:8-11 | the task refers to its processor and item |
| Processing.WorkerTask.Run | pythreader/processor.py:13-17 | the item is processed through the processor, then the reference to it is dropped |
| Paths.Resolve | tools/st_tracer.py:45-49 | an empty path fails; an absolute path is kept; a relative one is appended below the top context's path, or below the root |
| Paths.ResolveAbsolute | tools/st_tracer.py:44-53 | every context path is absolute |
| Paths.ResolveBelowTop | tools/st_tracer.py:46-47 | a relative context lies strictly below the top context, so `rollup` counts it there |
| Paths.BelowIrreflexive | tools/st_tracer.py:73 | Python's string order is irreflexive |
| Paths.BelowTransitive | tools/st_tracer.py:73 | Python's string order is transitive |
| Paths.BelowTotal | tools/st_tracer.py:73 | any two distinct strings are ordered one way |
| Paths.BelowAsymmetric | tools/st_tracer.py:73 | the order is asymmetric |
| Paths.ProperPrefixBelow | tools/st_tracer.py:73-81 | a path sorts before every path below it |
| Paths.Smallest | tools/st_tracer.py:73 | the least path of a non-empty set in Python's order |
| Paths.SortPaths | tools/st_tracer.py:73 | every key once, strictly increasing |
| Paths.SortedRowsUnique | tools/st_tracer.py:73 | two sorted tables of the same entries are equal |
| Paths.PathSetEmpty | tools/st_tracer.py:73 | a table has no paths exactly when it has no rows |
| Paths.SortedRowsSameHead | tools/st_tracer.py:73 | two sorted tables of the same paths start with the same path |
| Paths.SortedRowsTail | tools/st_tracer.py:73 | dropping a sorted table's first row drops exactly its path |
| Paths.TableUnique | tools/st_tracer.py:73-74 | the sorted table of a dictionary is unique |
| Paths.TableOf | tools/st_tracer.py:73-74 | `sorted(Contexts.items())`: one row per context, in path order |
| Paths.RowsOfSortedKeys | tools/st_tracer.py:73-74 | rows built in the order of the sorted keys, one per key, form the sorted table of the dictionary |
| Paths.SumRangeSplit | tools/st_tracer.py:76-83 | the time under a prefix adds up over adjacent ranges of rows |
| Paths.NoneBelowBefore | tools/st_tracer.py:76-83 | in sorted rows, no row at or before a context lies below it |
| Paths.RolledUpIsSubtree | tools/st_tracer.py:72-84 | scanning only the later rows gives a context's own time plus that of every context below it |
| Paths.RollupRows | tools/st_tracer.py:75-83 | the in-place loop leaves each row with its count and its rolled-up time |
| Paths.StatOf | tools/st_tracer.py:104 | one statistics entry: path, time, count, and a mean that times the count gives back the time |
| Paths.StatsOf | tools/st_tracer.py:104 | the table fails with ZeroDivisionError exactly when some count is zero; otherwise one `StatOf` entry per row |
| SingleThreadTracer.Context.constructor | tools/st_tracer.py:9-14 | a new context belongs to its tracer, has no entries and no time, and notes the clock |
| SingleThreadTracer.Context.Enter | tools/st_tracer.py:16-17 | entering notes the clock and nothing else |
| SingleThreadTracer.Context.Exit | tools/st_tracer.py:19-22 | leaving counts one more entry, adds the time since entering, and pops the tracer's stack with the `PopOutcomeOf` check |
| SingleThreadTracer.Pop | tools/st_tracer.py:61 | popping drops exactly the top of a non-empty stack |
| SingleThreadTracer.PopOutcomeOf | tools/st_tracer.py:60-62 | the pop succeeds exactly when `c` is on top, fails with IndexError exactly on an empty stack, and otherwise fails the assertion |
| SingleThreadTracer.Tracer.constructor | tools/st_tracer.py:26-31 | a new tracer has no contexts and an empty stack |
| SingleThreadTracer.Tracer.PushContext | tools/st_tracer.py:44-55 | an empty path fails and changes nothing; otherwise the resolved path's context (created if new, at the current clock) is pushed and returned; existing contexts are kept |
| SingleThreadTracer.Tracer.PopContext | tools/st_tracer.py:60-62 | pops per `Pop` with the `PopOutcomeOf` check; contexts are kept |
| SingleThreadTracer.Tracer.Begin | tools/st_tracer.py:64-66 | as `pushContext` (an existing context is reused, a new one starts empty), and the pushed context is entered at the current clock; every other context keeps its clock, and all keep their counts and times |
| SingleThreadTracer.Tracer.End | tools/st_tracer.py:68-70 | on an empty stack it fails with IndexError; otherwise the top context gets one more entry and the time since it was entered, keeps its enter time, and is popped; no other context changes |
| SingleThreadTracer.Tracer.Rollup | tools/st_tracer.py:72-84 | one row per context in path order, with its count and the total time of it and every context below it |
| SingleThreadTracer.Tracer.Stats | tools/st_tracer.py:90-105 | the unadjusted table is `StatsOf` the sorted contexts, and fails exactly when some context has no entries |
| MultiThreadTracer.Context.constructor | tools/mt_tracer.py:48-52 | a new shared context has no entries and no time |
| MultiThreadTracer.Context.AddSegment | tools/mt_tracer.py:54-57 | one more entry that took `t` |
| MultiThreadTracer.TraceRecordKeeper.constructor | tools/mt_tracer.py:61-67 | a new keeper has no contexts |
| MultiThreadTracer.TraceRecordKeeper.GetContext | tools/mt_tracer.py:69-75 | the path's context is returned, created with no entries only if the path had none |
| MultiThreadTracer.TraceRecordKeeper.Stats | tools/mt_tracer.py:82-98 | the unadjusted table is `StatsOf` the sorted contexts, and fails exactly when some context has no entries |
| MultiThreadTracer.PopOutcomeOf | tools/mt_tracer.py:133-135 | the pop succeeds exactly when `c` is on top and fails with IndexError exactly on an empty stack |
| MultiThreadTracer.Pop | tools/mt_tracer.py:134 | popping drops exactly the top of a non-empty stack |
| MultiThreadTracer.Tracer.constructor | tools/mt_tracer.py:105-107 | a new tracer shares the keeper and has an empty stack |
| MultiThreadTracer.Tracer.PushContext | tools/mt_tracer.py:120-128 | an empty path fails and changes nothing; otherwise the keeper's context for the resolved path is pushed and an unentered proxy for it is returned; the keeper's other contexts are kept |
| MultiThreadTracer.Tracer.Begin | tools/mt_tracer.py:137-139 | as `pushContext` (the keeper keeps every context it had; a new one starts empty), and a fresh proxy for the pushed context is entered at the current clock; no context's counts or times change |
| MultiThreadTracer.Tracer.PopContext | tools/mt_tracer.py:133-135 | pops per `Pop` with the `PopOutcomeOf` check |
| MultiThreadTracer.ContextProxy.constructor | tools/mt_tracer.py:34-36 | the proxy refers to its tracer and context and has not been entered |
| MultiThreadTracer.ContextProxy.Enter | tools/mt_tracer.py:38-39 | entering notes the clock |
| MultiThreadTracer.ContextProxy.Exit | tools/mt_tracer.py:41-44 | leaving an unentered proxy fails and changes nothing; otherwise exactly one segment of the time since entering is recorded, then the stack is popped with the `PopOutcomeOf` check |

## Left out

- Threads, locks, sleeping and `wakeup`: each step is atomic, and a waiter's later attempt is a further step. Waiting with a timeout is a "would block" outcome that carries the timeout.
- Actual time and randomness: every clock and random reading is a parameter.
- `pythreader/core.py` (`Primitive`, `PyThread`, `synchronized`) and the `DEQueue` of `pythreader/dequeue.py` are not part of this model. The DEQueue is taken to be a sequence that refuses a push into a full queue unless it is forced. A push that cannot get room is modelled as its timeout expiring (`QueueFull`), and as `AddWouldBlock` in `TaskQueue.py`. Its `remove` is taken as removing the scanned task's own position.
- The executor threads' `run` bodies in both task queues: they set the timestamps, run the task, complete its promise and call `threadEnded`. The pieces are modelled separately (`MarkStarted`, `MarkEnded`, `Task.Start`, `Task.End`, `Promise.Complete`, `ThreadEnded`), but not their combination.
- Delegate notifications of `task_queue.py` (`taskIsStarting`, `taskStarted`, `taskEnded`, `taskFailed`, `call_delegate`): they are foreign calls whose exceptions are swallowed and which never change the queue.
- The initial `tasks` argument of both task queue constructors: it is equivalent to adding each task in turn after construction.
- `waitUntilEmpty`, `join` and `drain` of both task queues, and `Processor.join`: they only wait.
- `Processor.hold` and `Processor.release`: they forward to the task queue's `Hold` and `Release`.
- `Scheduler.run`, `stop` and `wait_until_empty`: the scheduler thread's loop only sleeps between calls of `run_jobs`.
- The `__str__` methods and the operator aliases. In `task_queue.py`, `<<` and `>>` are the modelled `append`/`insert`, and `+=` (task_queue.py:214-215) returns the promise, so `q += t` rebinds `q` to it. In `Queue.py`, `<<` calls `self.add` (Queue.py:24-25) and `>>` calls `self.push` (Queue.py:35-36); `Queue` defines neither, so both raise AttributeError.
- `timedelta` and `datetime` arguments of `task_queue.py`'s `append` and `insert`: they are converted to seconds before use.
- `ThreadTaskQueue.TaskQueue.ThreadEnded`: requires a task that resubmits with an interval to have a queue time. A task is stamped right after its push (see the next line), so this holds unless the task ran to its end inside that window; then the source raises TypeError at task_queue.py:292.
- `ThreadTaskQueue.TaskQueue.Submit`: is one atomic step, where `__add` (task_queue.py:177-189) is not synchronized. The push (task_queue.py:183, 185) comes before `task._queued()` (:186) and the new promise (:187). In between, the queue thread (inside `with self:` at :252) may start and even finish the task; its executor then completes the task's previous promise (or none), so the promise `append` returns is never completed for that run, and a resubmitting task with an interval meets the TypeError above. The model does not capture that window.
- `ThreadTaskQueue.TaskQueue.Submit`: gives each queue entry, and each running thread, its own copy of the task's not-before time and queue time. In the source these are fields of the one task object (`_Private.After` written at task_queue.py:181, `Queued` stamped at :186), shared by every occurrence of an object queued twice and by its running thread. So re-queuing an object does not re-stamp its other occurrences in the model, and a refused push (task_queue.py:181 writes `After` before the push raises) leaves no trace.
- `ThreadTaskQueue.TaskQueue.Append`: as `Submit`, each entry keeps its own not-before and queue time.
- `ThreadTaskQueue.TaskQueue.Insert`: as `Submit`, each entry keeps its own not-before and queue time.
- `ThreadTaskQueue.TaskQueue.RunPass`: reads each entry's own not-before time, where the scan (task_queue.py:262-266) reads the object's one `After`; for an object queued twice with different `after` values, the model may pick a later occurrence where the source picks the first.
- `ThreadTaskQueue.TaskQueue.ThreadEnded`: computes the resubmission time from the finished thread's copy of the queue time, where task_queue.py:292 reads the object's latest `Queued`.
- `ThreadTaskQueue.TaskQueue.Submit`, `Append` and `Insert`: require the identity given to a wrapped callable to be unused by every waiting and running task, because the source wraps it in a new `FunctionTask` object (task_queue.py:167-175).
- `TimerTaskQueue.TaskQueue.ThreadEnded`: requires the finished thread's identity to be one this queue handed out. Only this queue's own executor threads call it.
- `Processing.WorkerTask.Run`: requires the processor reference to be present. A task runs once, and `run` drops the reference only at its end.
- `PeriodicScheduler.Scheduler.RunJobs`: reads the clock once, where the source reads `time.time()` again for every job. A job that becomes due during the scan is kept in the model.
- `Processing.Route`: takes every delegate call and `Output.add` to return normally. In the source (processor.py:49, 54, 60) they are called outside any `try`, so a delegate without the method, or one that raises, ends `_process` there; an `itemProcessed` that raises then skips the forwarding.
- `TimerTaskQueue.TaskQueue.StartThreads` and `StartFront`: take one clock reading `now` for both the stagger test (TaskQueue.py:130) and the recorded start time (TaskQueue.py:142), where the source reads `time.time()` separately each time.
- `TimerTaskQueue.TaskQueue.AddTask` and `InsertTask`: run the queue push and `startThreads` as one step. In the source the push (TaskQueue.py:88, 101) is outside the lock, so another thread may run between them.
- `ThreadTaskQueue.TaskQueue.RunPass`: requires `Stop` to be unset, which is the test of the `while` loop at task_queue.py:251; after `stop` the loop is left and no further pass runs.
- `Timers.Timer.StartThread`: models the RuntimeError of a second `start` (inherited from Python's thread class, which is not part of this model) as the outcome `AlreadyStarted`.
- `BoundedQueue.Queue.Items`: returns the contents as a value. The source returns the live `self.List` (Queue.py:55-56), which later `append` and `insert` extend in place (Queue.py:21, 32) and which a caller could change, even past the capacity. The model does not capture that aliasing.
- `ThreadTaskQueue.IsRunning` and `HasEnded`, and `TimerTaskQueue.Task.Started`, `Running` and `Ended`: give the booleans the code computes. In the source `@synchronized` is applied over `@property` (task_queue.py:57-65, TaskQueue.py:19-32), so reading `task.is_running` gives a bound method, which is always truthy, and calling it raises TypeError. The model gives the intended values.
- Timer clean-up in the `finally` of `timer.py:40-42` (dropping references to the function and its arguments): it changes nothing observable.
- `Timers.AfterSleep` and `Timers.Advance`: take the call of `Fcn` and the re-targeting as one step. The source re-reads `Cancelled` after `Fcn` returns (timer.py:37), so a `cancel` made during the call keeps `T` and ends the loop; in the model the call is followed by the re-target and the cancellation is seen at the next loop test. The calls made are the same.
- `Timers.Advance`: an exception raised by the timer's function changes nothing. The handler at `timer.py:33-36` evaluates `sys.exc_info()` without importing `sys`; the `NameError` is caught by its own `except: pass`, so `OnException` is never called and the loop carries on as if `Fcn` had returned.
- Adjusted statistics (`Delay > 0`), `calc_delay` and `benchmark` of both tracers, and `printStats`. The delay calibration is timing-dependent. The multi-threaded `calc_delay` builds a `Tracer` with an argument it does not take, and `printStats` is output only.
- `MultiThreadTracer.Tracer`'s `end`: it calls `__exit__()` with no arguments on a `Context` (mt_tracer.py:141-143), whose `__exit__` is `Primitive`'s, taking three (core.py:54-55), so it always raises TypeError.
- `st_tracer.py` is Python 2 code (`xrange`, the `print` statement). Its logic is modelled as written.
- Latent errors the model does not follow into their exceptions:
  - `promise.exception` (task_queue.py:120) does not exist;
  - `ArgumentError` (task_queue.py:174) is undefined, so the refusal is modelled as an error outcome;
  - `task` (Scheduler.py:67) is undefined, and the exception is swallowed, so `jobEnded` is never reported;
  - `promise.py` uses `time` without importing it, and imports `Timeout` from `core.py` (promise.py:1, like `__init__.py:1`, which also imports `Timer` from there), which defines neither, so the import itself raises ImportError;
  - `Processor`'s default `max_workers=None` and `stagger=None` make `TaskQueue.py`'s start loop compare with `None`. The model takes a number for both.
- The three thresholds that tell relative from absolute times differ between files:
  - `add` uses ten years of seconds;
  - `Job.run` uses `3.0e7`;
  - the timer uses `3e8`.
  Each is modelled as written.
