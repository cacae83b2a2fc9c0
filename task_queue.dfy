/**
 * The worker-pool task queue of pythreader/task_queue.py, whose own thread runs
 * the scheduling pass. One iteration of that thread's loop (taken under the lock)
 * is `RunPass`; worker threads are abstract `Worker` records in `Threads`.
 */
module ThreadTaskQueue {
  import opened Common
  import Promises
  import opened Workers

  /** What a task runs: the `run` of a Task subclass, or a plain callable wrapped in a FunctionTask. */
  datatype Work = OwnRun(kind: nat) | FunctionCall(fn: nat)

  /**
   * A Task with its timestamps and the queue's private `After`. `id` stands for
   * the object's identity; `resubmit`/`resubmitInterval` are the class attributes
   * `Resubmit`/`ResubmitInterval` (False/None unless a subclass overrides them).
   */
  datatype Task = Task(
    id: nat,
    work: Work,
    created: real,
    queued: Option<real>,
    started: Option<real>,
    ended: Option<real>,
    after: Option<real>,
    resubmit: bool,
    resubmitInterval: Option<real>)

  /** `has_started`: a started task is either running or ended. */
  predicate HasStarted(t: Task): (b: bool)
    ensures b <==> IsRunning(t) || HasEnded(t)
  {
    t.started.Some?
  }

  /** `is_running`: running and ended exclude each other; a task that is neither has not started. */
  predicate IsRunning(t: Task): (b: bool)
    ensures b ==> !HasEnded(t)
    ensures !b && !HasEnded(t) ==> t.started.None?
  {
    t.started.Some? && t.ended.None?
  }

  /** `has_ended`: an ended task has both its start and its end recorded. */
  predicate HasEnded(t: Task): (b: bool)
    ensures b ==> t.started.Some? && t.ended.Some?
    ensures t.ended.None? ==> !b
  {
    t.started.Some? && t.ended.Some?
  }

  /** `Task.__init__`: only the creation time is set. */
  function NewTask(id: nat, work: Work, now: real): (t: Task)
    ensures t.id == id && t.work == work && t.created == now
    ensures !HasStarted(t) && !IsRunning(t) && !HasEnded(t)
    ensures t.queued.None? && t.after.None? && !t.resubmit && t.resubmitInterval.None?
  {
    Task(id, work, now, None, None, None, None, false, None)
  }

  /** `_started`. */
  function MarkStarted(t: Task, now: real): (t': Task)
    ensures HasStarted(t') && t'.started == Some(now)
    ensures IsRunning(t') <==> t.ended.None?
    ensures t' == t.(started := t'.started)
  {
    t.(started := Some(now))
  }

  /** `_ended`: after a start, the task has ended and is no longer running. */
  function MarkEnded(t: Task, now: real): (t': Task)
    ensures HasStarted(t) ==> HasEnded(t') && !IsRunning(t')
    ensures t' == t.(ended := Some(now))
  {
    t.(ended := Some(now))
  }

  /** The first argument of `append`/`insert`: a Task, a callable, or anything else. */
  datatype Submission = GivenTask(task: Task) | GivenCallable(fn: nat) | GivenOther

  /** Why a submission raises: not a Task nor a callable, or the queue stayed full until the timeout. */
  datatype SubmitError = NotTaskOrCallable | QueueFull

  /** `make_task`: a Task passes through, a callable is wrapped, anything else is refused. */
  function MakeTask(s: Submission, freshId: nat, now: real): (r: Result<Task, SubmitError>)
    ensures r.Err? <==> s.GivenOther?
    ensures r.Err? ==> r.error == NotTaskOrCallable
    ensures s.GivenTask? ==> r == Ok(s.task)
    ensures s.GivenCallable? ==> r.Ok? && r.value.work == FunctionCall(s.fn) && r.value.id == freshId
    ensures s.GivenCallable? ==> r.value.created == now && !HasStarted(r.value) && !r.value.resubmit
  {
    match s
    case GivenTask(t) => Ok(t)
    case GivenCallable(f) => Ok(NewTask(freshId, FunctionCall(f), now))
    case GivenOther => Err(NotTaskOrCallable)
  }

  /** A task may start at `now` when it has no not-before time or that time has come. */
  predicate IsReady(t: Task, now: real) { t.after.None? || t.after.value <= now }

  /** Reference definition of the task the pass picks: the first ready one in queue order. */
  function FirstReady(q: seq<Task>, now: real): (r: Option<nat>)
    ensures r.Some? ==> r.value < |q| && IsReady(q[r.value], now)
    ensures r.Some? ==> forall j :: 0 <= j < r.value ==> !IsReady(q[j], now)
    ensures r.None? ==> forall j :: 0 <= j < |q| ==> !IsReady(q[j], now)
  {
    if q == [] then None
    else if IsReady(q[0], now) then Some(0)
    else match FirstReady(q[1..], now)
      case None => None
      case Some(k) => Some(k + 1)
  }

  /**
   * The `for t in queued` loop of the pass: the first ready task, and the earliest
   * not-before time among the tasks looked at before it.
   */
  method ScanQueue(queued: seq<Task>, now: real) returns (next: Option<nat>, sleepUntil: Option<real>)
    ensures next == FirstReady(queued, now)
    ensures next.None? && queued != [] ==> sleepUntil.Some? && now < sleepUntil.value
    ensures next.None? ==> forall j :: 0 <= j < |queued| ==>
      queued[j].after.Some? && sleepUntil.Some? && sleepUntil.value <= queued[j].after.value
    ensures next.None? && queued != [] ==> exists j :: 0 <= j < |queued| && queued[j].after == sleepUntil
  {
    next, sleepUntil := None, None;
    var i := 0;
    while i < |queued|
      invariant i <= |queued|
      invariant forall j :: 0 <= j < i ==> !IsReady(queued[j], now)
      invariant sleepUntil.None? <==> i == 0
      invariant sleepUntil.Some? ==> now < sleepUntil.value
      invariant forall j :: 0 <= j < i ==> sleepUntil.Some? && sleepUntil.value <= queued[j].after.value
      invariant sleepUntil.Some? ==> exists j :: 0 <= j < i && queued[j].after == sleepUntil
    {
      var after := queued[i].after;
      if after.None? || after.value <= now {
        next := Some(i);
        return;
      }
      sleepUntil := Some(if sleepUntil.None? then after.value else Min(sleepUntil.value, after.value));
      i := i + 1;
    }
  }

  /** Moving the task at index `i` from the waiting sequence to a new worker keeps every task. */
  lemma {:induction false} MoveToWorkerKeepsTasks(q: seq<Task>, i: nat, ws: seq<Worker<Task>>, w: Worker<Task>)
    requires i < |q| && w.task == q[i]
    ensures multiset(q[..i] + q[i + 1..]) + multiset(TasksOf(ws + [w])) == multiset(q) + multiset(TasksOf(ws))
  {
    assert q == q[..i] + [q[i]] + q[i + 1..];
    TasksOfAppend(ws, w);
    calc {
      multiset(q);
      multiset(q[..i] + [q[i]] + q[i + 1..]);
      multiset(q[..i]) + multiset{q[i]} + multiset(q[i + 1..]);
    }
  }

  /** The pass's answer: how long the queue thread sleeps, or which task it started. */
  datatype PassResult =
    | StaggerSleep(delay: real)
    | StartedTask(task: Task)
    | AwaitReady(wake: real, pause: Option<real>)
    | IdleSleep(delay: real)

  class TaskQueue<V(==)> {
    const NWorkers: Option<nat>
    const Capacity: Option<nat>
    const Stagger: real
    /** The waiting tasks (a DEQueue in the source), front first. */
    var Queue: seq<Task>
    var Threads: seq<Worker<Task>>
    var Held: bool
    var LastStart: real
    var Stop: bool
    /** Identity for the next executor thread. */
    var NextThreadId: nat

    /** Executor threads have distinct identities, all already handed out. */
    ghost predicate Valid()
      reads this
    {
      DistinctIds(Threads, NextThreadId)
    }

    predicate HasRoom()
      reads this
    {
      Capacity.None? || |Queue| < Capacity.value
    }

    predicate HasWorkerSlot()
      reads this
    {
      NWorkers.None? || |Threads| < NWorkers.value
    }

    /** No waiting or running task has identity `id`, as for the object a new `FunctionTask` is. */
    ghost predicate FreshTaskId(id: nat)
      reads this
    {
      && (forall j :: 0 <= j < |Queue| ==> Queue[j].id != id)
      && (forall j :: 0 <= j < |Threads| ==> Threads[j].task.id != id)
    }

    /** `TaskQueue(nworkers, capacity, stagger)`; `stagger or 0.0` makes a missing stagger zero. */
    constructor (nworkers: Option<nat>, capacity: Option<nat>, stagger: Option<real>)
      ensures Valid()
      ensures NWorkers == nworkers && Capacity == capacity
      ensures Stagger == if stagger.Some? then stagger.value else 0.0
      ensures Queue == [] && Threads == [] && !Held && !Stop && LastStart == 0.0
    {
      NWorkers := nworkers;
      Capacity := capacity;
      Stagger := if stagger.Some? then stagger.value else 0.0;
      Queue := [];
      Threads := [];
      Held := false;
      LastStart := 0.0;
      Stop := false;
      NextThreadId := 0;
    }

    /** `stop`: the queue thread leaves its loop at the next test. */
    method StopQueue()
      modifies this
      ensures Stop && Queue == old(Queue) && Threads == old(Threads) && Held == old(Held)
      ensures LastStart == old(LastStart) && NextThreadId == old(NextThreadId)
    {
      Stop := true;
    }

    /**
     * `__add`: make the task, record `after`, push it at the front (`atFront`) or
     * the back unless the queue is full and `force` is off, stamp `Queued`, and
     * return a fresh promise carrying `data`.
     */
    method Submit(atFront: bool, task: Submission, after: Option<real>, force: bool,
                  data: Option<V>, now: real, freshId: nat)
      returns (r: Result<Promises.Promise<V>, SubmitError>)
      requires Valid()
      requires task.GivenCallable? ==> FreshTaskId(freshId)
      modifies this
      ensures Valid()
      ensures r.Ok? <==> !task.GivenOther? && (force || old(HasRoom()))
      ensures r.Err? ==> Queue == old(Queue)
      ensures r.Err? && !task.GivenOther? ==> r.error == QueueFull
      ensures r.Ok? ==> fresh(r.value) && r.value.Data == data && r.value.Callbacks == []
      ensures r.Ok? ==> !r.value.Completed && !r.value.Canceled
      ensures r.Ok? ==>
        var entry := MakeTask(task, freshId, now).value.(after := after, queued := Some(now));
        Queue == if atFront then [entry] + old(Queue) else old(Queue) + [entry]
      ensures Threads == old(Threads) && Held == old(Held) && Stop == old(Stop)
      ensures LastStart == old(LastStart) && NextThreadId == old(NextThreadId)
    {
      var made := MakeTask(task, freshId, now);
      if made.Err? {
        return Err(made.error);
      }
      var t := made.value.(after := after);
      if !force && !HasRoom() {
        return Err(QueueFull);
      }
      t := t.(queued := Some(now));
      if atFront {
        Queue := [t] + Queue;
      } else {
        Queue := Queue + [t];
      }
      var p := new Promises.Promise<V>(data, []);
      r := Ok(p);
    }

    /** `append` (also `add`, `addTask`): push at the back. */
    method Append(task: Submission, after: Option<real>, force: bool, data: Option<V>, now: real, freshId: nat)
      returns (r: Result<Promises.Promise<V>, SubmitError>)
      requires Valid()
      requires task.GivenCallable? ==> FreshTaskId(freshId)
      modifies this
      ensures Valid()
      ensures r.Ok? <==> !task.GivenOther? && (force || old(HasRoom()))
      ensures r.Err? ==> Queue == old(Queue)
      ensures r.Err? && !task.GivenOther? ==> r.error == QueueFull
      ensures r.Ok? ==> fresh(r.value) && r.value.Data == data && r.value.Callbacks == []
      ensures r.Ok? ==> !r.value.Completed && !r.value.Canceled
      ensures r.Ok? ==> Queue == old(Queue) + [MakeTask(task, freshId, now).value.(after := after, queued := Some(now))]
      ensures Threads == old(Threads) && Held == old(Held) && Stop == old(Stop)
      ensures LastStart == old(LastStart) && NextThreadId == old(NextThreadId)
    {
      r := Submit(false, task, after, force, data, now, freshId);
    }

    /** `insert` (also `insertTask`): push at the front. */
    method Insert(task: Submission, after: Option<real>, force: bool, data: Option<V>, now: real, freshId: nat)
      returns (r: Result<Promises.Promise<V>, SubmitError>)
      requires Valid()
      requires task.GivenCallable? ==> FreshTaskId(freshId)
      modifies this
      ensures Valid()
      ensures r.Ok? <==> !task.GivenOther? && (force || old(HasRoom()))
      ensures r.Err? ==> Queue == old(Queue)
      ensures r.Err? && !task.GivenOther? ==> r.error == QueueFull
      ensures r.Ok? ==> fresh(r.value) && r.value.Data == data && r.value.Callbacks == []
      ensures r.Ok? ==> !r.value.Completed && !r.value.Canceled
      ensures r.Ok? ==> Queue == [MakeTask(task, freshId, now).value.(after := after, queued := Some(now))] + old(Queue)
      ensures Threads == old(Threads) && Held == old(Held) && Stop == old(Stop)
      ensures LastStart == old(LastStart) && NextThreadId == old(NextThreadId)
    {
      r := Submit(true, task, after, force, data, now, freshId);
    }

    /**
     * One iteration of the queue thread's loop, entered while `Stop` is unset (the
     * loop's test), `now` being the clock read at its top and `later` the clock
     * read when the start time is recorded or the sleep is computed.
     */
    method RunPass(now: real, later: real) returns (p: PassResult)
      requires Valid() && !Stop
      modifies this
      ensures Valid()
      ensures Held == old(Held) && Stop == old(Stop)
      ensures old(LastStart) + Stagger > now ==> p == StaggerSleep(old(LastStart) + Stagger - now)
      ensures old(LastStart) + Stagger <= now && !(old(Queue) != [] && old(HasWorkerSlot()) && !Held) ==>
        p == IdleSleep(10.0)
      ensures p.StartedTask? <==>
        old(LastStart) + Stagger <= now && old(Queue) != [] && old(HasWorkerSlot()) && !Held &&
        FirstReady(old(Queue), now).Some?
      ensures p.StartedTask? ==>
        var i := FirstReady(old(Queue), now).value;
        && p.task == old(Queue)[i]
        && Queue == old(Queue)[..i] + old(Queue)[i + 1..]
        && Threads == old(Threads) + [Worker(old(NextThreadId), p.task)]
        && LastStart == later
      ensures p.StartedTask? ==>
        && |Queue| == |old(Queue)| - 1 && |Threads| == |old(Threads)| + 1
        && multiset(Queue) + multiset(TasksOf(Threads)) == multiset(old(Queue)) + multiset(TasksOf(old(Threads)))
      ensures (old(LastStart) + Stagger <= now && old(Queue) != [] && old(HasWorkerSlot()) && !Held &&
               FirstReady(old(Queue), now).None?) ==> p.AwaitReady?
      ensures p.AwaitReady? ==>
        && now < p.wake
        && (forall j :: 0 <= j < |old(Queue)| ==> old(Queue)[j].after.Some? && p.wake <= old(Queue)[j].after.value)
        && (exists j :: 0 <= j < |old(Queue)| && old(Queue)[j].after == Some(p.wake))
        && p.pause == (if later < p.wake then Some(p.wake - later) else None)
      ensures !p.StartedTask? ==> Queue == old(Queue) && Threads == old(Threads) && LastStart == old(LastStart)
    {
      if LastStart + Stagger > now {
        return StaggerSleep(LastStart + Stagger - now);
      }
      if !(Queue != [] && HasWorkerSlot() && !Held) {
        return IdleSleep(10.0);
      }
      var next, sleepUntil := ScanQueue(Queue, now);
      if next.Some? {
        var task := StartAt(next.value, later);
        p := StartedTask(task);
      } else {
        var wake := sleepUntil.value;
        p := AwaitReady(wake, if later < wake then Some(wake - later) else None);
      }
    }

    /** Start the waiting task at index `i` in a new executor thread, recording the start time. */
    method StartAt(i: nat, later: real) returns (task: Task)
      requires Valid() && i < |Queue|
      modifies this
      ensures Valid()
      ensures task == old(Queue)[i]
      ensures Queue == old(Queue)[..i] + old(Queue)[i + 1..]
      ensures Threads == old(Threads) + [Worker(old(NextThreadId), task)]
      ensures multiset(Queue) + multiset(TasksOf(Threads)) == multiset(old(Queue)) + multiset(TasksOf(old(Threads)))
      ensures NextThreadId == old(NextThreadId) + 1 && LastStart == later
      ensures Held == old(Held) && Stop == old(Stop)
    {
      task := Queue[i];
      var w := Worker(NextThreadId, task);
      MoveToWorkerKeepsTasks(Queue, i, Threads, w);
      AddFreshKeepsDistinct(Threads, w, NextThreadId);
      Queue := Queue[..i] + Queue[i + 1..];
      Threads := Threads + [w];
      NextThreadId := NextThreadId + 1;
      LastStart := later;
    }

    /**
     * `threadEnded`: forget the finished executor thread and, when its task asks
     * for resubmission, append it again with force, not before its previous queue
     * time plus `ResubmitInterval`.
     */
    method ThreadEnded(t: Worker<Task>, now: real)
      requires Valid()
      requires t.task.resubmit && t.task.resubmitInterval.Some? ==> t.task.queued.Some?
      modifies this
      ensures Valid()
      ensures Threads == RemoveId(old(Threads), t.id) && !HasId(Threads, t.id)
      ensures !t.task.resubmit ==> Queue == old(Queue)
      ensures t.task.resubmit ==> Queue == old(Queue) + [t.task.(after := ResubmitAfter(t.task), queued := Some(now))]
      ensures Held == old(Held) && LastStart == old(LastStart) && Stop == old(Stop)
      ensures NextThreadId == old(NextThreadId)
    {
      RemoveIdKeepsDistinct(Threads, t.id, NextThreadId);
      if HasId(Threads, t.id) {
        Threads := RemoveId(Threads, t.id);
      }
      var task := t.task;
      if task.resubmit {
        var r := Submit(false, GivenTask(task), ResubmitAfter(task), true, None, now, 0);
      }
    }

    method Counts() returns (waiting: nat, running: nat)
      ensures waiting == |Queue| && running == |Threads|
    {
      waiting, running := |Queue|, |Threads|;
    }

    /** `hold`: only the flag changes. */
    method Hold()
      modifies this
      ensures Held && Queue == old(Queue) && Threads == old(Threads)
      ensures LastStart == old(LastStart) && Stop == old(Stop) && NextThreadId == old(NextThreadId)
    {
      Held := true;
    }

    /** `release`: only the flag changes. */
    method Release()
      modifies this
      ensures !Held && Queue == old(Queue) && Threads == old(Threads)
      ensures LastStart == old(LastStart) && Stop == old(Stop) && NextThreadId == old(NextThreadId)
    {
      Held := false;
    }

    method IsEmpty() returns (r: bool)
      ensures r <==> Queue == [] && Threads == []
    {
      r := |Queue| == 0 && |Threads| == 0;
    }

    /** `flush`: discard the waiting tasks; running ones are untouched. */
    method Flush()
      modifies this
      ensures Queue == [] && Threads == old(Threads) && Held == old(Held) && Stop == old(Stop)
      ensures LastStart == old(LastStart) && NextThreadId == old(NextThreadId)
    {
      Queue := [];
    }

    method WaitingTasks() returns (ts: seq<Task>)
      ensures ts == Queue
    {
      ts := Queue;
    }

    method ActiveTasks() returns (ts: seq<Task>)
      ensures ts == TasksOf(Threads)
      ensures |ts| == |Threads| && forall i :: 0 <= i < |ts| ==> ts[i] == Threads[i].task
    {
      ts := TasksOf(Threads);
      forall i | 0 <= i < |ts|
        ensures ts[i] == Threads[i].task
      {
        TasksOfIndex(Threads, i);
      }
    }

    /** `tasks`: the waiting tasks and the tasks of the running threads. */
    method Tasks() returns (waiting: seq<Task>, active: seq<Task>)
      ensures waiting == Queue && active == TasksOf(Threads)
    {
      waiting := WaitingTasks();
      active := ActiveTasks();
    }

    /** `__len__` (also `nwaiting`): the number of waiting tasks. */
    method Length() returns (n: nat)
      ensures n == |Queue|
    {
      n := |Queue|;
    }

    /**
     * `__contains__`: the task object is waiting (running tasks are not in
     * `Queue`). Tasks have no `__eq__`, so `in` compares identities.
     */
    method Contains(t: Task) returns (r: bool)
      ensures r <==> exists j :: 0 <= j < |Queue| && Queue[j].id == t.id
    {
      r := exists j | 0 <= j < |Queue| :: Queue[j].id == t.id;
    }
  }

  /** `after` of a resubmitted task: its last queue time plus the interval, or none. */
  function ResubmitAfter(t: Task): (a: Option<real>)
    requires t.resubmitInterval.Some? ==> t.queued.Some?
    ensures a.None? <==> t.resubmitInterval.None?
    ensures a.Some? ==> a.value - t.queued.value == t.resubmitInterval.value
  {
    if t.resubmitInterval.None? then None else Some(t.queued.value + t.resubmitInterval.value)
  }
}
