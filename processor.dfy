/**
 * The item processor of pythreader/processor.py: every added item becomes a
 * `WorkerTask` on a TaskQueue.py task queue, and when the task runs, the
 * outcome of `process` is routed to the delegate and to the output processor.
 * The delegate's calls and the output's `add` are recorded as effects.
 */
module Processing {
  import opened Common
  import TimerTaskQueue

  /** What the (overridable) `process(item)` did: raised, or returned a value or None. */
  datatype Outcome<T> = Raised | Returned(out: Option<T>)

  /** An observable consequence of processing an item. */
  datatype Effect<T> =
    | ItemFailed(item: T)
    | ItemProcessed(item: T, out: T)
    | ItemDiscarded(item: T)
    | Forwarded(value: T)

  /** Python's `-1` default for `add`'s timeout, which stands for "use `AddTimeout`". */
  const DefaultTimeout: real := -1.0

  /** `add`'s timeout: the sentinel `-1` becomes the processor's `AddTimeout`, anything else is kept. */
  function EffectiveTimeout(timeout: Option<real>, addTimeout: Option<real>): (t: Option<real>)
    ensures timeout == Some(DefaultTimeout) ==> t == addTimeout
    ensures timeout != Some(DefaultTimeout) ==> t == timeout
  {
    if timeout == Some(DefaultTimeout) then addTimeout else timeout
  }

  /**
   * `_process`'s routing for `item` with outcome `o`: a failure is reported and
   * nothing is forwarded; a value is reported, then forwarded if there is an
   * output; None is reported as discarded. Reports need a delegate.
   */
  function Route<T>(item: T, o: Outcome<T>, hasDelegate: bool, hasOutput: bool): (effects: seq<Effect<T>>)
    ensures |effects| <= 2
    ensures forall e :: e in effects ==> e.Forwarded? || (hasDelegate && e.item == item)
    ensures forall e :: e in effects && e.Forwarded? ==> hasOutput && o == Returned(Some(e.value))
    ensures hasOutput && o.Returned? && o.out.Some? ==> Forwarded(o.out.value) in effects
    ensures hasDelegate ==> effects != [] && !effects[0].Forwarded?
    ensures hasDelegate ==> (effects[0].ItemFailed? <==> o.Raised?)
    ensures hasDelegate ==> (effects[0].ItemDiscarded? <==> o == Returned(None))
    ensures hasDelegate && effects[0].ItemProcessed? ==> o == Returned(Some(effects[0].out))
    ensures !hasDelegate ==> forall e :: e in effects ==> e.Forwarded?
  {
    match o
    case Raised => if hasDelegate then [ItemFailed(item)] else []
    case Returned(None) => if hasDelegate then [ItemDiscarded(item)] else []
    case Returned(Some(out)) =>
      (if hasDelegate then [ItemProcessed(item, out)] else []) + (if hasOutput then [Forwarded(out)] else [])
  }

  /** A delegate's report, if any, comes before the forwarding. */
  lemma ReportBeforeForward<T>(item: T, out: T, hasDelegate: bool, hasOutput: bool)
    ensures var effects := Route(item, Returned(Some(out)), hasDelegate, hasOutput);
      hasDelegate && hasOutput ==> effects == [ItemProcessed(item, out), Forwarded(out)]
  {
  }

  class Processor<T(==)> {
    const HasDelegate: bool
    const HasOutput: bool
    const AddTimeout: Option<real>
    const WorkerQueue: TimerTaskQueue.TaskQueue<WorkerTask<T>>
    /** The delegate calls and forwarded outputs so far, in order. */
    var Effects: seq<Effect<T>>

    ghost predicate Valid()
      reads this, WorkerQueue
    {
      WorkerQueue.Valid()
    }

    constructor (maxWorkers: nat, queueCapacity: Option<nat>, stagger: real,
                 hasDelegate: bool, hasOutput: bool, addTimeout: Option<real>)
      ensures Valid() && fresh(WorkerQueue)
      ensures HasDelegate == hasDelegate && HasOutput == hasOutput && AddTimeout == addTimeout
      ensures WorkerQueue.NWorkers == maxWorkers && WorkerQueue.Capacity == queueCapacity
      ensures WorkerQueue.Stagger == stagger && WorkerQueue.Queue == [] && WorkerQueue.Threads == []
      ensures Effects == []
    {
      HasDelegate, HasOutput, AddTimeout := hasDelegate, hasOutput, addTimeout;
      WorkerQueue := new TimerTaskQueue.TaskQueue(maxWorkers, queueCapacity, stagger);
      Effects := [];
    }

    /**
     * `add`: wrap the item in a new task for this processor and add it to the
     * task queue; `task` names the task that was built.
     */
    method Add(item: T, timeout: Option<real>, now: real) returns (r: TimerTaskQueue.AddOutcome, ghost task: WorkerTask<T>)
      requires Valid()
      modifies WorkerQueue
      ensures Valid()
      ensures fresh(task) && task.Item == item && task.Proc == this
      ensures r == TimerTaskQueue.Added <==> old(WorkerQueue.HasRoom())
      ensures r != TimerTaskQueue.Added ==>
        && r == TimerTaskQueue.AddWouldBlock(EffectiveTimeout(timeout, AddTimeout))
        && WorkerQueue.Queue == old(WorkerQueue.Queue) && WorkerQueue.Threads == old(WorkerQueue.Threads)
        && WorkerQueue.Held == old(WorkerQueue.Held) && WorkerQueue.LastStart == old(WorkerQueue.LastStart)
        && WorkerQueue.StartTimer == old(WorkerQueue.StartTimer)
        && WorkerQueue.NextThreadId == old(WorkerQueue.NextThreadId)
      ensures r == TimerTaskQueue.Added ==>
        WorkerQueue.AfterStartLoop(old(WorkerQueue.Queue) + [task], old(WorkerQueue.Threads),
          old(WorkerQueue.NextThreadId), old(WorkerQueue.LastStart), old(WorkerQueue.StartTimer),
          old(WorkerQueue.Held), now)
    {
      var t := new WorkerTask(this, item);
      r := WorkerQueue.AddTask(t, EffectiveTimeout(timeout, AddTimeout), now);
      task := t;
    }

    /** `_process`, given what `process(item)` did. */
    method Process(item: T, o: Outcome<T>)
      modifies this
      ensures Effects == old(Effects) + Route(item, o, HasDelegate, HasOutput)
    {
      Effects := Effects + Route(item, o, HasDelegate, HasOutput);
    }
  }

  /** The task an added item becomes. */
  class WorkerTask<T(==)> {
    var Proc: Processor?<T>
    const Item: T

    constructor (p: Processor<T>, item: T)
      ensures Proc == p && Item == item
    {
      Proc, Item := p, item;
    }

    /** `run`: process the item, then drop the processor reference whatever happened. */
    method Run(o: Outcome<T>)
      requires Proc != null
      modifies this, Proc
      ensures Proc == null
      ensures old(Proc).Effects == old(Proc.Effects) + Route(Item, o, old(Proc).HasDelegate, old(Proc).HasOutput)
    {
      Proc.Process(Item, o);
      Proc := null;
    }
  }
}
