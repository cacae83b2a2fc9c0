/**
 * The task queue of pythreader/TaskQueue.py. It has no thread of its own: every
 * change (a new task, a finished thread, a release, the stagger timer firing)
 * runs the start loop `StartThreads` under the lock. The stagger timer is
 * abstract: `StartTimer` holds the delay it was armed with.
 */
module TimerTaskQueue {
  import opened Common
  import opened Workers

  /** A Task's start and end stamps; the executor thread sets them around `run`. */
  class Task {
    var StartedAt: Option<real>
    var EndedAt: Option<real>

    constructor ()
      ensures StartedAt.None? && EndedAt.None?
    {
      StartedAt, EndedAt := None, None;
    }

    /** `started`: a started task is either running or ended. */
    predicate Started(): (b: bool)
      reads this
      ensures b <==> Running() || Ended()
    {
      StartedAt.Some?
    }

    /** `running`: running and ended exclude each other; a task that is neither has not started. */
    predicate Running(): (b: bool)
      reads this
      ensures b ==> !Ended()
      ensures !b && !Ended() ==> StartedAt.None?
    {
      StartedAt.Some? && EndedAt.None?
    }

    /** `ended`: an ended task has both its start and its end recorded. */
    predicate Ended(): (b: bool)
      reads this
      ensures b ==> StartedAt.Some? && EndedAt.Some?
      ensures EndedAt.None? ==> !b
    {
      StartedAt.Some? && EndedAt.Some?
    }

    /** `start`. */
    method Start(now: real)
      modifies this
      ensures StartedAt == Some(now) && EndedAt == old(EndedAt)
      ensures Started() && (Running() <==> old(EndedAt).None?)
    {
      StartedAt := Some(now);
    }

    /** `end`: a started task becomes ended and stops running. */
    method End(now: real)
      modifies this
      ensures EndedAt == Some(now) && StartedAt == old(StartedAt)
      ensures old(Started()) ==> Ended() && !Running()
    {
      EndedAt := Some(now);
    }
  }

  /** What `addTask`/`insertTask` do: queued, or the caller waits up to `timeout` for room. */
  datatype AddOutcome = Added | AddWouldBlock(timeout: Option<real>)

  class TaskQueue<T(==)> {
    const NWorkers: nat
    const Capacity: Option<nat>
    const Stagger: real
    /** The waiting tasks (a DEQueue in the source), front first. */
    var Queue: seq<T>
    var Threads: seq<Worker<T>>
    var Held: bool
    var LastStart: real
    /** The armed start timer, as the delay it was armed with; `None` when not armed. */
    var StartTimer: Option<real>
    var NextThreadId: nat

    ghost predicate Valid()
      reads this
    {
      && DistinctIds(Threads, NextThreadId)
      && (StartTimer.Some? ==> StartTimer.value >= 0.0)
    }

    predicate HasRoom()
      reads this
    {
      Capacity.None? || |Queue| < Capacity.value
    }

    /** Whether the start loop would arm the timer rather than start when it reaches its body. */
    predicate StaggerBlocks(now: real)
      reads this
    {
      Stagger > 0.0 && now < LastStart + Stagger
    }

    constructor (nworkers: nat, capacity: Option<nat>, stagger: real)
      ensures Valid()
      ensures NWorkers == nworkers && Capacity == capacity && Stagger == stagger
      ensures Queue == [] && Threads == [] && !Held && LastStart == 0.0 && StartTimer.None?
    {
      NWorkers := nworkers;
      Capacity := capacity;
      Stagger := stagger;
      Queue := [];
      Threads := [];
      Held := false;
      LastStart := 0.0;
      StartTimer := None;
      NextThreadId := 0;
    }

    /** `armStartTimer`: arm once, for the time left in the stagger interval. */
    method ArmStartTimer(now: real)
      requires Valid()
      modifies this`StartTimer
      ensures Valid()
      ensures old(StartTimer).Some? ==> StartTimer == old(StartTimer)
      ensures old(StartTimer).None? ==> StartTimer == Some(Max(0.0, LastStart + Stagger - now))
      ensures Queue == old(Queue) && Threads == old(Threads) && Held == old(Held)
      ensures LastStart == old(LastStart) && NextThreadId == old(NextThreadId)
    {
      if StartTimer.None? {
        StartTimer := Some(Max(0.0, LastStart + Stagger - now));
      }
    }

    /**
     * What `startThreads` at clock reading `now` leaves, started from waiting tasks
     * `q0`, threads `ws0`, next identity `id0`, last start `last0`, timer `timer0`
     * and hold `held`: the first `k` waiting tasks have moved, in order, to new
     * threads appended with fresh identities; a hold starts nothing; without
     * stagger the loop stops only when no task waits or no worker is free; with
     * stagger at most one task starts, exactly when the interval since `last0`
     * has passed, and if work remains the timer is armed (once) for the rest.
     */
    ghost predicate AfterStartLoop(q0: seq<T>, ws0: seq<Worker<T>>, id0: nat, last0: real,
                                   timer0: Option<real>, held: bool, now: real)
      reads this
    {
      var k := |Threads| - |ws0|;
      && 0 <= k <= |q0|
      && Held == held
      && Queue == q0[k..]
      && TasksOf(Threads) == TasksOf(ws0) + q0[..k]
      && Threads[..|ws0|] == ws0
      && StartedSince(Threads, |ws0|, id0)
      && NextThreadId == id0 + k
      && LastStart == (if k > 0 then now else last0)
      && (held ==> k == 0 && StartTimer == timer0)
      && (!held && Stagger <= 0.0 ==> Queue == [] || |Threads| >= NWorkers)
      && (Stagger > 0.0 ==> k <= 1)
      && (!held && Stagger > 0.0 ==> (k == 1 <==> q0 != [] && |ws0| < NWorkers && !(now < last0 + Stagger)))
      && StartTimer == (if !held && Stagger > 0.0 && Queue != [] && |Threads| < NWorkers && timer0.None?
                        then Some(Max(0.0, LastStart + Stagger - now)) else timer0)
    }

    /**
     * `startThreads` at clock reading `now`: while there is a waiting task, a free
     * worker slot and no hold, start the front task, unless the stagger interval
     * since the last start has not passed, in which case arm the timer and stop.
     */
    method StartThreads(now: real)
      requires Valid()
      modifies this
      ensures Valid()
      ensures AfterStartLoop(old(Queue), old(Threads), old(NextThreadId), old(LastStart), old(StartTimer), old(Held), now)
    {
      if !Held {
        ghost var k := StartWhileRoom(now);
        if Queue != [] && |Threads| < NWorkers {
          ArmStartTimer(now);
        }
      }
    }

    /**
     * The `while` loop of `startThreads`, entered without a hold: `k` tasks from
     * the front are started; it stops when the queue is empty, all workers are
     * busy, or the stagger interval has not passed. In the last case the source
     * arms the timer just before its `break`; `StartThreads` arms it right after.
     */
    method StartWhileRoom(now: real) returns (ghost k: nat)
      requires Valid() && !Held
      modifies this
      ensures Valid() && !Held
      ensures k <= |old(Queue)| && Queue == old(Queue)[k..] && |Threads| == |old(Threads)| + k
      ensures TasksOf(Threads) == TasksOf(old(Threads)) + old(Queue)[..k]
      ensures Threads[..|old(Threads)|] == old(Threads)
      ensures StartedSince(Threads, |old(Threads)|, old(NextThreadId))
      ensures NextThreadId == old(NextThreadId) + k
      ensures LastStart == if k > 0 then now else old(LastStart)
      ensures Stagger > 0.0 ==> k <= 1
      ensures Stagger > 0.0 && k == 1 ==> !old(StaggerBlocks(now))
      ensures k > 0 ==> |old(Threads)| < NWorkers
      ensures Queue != [] && |Threads| < NWorkers ==> StaggerBlocks(now)
      ensures StartTimer == old(StartTimer)
    {
      k := 0;
      ghost var q0, ws0, id0, last0 := Queue, Threads, NextThreadId, LastStart;
      ghost var blocked0 := StaggerBlocks(now);
      while Queue != [] && |Threads| < NWorkers && !Held
        invariant Valid() && !Held
        invariant k <= |q0| && Queue == q0[k..]
        invariant |Threads| == |ws0| + k
        invariant forall i :: 0 <= i < k ==> Threads[|ws0| + i].task == q0[i]
        invariant Threads[..|ws0|] == ws0
        invariant StartedSince(Threads, |ws0|, id0)
        invariant LastStart == if k > 0 then now else last0
        invariant StartTimer == old(StartTimer)
        invariant Stagger > 0.0 ==> k <= 1
        invariant Stagger > 0.0 && k == 1 ==> !blocked0
        invariant k > 0 ==> |ws0| < NWorkers
        invariant NextThreadId == id0 + k
        decreases |Queue|
      {
        if Stagger > 0.0 && now < LastStart + Stagger {
          break;
        }
        ghost var before, w := Threads, Worker(NextThreadId, Queue[0]);
        assert Queue[0] == q0[k];
        StartFront(now);
        PrefixKept(ws0, before, w);
        k := k + 1;
      }
      TasksOfExtend(ws0, Threads, q0, k);
    }

    /** One turn of the start loop's body: pop the front task into a new thread. */
    method StartFront(now: real)
      requires Valid() && Queue != []
      modifies this
      ensures Valid()
      ensures Queue == old(Queue)[1..]
      ensures Threads == old(Threads) + [Worker(old(NextThreadId), old(Queue)[0])]
      ensures NextThreadId == old(NextThreadId) + 1 && LastStart == now
      ensures Held == old(Held) && StartTimer == old(StartTimer)
    {
      var task := Queue[0];
      var w := Worker(NextThreadId, task);
      AddFreshKeepsDistinct(Threads, w, NextThreadId);
      Queue := Queue[1..];
      Threads := Threads + [w];
      NextThreadId := NextThreadId + 1;
      LastStart := now;
    }

    /** The timer's `fire`: disarm, then run the start loop from the disarmed state. */
    method FireStartTimer(now: real)
      requires Valid()
      modifies this
      ensures Valid()
      ensures AfterStartLoop(old(Queue), old(Threads), old(NextThreadId), old(LastStart), None, old(Held), now)
    {
      StartTimer := None;
      StartThreads(now);
    }

    /** `addTask`: append (waiting while full), then run the start loop on the longer queue. */
    method AddTask(task: T, timeout: Option<real>, now: real) returns (r: AddOutcome)
      requires Valid()
      modifies this
      ensures Valid()
      ensures r == Added <==> old(HasRoom())
      ensures r != Added ==>
        && r == AddWouldBlock(timeout)
        && Queue == old(Queue) && Threads == old(Threads) && Held == old(Held)
        && LastStart == old(LastStart) && StartTimer == old(StartTimer) && NextThreadId == old(NextThreadId)
      ensures r == Added ==>
        AfterStartLoop(old(Queue) + [task], old(Threads), old(NextThreadId), old(LastStart), old(StartTimer), old(Held), now)
    {
      if !HasRoom() {
        return AddWouldBlock(timeout);
      }
      Queue := Queue + [task];
      StartThreads(now);
      r := Added;
    }

    /** `insertTask`: push at the front (waiting while full), then run the start loop on the longer queue. */
    method InsertTask(task: T, timeout: Option<real>, now: real) returns (r: AddOutcome)
      requires Valid()
      modifies this
      ensures Valid()
      ensures r == Added <==> old(HasRoom())
      ensures r != Added ==>
        && r == AddWouldBlock(timeout)
        && Queue == old(Queue) && Threads == old(Threads) && Held == old(Held)
        && LastStart == old(LastStart) && StartTimer == old(StartTimer) && NextThreadId == old(NextThreadId)
      ensures r == Added ==>
        AfterStartLoop([task] + old(Queue), old(Threads), old(NextThreadId), old(LastStart), old(StartTimer), old(Held), now)
    {
      if !HasRoom() {
        return AddWouldBlock(timeout);
      }
      Queue := [task] + Queue;
      StartThreads(now);
      r := Added;
    }

    /**
     * `threadEnded`: forget the finished thread object if it is listed (an identity
     * test), then run the start loop with the remaining threads.
     */
    method ThreadEnded(t: Worker<T>, now: real)
      requires Valid()
      requires t.id < NextThreadId
      modifies this
      ensures Valid()
      ensures !HasId(Threads, t.id)
      ensures AfterStartLoop(old(Queue), RemoveId(old(Threads), t.id), old(NextThreadId), old(LastStart),
                             old(StartTimer), old(Held), now)
    {
      RemoveIdKeepsDistinct(Threads, t.id, NextThreadId);
      if HasId(Threads, t.id) {
        Threads := RemoveId(Threads, t.id);
      }
      ghost var before := Threads;
      StartThreads(now);
      forall i | 0 <= i < |Threads|
        ensures Threads[i].id != t.id
      {
        if i < |before| {
          assert Threads[i] == before[i];
        } else {
          assert Threads[i].id >= t.id + 1;
        }
      }
    }

    /** `hold`: only the flag changes; no new thread starts until released. */
    method Hold()
      modifies this
      ensures Held && Queue == old(Queue) && Threads == old(Threads)
      ensures LastStart == old(LastStart) && StartTimer == old(StartTimer) && NextThreadId == old(NextThreadId)
    {
      Held := true;
    }

    /** `release`: clear the flag and run the start loop, so nothing waiting is dropped. */
    method Release(now: real)
      requires Valid()
      modifies this
      ensures Valid() && !Held
      ensures AfterStartLoop(old(Queue), old(Threads), old(NextThreadId), old(LastStart), old(StartTimer), false, now)
    {
      Held := false;
      StartThreads(now);
    }

    method IsEmpty() returns (r: bool)
      ensures r <==> Queue == [] && Threads == []
    {
      r := |Queue| == 0 && |Threads| == 0;
    }

    /** `flush`: discard the waiting tasks only. */
    method Flush()
      modifies this
      ensures Queue == [] && Threads == old(Threads) && Held == old(Held)
      ensures LastStart == old(LastStart) && StartTimer == old(StartTimer) && NextThreadId == old(NextThreadId)
    {
      Queue := [];
    }

    /** `tasks`: the waiting tasks and the tasks of the running threads. */
    method Tasks() returns (waiting: seq<T>, active: seq<T>)
      ensures waiting == Queue && active == TasksOf(Threads)
    {
      waiting, active := Queue, TasksOf(Threads);
    }

    /** `__len__`: the number of waiting tasks. */
    method Length() returns (n: nat)
      ensures n == |Queue|
    {
      n := |Queue|;
    }
  }
}
