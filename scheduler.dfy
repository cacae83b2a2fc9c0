/**
 * The periodic job timeline of pythreader/Scheduler.py. A job carries the time
 * it should next run; `RunJobs` starts every job that is due and keeps the rest,
 * and a job that finishes is put back on the timeline when its function asked
 * for another run (or the job repeats at an interval).
 */
module PeriodicScheduler {
  import opened Common

  /** A `t0` below this (ten years of seconds, about January 1980) is relative to now. */
  const RelativeStartLimit: real := 315360000.0
  /** A next time below this, returned by a job's function, is relative to the run's start. */
  const RelativeNextLimit: real := 30000000.0

  /** What a job's function did: returned "stop", returned None, returned a number, or raised. */
  datatype JobReturn = ReturnedStop | ReturnedNone | ReturnedTime(t: real) | Raised

  /** A job: identity, the (opaque) function, its repeat interval and jitter, and the next run time. */
  datatype Job = Job(id: string, fn: nat, interval: Option<real>, jitter: real, nextT: real)

  /** `interval or 0.0`. */
  function IntervalOrZero(interval: Option<real>): real
  {
    if interval.Some? then interval.value else 0.0
  }

  /** `random.random() * jitter` lies in `[0, jitter]` for a reading in `[0, 1)`. */
  lemma JitterBounds(r: real, jitter: real)
    ensures 0.0 <= r < 1.0 && jitter >= 0.0 ==> 0.0 <= r * jitter <= jitter
  {
    assert jitter - r * jitter == (1.0 - r) * jitter;
  }

  /** `add`'s first run time, at clock reading `now` and random reading `r`. */
  function ResolveStart(t0: Option<real>, interval: Option<real>, jitter: real, now: real, r: real): (t: real)
    ensures t0.Some? && t0.value < RelativeStartLimit ==> t - now == t0.value
    ensures t0.Some? && t0.value >= RelativeStartLimit ==> t == t0.value
    ensures t0.None? && 0.0 <= r < 1.0 && jitter >= 0.0 ==>
      now + IntervalOrZero(interval) <= t <= now + IntervalOrZero(interval) + jitter
  {
    if t0.None? then
      JitterBounds(r, jitter);
      now + IntervalOrZero(interval) + r * jitter
    else if t0.value < RelativeStartLimit then now + t0.value
    else t0.value
  }

  /** An absolute `t0` does not depend on when `add` is called; a relative one moves with the clock. */
  lemma ResolveStartClock(t0: real, interval: Option<real>, jitter: real, now1: real, now2: real, r: real)
    ensures t0 >= RelativeStartLimit ==>
      ResolveStart(Some(t0), interval, jitter, now1, r) == ResolveStart(Some(t0), interval, jitter, now2, r)
    ensures t0 < RelativeStartLimit ==>
      ResolveStart(Some(t0), interval, jitter, now2, r) - ResolveStart(Some(t0), interval, jitter, now1, r) == now2 - now1
  {
  }

  /**
   * `Job.run`'s next-time rule, for a run that started at `start`: "stop" ends
   * the job; None (and an exception, which leaves `next_t` None) repeats after
   * the interval if there is one; a small number is relative to `start`; any
   * other number is an absolute time.
   */
  function NextTime(ret: JobReturn, start: real, interval: Option<real>, jitter: real, r: real): (next: Option<real>)
    ensures next.Some? <==> ret.ReturnedTime? || (!ret.ReturnedStop? && interval.Some?)
    ensures ret.ReturnedTime? && ret.t >= RelativeNextLimit ==> next == Some(ret.t)
    ensures 0.0 <= r < 1.0 && jitter >= 0.0 && next.Some? && !(ret.ReturnedTime? && ret.t >= RelativeNextLimit) ==>
      var offset := if ret.ReturnedTime? then ret.t else interval.value;
      start + offset <= next.value <= start + offset + jitter
  {
    JitterBounds(r, jitter);
    match ret
    case ReturnedStop => None
    case ReturnedNone | Raised => if interval.Some? then Some(start + interval.value + r * jitter) else None
    case ReturnedTime(t) => if t < RelativeNextLimit then Some(t + start + r * jitter) else Some(t)
  }

  /** An exception is handled exactly like returning None. */
  lemma RaisedIsLikeNone(start: real, interval: Option<real>, jitter: real, r: real)
    ensures NextTime(Raised, start, interval, jitter, r) == NextTime(ReturnedNone, start, interval, jitter, r)
  {
  }

  /** What `Job.run` hands back: the next time, and whether the function raised. */
  datatype RunOutcome = RunOutcome(next: Option<real>, failed: bool)

  /** `Job.run`: the function's answer `ret`, clock reading `start` and random reading `r` are inputs. */
  function RunJob(job: Job, ret: JobReturn, start: real, r: real): (o: RunOutcome)
    ensures o.failed <==> ret.Raised?
    ensures o.next == NextTime(ret, start, job.interval, job.jitter, r)
  {
    RunOutcome(NextTime(ret, start, job.interval, job.jitter, r), ret.Raised?)
  }

  /** The timeline without the jobs whose id is `id`, in their original order (`remove`'s comprehension). */
  function WithoutId(s: seq<Job>, id: string): (r: seq<Job>)
    ensures |r| <= |s|
    ensures forall j :: j in r <==> j in s && j.id != id
  {
    if s == [] then []
    else (if s[0].id != id then [s[0]] else []) + WithoutId(s[1..], id)
  }

  /** Removal works piecewise, so the kept jobs keep their relative order. */
  lemma {:induction false} WithoutIdAppend(a: seq<Job>, b: seq<Job>, id: string)
    ensures WithoutId(a + b, id) == WithoutId(a, id) + WithoutId(b, id)
  {
    if a != [] {
      assert (a + b)[0] == a[0] && (a + b)[1..] == a[1..] + b;
      WithoutIdAppend(a[1..], b, id);
    } else {
      assert a + b == b;
    }
  }

  /** Removing an id that no job has changes nothing; removing twice is removing once. */
  lemma {:induction false} WithoutIdAbsent(s: seq<Job>, id: string)
    requires forall j :: j in s ==> j.id != id
    ensures WithoutId(s, id) == s
  {
    if s != [] {
      assert s[0] in s;
      assert forall j :: j in s[1..] ==> j in s;
      WithoutIdAbsent(s[1..], id);
    }
  }

  lemma WithoutIdIdempotent(s: seq<Job>, id: string)
    ensures WithoutId(WithoutId(s, id), id) == WithoutId(s, id)
  {
    WithoutIdAbsent(WithoutId(s, id), id);
  }

  /** The jobs of `s` due at `now`, in order. */
  function Due(s: seq<Job>, now: real): (d: seq<Job>)
    ensures forall j :: j in d <==> j in s && j.nextT <= now
  {
    if s == [] then [] else Due(s[..|s| - 1], now) + (if s[|s| - 1].nextT <= now then [s[|s| - 1]] else [])
  }

  /** The jobs of `s` not yet due at `now`, in order. */
  function Kept(s: seq<Job>, now: real): (k: seq<Job>)
    ensures forall j :: j in k <==> j in s && j.nextT > now
  {
    if s == [] then [] else Kept(s[..|s| - 1], now) + (if s[|s| - 1].nextT > now then [s[|s| - 1]] else [])
  }

  /** Every job is either started or kept, exactly once. */
  lemma {:induction false} DueKeptPartition(s: seq<Job>, now: real)
    ensures multiset(Due(s, now)) + multiset(Kept(s, now)) == multiset(s)
    ensures |Due(s, now)| + |Kept(s, now)| == |s|
  {
    if s != [] {
      var p, x := s[..|s| - 1], s[|s| - 1];
      DueKeptPartition(p, now);
      MultisetOfLast(s);
      var d, k := Due(p, now), Kept(p, now);
      if x.nextT <= now {
        assert Due(s, now) == d + [x] && Kept(s, now) == k;
      } else {
        assert Due(s, now) == d && Kept(s, now) == k + [x];
      }
    }
  }

  /** A sequence's multiset is that of all but its last element, plus the last. */
  lemma MultisetOfLast<T>(s: seq<T>)
    requires s != []
    ensures multiset(s) == multiset(s[..|s| - 1]) + multiset{s[|s| - 1]}
  {
    assert s == s[..|s| - 1] + [s[|s| - 1]];
  }

  /** One more job of the timeline is either due or kept. */
  lemma DueKeptStep(s: seq<Job>, i: nat, now: real)
    requires i < |s|
    ensures Due(s[..i + 1], now) == Due(s[..i], now) + (if s[i].nextT <= now then [s[i]] else [])
    ensures Kept(s[..i + 1], now) == Kept(s[..i], now) + (if s[i].nextT > now then [s[i]] else [])
  {
    assert s[..i + 1][..i] == s[..i];
  }

  /** The earliest next time in `s`. */
  function MinNextT(s: seq<Job>): (m: Option<real>)
    ensures m.Some? <==> s != []
    ensures m.Some? ==> forall i :: 0 <= i < |s| ==> m.value <= s[i].nextT
    ensures m.Some? ==> exists i :: 0 <= i < |s| && s[i].nextT == m.value
  {
    if s == [] then None
    else if |s| == 1 then Some(s[0].nextT)
    else
      var p := MinNextT(s[..|s| - 1]);
      assert forall i :: 0 <= i < |s| - 1 ==> s[..|s| - 1][i] == s[i];
      Some(Min(p.value, s[|s| - 1].nextT))
  }

  /** One turn of `next_run = min(next_run or job.NextT, job.NextT)`: a running minimum of 0.0 is falsy. */
  function MinStep(acc: Option<real>, t: real): (m: real)
    ensures m <= t
    ensures m == t || (acc.Some? && m == acc.value)
    ensures acc.Some? && acc.value != 0.0 ==> m <= acc.value
    ensures acc == Some(0.0) ==> m == t
  {
    Min(if acc.None? || acc.value == 0.0 then t else acc.value, t)
  }

  /** The value of `next_run` after folding over `s` from the front. */
  function RunningMin(s: seq<Job>): (m: Option<real>)
    ensures m.None? <==> s == []
    ensures s != [] ==> m.value <= s[|s| - 1].nextT
    ensures s != [] ==> exists i :: 0 <= i < |s| && m.value == s[i].nextT
  {
    if s == [] then None else Some(MinStep(RunningMin(s[..|s| - 1]), s[|s| - 1].nextT))
  }

  /** When no next time is 0.0, the running minimum is the true minimum. */
  lemma {:induction false} RunningMinIsMin(s: seq<Job>)
    requires forall i :: 0 <= i < |s| ==> s[i].nextT != 0.0
    ensures RunningMin(s) == MinNextT(s)
  {
    if s != [] {
      var p := s[..|s| - 1];
      assert forall i :: 0 <= i < |p| ==> p[i] == s[i];
      RunningMinIsMin(p);
    }
  }

  /** For a clock reading at or after the epoch, `run_jobs` returns the earliest next time of the kept jobs. */
  lemma KeptRunningMin(s: seq<Job>, now: real)
    requires now >= 0.0
    ensures RunningMin(Kept(s, now)) == MinNextT(Kept(s, now))
  {
    var k := Kept(s, now);
    forall i | 0 <= i < |k|
      ensures k[i].nextT != 0.0
    {
      assert k[i] in k;
    }
    RunningMinIsMin(k);
  }

  /** The `or` quirk: a kept job at time 0.0 is forgotten by the running minimum. */
  lemma RunningMinForgetsZero(a: Job, b: Job)
    requires a.nextT == 0.0 && b.nextT == 5.0
    ensures RunningMin([a, b]) == Some(5.0) && MinNextT([a, b]) == Some(0.0)
  {
    assert [a, b][..1] == [a];
    assert RunningMin([a]) == Some(0.0);
    assert MinNextT([a]) == Some(0.0);
  }

  /** Keeping one more job folds its next time into the running minimum. */
  lemma RunningMinAppend(s: seq<Job>, j: Job)
    ensures RunningMin(s + [j]) == Some(MinStep(RunningMin(s), j.nextT))
  {
    assert (s + [j])[..|s|] == s;
  }

  /** The loop of `run_jobs`: split `jobs` into the due and the kept ones and fold `next_run`. */
  method ScanTimeline(jobs: seq<Job>, now: real) returns (keep: seq<Job>, started: seq<Job>, nextRun: Option<real>)
    ensures keep == Kept(jobs, now) && started == Due(jobs, now)
    ensures nextRun == RunningMin(keep)
    ensures nextRun.None? <==> keep == []
    ensures now >= 0.0 ==> nextRun == MinNextT(keep)
  {
    keep, started, nextRun := [], [], None;
    for i := 0 to |jobs|
      invariant keep == Kept(jobs[..i], now) && started == Due(jobs[..i], now)
      invariant nextRun == RunningMin(keep)
    {
      var job := jobs[i];
      DueKeptStep(jobs, i, now);
      if job.nextT <= now {
        started := started + [job];
      } else {
        RunningMinAppend(keep, job);
        nextRun := Some(MinStep(nextRun, job.nextT));
        keep := keep + [job];
      }
    }
    assert jobs[..|jobs|] == jobs;
    if now >= 0.0 {
      KeptRunningMin(jobs, now);
    }
  }

  /** A report made to the delegate. */
  datatype Report = JobFailedReport(id: string)

  class Scheduler {
    /** Whether a delegate is set and has a `jobFailed` method. */
    const DelegateTakesFailures: bool
    var Timeline: seq<Job>
    /** The jobs handed to job threads, in start order. */
    var Launched: seq<Job>
    var Reports: seq<Report>

    constructor (delegateTakesFailures: bool)
      ensures DelegateTakesFailures == delegateTakesFailures
      ensures Timeline == [] && Launched == [] && Reports == []
    {
      DelegateTakesFailures := delegateTakesFailures;
      Timeline, Launched, Reports := [], [], [];
    }

    /** `add_job`: set the job's next time and put it at the end of the timeline. */
    method AddJob(job: Job, t: real)
      modifies this
      ensures Timeline == old(Timeline) + [job.(nextT := t)]
      ensures Launched == old(Launched) && Reports == old(Reports)
    {
      Timeline := Timeline + [job.(nextT := t)];
    }

    /**
     * `add`: resolve the first run time and add the job. `generated` stands for
     * the fresh `uuid4().hex` used when no id is given; that id is returned.
     */
    method Add(fn: nat, interval: Option<real>, t0: Option<real>, id: Option<string>, jitter: real,
               now: real, r: real, generated: string) returns (jobId: string)
      modifies this
      ensures jobId == if id.Some? then id.value else generated
      ensures Timeline == old(Timeline) + [Job(jobId, fn, interval, jitter, ResolveStart(t0, interval, jitter, now, r))]
      ensures Launched == old(Launched) && Reports == old(Reports)
    {
      jobId := if id.Some? then id.value else generated;
      var t := ResolveStart(t0, interval, jitter, now, r);
      var job := Job(jobId, fn, interval, jitter, t);
      AddJob(job, t);
    }

    /** `remove`: keep exactly the jobs with another id, in order. */
    method Remove(jobId: string)
      modifies this
      ensures Timeline == WithoutId(old(Timeline), jobId)
      ensures forall j :: j in Timeline <==> j in old(Timeline) && j.id != jobId
      ensures Launched == old(Launched) && Reports == old(Reports)
    {
      Timeline := WithoutId(Timeline, jobId);
    }

    /**
     * `run_jobs` at clock reading `now`: start every due job, keep the rest in
     * order, and return the running minimum of the kept jobs' next times.
     */
    method RunJobs(now: real) returns (nextRun: Option<real>)
      modifies this
      ensures Timeline == Kept(old(Timeline), now)
      ensures Launched == old(Launched) + Due(old(Timeline), now)
      ensures nextRun == RunningMin(Timeline)
      ensures nextRun.None? <==> Timeline == []
      ensures now >= 0.0 ==> nextRun == MinNextT(Timeline)
      ensures Reports == old(Reports)
    {
      var keep, started;
      keep, started, nextRun := ScanTimeline(Timeline, now);
      Timeline, Launched := keep, Launched + started;
    }

    /** `job_ended`: re-add iff there is a next time (its delegate call fails on an undefined name). */
    method JobEnded(job: Job, next: Option<real>)
      modifies this
      ensures Timeline == old(Timeline) + (if next.Some? then [job.(nextT := next.value)] else [])
      ensures Launched == old(Launched) && Reports == old(Reports)
    {
      if next.Some? {
        AddJob(job, next.value);
      }
    }

    /** `job_failed`: report to the delegate if it listens, then re-add iff there is a next time. */
    method JobFailed(job: Job, next: Option<real>)
      modifies this
      ensures Timeline == old(Timeline) + (if next.Some? then [job.(nextT := next.value)] else [])
      ensures Reports == old(Reports) + (if DelegateTakesFailures then [JobFailedReport(job.id)] else [])
      ensures Launched == old(Launched)
    {
      if DelegateTakesFailures {
        Reports := Reports + [JobFailedReport(job.id)];
      }
      if next.Some? {
        AddJob(job, next.value);
      }
    }

    /** What a job thread does once its job has run: route the outcome to `job_failed` or `job_ended`. */
    method Finish(job: Job, ret: JobReturn, start: real, r: real)
      modifies this
      ensures var o := RunJob(job, ret, start, r);
        Timeline == old(Timeline) + (if o.next.Some? then [job.(nextT := o.next.value)] else [])
      ensures Reports == old(Reports) + (if ret.Raised? && DelegateTakesFailures then [JobFailedReport(job.id)] else [])
      ensures Launched == old(Launched)
    {
      var o := RunJob(job, ret, start, r);
      if o.failed {
        JobFailed(job, o.next);
      } else {
        JobEnded(job, o.next);
      }
    }

    method IsEmpty() returns (empty: bool)
      ensures empty <==> Timeline == []
    {
      empty := |Timeline| == 0;
    }
  }
}
