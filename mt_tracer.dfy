/**
 * The thread-safe tracer of tools/mt_tracer.py: one record keeper holds the
 * contexts by path, and each thread's tracer keeps its own stack of them. A
 * tracer hands out a proxy whose exit records one timed segment and pops.
 */
module MultiThreadTracer {
  import opened Common
  import opened Paths

  /** Counts and time of one path, shared by all threads. */
  class Context {
    const Path: string
    var N: nat
    var T: real

    constructor (path: string)
      ensures Path == path && N == 0 && T == 0.0
    {
      Path, N, T := path, 0, 0.0;
    }

    /** `addSegment`: one more entry that took `t`. */
    method AddSegment(t: real)
      modifies this
      ensures N == old(N) + 1 && T == old(T) + t
    {
      T := T + t;
      N := N + 1;
    }
  }

  class TraceRecordKeeper {
    var Contexts: map<string, Context>

    ghost predicate Valid()
      reads this
    {
      forall p :: p in Contexts ==> Contexts[p].Path == p
    }

    function Snapshot(): map<string, Row>
      reads this, Contexts.Values
    {
      map p | p in Contexts :: Row(p, Contexts[p].N, Contexts[p].T)
    }

    constructor ()
      ensures Valid() && Contexts == map[]
    {
      Contexts := map[];
    }

    /** `context`: the context of `path`, created with no entries if there is none yet. */
    method GetContext(path: string) returns (c: Context)
      requires Valid()
      modifies this
      ensures Valid() && path in Contexts && Contexts[path] == c && c.Path == path
      ensures path in old(Contexts) ==> Contexts == old(Contexts)
      ensures path !in old(Contexts) ==> fresh(c) && c.N == 0 && c.T == 0.0 && Contexts == old(Contexts)[path := c]
    {
      if path in Contexts {
        c := Contexts[path];
      } else {
        c := new Context(path);
        Contexts := Contexts[path := c];
      }
    }

    /** The unadjusted `stats`: `(p, T, N, T/N)` per sorted path; any `N == 0` is a division error. */
    method Stats() returns (r: Result<seq<Stat>, StatsError>)
      requires Valid()
      ensures forall rows: seq<Row> :: IsTable(rows, Snapshot()) ==> r == StatsOf(rows)
      ensures r.Err? <==> exists p :: p in Contexts && Contexts[p].N == 0
    {
      var rows := TableOf(Snapshot());
      r := StatsOf(rows);
      forall other: seq<Row> | IsTable(other, Snapshot())
        ensures r == StatsOf(other)
      {
        TableUnique(rows, other, Snapshot());
      }
      if r.Err? {
        var i :| 0 <= i < |rows| && rows[i].n == 0;
        assert rows[i].path in Contexts;
      } else {
        forall p | p in Contexts
          ensures Contexts[p].N != 0
        {
          assert p in PathSet(rows);
          var i :| 0 <= i < |rows| && rows[i].path == p;
        }
      }
    }
  }

  /** What `popContext` does: pop, or fail with IndexError (empty) or AssertionError (not the top). */
  datatype PopOutcome = Popped | EmptyStack | WrongContext

  /** `__exit__` before `__enter__` has no `T0` (AttributeError). */
  datatype ExitError = NotEntered

  function PopOutcomeOf(stack: seq<Context>, c: Context): (o: PopOutcome)
    ensures o == Popped <==> stack != [] && stack[|stack| - 1] == c
    ensures o == EmptyStack <==> stack == []
  {
    if stack == [] then EmptyStack else if stack[|stack| - 1] == c then Popped else WrongContext
  }

  /** The stack after `ContextStack.pop()`. */
  function Pop(stack: seq<Context>): (s: seq<Context>)
    ensures stack != [] ==> |s| == |stack| - 1 && s == stack[..|s|]
    ensures stack == [] ==> s == []
  {
    if stack == [] then [] else stack[..|stack| - 1]
  }

  /** One thread's tracer. */
  class Tracer {
    const Keeper: TraceRecordKeeper
    var ContextStack: seq<Context>

    /** The keeper is sound and every stacked context is the keeper's context of its path. */
    ghost predicate Valid()
      reads this, Keeper
    {
      && Keeper.Valid()
      && (forall i :: 0 <= i < |ContextStack| ==>
            ContextStack[i].Path in Keeper.Contexts && Keeper.Contexts[ContextStack[i].Path] == ContextStack[i])
    }

    function Top(): Option<string>
      reads this
    {
      if ContextStack == [] then None else Some(ContextStack[|ContextStack| - 1].Path)
    }

    constructor (keeper: TraceRecordKeeper)
      requires keeper.Valid()
      ensures Valid() && Keeper == keeper && ContextStack == []
    {
      Keeper, ContextStack := keeper, [];
    }

    /**
     * `pushContext`: resolve the path against this thread's top, take the
     * keeper's context for it, push it and hand out a proxy for it.
     */
    method PushContext(path: string) returns (r: Result<ContextProxy, PathError>)
      requires Valid()
      modifies this, Keeper
      ensures Valid()
      ensures r.Err? <==> path == []
      ensures r.Err? ==> Keeper.Contexts == old(Keeper.Contexts) && ContextStack == old(ContextStack)
      ensures r.Ok? ==>
        var p := Resolve(path, old(Top())).value;
        && fresh(r.value) && r.value.Owner == this && r.value.T0.None?
        && p in Keeper.Contexts && Keeper.Contexts[p] == r.value.Ctx
        && ContextStack == old(ContextStack) + [r.value.Ctx]
        && (p in old(Keeper.Contexts) ==> Keeper.Contexts == old(Keeper.Contexts))
        && (p !in old(Keeper.Contexts) ==> r.value.Ctx.N == 0 && r.value.Ctx.T == 0.0)
      ensures forall q :: q in old(Keeper.Contexts) ==> q in Keeper.Contexts && Keeper.Contexts[q] == old(Keeper.Contexts)[q]
    {
      var resolved := Resolve(path, Top());
      if resolved.Err? {
        return Err(EmptyPath);
      }
      var c := Keeper.GetContext(resolved.value);
      ContextStack := ContextStack + [c];
      var proxy := new ContextProxy(this, c);
      r := Ok(proxy);
    }

    /** `begin`: push the context and enter its proxy at clock reading `now`. */
    method Begin(path: string, now: real) returns (r: Result<ContextProxy, PathError>)
      requires Valid()
      modifies this, Keeper
      ensures Valid()
      ensures r.Err? <==> path == []
      ensures r.Err? ==> Keeper.Contexts == old(Keeper.Contexts) && ContextStack == old(ContextStack)
      ensures r.Ok? ==>
        var p := Resolve(path, old(Top())).value;
        && fresh(r.value) && r.value.T0 == Some(now) && r.value.Owner == this
        && p in Keeper.Contexts && Keeper.Contexts[p] == r.value.Ctx
        && ContextStack == old(ContextStack) + [r.value.Ctx]
        && (p in old(Keeper.Contexts) ==> Keeper.Contexts == old(Keeper.Contexts))
        && (p !in old(Keeper.Contexts) ==> r.value.Ctx.N == 0 && r.value.Ctx.T == 0.0)
      ensures forall q :: q in old(Keeper.Contexts) ==> q in Keeper.Contexts && Keeper.Contexts[q] == old(Keeper.Contexts)[q]
      ensures forall c :: c in old(Keeper.Contexts.Values) ==> c.N == old(c.N) && c.T == old(c.T)
    {
      r := PushContext(path);
      if r.Ok? {
        r.value.Enter(now);
      }
    }

    /** `popContext(c)`: pop the top, then check that it was `c`. */
    method PopContext(c: Context) returns (o: PopOutcome)
      requires Valid()
      modifies this
      ensures Valid()
      ensures ContextStack == Pop(old(ContextStack))
      ensures o == PopOutcomeOf(old(ContextStack), c)
    {
      if ContextStack == [] {
        return EmptyStack;
      }
      var top := ContextStack[|ContextStack| - 1];
      ContextStack := ContextStack[..|ContextStack| - 1];
      o := if top == c then Popped else WrongContext;
    }
  }

  /** What `pushContext` returns, for use in a `with` statement. */
  class ContextProxy {
    const Owner: Tracer
    const Ctx: Context
    var T0: Option<real>

    constructor (tracer: Tracer, context: Context)
      ensures Owner == tracer && Ctx == context && T0.None?
    {
      Owner, Ctx, T0 := tracer, context, None;
    }

    /** `__enter__` at clock reading `now`. */
    method Enter(now: real)
      modifies this
      ensures T0 == Some(now)
    {
      T0 := Some(now);
    }

    /** `__exit__` at clock reading `now`: record exactly one segment on the context, then pop it. */
    method Exit(now: real) returns (r: Result<PopOutcome, ExitError>)
      requires Owner.Valid()
      modifies Ctx, Owner
      ensures Owner.Valid() && Owner.Keeper.Contexts == old(Owner.Keeper.Contexts)
      ensures r.Err? <==> T0.None?
      ensures r.Err? ==> Ctx.N == old(Ctx.N) && Ctx.T == old(Ctx.T) && Owner.ContextStack == old(Owner.ContextStack)
      ensures r.Ok? ==>
        && Ctx.N == old(Ctx.N) + 1 && Ctx.T == old(Ctx.T) + (now - T0.value)
        && Owner.ContextStack == Pop(old(Owner.ContextStack))
        && r.value == PopOutcomeOf(old(Owner.ContextStack), Ctx)
    {
      if T0.None? {
        return Err(NotEntered);
      }
      Ctx.AddSegment(now - T0.value);
      var o := Owner.PopContext(Ctx);
      r := Ok(o);
    }
  }
}
