/**
 * The single-thread tracer of tools/st_tracer.py: contexts are kept by
 * absolute path in a dictionary and entered and left in stack order; each
 * exit counts one entry and adds the time spent inside.
 */
module SingleThreadTracer {
  import opened Common
  import opened Paths

  /** What `popContext` does: pop, or fail with IndexError (empty) or AssertionError (not the top). */
  datatype PopOutcome = Popped | EmptyStack | WrongContext

  class Context {
    const Path: string
    const Owner: Tracer
    var N: nat
    var T: real
    var T0: real

    /** A new context at clock reading `now`. */
    constructor (tracer: Tracer, path: string, now: real)
      ensures Owner == tracer && Path == path && N == 0 && T == 0.0 && T0 == now
    {
      Owner, Path := tracer, path;
      N, T, T0 := 0, 0.0, now;
    }

    /** `__enter__`: note the clock. */
    method Enter(now: real)
      modifies this
      ensures T0 == now && N == old(N) && T == old(T)
    {
      T0 := now;
    }

    /** `__exit__`: one more entry, the time since `__enter__` added, then popped from the tracer. */
    method Exit(now: real) returns (o: PopOutcome)
      requires Owner.Valid()
      modifies this, Owner
      ensures N == old(N) + 1 && T == old(T) + (now - old(T0)) && T0 == old(T0)
      ensures Owner.Valid() && Owner.Contexts == old(Owner.Contexts)
      ensures Owner.ContextStack == Pop(old(Owner.ContextStack))
      ensures o == PopOutcomeOf(old(Owner.ContextStack), this)
    {
      T := T + (now - T0);
      N := N + 1;
      o := Owner.PopContext(this);
    }
  }

  /** The stack after `ContextStack.pop()`: one shorter, or still empty. */
  function Pop(stack: seq<Context>): (s: seq<Context>)
    ensures stack != [] ==> |s| == |stack| - 1 && s == stack[..|s|]
    ensures stack == [] ==> s == []
  {
    if stack == [] then [] else stack[..|stack| - 1]
  }

  /** What popping `stack` while expecting `c` on top does. */
  function PopOutcomeOf(stack: seq<Context>, c: Context): (o: PopOutcome)
    ensures o == Popped <==> stack != [] && stack[|stack| - 1] == c
    ensures o == EmptyStack <==> stack == []
  {
    if stack == [] then EmptyStack else if stack[|stack| - 1] == c then Popped else WrongContext
  }

  class Tracer {
    var Contexts: map<string, Context>
    var ContextStack: seq<Context>

    /** Each context sits under its own absolute path and belongs here; the stack holds kept contexts. */
    ghost predicate Valid()
      reads this
    {
      && (forall p :: p in Contexts ==> Contexts[p].Path == p && Contexts[p].Owner == this && p != [] && p[0] == '/')
      && (forall i :: 0 <= i < |ContextStack| ==>
            ContextStack[i].Path in Contexts && Contexts[ContextStack[i].Path] == ContextStack[i])
    }

    /** The top context's path, if any. */
    function Top(): Option<string>
      reads this
    {
      if ContextStack == [] then None else Some(ContextStack[|ContextStack| - 1].Path)
    }

    /** The contexts as rows of path, count and time. */
    function Snapshot(): map<string, Row>
      reads this, Contexts.Values
    {
      map p | p in Contexts :: Row(p, Contexts[p].N, Contexts[p].T)
    }

    constructor ()
      ensures Valid() && Contexts == map[] && ContextStack == []
    {
      Contexts, ContextStack := map[], [];
    }

    /**
     * `pushContext` at clock reading `now`: resolve the path, take its context
     * or create it, and push it. An empty path fails and changes nothing.
     */
    method PushContext(path: string, now: real) returns (r: Result<Context, PathError>)
      requires Valid()
      modifies this
      ensures Valid()
      ensures r.Err? <==> path == []
      ensures r.Err? ==> Contexts == old(Contexts) && ContextStack == old(ContextStack)
      ensures r.Ok? ==>
        var p := Resolve(path, old(Top())).value;
        && p in Contexts && Contexts[p] == r.value && r.value.Path == p
        && ContextStack == old(ContextStack) + [r.value]
        && (p in old(Contexts) ==> Contexts == old(Contexts))
        && (p !in old(Contexts) ==>
              fresh(r.value) && Contexts == old(Contexts)[p := r.value]
              && r.value.N == 0 && r.value.T == 0.0 && r.value.T0 == now)
      ensures forall q :: q in old(Contexts) ==> q in Contexts && Contexts[q] == old(Contexts)[q]
    {
      var resolved := Resolve(path, Top());
      if resolved.Err? {
        return Err(EmptyPath);
      }
      var p := resolved.value;
      ResolveAbsolute(path, Top());
      var c: Context;
      if p in Contexts {
        c := Contexts[p];
      } else {
        c := new Context(this, p, now);
        Contexts := Contexts[p := c];
      }
      ContextStack := ContextStack + [c];
      r := Ok(c);
    }

    /** `popContext(c)`: pop the top, then check that it was `c`. */
    method PopContext(c: Context) returns (o: PopOutcome)
      requires Valid()
      modifies this
      ensures Valid() && Contexts == old(Contexts)
      ensures ContextStack == Pop(old(ContextStack))
      ensures o == PopOutcomeOf(old(ContextStack), c)
    {
      if ContextStack == [] {
        return EmptyStack;
      }
      var top := ContextStack[|ContextStack| - 1];
      ContextStack := ContextStack[..|ContextStack| - 1];
      o := if top == c then Popped else WrongContext;
    }

    /** `begin`: push the context and enter it. */
    method Begin(path: string, now: real) returns (r: Result<Context, PathError>)
      requires Valid()
      modifies this, Contexts.Values
      ensures Valid()
      ensures r.Err? <==> path == []
      ensures r.Err? ==> Contexts == old(Contexts) && ContextStack == old(ContextStack)
      ensures r.Ok? ==>
        var p := Resolve(path, old(Top())).value;
        && p in Contexts && Contexts[p] == r.value && r.value.Path == p && r.value.T0 == now
        && ContextStack == old(ContextStack) + [r.value]
        && (p in old(Contexts) ==> Contexts == old(Contexts))
        && (p !in old(Contexts) ==>
              fresh(r.value) && Contexts == old(Contexts)[p := r.value] && r.value.N == 0 && r.value.T == 0.0)
      ensures forall q :: q in old(Contexts) ==> q in Contexts && Contexts[q] == old(Contexts)[q]
      ensures forall c :: c in old(Contexts.Values) ==> c.N == old(c.N) && c.T == old(c.T)
      ensures forall c :: c in old(Contexts.Values) && (r.Err? || c != r.value) ==> c.T0 == old(c.T0)
    {
      r := PushContext(path, now);
      if r.Ok? {
        r.value.Enter(now);
      }
    }

    /** `end`: exit the top context, which pops it; an empty stack raises IndexError. */
    method End(now: real) returns (r: Result<Context, PopOutcome>)
      requires Valid()
      modifies this, Contexts.Values
      ensures Valid() && Contexts == old(Contexts)
      ensures r.Err? <==> old(ContextStack) == []
      ensures r.Err? ==> r.error == EmptyStack && ContextStack == []
      ensures r.Ok? ==>
        && r.value == old(ContextStack)[|old(ContextStack)| - 1]
        && r.value.N == old(r.value.N) + 1 && r.value.T == old(r.value.T) + (now - old(r.value.T0))
        && r.value.T0 == old(r.value.T0)
        && ContextStack == Pop(old(ContextStack))
      ensures forall c :: c in old(Contexts.Values) && (r.Err? || c != r.value) ==>
        c.N == old(c.N) && c.T == old(c.T) && c.T0 == old(c.T0)
    {
      if ContextStack == [] {
        return Err(EmptyStack);
      }
      var c := ContextStack[|ContextStack| - 1];
      var o := c.Exit(now);
      r := Ok(c);
    }

    /**
     * `rollup`: the table sorted by path with counts unchanged and each time
     * replaced by the total of the context and every context under it.
     */
    method Rollup() returns (stats: seq<Row>)
      requires Valid()
      ensures forall rows: seq<Row> :: IsTable(rows, Snapshot()) ==>
        |stats| == |rows| && forall i :: 0 <= i < |rows| ==> stats[i] == rows[i].(t := Subtree(rows, i))
    {
      var rows := TableOf(Snapshot());
      stats := RollupRows(rows);
      forall i | 0 <= i < |rows|
        ensures stats[i] == rows[i].(t := Subtree(rows, i))
      {
        RolledUpIsSubtree(rows, i);
      }
      forall other: seq<Row> | IsTable(other, Snapshot())
        ensures |stats| == |other| && forall i :: 0 <= i < |other| ==> stats[i] == other[i].(t := Subtree(other, i))
      {
        TableUnique(rows, other, Snapshot());
      }
    }

    /** The unadjusted `stats`: `(p, T, N, T/N)` per sorted path; any `N == 0` is a division error. */
    method Stats() returns (r: Result<seq<Stat>, StatsError>)
      requires Valid()
      ensures forall rows: seq<Row> :: IsTable(rows, Snapshot()) ==> r == StatsOf(rows)
      ensures r.Err? <==> exists p :: p in Contexts && Contexts[p].N == 0
    {
      var rows := TableOf(Snapshot());
      r := StatsOf(rows);
      forall other: seq<Row> | IsTable(other, Snapshot())
        ensures r == StatsOf(other)
      {
        TableUnique(rows, other, Snapshot());
      }
      if r.Err? {
        var i :| 0 <= i < |rows| && rows[i].n == 0;
        assert rows[i].path in Contexts;
      } else {
        forall p | p in Contexts
          ensures Contexts[p].N != 0
        {
          assert p in PathSet(rows);
          var i :| 0 <= i < |rows| && rows[i].path == p;
        }
      }
    }
  }
}
