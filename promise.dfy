/**
 * The promise of pythreader/promise.py: two flags, a stored result and an ordered
 * list of callbacks. Callbacks are foreign callables: a callback is an opaque
 * identity, the caller of `Complete` supplies what each one answers when fired
 * (`stops(cb)` means it returned "stop"), and every invocation is appended to the
 * trace `Fired`.
 */
module Promises {
  import opened Common

  datatype Callback = Callback(id: nat)

  /**
   * The callbacks `complete` invokes, in order: registration order, up to and
   * including the first one that answers "stop".
   */
  function FiringOrder(cbs: seq<Callback>, stops: Callback -> bool): (fired: seq<Callback>)
    ensures |fired| <= |cbs| && fired == cbs[..|fired|]
    ensures forall i :: 0 <= i < |fired| - 1 ==> !stops(fired[i])
    ensures |fired| < |cbs| ==> |fired| > 0 && stops(fired[|fired| - 1])
  {
    if cbs == [] then []
    else if stops(cbs[0]) then [cbs[0]]
    else [cbs[0]] + FiringOrder(cbs[1..], stops)
  }

  /** No callback fires when none answers "stop" before the end: then all of them fire. */
  lemma {:induction false} FiringOrderAllWhenNoneStops(cbs: seq<Callback>, stops: Callback -> bool)
    requires forall i :: 0 <= i < |cbs| - 1 ==> !stops(cbs[i])
    ensures FiringOrder(cbs, stops) == cbs
  {
    if cbs != [] && !stops(cbs[0]) {
      FiringOrderAllWhenNoneStops(cbs[1..], stops);
    }
  }

  /** The callbacks after the first "stop" are never reached. */
  lemma {:induction false} FiringOrderStopsAtFirst(cbs: seq<Callback>, stops: Callback -> bool, k: nat)
    requires k < |cbs| && stops(cbs[k])
    requires forall i :: 0 <= i < k ==> !stops(cbs[i])
    ensures FiringOrder(cbs, stops) == cbs[..k + 1]
  {
    if k > 0 {
      FiringOrderStopsAtFirst(cbs[1..], stops, k - 1);
      assert cbs[..k + 1] == [cbs[0]] + cbs[1..][..k];
    }
  }

  /** What `wait` does at one instant: return a value, raise Timeout, or keep waiting. */
  datatype WaitOutcome<V> = Returned(value: Option<V>) | TimedOut | Blocks

  class Promise<V(==)> {
    var Data: Option<V>
    var Callbacks: seq<Callback>
    /** The source's `Complete` flag (renamed: `Complete` is the method). */
    var Completed: bool
    var Canceled: bool
    var Result: Option<V>
    /** Every callback invocation so far, oldest first. */
    var Fired: seq<Callback>

    /** `Promise(data, callbacks)`: the list is copied, nothing is settled yet. */
    constructor (data: Option<V>, callbacks: seq<Callback>)
      ensures Data == data && Callbacks == callbacks
      ensures !Completed && !Canceled && Result == None && Fired == []
    {
      Data := data;
      Callbacks := callbacks;
      Completed := false;
      Canceled := false;
      Result := None;
      Fired := [];
    }

    /** `addCallback`: fire at once when already completed and not cancelled; register in any case. */
    method AddCallback(cb: Callback)
      modifies this
      ensures Callbacks == old(Callbacks) + [cb]
      ensures Fired == old(Fired) + if old(Completed) && !old(Canceled) then [cb] else []
      ensures Completed == old(Completed) && Canceled == old(Canceled)
      ensures Result == old(Result) && Data == old(Data)
    {
      if Completed && !Canceled {
        Fired := Fired + [cb];
      }
      Callbacks := Callbacks + [cb];
    }

    /**
     * `complete(result)`: store the result (there is no guard, so a second call
     * overwrites it), fire the registered callbacks unless cancelled, then forget them.
     */
    method Complete(result: Option<V>, stops: Callback -> bool)
      modifies this
      ensures Result == result && Completed
      ensures Canceled == old(Canceled) && Data == old(Data)
      ensures Callbacks == []
      ensures Fired == old(Fired) + if old(Canceled) then [] else FiringOrder(old(Callbacks), stops)
    {
      Result := result;
      Completed := true;
      if !Canceled {
        var i := 0;
        while i < |Callbacks|
          invariant i <= |Callbacks|
          invariant Callbacks == old(Callbacks) && Result == result && Completed
          invariant !Canceled && Data == old(Data)
          invariant forall j :: 0 <= j < i ==> !stops(Callbacks[j])
          invariant Fired == old(Fired) + Callbacks[..i]
        {
          var cb := Callbacks[i];
          Fired := Fired + [cb];
          if stops(cb) {
            FiringOrderStopsAtFirst(Callbacks, stops, i);
            break;
          }
          i := i + 1;
        }
        if i == |Callbacks| {
          FiringOrderAllWhenNoneStops(Callbacks, stops);
        }
      }
      Callbacks := [];
    }

    /** `is_complete`. */
    method IsComplete() returns (r: bool)
      ensures r == Completed
    {
      r := Completed;
    }

    /** `cancel`: set the flag and forget the callbacks; the result is untouched. */
    method Cancel()
      modifies this
      ensures Canceled && Callbacks == []
      ensures Completed == old(Completed) && Result == old(Result)
      ensures Data == old(Data) && Fired == old(Fired)
    {
      Canceled := true;
      Callbacks := [];
    }

    /**
     * `wait`, observed at time `now` with absolute `deadline` (`None`: no timeout).
     * Completion wins over cancellation; a cancelled promise yields `None`.
     */
    method Wait(deadline: Option<real>, now: real) returns (w: WaitOutcome<V>)
      ensures Completed ==> w == Returned(Result)
      ensures !Completed && Canceled ==> w == Returned(None)
      ensures w == TimedOut <==> !Completed && !Canceled && deadline.Some? && now >= deadline.value
      ensures w == Blocks <==> !Completed && !Canceled && (deadline.None? || now < deadline.value)
    {
      if !Completed && !Canceled && (deadline.None? || now < deadline.value) {
        return Blocks;
      }
      if Completed {
        w := Returned(Result);
      } else if Canceled {
        w := Returned(None);
      } else {
        w := TimedOut;
      }
    }
  }

  /**
   * The sequence complete, cancel, complete, for any callbacks and results: the
   * callbacks given at construction and one added before completion fire once,
   * in order, up to the first that stops the chain; after `cancel`, a late
   * callback and a second `complete` fire nothing, and the second result is
   * what `wait` returns.
   */
  method CompleteThenCancel<V(==)>(data: Option<V>, cbs: seq<Callback>, cb: Callback, late: Callback,
                                   result: Option<V>, stops: Callback -> bool,
                                   result2: Option<V>, stops2: Callback -> bool)
    returns (p: Promise<V>, w: WaitOutcome<V>)
    ensures fresh(p) && p.Data == data
    ensures p.Fired == FiringOrder(cbs + [cb], stops)
    ensures p.Completed && p.Canceled && p.Result == result2
    ensures p.Callbacks == []
    ensures w == Returned(result2)
  {
    p := new Promise<V>(data, cbs);
    p.AddCallback(cb);
    p.Complete(result, stops);
    p.Cancel();
    p.AddCallback(late);
    p.Complete(result2, stops2);
    w := p.Wait(None, 0.0);
  }
}
