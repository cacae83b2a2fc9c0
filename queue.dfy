/**
 * The bounded blocking queue of pythreader/Queue.py.
 *
 * Every method runs under the queue's lock and is one atomic step here. A call that
 * would wait on the queue's condition returns `WouldBlock` and changes nothing; the
 * caller is then woken by a later push, pop, flush or close and continues with the
 * loop test again, which for `append` and `insert` is `RetryAppend` / `RetryInsert`.
 */
module BoundedQueue {
  import opened Common

  /** What a push does: the item went in, the closed-queue assertion failed, or the caller waits. */
  datatype PushOutcome = Pushed | QueueClosed | WouldBlock

  /** What a pop does: the front item, the closed sentinel `None`, or the caller waits. */
  datatype PopOutcome<T> = Popped(item: T) | ClosedAndEmpty | PopWouldBlock

  class Queue<T(==)> {
    const Capacity: Option<nat>
    var List: seq<T>
    var Closed: bool

    /** The capacity invariant the pushes keep. */
    ghost predicate Valid()
      reads this
    {
      Capacity.Some? ==> |List| <= Capacity.value
    }

    /** The guard of the producers' wait loop, negated: the list is below capacity. */
    predicate HasRoom()
      reads this
    {
      Capacity.None? || |List| < Capacity.value
    }

    constructor (capacity: Option<nat>)
      ensures Valid()
      ensures Capacity == capacity && List == [] && !Closed
    {
      Capacity := capacity;
      List := [];
      Closed := false;
    }

    method Close()
      modifies this
      ensures Closed && List == old(List)
    {
      Closed := true;
    }

    /** Entry into `append`: the closed check happens once, before the wait loop. */
    method Append(item: T) returns (r: PushOutcome)
      requires Valid()
      modifies this
      ensures Valid() && Closed == old(Closed)
      ensures old(Closed) ==> r == QueueClosed
      ensures !old(Closed) && old(HasRoom()) ==> r == Pushed
      ensures !old(Closed) && !old(HasRoom()) ==> r == WouldBlock
      ensures List == if r == Pushed then old(List) + [item] else old(List)
    {
      if Closed {
        return QueueClosed;
      }
      r := RetryAppend(item);
    }

    /**
     * A producer parked in `append`'s wait loop, after a wake-up: only the capacity
     * is checked again, so an `append` that was already waiting when the queue was
     * closed still adds its item once there is room.
     */
    method RetryAppend(item: T) returns (r: PushOutcome)
      requires Valid()
      modifies this
      ensures Valid() && Closed == old(Closed)
      ensures r != QueueClosed
      ensures r == Pushed <==> old(HasRoom())
      ensures List == if r == Pushed then old(List) + [item] else old(List)
    {
      if !HasRoom() {
        return WouldBlock;
      }
      List := List + [item];
      r := Pushed;
    }

    /** Entry into `insert`: like `append`, but the item goes to the front. */
    method Insert(item: T) returns (r: PushOutcome)
      requires Valid()
      modifies this
      ensures Valid() && Closed == old(Closed)
      ensures old(Closed) ==> r == QueueClosed
      ensures !old(Closed) && old(HasRoom()) ==> r == Pushed
      ensures !old(Closed) && !old(HasRoom()) ==> r == WouldBlock
      ensures List == if r == Pushed then [item] + old(List) else old(List)
    {
      if Closed {
        return QueueClosed;
      }
      r := RetryInsert(item);
    }

    /** A producer parked in `insert`'s wait loop, after a wake-up. */
    method RetryInsert(item: T) returns (r: PushOutcome)
      requires Valid()
      modifies this
      ensures Valid() && Closed == old(Closed)
      ensures r != QueueClosed
      ensures r == Pushed <==> old(HasRoom())
      ensures List == if r == Pushed then [item] + old(List) else old(List)
    {
      if !HasRoom() {
        return WouldBlock;
      }
      List := [item] + List;
      r := Pushed;
    }

    /** `pop`: the front item; once closed and drained, the sentinel; otherwise wait. */
    method Pop() returns (r: PopOutcome<T>)
      requires Valid()
      modifies this
      ensures Valid() && Closed == old(Closed)
      ensures old(List) != [] ==> r == Popped(old(List)[0]) && List == old(List)[1..]
      ensures old(List) == [] ==> List == [] && r == if old(Closed) then ClosedAndEmpty else PopWouldBlock
    {
      if |List| == 0 {
        return if Closed then ClosedAndEmpty else PopWouldBlock;
      }
      var item := List[0];
      List := List[1..];
      r := Popped(item);
    }

    method Flush()
      modifies this
      ensures List == [] && Closed == old(Closed) && Valid()
    {
      List := [];
    }

    /** `items`: the current contents, front first. */
    method Items() returns (s: seq<T>)
      ensures s == List
    {
      s := List;
    }

    /** `look`: the front item or `None`, without removing it. */
    method Look() returns (r: Option<T>)
      ensures r.Some? <==> List != []
      ensures r.Some? ==> r.value == List[0]
    {
      r := if List != [] then Some(List[0]) else None;
    }

    /** `popIfFirst(x)`: remove `x` only while it is still at the front. */
    method PopIfFirst(x: T) returns (r: Option<T>)
      requires Valid()
      modifies this
      ensures Valid() && Closed == old(Closed)
      ensures r.Some? <==> old(List) != [] && old(List)[0] == x
      ensures r.Some? ==> r.value == x && List == old(List)[1..]
      ensures r.None? ==> List == old(List)
    {
      if List != [] {
        var first := List[0];
        if first == x {
          var popped := Pop();
          return Some(x);
        }
      }
      r := None;
    }

    /** `__len__`. */
    method Length() returns (n: nat)
      ensures n == |List|
    {
      n := |List|;
    }
  }
}
