/**
 * The executor threads both task queues keep in their `Threads` list. A thread
 * is abstract: an identity (the thread object) and the task it was started for.
 */
module Workers {

  datatype Worker<T> = Worker(id: nat, task: T)

  /** The tasks of the running threads, in start order. */
  function TasksOf<T>(ws: seq<Worker<T>>): (ts: seq<T>)
    ensures |ts| == |ws|
  {
    if ws == [] then [] else TasksOf(ws[..|ws| - 1]) + [ws[|ws| - 1].task]
  }

  /** Position `i` of the tasks is the task of thread `i`. */
  lemma {:induction false} TasksOfIndex<T>(ws: seq<Worker<T>>, i: nat)
    requires i < |ws|
    ensures TasksOf(ws)[i] == ws[i].task
  {
    if i < |ws| - 1 {
      TasksOfIndex(ws[..|ws| - 1], i);
    }
  }

  lemma TasksOfAppend<T>(ws: seq<Worker<T>>, w: Worker<T>)
    ensures TasksOf(ws + [w]) == TasksOf(ws) + [w.task]
  {
    assert (ws + [w])[..|ws|] == ws;
  }

  /** Thread identities are distinct and below the next identity to hand out. */
  ghost predicate DistinctIds<T>(ws: seq<Worker<T>>, bound: nat)
  {
    && (forall i :: 0 <= i < |ws| ==> ws[i].id < bound)
    && (forall i, j :: 0 <= i < j < |ws| ==> ws[i].id != ws[j].id)
  }

  /** Some listed thread is the thread object with identity `id` (`t in self.Threads`, an identity test). */
  predicate HasId<T>(ws: seq<Worker<T>>, id: nat): (b: bool)
    ensures b ==> ws != []
    ensures forall j :: 0 <= j < |ws| && ws[j].id == id ==> b
  {
    exists j :: 0 <= j < |ws| && ws[j].id == id
  }

  /** Position of the first thread with identity `id`. */
  function IdIndex<T>(ws: seq<Worker<T>>, id: nat): (k: nat)
    requires HasId(ws, id)
    ensures k < |ws| && ws[k].id == id && forall j :: 0 <= j < k ==> ws[j].id != id
  {
    if ws[0].id == id then 0
    else
      assert HasId(ws[1..], id) by {
        var j :| 0 <= j < |ws| && ws[j].id == id;
        assert ws[1..][j - 1] == ws[j];
      }
      1 + IdIndex(ws[1..], id)
  }

  /** `Threads.remove(t)` after `t in Threads`: drop the first thread that is `t`, if any. */
  function RemoveId<T>(ws: seq<Worker<T>>, id: nat): (r: seq<Worker<T>>)
    ensures HasId(ws, id) ==> |r| == |ws| - 1
    ensures !HasId(ws, id) ==> r == ws
    ensures forall w :: w in r ==> w in ws
  {
    if HasId(ws, id) then ws[..IdIndex(ws, id)] + ws[IdIndex(ws, id) + 1..] else ws
  }

  /** Removing a thread keeps the others' identities distinct, and no thread with that identity is left. */
  lemma RemoveIdKeepsDistinct<T>(s: seq<Worker<T>>, id: nat, bound: nat)
    requires DistinctIds(s, bound)
    ensures DistinctIds(RemoveId(s, id), bound) && !HasId(RemoveId(s, id), id)
  {
    if HasId(s, id) {
      var k := IdIndex(s, id);
      var r := s[..k] + s[k + 1..];
      assert RemoveId(s, id) == r;
      forall i | 0 <= i < |r|
        ensures r[i] == s[if i < k then i else i + 1]
      {
      }
      forall i, j | 0 <= i < j < |r|
        ensures r[i].id != r[j].id
      {
        assert r[i] == s[if i < k then i else i + 1] && r[j] == s[if j < k then j else j + 1];
      }
      forall i | 0 <= i < |r|
        ensures r[i].id != id
      {
        assert r[i] == s[if i < k then i else i + 1];
      }
    }
  }

  /** Taking one element out of the middle of a sequence takes exactly that element out of its multiset. */
  lemma MultisetWithout<T>(pre: seq<T>, x: T, post: seq<T>)
    ensures multiset(pre + post) == multiset(pre + [x] + post) - multiset{x}
  {
    assert multiset(pre + [x] + post) == multiset(pre) + multiset{x} + multiset(post);
    assert multiset(pre + post) == multiset(pre) + multiset(post);
  }

  /** Removing a listed thread takes out exactly that one thread; removing an unlisted one changes nothing. */
  lemma RemoveIdMultiset<T>(s: seq<Worker<T>>, id: nat)
    ensures HasId(s, id) ==> multiset(RemoveId(s, id)) == multiset(s) - multiset{s[IdIndex(s, id)]}
    ensures !HasId(s, id) ==> RemoveId(s, id) == s
  {
    if HasId(s, id) {
      var k := IdIndex(s, id);
      var pre, x, post := s[..k], s[k], s[k + 1..];
      assert s == pre + [x] + post;
      assert RemoveId(s, id) == pre + post;
      MultisetWithout(pre, x, post);
    }
  }

  /** The threads from position `from` on were all started with identities at least `bound`. */
  ghost predicate StartedSince<T>(ws: seq<Worker<T>>, from: nat, bound: nat)
  {
    forall i :: from <= i < |ws| ==> ws[i].id >= bound
  }

  /**
   * Threads appended after `ws0` whose tasks are `q[..k]`, position by
   * position, extend the tasks of `ws0` by `q[..k]`.
   */
  lemma {:induction false} TasksOfExtend<T>(ws0: seq<Worker<T>>, ws: seq<Worker<T>>, q: seq<T>, k: nat)
    requires k <= |q| && |ws| == |ws0| + k && ws[..|ws0|] == ws0
    requires forall i :: 0 <= i < k ==> ws[|ws0| + i].task == q[i]
    ensures TasksOf(ws) == TasksOf(ws0) + q[..k]
  {
    if k == 0 {
      assert ws == ws0;
      assert q[..k] == [];
    } else {
      var p := ws[..|ws| - 1];
      assert p[..|ws0|] == ws0;
      assert forall j :: 0 <= j < |p| ==> p[j] == ws[j];
      TasksOfExtend(ws0, p, q, k - 1);
      assert (TasksOf(ws0) + q[..k - 1]) + [q[k - 1]] == TasksOf(ws0) + (q[..k - 1] + [q[k - 1]]);
      assert q[..k] == q[..k - 1] + [q[k - 1]];
    }
  }

  /** Appending a thread keeps the earlier ones in front. */
  lemma PrefixKept<T>(ws0: seq<Worker<T>>, ws: seq<Worker<T>>, w: Worker<T>)
    requires |ws0| <= |ws| && ws[..|ws0|] == ws0
    ensures (ws + [w])[..|ws0|] == ws0
  {
    assert (ws + [w])[..|ws0|] == ws[..|ws0|];
  }

  /** Starting a thread with a fresh identity keeps identities distinct. */
  lemma AddFreshKeepsDistinct<T>(s: seq<Worker<T>>, w: Worker<T>, bound: nat)
    requires DistinctIds(s, bound) && w.id == bound
    ensures DistinctIds(s + [w], bound + 1)
  {
  }
}
