/**
 * What the two tracers (tools/st_tracer.py and tools/mt_tracer.py) share:
 * resolving a context path against the top of the stack, Python's string
 * order (for `sorted` over the contexts dictionary), the roll-up of times
 * over path prefixes, and the unadjusted statistics table.
 */
module Paths {
  import opened Common

  /** `path[0]` on an empty path raises IndexError. */
  datatype PathError = EmptyPath

  predicate StartsWith(s: string, pre: string)
  {
    |pre| <= |s| && s[..|pre|] == pre
  }

  /**
   * `pushContext`'s resolution: an absolute path is kept, a relative one is
   * appended to the top context's path (or to the root on an empty stack).
   */
  function Resolve(path: string, top: Option<string>): (r: Result<string, PathError>)
    ensures r.Err? <==> path == []
    ensures r.Ok? && path[0] == '/' ==> r.value == path
    ensures r.Ok? && path[0] != '/' ==>
      var parent := if top.Some? then top.value else "";
      && |r.value| == |parent| + 1 + |path|
      && StartsWith(r.value, parent + "/")
      && r.value[|parent| + 1..] == path
  {
    if path == [] then Err(EmptyPath)
    else if path[0] == '/' then Ok(path)
    else if top.Some? then Ok(top.value + "/" + path)
    else Ok("/" + path)
  }

  /** Every resolved path is absolute when the stack's top is. */
  lemma ResolveAbsolute(path: string, top: Option<string>)
    requires path != []
    requires top.Some? ==> top.value != [] && top.value[0] == '/'
    ensures Resolve(path, top).value[0] == '/'
  {
    if path[0] != '/' && top.Some? {
      assert Resolve(path, top).value[..|top.value|] == top.value;
    }
  }

  /** A relative path resolved against a top context lies below it, so the roll-up counts it there. */
  lemma ResolveBelowTop(path: string, top: string)
    requires path != [] && path[0] != '/'
    ensures StartsWith(Resolve(path, Some(top)).value, top + "/")
    ensures |Resolve(path, Some(top)).value| > |top + "/"|
  {
  }

  /** Python's order on strings: lexicographic by character, a proper prefix first. */
  predicate Below(a: string, b: string)
    decreases |a|
  {
    if a == [] then b != []
    else b != [] && (a[0] < b[0] || (a[0] == b[0] && Below(a[1..], b[1..])))
  }

  lemma {:induction false} BelowIrreflexive(a: string)
    ensures !Below(a, a)
    decreases |a|
  {
    if a != [] {
      BelowIrreflexive(a[1..]);
    }
  }

  lemma {:induction false} BelowTransitive(a: string, b: string, c: string)
    requires Below(a, b) && Below(b, c)
    ensures Below(a, c)
    decreases |a|
  {
    if a != [] && a[0] == b[0] && b[0] == c[0] {
      BelowTransitive(a[1..], b[1..], c[1..]);
    }
  }

  lemma {:induction false} BelowTotal(a: string, b: string)
    requires a != b
    ensures Below(a, b) || Below(b, a)
    decreases |a|
  {
    if a != [] && b != [] && a[0] == b[0] {
      assert a == [a[0]] + a[1..] && b == [b[0]] + b[1..];
      BelowTotal(a[1..], b[1..]);
    }
  }

  lemma BelowAsymmetric(a: string, b: string)
    requires Below(a, b)
    ensures !Below(b, a)
  {
    if Below(b, a) {
      BelowTransitive(a, b, a);
      BelowIrreflexive(a);
    }
  }

  /** A proper prefix sorts first, so a context's descendants come after it. */
  lemma {:induction false} ProperPrefixBelow(p: string, s: string)
    requires StartsWith(s, p) && |p| < |s|
    ensures Below(p, s)
    decreases |p|
  {
    if p != [] {
      assert s[1..][..|p| - 1] == p[1..];
      ProperPrefixBelow(p[1..], s[1..]);
    }
  }

  /** The order `sorted(d.items())` puts distinct keys in. */
  ghost predicate StrictlySorted(ps: seq<string>)
  {
    forall i, j :: 0 <= i < j < |ps| ==> Below(ps[i], ps[j])
  }

  /** The first key in Python's order. */
  method Smallest(s: set<string>) returns (m: string)
    requires s != {}
    ensures m in s && forall x :: x in s && x != m ==> Below(m, x)
  {
    m :| m in s;
    var rest := s - {m};
    while rest != {}
      invariant m in s && rest <= s && m !in rest
      invariant forall x :: x in s && x !in rest && x != m ==> Below(m, x)
      decreases |rest|
    {
      var y :| y in rest;
      if Below(y, m) {
        forall x | x in s && x !in rest && x != m
          ensures Below(y, x)
        {
          BelowTransitive(y, m, x);
        }
        m := y;
      } else {
        BelowTotal(y, m);
      }
      rest := rest - {y};
    }
  }

  /** `sorted` over the keys of a dictionary: every key once, in order. */
  method SortPaths(s: set<string>) returns (ps: seq<string>)
    ensures StrictlySorted(ps) && |ps| == |s|
    ensures forall p :: p in ps <==> p in s
  {
    ps := [];
    var rest := s;
    while rest != {}
      invariant rest <= s && |ps| + |rest| == |s|
      invariant forall p :: p in s <==> p in ps || p in rest
      invariant forall p :: p in ps ==> p !in rest
      invariant StrictlySorted(ps)
      invariant forall i, q :: 0 <= i < |ps| && q in rest ==> Below(ps[i], q)
      decreases |rest|
    {
      var m := Smallest(rest);
      ps := ps + [m];
      rest := rest - {m};
    }
  }

  /** A row of the statistics: path, count and accumulated time. */
  datatype Row = Row(path: string, n: nat, t: real)

  ghost predicate SortedRows(rows: seq<Row>)
  {
    forall i, j :: 0 <= i < j < |rows| ==> Below(rows[i].path, rows[j].path)
  }

  /** The paths of the rows. */
  function PathSet(rows: seq<Row>): set<string>
  {
    set i | 0 <= i < |rows| :: rows[i].path
  }

  /**
   * `rows` is `sorted(Contexts.items())` for a dictionary whose entry for each
   * path `p` is `m[p]`: one row per path, in Python's order.
   */
  ghost predicate IsTable(rows: seq<Row>, m: map<string, Row>)
  {
    && SortedRows(rows)
    && PathSet(rows) == m.Keys
    && (forall i :: 0 <= i < |rows| ==> rows[i].path in m && m[rows[i].path] == rows[i])
  }

  /** A table has no paths exactly when it has no rows. */
  lemma PathSetEmpty(rows: seq<Row>)
    ensures PathSet(rows) == {} <==> rows == []
  {
    if rows != [] {
      assert rows[0].path in PathSet(rows);
    }
  }

  /** Two sorted tables over the same paths start with the same path. */
  lemma SortedRowsSameHead(a: seq<Row>, b: seq<Row>)
    requires SortedRows(a) && SortedRows(b) && PathSet(a) == PathSet(b)
    requires a != [] && b != []
    ensures a[0].path == b[0].path
  {
    assert a[0].path in PathSet(b);
    var j :| 0 <= j < |b| && b[j].path == a[0].path;
    assert b[0].path in PathSet(a);
    var k :| 0 <= k < |a| && a[k].path == b[0].path;
    if j != 0 && k != 0 {
      BelowAsymmetric(a[0].path, a[k].path);
    }
  }

  /** The first path of a sorted table does not occur again in its tail. */
  lemma SortedRowsTail(a: seq<Row>)
    requires SortedRows(a) && a != []
    ensures PathSet(a[1..]) == PathSet(a) - {a[0].path}
  {
    forall p | p in PathSet(a[1..])
      ensures p in PathSet(a) && p != a[0].path
    {
      var i :| 0 <= i < |a[1..]| && a[1..][i].path == p;
      assert a[i + 1].path == p;
      BelowIrreflexive(p);
    }
    forall p | p in PathSet(a) && p != a[0].path
      ensures p in PathSet(a[1..])
    {
      var i :| 0 <= i < |a| && a[i].path == p;
      assert a[1..][i - 1].path == p;
    }
  }

  /** Two sorted tables of the same rows are the same table. */
  lemma {:induction false} SortedRowsUnique(a: seq<Row>, b: seq<Row>)
    requires SortedRows(a) && SortedRows(b) && PathSet(a) == PathSet(b)
    requires forall i, j :: 0 <= i < |a| && 0 <= j < |b| && a[i].path == b[j].path ==> a[i] == b[j]
    ensures a == b
    decreases |a|
  {
    PathSetEmpty(a);
    PathSetEmpty(b);
    if a != [] {
      SortedRowsSameHead(a, b);
      SortedRowsTail(a);
      SortedRowsTail(b);
      var a', b' := a[1..], b[1..];
      assert forall i :: 0 <= i < |a'| ==> a'[i] == a[i + 1];
      assert forall j :: 0 <= j < |b'| ==> b'[j] == b[j + 1];
      assert SortedRows(a') && SortedRows(b');
      assert PathSet(a') == PathSet(b');
      assert a[0] == b[0];
      SortedRowsUnique(a', b');
      assert a == [a[0]] + a' && b == [b[0]] + b';
    }
  }

  /** The table of a dictionary is unique. */
  lemma TableUnique(a: seq<Row>, b: seq<Row>, m: map<string, Row>)
    requires IsTable(a, m) && IsTable(b, m)
    ensures a == b
  {
    SortedRowsUnique(a, b);
  }

  /** Reading the sorted keys of `m` one by one gives its table. */
  lemma RowsOfSortedKeys(ps: seq<string>, m: map<string, Row>, rows: seq<Row>)
    requires StrictlySorted(ps) && forall p :: p in ps <==> p in m
    requires |rows| == |ps| && forall k :: 0 <= k < |ps| ==> rows[k] == m[ps[k]] && rows[k].path == ps[k]
    ensures IsTable(rows, m)
  {
    assert SortedRows(rows);
    forall p | p in m
      ensures p in PathSet(rows)
    {
      var k :| 0 <= k < |ps| && ps[k] == p;
      assert rows[k].path == p;
    }
    forall p | p in PathSet(rows)
      ensures p in m
    {
      var k :| 0 <= k < |rows| && rows[k].path == p;
      assert ps[k] == p;
    }
  }

  /** `sorted(Contexts.items())`, with each context read as a row. */
  method TableOf(m: map<string, Row>) returns (rows: seq<Row>)
    requires forall p :: p in m ==> m[p].path == p
    ensures IsTable(rows, m)
  {
    var ps := SortPaths(m.Keys);
    rows := [];
    for i := 0 to |ps|
      invariant |rows| == i
      invariant forall k :: 0 <= k < i ==> rows[k] == m[ps[k]] && rows[k].path == ps[k]
    {
      rows := rows + [m[ps[i]]];
    }
    RowsOfSortedKeys(ps, m, rows);
  }

  /** The time of the rows `lo <= j < hi` whose path starts with `pre`. */
  function SumRange(rows: seq<Row>, lo: nat, hi: nat, pre: string): real
    requires lo <= hi <= |rows|
    decreases hi - lo
  {
    if lo == hi then 0.0
    else SumRange(rows, lo, hi - 1, pre) + (if StartsWith(rows[hi - 1].path, pre) then rows[hi - 1].t else 0.0)
  }

  lemma {:induction false} SumRangeSplit(rows: seq<Row>, lo: nat, mid: nat, hi: nat, pre: string)
    requires lo <= mid <= hi <= |rows|
    ensures SumRange(rows, lo, hi, pre) == SumRange(rows, lo, mid, pre) + SumRange(rows, mid, hi, pre)
    decreases hi - mid
  {
    if mid < hi {
      SumRangeSplit(rows, lo, mid, hi - 1, pre);
    }
  }

  /** The time of a context and of everything below it: its own plus every row under `path + "/"`. */
  function Subtree(rows: seq<Row>, i: nat): real
    requires i < |rows|
  {
    rows[i].t + SumRange(rows, 0, |rows|, rows[i].path + "/")
  }

  /** Row `i` as `rollup` leaves it: its own time plus that of the later rows under its path. */
  function RolledUp(rows: seq<Row>, i: nat): Row
    requires i < |rows|
  {
    rows[i].(t := rows[i].t + SumRange(rows, i + 1, |rows|, rows[i].path + "/"))
  }

  /** In sorted rows, no row up to `i` lies under row `i`'s path. */
  lemma {:induction false} NoneBelowBefore(rows: seq<Row>, i: nat, hi: nat)
    requires SortedRows(rows) && hi <= i + 1 && i < |rows|
    ensures SumRange(rows, 0, hi, rows[i].path + "/") == 0.0
    decreases hi
  {
    if hi > 0 {
      NoneBelowBefore(rows, i, hi - 1);
      var p, q := rows[i].path, rows[hi - 1].path;
      if StartsWith(q, p + "/") {
        assert q[..|p|] == p;
        ProperPrefixBelow(p, q);
        if hi - 1 < i {
          BelowAsymmetric(q, p);
        } else {
          BelowIrreflexive(p);
        }
      }
    }
  }

  /** Scanning only the later rows misses nothing: the rolled-up time is the whole subtree's. */
  lemma RolledUpIsSubtree(rows: seq<Row>, i: nat)
    requires SortedRows(rows) && i < |rows|
    ensures RolledUp(rows, i).t == Subtree(rows, i)
    ensures RolledUp(rows, i).path == rows[i].path && RolledUp(rows, i).n == rows[i].n
  {
    SumRangeSplit(rows, 0, i + 1, |rows|, rows[i].path + "/");
    NoneBelowBefore(rows, i, i + 1);
  }

  /** `rollup`'s nested loops, overwriting each row's time in place. */
  method RollupRows(rows: seq<Row>) returns (stats: seq<Row>)
    ensures |stats| == |rows|
    ensures forall i :: 0 <= i < |rows| ==> stats[i] == RolledUp(rows, i)
  {
    var a := new Row[|rows|](k requires 0 <= k < |rows| => rows[k]);
    var n := a.Length;
    for i := 0 to n
      invariant forall k :: 0 <= k < i ==> a[k] == RolledUp(rows, k)
      invariant forall k :: i <= k < n ==> a[k] == rows[k]
    {
      var t := a[i].t;
      var pre := a[i].path + "/";
      for j := i + 1 to n
        invariant t == rows[i].t + SumRange(rows, i + 1, j, pre)
      {
        if StartsWith(a[j].path, pre) {
          t := t + a[j].t;
        }
      }
      a[i] := a[i].(t := t);
    }
    stats := a[..];
  }

  /** A row of `stats`: path, time, count and time per entry. */
  datatype Stat = Stat(path: string, t: real, n: nat, mean: real)

  /** `T/N` with `N == 0` raises ZeroDivisionError. */
  datatype StatsError = ZeroDivision

  /** One entry of `stats`: the time per entry times the count gives back the time. */
  function StatOf(row: Row): (st: Stat)
    requires row.n > 0
    ensures st.path == row.path && st.t == row.t && st.n == row.n
    ensures st.mean * (row.n as real) == row.t
  {
    Stat(row.path, row.t, row.n, row.t / (row.n as real))
  }

  /** The unadjusted `stats` table: one entry per row, or ZeroDivisionError if any count is zero. */
  function StatsOf(rows: seq<Row>): (r: Result<seq<Stat>, StatsError>)
    ensures r.Ok? <==> forall i :: 0 <= i < |rows| ==> rows[i].n > 0
    ensures r.Ok? ==> |r.value| == |rows| && forall i :: 0 <= i < |rows| ==> r.value[i] == StatOf(rows[i])
  {
    if rows == [] then Ok([])
    else if rows[0].n == 0 then Err(ZeroDivision)
    else
      var rest := StatsOf(rows[1..]);
      assert forall i :: 1 <= i < |rows| ==> rows[1..][i - 1] == rows[i];
      if rest.Err? then Err(ZeroDivision)
      else Ok([StatOf(rows[0])] + rest.value)
  }
}
