/** Whole-table operations that the order processors chain together:
  * boolean-mask row selection, `groupby(col).cumcount()`, and
  * `groupby(level=0)` into an insertion-ordered `{timestamp: records}` dict. */
module Frames {

  /** A pandas Timestamp, as nanoseconds. */
  type Nanos = int

  ghost predicate StrictlyAscending(s: seq<int>) {
    forall i, j :: 0 <= i < j < |s| ==> s[i] < s[j]
  }

  // ---------------------------------------------------------------------------
  // Row selection (`df.loc[mask]`)

  /** The rows of `s` that satisfy `p`, in their original order. */
  function Where<T(==)>(s: seq<T>, p: T -> bool): (r: seq<T>)
    ensures multiset(r) <= multiset(s)
    ensures forall x :: x in s ==> multiset(r)[x] == if p(x) then multiset(s)[x] else 0
  {
    if s == [] then []
    else
      assert s == [s[0]] + s[1..];
      (if p(s[0]) then [s[0]] else []) + Where(s[1..], p)
  }

  /** Selection keeps row order: selecting from two consecutive blocks of rows
    * gives the selection of the first block followed by that of the second. */
  lemma {:induction false} WhereConcat<T>(a: seq<T>, b: seq<T>, p: T -> bool)
    ensures Where(a + b, p) == Where(a, p) + Where(b, p)
  {
    if a == [] {
      assert a + b == b;
    } else {
      assert (a + b)[0] == a[0];
      assert (a + b)[1..] == a[1..] + b;
      WhereConcat(a[1..], b, p);
    }
  }

  /** A single row is kept exactly when it passes the mask. */
  lemma WhereSingle<T>(x: T, p: T -> bool)
    ensures Where([x], p) == if p(x) then [x] else []
  {
    assert [x][1..] == [];
  }

  /** Two tables of equal length whose rows pass their masks at the same
    * positions keep the same number of rows. */
  lemma {:induction false} WhereSameCount<T, U>(a: seq<T>, p: T -> bool, b: seq<U>, q: U -> bool)
    requires |a| == |b|
    requires forall i :: 0 <= i < |a| ==> p(a[i]) == q(b[i])
    ensures |Where(a, p)| == |Where(b, q)|
  {
    if a != [] {
      WhereSameCount(a[1..], p, b[1..], q);
    }
  }

  // ---------------------------------------------------------------------------
  // `groupby(col).cumcount()` and the nanosecond correction built on it

  /** The cumcount of row `i`: how many earlier rows hold the same value. It is
    * always below the number of rows holding that value. */
  function CumCount(ts: seq<int>, i: nat): (k: nat)
    requires i < |ts|
    ensures k < multiset(ts)[ts[i]]
  {
    assert ts == ts[..i] + [ts[i]] + ts[i + 1..];
    multiset(ts[..i])[ts[i]]
  }

  /** The first row holding a value gets cumcount 0. */
  lemma CumCountFirst(ts: seq<int>, i: nat)
    requires i < |ts|
    requires forall m :: 0 <= m < i ==> ts[m] != ts[i]
    ensures CumCount(ts, i) == 0
  {
    assert ts[i] !in ts[..i];
  }

  /** The next row holding the same value gets the next cumcount, so the k-th
    * row (0-based) holding a value gets cumcount k. */
  lemma CumCountNext(ts: seq<int>, i: nat, j: nat)
    requires i < j < |ts| && ts[i] == ts[j]
    requires forall m :: i < m < j ==> ts[m] != ts[i]
    ensures CumCount(ts, j) == CumCount(ts, i) + 1
  {
    assert ts[..j] == ts[..i] + [ts[i]] + ts[i + 1..j];
    assert ts[i] !in ts[i + 1..j];
  }

  /** A later row holding the same value has a strictly larger cumcount. */
  lemma CumCountGrows(ts: seq<int>, i: nat, j: nat)
    requires i < j < |ts| && ts[i] == ts[j]
    ensures CumCount(ts, i) < CumCount(ts, j)
  {
    assert ts[..j] == ts[..i] + [ts[i]] + ts[i + 1..j];
  }

  /** The column after `col + cumcount` nanoseconds: each row moves forward by
    * less than the number of rows sharing its value, and rows that shared a
    * value become pairwise distinct with their order kept. */
  function Shifted(ts: seq<int>): (r: seq<int>)
    ensures |r| == |ts|
    ensures forall i :: 0 <= i < |ts| ==> ts[i] <= r[i] < ts[i] + multiset(ts)[ts[i]]
    ensures forall i, j :: 0 <= i < j < |ts| && ts[i] == ts[j] ==> r[i] < r[j]
  {
    ShiftedSeparates(ts);
    seq(|ts|, i requires 0 <= i < |ts| => ts[i] + CumCount(ts, i))
  }

  lemma ShiftedSeparates(ts: seq<int>)
    ensures forall i, j :: 0 <= i < j < |ts| && ts[i] == ts[j] ==> CumCount(ts, i) < CumCount(ts, j)
  {
    forall i, j | 0 <= i < j < |ts| && ts[i] == ts[j]
      ensures CumCount(ts, i) < CumCount(ts, j)
    {
      CumCountGrows(ts, i, j);
    }
  }

  /** The correction only separates rows that shared a value: a moved row can
    * land on the value of a neighbouring row, so the corrected column may
    * still repeat a value. */
  lemma ShiftedMayCollide()
    ensures Shifted([5, 5, 6]) == [5, 6, 6]
  {
    var ts := [5, 5, 6];
    assert ts[..0] == [] && ts[..1] == [5] && ts[..2] == [5, 5];
    assert CumCount(ts, 0) == 0;
    assert CumCount(ts, 1) == 1;
    assert CumCount(ts, 2) == 0;
  }

  // ---------------------------------------------------------------------------
  // The sorted, distinct keys of a column

  /** The tail of an ascending key list is ascending and lies above its head. */
  lemma AscendingTail(s: seq<int>)
    requires StrictlyAscending(s) && s != []
    ensures StrictlyAscending(s[1..])
    ensures forall y :: y in s[1..] ==> s[0] < y
  {
    var rest := s[1..];
    forall y | y in rest
      ensures s[0] < y
    {
      var j :| 0 <= j < |rest| && rest[j] == y;
      assert s[j + 1] == y;
    }
  }

  /** A key below every key of an ascending list can be put in front of it. */
  lemma AscendingCons(x: int, s: seq<int>)
    requires StrictlyAscending(s)
    requires forall y :: y in s ==> x < y
    ensures StrictlyAscending([x] + s)
  {
    var r := [x] + s;
    forall i, j | 0 <= i < j < |r|
      ensures r[i] < r[j]
    {
      assert r[j] == s[j - 1];
      if i == 0 {
        assert s[j - 1] in s;
      } else {
        assert r[i] == s[i - 1];
      }
    }
  }

  /** `x` placed into an ascending key list, unless it is already there. */
  function InsertKey(s: seq<int>, x: int): (r: seq<int>)
    requires StrictlyAscending(s)
    ensures StrictlyAscending(r)
    ensures forall y :: y in r <==> y in s || y == x
  {
    if s == [] then [x]
    else
      AscendingTail(s);
      assert s == [s[0]] + s[1..];
      if x < s[0] then
        AscendingCons(x, s);
        [x] + s
      else if x == s[0] then s
      else
        var tail := InsertKey(s[1..], x);
        AscendingCons(s[0], tail);
        [s[0]] + tail
  }

  /** The distinct values of a column in ascending order. */
  function SortedKeys(ts: seq<int>): (r: seq<int>)
    ensures StrictlyAscending(r)
    ensures forall y :: y in r <==> y in ts
  {
    if ts == [] then []
    else
      assert ts == ts[..|ts| - 1] + [ts[|ts| - 1]];
      InsertKey(SortedKeys(ts[..|ts| - 1]), ts[|ts| - 1])
  }

  // ---------------------------------------------------------------------------
  // `set_index(ts).groupby(level=0)` into a dict of record lists

  /** An insertion-ordered dict from timestamps to record lists: its keys in
    * iteration order, and the list stored under each key. */
  datatype Schedule<E> = Schedule(keys: seq<Nanos>, groups: map<Nanos, seq<E>>)

  /** The index column of a table of (timestamp, record) rows. */
  function Stamps<E(==)>(rows: seq<(Nanos, E)>): (ts: seq<Nanos>)
    ensures |ts| == |rows|
    ensures forall i :: 0 <= i < |rows| ==> ts[i] == rows[i].0
  {
    seq(|rows|, i requires 0 <= i < |rows| => rows[i].0)
  }

  /** The records stamped `k`, in row order: one group of `groupby(level=0)`. */
  function Select<E(==)>(rows: seq<(Nanos, E)>, k: Nanos): (g: seq<E>)
    ensures forall e :: e in g ==> (k, e) in rows
    ensures forall x :: x in rows && x.0 == k ==> x.1 in g
  {
    if rows == [] then []
    else
      assert rows == [rows[0]] + rows[1..];
      (if rows[0].0 == k then [rows[0].1] else []) + Select(rows[1..], k)
  }

  /** A group keeps row order: the records stamped `k` in two consecutive
    * blocks of rows are those of the first block followed by those of the
    * second. */
  lemma {:induction false} SelectConcat<E>(a: seq<(Nanos, E)>, b: seq<(Nanos, E)>, k: Nanos)
    ensures Select(a + b, k) == Select(a, k) + Select(b, k)
  {
    if a == [] {
      assert a + b == b;
    } else {
      assert (a + b)[0] == a[0];
      assert (a + b)[1..] == a[1..] + b;
      SelectConcat(a[1..], b, k);
    }
  }

  /** The rows not stamped `k`, in row order. */
  function Drop<E(==)>(rows: seq<(Nanos, E)>, k: Nanos): (r: seq<(Nanos, E)>)
    ensures forall x :: x in r ==> x in rows && x.0 != k
    ensures forall x :: x in rows && x.0 != k ==> x in r
  {
    if rows == [] then []
    else
      assert rows == [rows[0]] + rows[1..];
      (if rows[0].0 != k then [rows[0]] else []) + Drop(rows[1..], k)
  }

  /** A record list with its key put back on every record. */
  function Tagged<E(==)>(k: Nanos, es: seq<E>): (r: seq<(Nanos, E)>)
    ensures |r| == |es|
    ensures forall i :: 0 <= i < |es| ==> r[i] == (k, es[i])
  {
    seq(|es|, i requires 0 <= i < |es| => (k, es[i]))
  }

  /** The rows of a schedule, key by key in key order: the table it was
    * grouped from, reassembled. */
  function Flatten<E(==)>(s: Schedule<E>): seq<(Nanos, E)> {
    Unfold(s.keys, s.groups)
  }

  function Unfold<E(==)>(keys: seq<Nanos>, groups: map<Nanos, seq<E>>): seq<(Nanos, E)> {
    if keys == [] then []
    else (if keys[0] in groups then Tagged(keys[0], groups[keys[0]]) else []) + Unfold(keys[1..], groups)
  }

  /** Grouping a table by its timestamp: ascending distinct keys, exactly the
    * timestamps present, each with the non-empty list of its records in row
    * order. */
  function GroupBy<E(==)>(rows: seq<(Nanos, E)>): (s: Schedule<E>)
    ensures StrictlyAscending(s.keys)
    ensures forall k :: k in s.keys <==> k in s.groups
    ensures forall k :: k in s.keys <==> k in Stamps(rows)
    ensures forall k :: k in s.groups ==> s.groups[k] == Select(rows, k) && s.groups[k] != []
  {
    var keys := SortedKeys(Stamps(rows));
    SelectCovers(rows);
    Schedule(keys, map k | k in keys :: Select(rows, k))
  }

  lemma {:induction false} SelectCovers<E>(rows: seq<(Nanos, E)>)
    ensures forall k :: k in Stamps(rows) ==> Select(rows, k) != []
  {
    if rows != [] {
      SelectCovers(rows[1..]);
      assert Stamps(rows) == [rows[0].0] + Stamps(rows[1..]);
    }
  }

  /** The records stamped `k` and the rows not stamped `k` together make up the
    * whole table. */
  lemma {:induction false} SplitByKey<E>(rows: seq<(Nanos, E)>, k: Nanos)
    ensures multiset(rows) == multiset(Tagged(k, Select(rows, k))) + multiset(Drop(rows, k))
  {
    if rows != [] {
      var r, rest := rows[0], rows[1..];
      assert rows == [r] + rest;
      assert multiset(rows) == multiset{r} + multiset(rest);
      SplitByKey(rest, k);
      if r.0 == k {
        assert Select(rows, k) == [r.1] + Select(rest, k);
        TaggedCons(k, r.1, Select(rest, k));
        assert multiset(Tagged(k, Select(rows, k))) == multiset{r} + multiset(Tagged(k, Select(rest, k)));
        assert Drop(rows, k) == Drop(rest, k);
      } else {
        assert Select(rows, k) == Select(rest, k);
        assert Drop(rows, k) == [r] + Drop(rest, k);
        assert multiset(Drop(rows, k)) == multiset{r} + multiset(Drop(rest, k));
      }
    }
  }

  lemma TaggedCons<E>(k: Nanos, e: E, es: seq<E>)
    ensures Tagged(k, [e] + es) == [(k, e)] + Tagged(k, es)
  {
    var l, r := Tagged(k, [e] + es), [(k, e)] + Tagged(k, es);
    assert |l| == |r|;
    forall i | 0 <= i < |l| ensures l[i] == r[i] {
      if i > 0 {
        assert ([e] + es)[i] == es[i - 1];
      }
    }
  }

  /** Dropping the rows stamped `k` leaves every other group as it was. */
  lemma {:induction false} SelectDrop<E>(rows: seq<(Nanos, E)>, k: Nanos, k': Nanos)
    requires k != k'
    ensures Select(Drop(rows, k), k') == Select(rows, k')
  {
    if rows != [] {
      var r, rest := rows[0], rows[1..];
      SelectDrop(rest, k, k');
      if r.0 != k {
        var d := Drop(rows, k);
        assert d == [r] + Drop(rest, k);
        assert d[0] == r && d[1..] == Drop(rest, k);
      } else {
        assert Drop(rows, k) == Drop(rest, k);
      }
    }
  }

  /** Unfolding distinct keys that cover every row, each holding its group,
    * gives back every row exactly as often as the table holds it. */
  lemma {:induction false} UnfoldPartitions<E>(rows: seq<(Nanos, E)>, keys: seq<Nanos>, groups: map<Nanos, seq<E>>)
    requires forall i, j :: 0 <= i < j < |keys| ==> keys[i] != keys[j]
    requires forall x :: x in rows ==> x.0 in keys
    requires forall k :: k in keys ==> k in groups && groups[k] == Select(rows, k)
    ensures multiset(Unfold(keys, groups)) == multiset(rows)
    decreases |keys|
  {
    assert rows != [] ==> rows[0] in rows;
    if keys != [] {
      var k, later := keys[0], keys[1..];
      var rest := Drop(rows, k);
      SplitByKey(rows, k);
      assert keys == [k] + later;
      forall x | x in rest
        ensures x.0 in later
      {
        assert x.0 in keys && x.0 != k;
      }
      forall k' | k' in later
        ensures k' in groups && groups[k'] == Select(rest, k')
      {
        var j :| 0 <= j < |later| && later[j] == k';
        assert keys[j + 1] == k' && keys[0] != keys[j + 1];
        SelectDrop(rows, k, k');
      }
      forall i, j | 0 <= i < j < |later|
        ensures later[i] != later[j]
      {
        assert keys[i + 1] != keys[j + 1];
      }
      UnfoldPartitions(rest, later, groups);
    }
  }

  /** The groups of a grouped table partition it: no row is lost or repeated. */
  lemma GroupByPartitions<E>(rows: seq<(Nanos, E)>)
    ensures multiset(Flatten(GroupBy(rows))) == multiset(rows)
  {
    var s := GroupBy(rows);
    forall x | x in rows
      ensures x.0 in s.keys
    {
      var i :| 0 <= i < |rows| && rows[i] == x;
      assert Stamps(rows)[i] == x.0;
    }
    UnfoldPartitions(rows, s.keys, s.groups);
  }

  /** A record is in the grouped schedule exactly when it is in the table. */
  lemma GroupByKeeps<E>(rows: seq<(Nanos, E)>, x: (Nanos, E))
    ensures x in Flatten(GroupBy(rows)) <==> x in rows
  {
    GroupByPartitions(rows);
    assert x in Flatten(GroupBy(rows)) <==> x in multiset(Flatten(GroupBy(rows)));
  }

  /** A table of one row groups into one key holding that row. */
  lemma GroupBySingle<E>(x: (Nanos, E))
    ensures GroupBy([x]).keys == [x.0]
    ensures Flatten(GroupBy([x])) == [x]
  {
    var s := GroupBy([x]);
    assert Stamps([x]) == [x.0];
    assert [x.0][..0] == [];
    assert SortedKeys([x.0]) == InsertKey(SortedKeys([]), x.0);
    assert Select([x], x.0) == [x.1] by {
      assert [x][1..] == [];
      assert Select([x], x.0) == [x.1] + Select([], x.0);
    }
    assert s.keys == [x.0];
    assert s.keys[1..] == [];
    assert Flatten(s) == Tagged(x.0, [x.1]) + Unfold([], s.groups);
    assert Tagged(x.0, [x.1]) == [x];
  }

  /** Two rows with the same timestamp group into one key holding both, in
    * row order. */
  lemma GroupBySharedStamp<E>(x: (Nanos, E), y: (Nanos, E))
    requires x.0 == y.0
    ensures GroupBy([x, y]).keys == [x.0]
    ensures GroupBy([x, y]).groups[x.0] == [x.1, y.1]
  {
    var t := x.0;
    assert Stamps([x, y]) == [t, t];
    assert [t, t][..1] == [t] && [t][..0] == [];
    assert SortedKeys([t]) == InsertKey(SortedKeys([]), t);
    assert SortedKeys([t, t]) == InsertKey(SortedKeys([t]), t);
    assert [x, y][1..] == [y] && [y][1..] == [];
    assert Select([y], t) == [y.1] + Select([], t);
    assert Select([x, y], t) == [x.1] + Select([y], t);
  }

  /** Grouping keeps every row: the schedule holds as many records as the table
    * has rows. */
  lemma GroupByCount<E>(rows: seq<(Nanos, E)>)
    ensures |Flatten(GroupBy(rows))| == |rows|
  {
    GroupByPartitions(rows);
    assert |multiset(Flatten(GroupBy(rows)))| == |multiset(rows)|;
  }
}
