/** The reject replay agent (agent/examples/RejectReplayAgent.py): the processor
  * that turns a deals table into a schedule of rejected deals and their
  * compensating market orders two seconds later, and the agent that books the
  * rejects into its holdings and sends the compensations. */
module RejectReplay {
  import opened Frames
  import opened Replay

  // ---------------------------------------------------------------------------
  // L3OrdersProcessor.processOrders

  /** A row of the deals table: its index label, Moment, Type (a deal or
    * 'Reject'), BookSide, BaseQty and ReferenceClientPrice. */
  datatype DealRow = DealRow(index: int, moment: Nanos, dealType: string, bookSide: Direction, baseQty: int, price: int)

  /** `pd.Timedelta(2, unit='s')`, in nanoseconds. */
  const TwoSeconds: int := 2_000_000_000

  /** The closed window `start <= Moment <= end`, applied to the raw table: a
    * row inside it is kept as often as the table holds it, a row outside it is
    * dropped. */
  function Window(rows: seq<DealRow>, start: Nanos, end: Nanos): (w: seq<DealRow>)
    ensures multiset(w) <= multiset(rows)
    ensures forall r :: r in rows ==> multiset(w)[r] == if start <= r.moment <= end then multiset(rows)[r] else 0
  {
    Where(rows, Inside(start, end))
  }

  function Inside(start: Nanos, end: Nanos): DealRow -> bool {
    (r: DealRow) => start <= r.moment <= end
  }

  function Moments(rows: seq<DealRow>): (ts: seq<Nanos>)
    ensures |ts| == |rows|
    ensures forall i :: 0 <= i < |rows| ==> ts[i] == rows[i].moment
  {
    seq(|rows|, i requires 0 <= i < |rows| => rows[i].moment)
  }

  /** The cumcount correction, applied to the windowed rows: each row moves
    * forward by its rank among the rows sharing its Moment, so rows that shared
    * a Moment become distinct with their order kept, and nothing but the Moment
    * changes. */
  function Deduplicate(rows: seq<DealRow>): (d: seq<DealRow>)
    ensures |d| == |rows|
    ensures forall i :: 0 <= i < |rows| ==> d[i] == rows[i].(moment := d[i].moment)
    ensures forall i :: 0 <= i < |rows| ==> rows[i].moment <= d[i].moment < rows[i].moment + multiset(Moments(rows))[rows[i].moment]
    ensures forall i, j :: 0 <= i < j < |rows| && rows[i].moment == rows[j].moment ==> d[i].moment < d[j].moment
  {
    var shifted := Shifted(Moments(rows));
    seq(|rows|, i requires 0 <= i < |rows| => rows[i].(moment := shifted[i]))
  }

  /** Two rows sharing a Moment: the second moves one nanosecond later. */
  lemma DeduplicatePair(a: DealRow, b: DealRow)
    requires a.moment == b.moment
    ensures Deduplicate([a, b]) == [a, b.(moment := b.moment + 1)]
  {
    var ts := Moments([a, b]);
    CumCountFirst(ts, 0);
    CumCountNext(ts, 0, 1);
  }

  /** The window comes before the correction: two rows at `end` both stay,
    * although the second one moves past `end`. */
  lemma WindowBeforeDeduplicate(a: DealRow, b: DealRow, start: Nanos, end: Nanos)
    requires start <= end && a.moment == end && b.moment == end
    ensures Deduplicate(Window([a, b], start, end)) == [a, b.(moment := end + 1)]
  {
    calc {
      Deduplicate(Window([a, b], start, end));
      { WindowKeepsPair(a, b, start, end); }
      Deduplicate([a, b]);
      { DeduplicatePair(a, b); }
      [a, b.(moment := end + 1)];
    }
  }

  lemma WindowKeepsPair(a: DealRow, b: DealRow, start: Nanos, end: Nanos)
    requires start <= a.moment <= end && start <= b.moment <= end
    ensures Window([a, b], start, end) == [a, b]
  {
    var inside := Inside(start, end);
    calc {
      Window([a, b], start, end);
      { assert [a, b] == [a] + [b]; }
      Where([a] + [b], inside);
      { WhereConcat([a], [b], inside); }
      Where([a], inside) + Where([b], inside);
      { WhereSingle(a, inside); WhereSingle(b, inside); }
      [a] + [b];
    }
  }

  predicate IsReject(r: DealRow) {
    r.dealType == "Reject"
  }

  function Abs(n: int): (m: nat)
    ensures m == n || m == -n
  {
    if n < 0 then -n else n
  }

  /** The REJECT record of a rejected deal: Order_ID is the row's index
    * label, Direction its BookSide, Size the absolute BaseQty. */
  function RejectRecord(r: DealRow): (x: (Nanos, Record<string>))
    ensures x.0 == r.moment && x.1.orderId == r.index && x.1.price == r.price && x.1.direction == r.bookSide
    ensures x.1.size >= 0 && (x.1.size == r.baseQty || x.1.size == -r.baseQty)
    ensures x.1.kind == "REJECT"
  {
    (r.moment, Record(r.index, r.price, r.bookSide, Abs(r.baseQty), "REJECT"))
  }

  /** The REJECT records of the corrected rows whose original Type is
    * 'Reject', in row order. */
  function Rejects(d: seq<DealRow>): (xs: seq<(Nanos, Record<string>)>)
    ensures |xs| == |Where(d, IsReject)|
    ensures forall i :: 0 <= i < |xs| ==> xs[i] == RejectRecord(Where(d, IsReject)[i])
  {
    var rs := Where(d, IsReject);
    seq(|rs|, i requires 0 <= i < |rs| => RejectRecord(rs[i]))
  }

  /** `replace({'BUY': 'SELL', 'SELL': 'BUY'})`: the sides swap, any other
    * value is kept. */
  function Opposite(d: Direction): (o: Direction)
    ensures o == Buy <==> d == Sell
    ensures o == Sell <==> d == Buy
    ensures d.Raw? ==> o == d
  {
    match d
    case Buy => Sell
    case Sell => Buy
    case Raw(_) => d
  }

  /** Swapping the sides twice gives the side back. */
  lemma OppositeInvolutive(d: Direction)
    ensures Opposite(Opposite(d)) == d
  {
  }

  /** `rejects['Order_ID'].max()`: the largest reject id. */
  function MaxOrderId(xs: seq<(Nanos, Record<string>)>): (m: int)
    requires xs != []
    ensures forall x :: x in xs ==> x.1.orderId <= m
    ensures exists x :: x in xs && x.1.orderId == m
  {
    assert xs == [xs[0]] + xs[1..];
    if |xs| == 1 then xs[0].1.orderId
    else
      var rest := MaxOrderId(xs[1..]);
      if rest <= xs[0].1.orderId then xs[0].1.orderId else rest
  }

  /** The COMPENSATION record of a reject: two seconds later, on the other
    * side, with the reject's id shifted by `shift`, the same Price and Size. */
  function Compensate(x: (Nanos, Record<string>), shift: int): (c: (Nanos, Record<string>))
    ensures c.0 == x.0 + TwoSeconds
    ensures c.1.direction == Opposite(x.1.direction) && c.1.kind == "COMPENSATION"
    ensures c.1.orderId == x.1.orderId + shift && c.1.price == x.1.price && c.1.size == x.1.size
  {
    (x.0 + TwoSeconds, x.1.(direction := Opposite(x.1.direction), kind := "COMPENSATION", orderId := x.1.orderId + shift))
  }

  /** One compensation per reject, ids shifted by the largest reject id. */
  function Compensations(xs: seq<(Nanos, Record<string>)>): (cs: seq<(Nanos, Record<string>)>)
    ensures |cs| == |xs|
    ensures xs != [] ==> forall i :: 0 <= i < |xs| ==> cs[i] == Compensate(xs[i], MaxOrderId(xs))
  {
    if xs == [] then []
    else
      var m := MaxOrderId(xs);
      seq(|xs|, i requires 0 <= i < |xs| => Compensate(xs[i], m))
  }

  /** With positive reject ids, every compensation id is above every reject
    * id, and rejects with distinct ids get compensations with distinct ids. */
  lemma CompensationIds(xs: seq<(Nanos, Record<string>)>)
    requires forall x :: x in xs ==> x.1.orderId > 0
    ensures forall c, x :: c in Compensations(xs) && x in xs ==> c.1.orderId > x.1.orderId
    ensures forall i, j :: 0 <= i < |xs| && 0 <= j < |xs| && xs[i].1.orderId != xs[j].1.orderId
              ==> Compensations(xs)[i].1.orderId != Compensations(xs)[j].1.orderId
  {
    var cs := Compensations(xs);
    forall c, x | c in cs && x in xs
      ensures c.1.orderId > x.1.orderId
    {
      var i :| 0 <= i < |cs| && cs[i] == c;
      assert xs[i] in xs;
    }
  }

  /** Without positive ids the shift can collide: the compensation of the
    * reject with id 0 takes the id of the largest reject. */
  lemma CompensationIdMayCollide(t: Nanos, e: Record<string>)
    requires e.orderId == 5
    ensures Compensations([(t, e.(orderId := 0)), (t, e)])[0].1.orderId == 5
  {
    var xs := [(t, e.(orderId := 0)), (t, e)];
    assert xs[0] in xs && xs[1] in xs;
    assert MaxOrderId(xs) == 5;
  }

  /** The sort key of `sort_values(['Timestamp', 'Order_ID'])`. */
  predicate Precedes(x: (Nanos, Record<string>), y: (Nanos, Record<string>)) {
    x.0 < y.0 || (x.0 == y.0 && x.1.orderId <= y.1.orderId)
  }

  predicate SortedByTimeAndId(xs: seq<(Nanos, Record<string>)>) {
    forall i, j :: 0 <= i < j < |xs| ==> Precedes(xs[i], xs[j])
  }

  lemma SortedTail(s: seq<(Nanos, Record<string>)>)
    requires SortedByTimeAndId(s) && s != []
    ensures SortedByTimeAndId(s[1..])
    ensures forall z :: z in s[1..] ==> Precedes(s[0], z)
  {
    var rest := s[1..];
    forall i, j | 0 <= i < j < |rest|
      ensures Precedes(rest[i], rest[j])
    {
      assert rest[i] == s[i + 1] && rest[j] == s[j + 1];
    }
    forall z | z in rest
      ensures Precedes(s[0], z)
    {
      var j :| 0 <= j < |rest| && rest[j] == z;
      assert s[j + 1] == z;
    }
  }

  lemma SortedCons(y: (Nanos, Record<string>), s: seq<(Nanos, Record<string>)>)
    requires SortedByTimeAndId(s)
    requires forall z :: z in s ==> Precedes(y, z)
    ensures SortedByTimeAndId([y] + s)
  {
    var r := [y] + s;
    forall i, j | 0 <= i < j < |r|
      ensures Precedes(r[i], r[j])
    {
      assert r[j] == s[j - 1];
      if i == 0 {
        assert s[j - 1] in s;
      } else {
        assert r[i] == s[i - 1];
      }
    }
  }

  function InsertByTimeAndId(x: (Nanos, Record<string>), s: seq<(Nanos, Record<string>)>): (r: seq<(Nanos, Record<string>)>)
    requires SortedByTimeAndId(s)
    ensures SortedByTimeAndId(r)
    ensures multiset(r) == multiset(s) + multiset{x}
  {
    if s == [] then [x]
    else
      assert s == [s[0]] + s[1..];
      SortedTail(s);
      if Precedes(x, s[0]) then
        SortedCons(x, s);
        [x] + s
      else
        var tail := InsertByTimeAndId(x, s[1..]);
        assert forall y :: y in tail ==> y in multiset(tail);
        SortedCons(s[0], tail);
        [s[0]] + tail
  }

  /** `sort_values(['Timestamp', 'Order_ID'])`: the same records, ordered by
    * Timestamp and, within a Timestamp, by Order_ID. */
  function SortByTimeAndId(xs: seq<(Nanos, Record<string>)>): (r: seq<(Nanos, Record<string>)>)
    ensures SortedByTimeAndId(r)
    ensures multiset(r) == multiset(xs)
  {
    if xs == [] then []
    else
      assert xs == [xs[0]] + xs[1..];
      InsertByTimeAndId(xs[0], SortByTimeAndId(xs[1..]))
  }

  /** The records with Timestamp `t` and Order_ID `id`. */
  function SameKey(t: Nanos, id: int): ((Nanos, Record<string>)) -> bool {
    (y: (Nanos, Record<string>)) => y.0 == t && y.1.orderId == id
  }

  /** Insertion goes before every record with the same key. */
  lemma {:induction false} InsertStable(x: (Nanos, Record<string>), s: seq<(Nanos, Record<string>)>, t: Nanos, id: int)
    requires SortedByTimeAndId(s)
    ensures Where(InsertByTimeAndId(x, s), SameKey(t, id)) == Where([x], SameKey(t, id)) + Where(s, SameKey(t, id))
  {
    var p := SameKey(t, id);
    if s == [] {
      assert Where(s, p) == [];
    } else if Precedes(x, s[0]) {
      assert InsertByTimeAndId(x, s) == [x] + s;
      WhereConcat([x], s, p);
    } else {
      SortedTail(s);
      var tail := InsertByTimeAndId(x, s[1..]);
      assert InsertByTimeAndId(x, s) == [s[0]] + tail;
      InsertStable(x, s[1..], t, id);
      StableAfterHead(x, s, tail, t, id);
    }
  }

  lemma StableAfterHead(x: (Nanos, Record<string>), s: seq<(Nanos, Record<string>)>,
                        tail: seq<(Nanos, Record<string>)>, t: Nanos, id: int)
    requires s != [] && !Precedes(x, s[0])
    requires Where(tail, SameKey(t, id)) == Where([x], SameKey(t, id)) + Where(s[1..], SameKey(t, id))
    ensures Where([s[0]] + tail, SameKey(t, id)) == Where([x], SameKey(t, id)) + Where(s, SameKey(t, id))
  {
    var p := SameKey(t, id);
    var rest := s[1..];
    var head, mine, others := Where([s[0]], p), Where([x], p), Where(rest, p);
    SwapUnlessSameKey(x, s[0], t, id);
    assert s == [s[0]] + rest;
    WhereConcat([s[0]], rest, p);
    WhereConcat([s[0]], tail, p);
    Commute(head, mine, others);
  }

  lemma Commute<T>(a: seq<T>, b: seq<T>, c: seq<T>)
    requires a + b == b + a
    ensures a + (b + c) == b + (a + c)
  {
    calc {
      a + (b + c);
      (a + b) + c;
      (b + a) + c;
      b + (a + c);
    }
  }

  /** A record that does not precede another has a different key from it, so
    * at most one of the two is selected. */
  lemma SwapUnlessSameKey(x: (Nanos, Record<string>), y: (Nanos, Record<string>), t: Nanos, id: int)
    requires !Precedes(x, y)
    ensures Where([y], SameKey(t, id)) + Where([x], SameKey(t, id)) == Where([x], SameKey(t, id)) + Where([y], SameKey(t, id))
  {
    WhereSingle(x, SameKey(t, id));
    WhereSingle(y, SameKey(t, id));
  }

  /** The sort is stable: records with the same Timestamp and Order_ID keep
    * their order in the table, rejects before their colliding compensations. */
  lemma {:induction false} SortStable(xs: seq<(Nanos, Record<string>)>, t: Nanos, id: int)
    ensures Where(SortByTimeAndId(xs), SameKey(t, id)) == Where(xs, SameKey(t, id))
  {
    if xs != [] {
      assert xs == [xs[0]] + xs[1..];
      SortStable(xs[1..], t, id);
      InsertStable(xs[0], SortByTimeAndId(xs[1..]), t, id);
      WhereConcat([xs[0]], xs[1..], SameKey(t, id));
    }
  }

  /** A record `c` compensates the reject `x`: two seconds later, on the other
    * side, of Type COMPENSATION, with the same Price and Size. */
  predicate CompensationOf(x: (Nanos, Record<string>), c: (Nanos, Record<string>)) {
    c.1.kind == "COMPENSATION" && c.0 == x.0 + TwoSeconds && c.1.direction == Opposite(x.1.direction)
    && c.1.price == x.1.price && c.1.size == x.1.size
  }

  /** The second half of `t` compensates the first half, row by row. */
  predicate Compensated(t: seq<(Nanos, Record<string>)>) {
    |t| % 2 == 0 && forall i :: 0 <= i < |t| / 2 ==> CompensationOf(t[i], t[|t| / 2 + i])
  }

  /** `pd.concat([rejects, compensations])`: the rejects of the windowed,
    * corrected table, followed by their compensations in the same order. */
  function Table(rows: seq<DealRow>, start: Nanos, end: Nanos): (t: seq<(Nanos, Record<string>)>)
    ensures |t| == 2 * |Where(Deduplicate(Window(rows, start, end)), IsReject)|
    ensures t[..|t| / 2] == Rejects(Deduplicate(Window(rows, start, end)))
    ensures Compensated(t)
  {
    var rejects := Rejects(Deduplicate(Window(rows, start, end)));
    WithCompensations(rejects);
    rejects + Compensations(rejects)
  }

  lemma WithCompensations(xs: seq<(Nanos, Record<string>)>)
    ensures |xs + Compensations(xs)| == 2 * |xs|
    ensures (xs + Compensations(xs))[..|xs|] == xs
    ensures Compensated(xs + Compensations(xs))
  {
    var cs := Compensations(xs);
    var t := xs + cs;
    assert |t| / 2 == |xs|;
    assert t[..|xs|] == xs;
    forall i | 0 <= i < |xs|
      ensures CompensationOf(t[i], t[|xs| + i])
    {
      var c := Compensate(xs[i], MaxOrderId(xs));
      assert cs[i] == c;
      assert CompensationOf(xs[i], c);
      assert t[|xs| + i] == cs[i] && t[i] == xs[i];
    }
  }

  /** The processing of a deals table: window, correction, reject selection,
    * compensation, sort, grouping by Timestamp. */
  function BuildSchedule(rows: seq<DealRow>, start: Nanos, end: Nanos): Schedule<Record<string>> {
    GroupBy(SortByTimeAndId(Table(rows, start, end)))
  }

  /** `processOrders`: a cached schedule is returned as it is; otherwise the
    * table is processed into a schedule of two records per windowed reject,
    * holding exactly the rejects and their compensations, each key's records
    * in Order_ID order. */
  function ProcessOrders(cached: Option<Schedule<Record<string>>>, rows: seq<DealRow>,
                         start: Nanos, end: Nanos): (s: Schedule<Record<string>>)
    ensures cached.Some? ==> s == cached.value
    ensures cached.None? ==> StrictlyAscending(s.keys)
    ensures cached.None? ==> forall k :: k in s.keys <==> (k in s.groups && s.groups[k] != [])
    ensures cached.None? ==> |Flatten(s)| == 2 * |Where(Window(rows, start, end), IsReject)|
    ensures cached.None? ==> multiset(Flatten(s)) == multiset(Table(rows, start, end))
    ensures cached.None? ==> forall k :: k in s.groups ==> IdsAscending(s.groups[k])
  {
    match cached
    case Some(c) => c
    case None =>
      ScheduleCount(rows, start, end);
      SchedulePartition(rows, start, end);
      GroupsOrderedById(rows, start, end);
      BuildSchedule(rows, start, end)
  }

  /** The schedule holds two records per reject inside the window, and nothing
    * for any other deal. */
  lemma ScheduleCount(rows: seq<DealRow>, start: Nanos, end: Nanos)
    ensures |Flatten(BuildSchedule(rows, start, end))| == 2 * |Where(Window(rows, start, end), IsReject)|
  {
    var w := Window(rows, start, end);
    var d := Deduplicate(w);
    WhereSameCount(d, IsReject, w, IsReject);
    var table := Table(rows, start, end);
    var sorted := SortByTimeAndId(table);
    GroupByCount(sorted);
    assert |sorted| == |multiset(sorted)| == |multiset(table)| == |table|;
  }

  /** The groups partition the rejects and compensations: none is lost or
    * repeated. */
  lemma SchedulePartition(rows: seq<DealRow>, start: Nanos, end: Nanos)
    ensures multiset(Flatten(BuildSchedule(rows, start, end))) == multiset(Table(rows, start, end))
  {
    GroupByPartitions(SortByTimeAndId(Table(rows, start, end)));
  }

  lemma RejectsKinds(d: seq<DealRow>)
    ensures forall x :: x in Rejects(d) ==> x.1.kind == "REJECT" && x.1.size >= 0
  {
    var xs := Rejects(d);
    forall x | x in xs
      ensures x.1.kind == "REJECT" && x.1.size >= 0
    {
      var i :| 0 <= i < |xs| && xs[i] == x;
    }
  }

  lemma CompensationsKinds(xs: seq<(Nanos, Record<string>)>)
    requires forall x :: x in xs ==> x.1.size >= 0
    ensures forall c :: c in Compensations(xs) ==> c.1.kind == "COMPENSATION" && c.1.size >= 0
  {
    var cs := Compensations(xs);
    forall c | c in cs
      ensures c.1.kind == "COMPENSATION" && c.1.size >= 0
    {
      var i :| 0 <= i < |cs| && cs[i] == c;
      assert xs[i] in xs;
    }
  }

  /** Every record of the schedule is a REJECT or a COMPENSATION with a
    * non-negative Size. */
  lemma ScheduleKinds(rows: seq<DealRow>, start: Nanos, end: Nanos)
    ensures forall x :: x in Flatten(BuildSchedule(rows, start, end)) ==>
              (x.1.kind == "REJECT" || x.1.kind == "COMPENSATION") && x.1.size >= 0
  {
    var rejects := Rejects(Deduplicate(Window(rows, start, end)));
    var table := Table(rows, start, end);
    RejectsKinds(Deduplicate(Window(rows, start, end)));
    CompensationsKinds(rejects);
    SchedulePartition(rows, start, end);
    forall x | x in Flatten(BuildSchedule(rows, start, end))
      ensures (x.1.kind == "REJECT" || x.1.kind == "COMPENSATION") && x.1.size >= 0
    {
      assert x in multiset(table);
    }
  }

  predicate IdsAscending(es: seq<Record<string>>) {
    forall i, j :: 0 <= i < j < |es| ==> es[i].orderId <= es[j].orderId
  }

  /** A group of rows sorted by Timestamp and Order_ID is sorted by Order_ID. */
  lemma {:induction false} SelectSortedById(xs: seq<(Nanos, Record<string>)>, k: Nanos)
    requires SortedByTimeAndId(xs)
    ensures IdsAscending(Select(xs, k))
  {
    if xs != [] {
      var rest := xs[1..];
      assert SortedByTimeAndId(rest) by {
        forall i, j | 0 <= i < j < |rest| ensures Precedes(rest[i], rest[j]) {
          assert rest[i] == xs[i + 1] && rest[j] == xs[j + 1];
        }
      }
      SelectSortedById(rest, k);
      var later := Select(rest, k);
      if xs[0].0 == k {
        var g := Select(xs, k);
        assert g == [xs[0].1] + later;
        forall e | e in later
          ensures xs[0].1.orderId <= e.orderId
        {
          var j :| 0 <= j < |rest| && rest[j] == (k, e);
          assert Precedes(xs[0], xs[j + 1]);
        }
        forall i, j | 0 <= i < j < |g|
          ensures g[i].orderId <= g[j].orderId
        {
          assert g[j] == later[j - 1];
          if i == 0 {
            assert later[j - 1] in later;
          } else {
            assert g[i] == later[i - 1];
          }
        }
      } else {
        assert Select(xs, k) == later;
      }
    }
  }

  /** Within each key the records are in Order_ID order. */
  lemma GroupsOrderedById(rows: seq<DealRow>, start: Nanos, end: Nanos)
    ensures forall k :: k in BuildSchedule(rows, start, end).groups ==> IdsAscending(BuildSchedule(rows, start, end).groups[k])
  {
    var sorted := SortByTimeAndId(Table(rows, start, end));
    forall k | k in GroupBy(sorted).groups
      ensures IdsAscending(GroupBy(sorted).groups[k])
    {
      SelectSortedById(sorted, k);
    }
  }

  // ---------------------------------------------------------------------------
  // RejectReplayAgent.placeOrder

  /** The call `placeOrder` makes for one record: a new COMPENSATION with a
    * positive Size becomes a market order on its side with its id; an open
    * order is cancelled by Size 0; anything else, a REJECT included, makes no
    * call. */
  function Decide(symbol: string, orders: map<int, LimitOrder>, e: Record<string>): (a: Option<Action>)
    ensures (a.Some? && a.value.PlaceMarket?) <==> e.orderId !in orders && e.size > 0 && e.kind == "COMPENSATION"
    ensures (a.Some? && a.value.Cancel?) <==> e.orderId in orders && e.size == 0
    ensures a.None? <==> (e.orderId !in orders && !(e.size > 0 && e.kind == "COMPENSATION")) || (e.orderId in orders && e.size != 0)
    ensures a.Some? && a.value.PlaceMarket? ==> a.value == PlaceMarket(symbol, e.size, IsBuy(e.direction), e.orderId)
    ensures a.Some? && a.value.Cancel? ==> a.value.order == orders[e.orderId]
    ensures a.Some? ==> !a.value.PlaceLimit? && !a.value.Modify? && !a.value.SetWakeup?
  {
    if e.orderId !in orders && e.size > 0 && e.kind == "REJECT" then None
    else if e.orderId !in orders && e.size > 0 && e.kind == "COMPENSATION" then
      Some(PlaceMarket(symbol, e.size, IsBuy(e.direction), e.orderId))
    else if e.orderId in orders && e.size == 0 then Some(Cancel(orders[e.orderId]))
    else None
  }

  /** `placeOrder`'s call for each record of one dispatch. */
  function Policy(symbol: string, orders: map<int, LimitOrder>): Record<string> -> Option<Action> {
    e => Decide(symbol, orders, e)
  }

  /** Whether a record is booked into the holdings: a new REJECT with a
    * positive Size. */
  predicate Books(orders: map<int, LimitOrder>, e: Record<string>) {
    e.orderId !in orders && e.size > 0 && e.kind == "REJECT"
  }

  /** The holdings after booking a REJECT: the symbol's position starts at 0
    * if absent; a BUY pays Size × Price in CASH for Size more units, a SELL
    * receives it for Size fewer; any other side only opens the position.
    * Every other holding stays. */
  function Book(holdings: map<string, int>, symbol: string, e: Record<string>): (h: map<string, int>)
    requires "CASH" in holdings
    ensures h.Keys == holdings.Keys + {symbol}
    ensures forall s :: s in holdings && s != symbol && s != "CASH" ==> h[s] == holdings[s]
    ensures symbol != "CASH" ==>
      var held := if symbol in holdings then holdings[symbol] else 0;
      && (e.direction == Buy ==> h["CASH"] == holdings["CASH"] - e.size * e.price && h[symbol] == held + e.size)
      && (e.direction == Sell ==> h["CASH"] == holdings["CASH"] + e.size * e.price && h[symbol] == held - e.size)
      && (e.direction.Raw? ==> h["CASH"] == holdings["CASH"] && h[symbol] == held)
  {
    var withPosition := if symbol in holdings then holdings else holdings[symbol := 0];
    match e.direction
    case Buy =>
      var paid := withPosition["CASH" := withPosition["CASH"] - e.size * e.price];
      paid[symbol := paid[symbol] + e.size]
    case Sell =>
      var received := withPosition["CASH" := withPosition["CASH"] + e.size * e.price];
      received[symbol := received[symbol] - e.size]
    case Raw(_) => withPosition
  }

  /** Booking a BUY and then a SELL of the same Size and Price leaves the
    * holdings as they were, once the position is open. */
  lemma BookBuyThenSell(holdings: map<string, int>, symbol: string, e: Record<string>)
    requires "CASH" in holdings && symbol in holdings && e.direction == Buy
    ensures Book(Book(holdings, symbol, e), symbol, e.(direction := Sell)) == holdings
  {
    var h := Book(holdings, symbol, e);
    var h' := Book(h, symbol, e.(direction := Sell));
    assert h'.Keys == holdings.Keys;
    if symbol == "CASH" {
      assert h["CASH"] == holdings["CASH"] - e.size * e.price + e.size;
    } else {
      assert h[symbol] == holdings[symbol] + e.size;
    }
  }

  /** The holdings after dispatching a list of records, one at a time. */
  function Booked(symbol: string, orders: map<int, LimitOrder>, holdings: map<string, int>,
                  events: seq<Record<string>>): (h: map<string, int>)
    requires "CASH" in holdings
    ensures "CASH" in h && holdings.Keys <= h.Keys
  {
    if events == [] then holdings
    else
      var init, last := events[..|events| - 1], events[|events| - 1];
      var before := Booked(symbol, orders, holdings, init);
      if Books(orders, last) then Book(before, symbol, last) else before
  }

  /** Dispatching a list touches only the cash and the symbol's position, and
    * a list without a new REJECT touches nothing. */
  lemma {:induction false} BookedFrame(symbol: string, orders: map<int, LimitOrder>, holdings: map<string, int>,
                                       events: seq<Record<string>>)
    requires "CASH" in holdings
    ensures forall s :: s in holdings && s != symbol && s != "CASH" ==> Booked(symbol, orders, holdings, events)[s] == holdings[s]
    ensures (forall i :: 0 <= i < |events| ==> !Books(orders, events[i])) ==> Booked(symbol, orders, holdings, events) == holdings
    decreases |events|
  {
    if events != [] {
      var init := events[..|events| - 1];
      BookedFrame(symbol, orders, holdings, init);
      assert forall i :: 0 <= i < |init| ==> init[i] == events[i];
    }
  }

  /** Dispatching one more record books it if it is a new REJECT. */
  lemma BookedSnoc(symbol: string, orders: map<int, LimitOrder>, holdings: map<string, int>,
                   events: seq<Record<string>>, e: Record<string>)
    requires "CASH" in holdings
    ensures Booked(symbol, orders, holdings, events + [e])
         == if Books(orders, e) then Book(Booked(symbol, orders, holdings, events), symbol, e)
            else Booked(symbol, orders, holdings, events)
  {
    assert (events + [e])[..|events|] == events;
  }

  /** Booking a list is booking its parts one after the other. */
  lemma {:induction false} BookedConcat(symbol: string, orders: map<int, LimitOrder>, holdings: map<string, int>,
                                        a: seq<Record<string>>, b: seq<Record<string>>)
    requires "CASH" in holdings
    ensures Booked(symbol, orders, holdings, a + b)
         == Booked(symbol, orders, Booked(symbol, orders, holdings, a), b)
    decreases |b|
  {
    if b == [] {
      assert a + b == a;
    } else {
      var b' := b[..|b| - 1];
      assert (a + b)[..|a + b| - 1] == a + b';
      assert (a + b)[|a + b| - 1] == b[|b| - 1];
      BookedConcat(symbol, orders, holdings, a, b');
    }
  }

  // ---------------------------------------------------------------------------
  // RejectReplayAgent

  class RejectReplayAgent {
    const symbol: string
    /** `historical_orders.orders_dict` */
    const schedule: Schedule<Record<string>>
    /** `historical_orders.first_wakeup` */
    const firstWakeup: Nanos
    /** The times still to be scheduled, consumed from the front. */
    var wakeupTimes: seq<Nanos>
    /** Cash under "CASH" and positions by symbol. */
    var holdings: map<string, int>
    var executedTrades: map<Nanos, (int, int)>
    var lastTrade: map<string, int>
    /** Every call made into the base class or the kernel, in order. */
    var actions: seq<Action>

    /** The first wake-up is the first key and is not in the wake-up list,
      * which is what is left of the other keys once a prefix has been
      * consumed; the holdings keep their cash entry. */
    ghost predicate Valid()
      reads this
    {
      && |schedule.keys| > 0
      && firstWakeup == schedule.keys[0]
      && |wakeupTimes| < |schedule.keys|
      && wakeupTimes == schedule.keys[|schedule.keys| - |wakeupTimes|..]
      && "CASH" in holdings
    }

    /** Construction takes the first key as the first wake-up and removes it
      * from the wake-up list. */
    constructor (symbol: string, startingCash: int, schedule: Schedule<Record<string>>)
      requires schedule.keys != []
      ensures Valid()
      ensures this.symbol == symbol && this.schedule == schedule
      ensures firstWakeup == schedule.keys[0] && wakeupTimes == schedule.keys[1..]
      ensures holdings == map["CASH" := startingCash]
      ensures executedTrades == map[] && lastTrade == map[] && actions == []
    {
      this.symbol := symbol;
      this.schedule := schedule;
      firstWakeup := schedule.keys[0];
      wakeupTimes := schedule.keys[1..];
      holdings := map["CASH" := startingCash];
      executedTrades := map[];
      lastTrade := map[];
      actions := [];
    }

    /** The agent with its processor: construction fails (IndexError on
      * `wakeup_times[0]`) exactly when the processed schedule is empty. */
    static method Create(symbol: string, startingCash: int, cached: Option<Schedule<Record<string>>>,
                         rows: seq<DealRow>, start: Nanos, end: Nanos)
      returns (agent: Option<RejectReplayAgent>)
      ensures agent.None? <==> ProcessOrders(cached, rows, start, end).keys == []
      ensures agent.Some? ==>
        && fresh(agent.value) && agent.value.Valid()
        && agent.value.schedule == ProcessOrders(cached, rows, start, end)
        && agent.value.wakeupTimes == agent.value.schedule.keys[1..]
        && agent.value.holdings == map["CASH" := startingCash]
        && agent.value.actions == []
    {
      var schedule := ProcessOrders(cached, rows, start, end);
      if schedule.keys == [] {
        agent := None;
      } else {
        var a := new RejectReplayAgent(symbol, startingCash, schedule);
        agent := Some(a);
      }
    }

    /** `getWakeFrequency`: the offset of the first wake-up from the market open. */
    method GetWakeFrequency(mktOpen: Nanos) returns (offset: int)
      requires Valid()
      ensures mktOpen + offset == schedule.keys[0]
    {
      offset := firstWakeup - mktOpen;
    }

    /** `placeOrder` on a single record: a new REJECT with a positive Size is
      * booked into the holdings, a new COMPENSATION with a positive Size is
      * sent as a market order, an open order is cancelled by Size 0, and
      * anything else changes nothing. */
    method PlaceOne(orders: map<int, LimitOrder>, e: Record<string>)
      requires Valid()
      modifies this
      ensures Valid()
      ensures holdings == if Books(orders, e) then Book(old(holdings), symbol, e) else old(holdings)
      ensures actions == old(actions) + Emitted(Decide(symbol, orders, e))
      ensures wakeupTimes == old(wakeupTimes)
      ensures executedTrades == old(executedTrades) && lastTrade == old(lastTrade)
    {
      if e.orderId !in orders && e.size > 0 && e.kind == "REJECT" {
        holdings := Book(holdings, symbol, e);
      } else if e.orderId !in orders && e.size > 0 && e.kind == "COMPENSATION" {
        actions := actions + [PlaceMarket(symbol, e.size, IsBuy(e.direction), e.orderId)];
      } else if e.orderId in orders && e.size == 0 {
        actions := actions + [Cancel(orders[e.orderId])];
      }
    }

    /** `placeOrder`: the records are dispatched one at a time, in list order;
      * REJECTs are booked into the holdings, the other records make their
      * calls. */
    method PlaceOrder(orders: map<int, LimitOrder>, events: seq<Record<string>>)
      requires Valid()
      modifies this
      ensures Valid()
      ensures actions == old(actions) + Dispatch(Policy(symbol, orders), events)
      ensures holdings == Booked(symbol, orders, old(holdings), events)
      ensures wakeupTimes == old(wakeupTimes)
      ensures executedTrades == old(executedTrades) && lastTrade == old(lastTrade)
    {
      var policy := Policy(symbol, orders);
      ghost var actions0, holdings0 := actions, holdings;
      var i := 0;
      while i < |events|
        invariant 0 <= i <= |events|
        invariant Valid()
        invariant actions == actions0 + Dispatch(policy, events[..i])
        invariant holdings == Booked(symbol, orders, holdings0, events[..i])
        invariant wakeupTimes == old(wakeupTimes)
        invariant executedTrades == old(executedTrades) && lastTrade == old(lastTrade)
      {
        var e := events[i];
        ghost var done := events[..i];
        assert events[..i + 1] == done + [e];
        DispatchSnoc(policy, done, e);
        BookedSnoc(symbol, orders, holdings0, done, e);
        assert policy(e) == Decide(symbol, orders, e);
        PlaceOne(orders, e);
        i := i + 1;
      }
      assert events[..|events|] == events;
    }

    /** `wakeup`: dispatch the records at the current time, then schedule and
      * pop the head of the wake-up list. A current time with no records raises
      * before anything changes; an empty list ends the wake-up after the
      * dispatch, with nothing scheduled. */
    method Wakeup(currentTime: Nanos, marketHoursKnown: bool, orders: map<int, LimitOrder>)
      returns (outcome: WakeOutcome)
      requires Valid()
      modifies this
      ensures Valid()
      ensures executedTrades == old(executedTrades) && lastTrade == old(lastTrade)
      ensures !marketHoursKnown || currentTime !in schedule.groups ==>
        && outcome == (if marketHoursKnown then MissingKey else MarketHoursUnknown)
        && wakeupTimes == old(wakeupTimes) && actions == old(actions) && holdings == old(holdings)
      ensures marketHoursKnown && currentTime in schedule.groups ==>
        && holdings == Booked(symbol, orders, old(holdings), schedule.groups[currentTime])
        && (old(wakeupTimes) == [] ==>
              && outcome == AllSubmitted && wakeupTimes == []
              && actions == old(actions) + Dispatch(Policy(symbol, orders), schedule.groups[currentTime]))
        && (old(wakeupTimes) != [] ==>
              && outcome == Scheduled(old(wakeupTimes)[0]) && wakeupTimes == old(wakeupTimes)[1..]
              && actions == old(actions) + Dispatch(Policy(symbol, orders), schedule.groups[currentTime])
                            + [SetWakeup(old(wakeupTimes)[0])])
      ensures StrictlyAscending(schedule.keys) && outcome.Scheduled? ==>
        forall t :: t in wakeupTimes ==> outcome.next < t
    {
      if !marketHoursKnown {
        return MarketHoursUnknown;
      }
      if currentTime !in schedule.groups {
        return MissingKey;
      }
      PlaceOrder(orders, schedule.groups[currentTime]);
      if wakeupTimes == [] {
        return AllSubmitted;
      }
      var next := wakeupTimes[0];
      actions := actions + [SetWakeup(next)];
      ghost var n := |schedule.keys| - |wakeupTimes|;
      wakeupTimes := wakeupTimes[1..];
      assert wakeupTimes == schedule.keys[n + 1..] && next == schedule.keys[n];
      outcome := Scheduled(next);
    }

    /** `receiveMessage`: an ORDER_EXECUTED is logged at the current time. */
    method ReceiveMessage(currentTime: Nanos, msg: Message)
      requires Valid()
      modifies this
      ensures Valid()
      ensures (executedTrades, lastTrade) == LogFill(old(executedTrades), old(lastTrade), symbol, currentTime, msg)
      ensures wakeupTimes == old(wakeupTimes) && actions == old(actions) && holdings == old(holdings)
    {
      if msg.OrderExecuted? {
        executedTrades := executedTrades[currentTime := (msg.fillPrice, msg.quantity)];
        lastTrade := lastTrade[symbol := msg.fillPrice];
      }
    }
  }
}
