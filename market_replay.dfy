/** The replay agent for the positional CSV order feed (agent/examples/MarketReplayAgent.py):
  * the processor that turns the CSV table into a schedule without any
  * timestamp correction, and the agent that replays it with numeric record
  * types and modifications by difference. */
module MarketReplay {
  import opened Frames
  import opened Replay

  // ---------------------------------------------------------------------------
  // L3OrdersProcessor.processOrders

  /** A row of the CSV file under the positional names Time, Type, Order_ID,
    * Size, Price and Direction. `time` is the converted Timestamp, `None` when
    * the Time text did not parse; the numeric columns are as read, before the
    * integer casts. */
  datatype CsvRow = CsvRow(time: Option<Nanos>, typeCode: real, orderId: int, size: real, price: real, direction: real)

  /** The feed's direction flags: 1 buys, -1 sells. */
  const Directions: map<int, Direction> := map[1 := Buy, -1 := Sell]

  /** `astype(int)`: truncation toward zero. */
  function ToInt(x: real): (n: int)
    ensures 0.0 <= x ==> n as real <= x < n as real + 1.0
    ensures x < 0.0 ==> n as real - 1.0 < x <= n as real
  {
    if 0.0 <= x then x.Floor else -((-x).Floor)
  }

  /** Casting, direction decoding and projection of one row: the Timestamp and
    * a record of Order_ID, Price, Direction, Size and Type. */
  function Canonical(r: CsvRow): (x: (Option<Nanos>, Record<int>))
    ensures x.0 == r.time && x.1.orderId == r.orderId
    ensures x.1.price == ToInt(r.price) && x.1.size == ToInt(r.size) && x.1.kind == ToInt(r.typeCode)
    ensures x.1.direction == if ToInt(r.direction) == 1 then Buy
                             else if ToInt(r.direction) == -1 then Sell
                             else Raw(ToInt(r.direction))
  {
    (r.time, Record(r.orderId, ToInt(r.price), DecodeDirection(Directions, ToInt(r.direction)), ToInt(r.size), ToInt(r.typeCode)))
  }

  function CanonicalRows(rows: seq<CsvRow>): (xs: seq<(Option<Nanos>, Record<int>)>)
    ensures |xs| == |rows|
    ensures forall i :: 0 <= i < |rows| ==> xs[i] == Canonical(rows[i])
  {
    seq(|rows|, i requires 0 <= i < |rows| => Canonical(rows[i]))
  }

  /** The right-open window `start <= Timestamp < end`. A row whose Time did
    * not parse compares false on both sides and is dropped; a row with a
    * Timestamp inside the window is kept as often as the table holds it, with
    * its Timestamp unwrapped. */
  function Window(xs: seq<(Option<Nanos>, Record<int>)>, start: Nanos, end: Nanos): (w: seq<(Nanos, Record<int>)>)
    ensures forall y :: y in w ==> start <= y.0 < end
    ensures forall y :: multiset(w)[y] == if start <= y.0 < end then multiset(xs)[(Some(y.0), y.1)] else 0
  {
    var kept := Where(xs, Inside(start, end));
    KeptParsed(xs, start, end);
    WindowCounts(xs, start, end);
    Parsed(kept)
  }

  function Inside(start: Nanos, end: Nanos): ((Option<Nanos>, Record<int>)) -> bool {
    (x: (Option<Nanos>, Record<int>)) => x.0.Some? && start <= x.0.value < end
  }

  /** The kept rows with their Timestamps unwrapped. */
  function Parsed(xs: seq<(Option<Nanos>, Record<int>)>): (ps: seq<(Nanos, Record<int>)>)
    requires forall x :: x in xs ==> x.0.Some?
    ensures |ps| == |xs|
    ensures forall i :: 0 <= i < |xs| ==> ps[i] == (xs[i].0.value, xs[i].1)
  {
    seq(|xs|, i requires 0 <= i < |xs| => (xs[i].0.value, xs[i].1))
  }

  /** Unwrapping the Timestamps keeps every row's count. */
  lemma {:induction false} ParsedCount(xs: seq<(Option<Nanos>, Record<int>)>, y: (Nanos, Record<int>))
    requires forall x :: x in xs ==> x.0.Some?
    ensures multiset(Parsed(xs))[y] == multiset(xs)[(Some(y.0), y.1)]
  {
    if xs != [] {
      var rest := xs[1..];
      assert xs == [xs[0]] + rest;
      assert forall x :: x in rest ==> x in xs;
      var head := (xs[0].0.value, xs[0].1);
      assert Parsed(xs) == [head] + Parsed(rest);
      ParsedCount(rest, y);
      var z := (Some(y.0), y.1);
      calc {
        multiset(Parsed(xs))[y];
        multiset([head])[y] + multiset(Parsed(rest))[y];
        { assert head == y <==> xs[0] == z; }
        multiset([xs[0]])[z] + multiset(rest)[z];
        multiset(xs)[z];
      }
    }
  }

  lemma KeptParsed(xs: seq<(Option<Nanos>, Record<int>)>, start: Nanos, end: Nanos)
    ensures forall x :: x in Where(xs, Inside(start, end)) ==> x.0.Some? && start <= x.0.value < end
  {
    var kept := Where(xs, Inside(start, end));
    forall x | x in kept
      ensures x.0.Some? && start <= x.0.value < end
    {
      assert multiset(kept)[x] > 0;
      assert x in multiset(xs);
    }
  }

  lemma WindowCounts(xs: seq<(Option<Nanos>, Record<int>)>, start: Nanos, end: Nanos)
    requires forall x :: x in Where(xs, Inside(start, end)) ==> x.0.Some?
    ensures forall y :: multiset(Parsed(Where(xs, Inside(start, end))))[y] ==
                        if start <= y.0 < end then multiset(xs)[(Some(y.0), y.1)] else 0
  {
    var kept := Where(xs, Inside(start, end));
    forall y
      ensures multiset(Parsed(kept))[y] == if start <= y.0 < end then multiset(xs)[(Some(y.0), y.1)] else 0
    {
      ParsedCount(kept, y);
      var x := (Some(y.0), y.1);
      if x !in xs {
        assert multiset(kept)[x] <= multiset(xs)[x] == 0;
      }
    }
  }

  /** The window keeps row order: windowing two consecutive blocks of rows
    * gives the first block's rows followed by the second's. */
  lemma WindowConcat(a: seq<(Option<Nanos>, Record<int>)>, b: seq<(Option<Nanos>, Record<int>)>,
                     start: Nanos, end: Nanos)
    ensures Window(a + b, start, end) == Window(a, start, end) + Window(b, start, end)
  {
    var inside := Inside(start, end);
    WhereConcat(a, b, inside);
    KeptParsed(a, start, end);
    KeptParsed(b, start, end);
    KeptParsed(a + b, start, end);
    ParsedConcat(Where(a, inside), Where(b, inside));
  }

  lemma ParsedConcat(a: seq<(Option<Nanos>, Record<int>)>, b: seq<(Option<Nanos>, Record<int>)>)
    requires forall x :: x in a ==> x.0.Some?
    requires forall x :: x in b ==> x.0.Some?
    ensures forall x :: x in a + b ==> x.0.Some?
    ensures Parsed(a + b) == Parsed(a) + Parsed(b)
  {
  }

  /** Two rows inside the window are both kept, in order. */
  lemma WindowKeepsPair(x: (Option<Nanos>, Record<int>), y: (Option<Nanos>, Record<int>), start: Nanos, end: Nanos)
    requires Inside(start, end)(x) && Inside(start, end)(y)
    ensures Window([x, y], start, end) == [(x.0.value, x.1), (y.0.value, y.1)]
  {
    var inside := Inside(start, end);
    calc {
      Where([x, y], inside);
      { assert [x, y] == [x] + [y]; }
      Where([x] + [y], inside);
      { WhereConcat([x], [y], inside); }
      Where([x], inside) + Where([y], inside);
      { WhereSingle(x, inside); WhereSingle(y, inside); }
      [x, y];
    }
    var ps := Parsed([x, y]);
    assert ps[0] == (x.0.value, x.1) && ps[1] == (y.0.value, y.1);
  }

  /** The processing of a raw table: casts and decoding, window, grouping by
    * Timestamp. There is no timestamp correction. */
  function BuildSchedule(rows: seq<CsvRow>, start: Nanos, end: Nanos): Schedule<Record<int>> {
    GroupBy(Window(CanonicalRows(rows), start, end))
  }

  /** `processOrders`: a cached schedule is returned as it is; otherwise the
    * table is processed into a schedule whose keys lie in the window and whose
    * groups hold exactly the windowed rows. */
  function ProcessOrders(cached: Option<Schedule<Record<int>>>, rows: seq<CsvRow>,
                         start: Nanos, end: Nanos): (s: Schedule<Record<int>>)
    ensures cached.Some? ==> s == cached.value
    ensures cached.None? ==> StrictlyAscending(s.keys) && forall k :: k in s.keys ==> start <= k < end
    ensures cached.None? ==> forall k :: k in s.keys <==> (k in s.groups && s.groups[k] != [])
    ensures cached.None? ==> multiset(Flatten(s)) == multiset(Window(CanonicalRows(rows), start, end))
  {
    match cached
    case Some(c) => c
    case None =>
      KeysInWindow(rows, start, end);
      SchedulePartition(rows, start, end);
      BuildSchedule(rows, start, end)
  }

  /** Every key of the processed schedule lies in the window `[start, end)`. */
  lemma KeysInWindow(rows: seq<CsvRow>, start: Nanos, end: Nanos)
    ensures forall k :: k in BuildSchedule(rows, start, end).keys ==> start <= k < end
  {
    var w := Window(CanonicalRows(rows), start, end);
    forall k | k in GroupBy(w).keys
      ensures start <= k < end
    {
      var i :| 0 <= i < |w| && Stamps(w)[i] == k;
      assert w[i] in w;
    }
  }

  /** A row with a Timestamp reaches the schedule exactly when that Timestamp
    * lies in `[start, end)`. */
  lemma RowKeptIffInWindow(rows: seq<CsvRow>, start: Nanos, end: Nanos, i: nat)
    requires i < |rows| && rows[i].time.Some?
    ensures (rows[i].time.value, Canonical(rows[i]).1) in Flatten(BuildSchedule(rows, start, end))
        <==> start <= rows[i].time.value < end
  {
    var xs := CanonicalRows(rows);
    var w := Window(xs, start, end);
    assert xs[i] in xs;
    GroupByKeeps(w, (rows[i].time.value, Canonical(rows[i]).1));
  }

  /** The processed schedule holds exactly the windowed rows, each as often as
    * the table holds it. */
  lemma SchedulePartition(rows: seq<CsvRow>, start: Nanos, end: Nanos)
    ensures multiset(Flatten(BuildSchedule(rows, start, end))) == multiset(Window(CanonicalRows(rows), start, end))
  {
    GroupByPartitions(Window(CanonicalRows(rows), start, end));
  }

  /** Without a correction, two rows with the same Timestamp inside the
    * window share one key, and its group lists them in row order. */
  lemma SameTimestampSharesGroup(a: CsvRow, b: CsvRow, start: Nanos, end: Nanos)
    requires a.time.Some? && a.time == b.time && start <= a.time.value < end
    ensures BuildSchedule([a, b], start, end).keys == [a.time.value]
    ensures BuildSchedule([a, b], start, end).groups[a.time.value] == [Canonical(a).1, Canonical(b).1]
  {
    var t := a.time.value;
    var xs := CanonicalRows([a, b]);
    assert xs == [Canonical(a), Canonical(b)];
    WindowKeepsPair(Canonical(a), Canonical(b), start, end);
    GroupBySharedStamp((t, Canonical(a).1), (t, Canonical(b).1));
  }

  // ---------------------------------------------------------------------------
  // MarketReplayAgent.placeOrder

  /** The decision `placeOrder` takes for one record, given the agent's open
    * orders: a new order of Type 1 or 5 with a positive Size is placed as a
    * limit order; an open order is cancelled by Type 3 whatever its Size, and
    * reduced by the record's Size by Type 2; anything else makes no call. */
  function Decide(agentId: int, symbol: string, time: Nanos, orders: map<int, LimitOrder>,
                  e: Record<int>): (a: Option<Action>)
    ensures (a.Some? && a.value.PlaceLimit?) <==> e.orderId !in orders && e.size > 0 && (e.kind == 1 || e.kind == 5)
    ensures (a.Some? && a.value.Cancel?) <==> e.orderId in orders && e.kind == 3
    ensures (a.Some? && a.value.Modify?) <==> e.orderId in orders && e.kind == 2
    ensures a.None? <==> (e.orderId !in orders && !(e.size > 0 && (e.kind == 1 || e.kind == 5)))
                         || (e.orderId in orders && e.kind != 2 && e.kind != 3)
    ensures a.Some? && a.value.PlaceLimit? ==> a.value == PlaceLimit(symbol, e.size, IsBuy(e.direction), e.price, e.orderId)
    ensures a.Some? && a.value.Cancel? ==> a.value.order == orders[e.orderId]
    ensures a.Some? && a.value.Modify? ==>
      && a.value.order == orders[e.orderId]
      && a.value.replacement.quantity + e.size == a.value.order.quantity
      && a.value.replacement == LimitOrder(agentId, time, symbol, orders[e.orderId].quantity - e.size,
                                           IsBuy(e.direction), e.price, e.orderId)
    ensures a.Some? ==> !a.value.PlaceMarket? && !a.value.SetWakeup?
  {
    if e.orderId !in orders && e.size > 0 && (e.kind == 1 || e.kind == 5) then
      Some(PlaceLimit(symbol, e.size, IsBuy(e.direction), e.price, e.orderId))
    else if e.orderId in orders && e.kind == 3 then
      Some(Cancel(orders[e.orderId]))
    else if e.orderId in orders && e.kind == 2 then
      var existing := orders[e.orderId];
      Some(Modify(existing, LimitOrder(agentId, time, symbol, existing.quantity - e.size,
                                       IsBuy(e.direction), e.price, e.orderId)))
    else
      None
  }

  /** `placeOrder`'s decision for each record of one dispatch. */
  function Policy(agentId: int, symbol: string, time: Nanos, orders: map<int, LimitOrder>): Record<int> -> Option<Action> {
    e => Decide(agentId, symbol, time, orders, e)
  }

  // ---------------------------------------------------------------------------
  // MarketReplayAgent

  class MarketReplayAgent {
    const agentId: int
    const symbol: string
    /** `historical_orders.orders_dict` */
    const schedule: Schedule<Record<int>>
    /** `historical_orders.first_wakeup` */
    const firstWakeup: Nanos
    /** The times still to be scheduled, consumed from the front. */
    var wakeupTimes: seq<Nanos>
    var executedTrades: map<Nanos, (int, int)>
    var lastTrade: map<string, int>
    /** Every call made into the base class or the kernel, in order. */
    var actions: seq<Action>

    /** The first wake-up is the first key, and the wake-up list is what is
      * left of the schedule's keys once a prefix has been consumed. */
    ghost predicate Valid()
      reads this
    {
      && |schedule.keys| > 0
      && firstWakeup == schedule.keys[0]
      && |wakeupTimes| <= |schedule.keys|
      && wakeupTimes == schedule.keys[|schedule.keys| - |wakeupTimes|..]
    }

    /** Construction keeps every key, the first included, in the wake-up list. */
    constructor (agentId: int, symbol: string, schedule: Schedule<Record<int>>)
      requires schedule.keys != []
      ensures Valid()
      ensures this.agentId == agentId && this.symbol == symbol && this.schedule == schedule
      ensures firstWakeup == schedule.keys[0] && wakeupTimes == schedule.keys
      ensures executedTrades == map[] && lastTrade == map[] && actions == []
    {
      this.agentId := agentId;
      this.symbol := symbol;
      this.schedule := schedule;
      firstWakeup := schedule.keys[0];
      wakeupTimes := schedule.keys;
      executedTrades := map[];
      lastTrade := map[];
      actions := [];
    }

    /** The agent with its processor: construction fails (IndexError on
      * `wakeup_times[0]`) exactly when the processed schedule is empty. */
    static method Create(agentId: int, symbol: string, cached: Option<Schedule<Record<int>>>,
                         rows: seq<CsvRow>, start: Nanos, end: Nanos)
      returns (agent: Option<MarketReplayAgent>)
      ensures agent.None? <==> ProcessOrders(cached, rows, start, end).keys == []
      ensures agent.Some? ==>
        && fresh(agent.value) && agent.value.Valid()
        && agent.value.schedule == ProcessOrders(cached, rows, start, end)
        && agent.value.wakeupTimes == agent.value.schedule.keys
        && agent.value.actions == []
    {
      var schedule := ProcessOrders(cached, rows, start, end);
      if schedule.keys == [] {
        agent := None;
      } else {
        var a := new MarketReplayAgent(agentId, symbol, schedule);
        agent := Some(a);
      }
    }

    /** `getWakeFrequency`: the offset of the first wake-up from the market open. */
    method GetWakeFrequency(mktOpen: Nanos) returns (offset: int)
      requires Valid()
      ensures mktOpen + offset == schedule.keys[0]
    {
      offset := firstWakeup - mktOpen;
    }

    /** `placeOrder`: the records are dispatched one at a time, in list order. */
    method PlaceOrder(currentTime: Nanos, orders: map<int, LimitOrder>, events: seq<Record<int>>)
      requires Valid()
      modifies this
      ensures Valid()
      ensures actions == old(actions) + Dispatch(Policy(agentId, symbol, currentTime, orders), events)
      ensures wakeupTimes == old(wakeupTimes)
      ensures executedTrades == old(executedTrades) && lastTrade == old(lastTrade)
    {
      var policy := Policy(agentId, symbol, currentTime, orders);
      var i := 0;
      while i < |events|
        invariant 0 <= i <= |events|
        invariant actions == old(actions) + Dispatch(policy, events[..i])
        invariant wakeupTimes == old(wakeupTimes)
        invariant executedTrades == old(executedTrades) && lastTrade == old(lastTrade)
      {
        assert events[..i + 1] == events[..i] + [events[i]];
        DispatchSnoc(policy, events[..i], events[i]);
        var decision := policy(events[i]);
        actions := actions + Emitted(decision);
        i := i + 1;
      }
      assert events[..|events|] == events;
    }

    /** `wakeup`: schedule and pop the head of the wake-up list, then dispatch
      * the records at the current time. An empty list ends the wake-up before
      * any dispatch; a current time with no records raises after the pop. When
      * the keys ascend, the time scheduled precedes every time left. */
    method Wakeup(currentTime: Nanos, marketHoursKnown: bool, orders: map<int, LimitOrder>)
      returns (outcome: WakeOutcome)
      requires Valid()
      modifies this
      ensures Valid()
      ensures executedTrades == old(executedTrades) && lastTrade == old(lastTrade)
      ensures !marketHoursKnown ==>
        outcome == MarketHoursUnknown && wakeupTimes == old(wakeupTimes) && actions == old(actions)
      ensures marketHoursKnown && old(wakeupTimes) == [] ==>
        outcome == AllSubmitted && wakeupTimes == [] && actions == old(actions)
      ensures marketHoursKnown && old(wakeupTimes) != [] ==>
        && wakeupTimes == old(wakeupTimes)[1..]
        && (currentTime in schedule.groups ==>
              && outcome == Scheduled(old(wakeupTimes)[0])
              && actions == old(actions) + [SetWakeup(old(wakeupTimes)[0])]
                            + Dispatch(Policy(agentId, symbol, currentTime, orders), schedule.groups[currentTime]))
        && (currentTime !in schedule.groups ==>
              outcome == MissingKey && actions == old(actions) + [SetWakeup(old(wakeupTimes)[0])])
      ensures StrictlyAscending(schedule.keys) && outcome.Scheduled? ==>
        forall t :: t in wakeupTimes ==> outcome.next < t
    {
      if !marketHoursKnown {
        return MarketHoursUnknown;
      }
      if wakeupTimes == [] {
        return AllSubmitted;
      }
      var next := wakeupTimes[0];
      actions := actions + [SetWakeup(next)];
      ghost var n := |schedule.keys| - |wakeupTimes|;
      wakeupTimes := wakeupTimes[1..];
      assert wakeupTimes == schedule.keys[n + 1..] && next == schedule.keys[n];
      if currentTime !in schedule.groups {
        return MissingKey;
      }
      PlaceOrder(currentTime, orders, schedule.groups[currentTime]);
      outcome := Scheduled(next);
    }

    /** `receiveMessage`: an ORDER_EXECUTED is logged at the current time. */
    method ReceiveMessage(currentTime: Nanos, msg: Message)
      requires Valid()
      modifies this
      ensures Valid()
      ensures (executedTrades, lastTrade) == LogFill(old(executedTrades), old(lastTrade), symbol, currentTime, msg)
      ensures wakeupTimes == old(wakeupTimes) && actions == old(actions)
    {
      if msg.OrderExecuted? {
        executedTrades := executedTrades[currentTime := (msg.fillPrice, msg.quantity)];
        lastTrade := lastTrade[symbol := msg.fillPrice];
      }
    }
  }
}
