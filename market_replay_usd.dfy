/** The replay agent for the USD order-book feed (agent/examples/MarketReplayAgentUSD.py):
  * the processor that turns the order-book table into a schedule, and the
  * agent that replays that schedule one wake-up at a time. */
module MarketReplayUSD {
  import opened Frames
  import opened Replay

  // ---------------------------------------------------------------------------
  // L3OrdersProcessor.processOrders

  /** A row of the order-book table, with the columns the processor reads. */
  datatype LobRow = LobRow(time: Nanos, orderId: int, price: int, buySellFlag: int, size: int, recordType: string)

  /** The feed's direction flags: 0 is the bid side, 1 the ask side. */
  const Directions: map<int, Direction> := map[0 := Buy, 1 := Sell]

  function Times(rows: seq<LobRow>): (ts: seq<Nanos>)
    ensures |ts| == |rows|
    ensures forall i :: 0 <= i < |rows| ==> ts[i] == rows[i].time
  {
    seq(|rows|, i requires 0 <= i < |rows| => rows[i].time)
  }

  /** The cumcount correction, applied to the whole table before any window:
    * each row moves forward by its rank among the rows sharing its `Time`, so
    * rows that shared a `Time` become distinct with their order kept, and
    * nothing but `Time` changes. */
  function Deduplicate(rows: seq<LobRow>): (d: seq<LobRow>)
    ensures |d| == |rows|
    ensures forall i :: 0 <= i < |rows| ==> d[i] == rows[i].(time := d[i].time)
    ensures forall i :: 0 <= i < |rows| ==> rows[i].time <= d[i].time < rows[i].time + multiset(Times(rows))[rows[i].time]
    ensures forall i, j :: 0 <= i < j < |rows| && rows[i].time == rows[j].time ==> d[i].time < d[j].time
  {
    var shifted := Shifted(Times(rows));
    seq(|rows|, i requires 0 <= i < |rows| => rows[i].(time := shifted[i]))
  }

  /** Direction decoding, renaming and projection of one row: the Timestamp
    * and a record of exactly Order_ID, Price, Direction, Size and Type. */
  function Canonical(r: LobRow): (x: (Nanos, Record<string>))
    ensures x.0 == r.time && x.1.orderId == r.orderId && x.1.price == r.price
    ensures x.1.size == r.size && x.1.kind == r.recordType
    ensures x.1.direction == if r.buySellFlag == 0 then Buy else if r.buySellFlag == 1 then Sell else Raw(r.buySellFlag)
  {
    (r.time, Record(r.orderId, r.price, DecodeDirection(Directions, r.buySellFlag), r.size, r.recordType))
  }

  function CanonicalRows(rows: seq<LobRow>): (xs: seq<(Nanos, Record<string>)>)
    ensures |xs| == |rows|
    ensures forall i :: 0 <= i < |rows| ==> xs[i] == Canonical(rows[i])
  {
    seq(|rows|, i requires 0 <= i < |rows| => Canonical(rows[i]))
  }

  /** The right-open window `start <= Timestamp < end`: a row inside it is kept
    * as often as the table holds it, a row outside it is dropped. */
  function Window(rows: seq<(Nanos, Record<string>)>, start: Nanos, end: Nanos): (w: seq<(Nanos, Record<string>)>)
    ensures multiset(w) <= multiset(rows)
    ensures forall x :: x in rows ==> multiset(w)[x] == if start <= x.0 < end then multiset(rows)[x] else 0
    ensures forall x :: x in w ==> start <= x.0 < end
  {
    Where(rows, Inside(start, end))
  }

  function Inside(start: Nanos, end: Nanos): ((Nanos, Record<string>)) -> bool {
    (x: (Nanos, Record<string>)) => start <= x.0 < end
  }

  /** The processing of a raw table: cumcount correction, decoding and
    * projection, window, grouping by Timestamp. */
  function BuildSchedule(rows: seq<LobRow>, start: Nanos, end: Nanos): Schedule<Record<string>> {
    GroupBy(Window(CanonicalRows(Deduplicate(rows)), start, end))
  }

  /** `processOrders`: a cached schedule is returned as it is; otherwise the
    * table is processed into a schedule whose keys lie in the window and whose
    * groups hold exactly the windowed rows. */
  function ProcessOrders(cached: Option<Schedule<Record<string>>>, rows: seq<LobRow>,
                         start: Nanos, end: Nanos): (s: Schedule<Record<string>>)
    ensures cached.Some? ==> s == cached.value
    ensures cached.None? ==> StrictlyAscending(s.keys) && forall k :: k in s.keys ==> start <= k < end
    ensures cached.None? ==> forall k :: k in s.keys <==> (k in s.groups && s.groups[k] != [])
    ensures cached.None? ==> multiset(Flatten(s)) == multiset(Window(CanonicalRows(Deduplicate(rows)), start, end))
  {
    match cached
    case Some(c) => c
    case None =>
      KeysInWindow(rows, start, end);
      SchedulePartition(rows, start, end);
      BuildSchedule(rows, start, end)
  }

  /** Every key of the processed schedule lies in the window `[start, end)`. */
  lemma KeysInWindow(rows: seq<LobRow>, start: Nanos, end: Nanos)
    ensures forall k :: k in BuildSchedule(rows, start, end).keys ==> start <= k < end
  {
    var table := CanonicalRows(Deduplicate(rows));
    var w := Window(table, start, end);
    forall k | k in GroupBy(w).keys
      ensures start <= k < end
    {
      var i :| 0 <= i < |w| && Stamps(w)[i] == k;
      assert w[i] in w;
    }
  }

  /** Row `i` of the table reaches the schedule exactly when its corrected
    * time lies in `[start, end)`; with the partition of the grouping, the
    * schedule holds each windowed row exactly once. */
  lemma RowKeptIffInWindow(rows: seq<LobRow>, start: Nanos, end: Nanos, i: nat)
    requires i < |rows|
    ensures Canonical(Deduplicate(rows)[i]) in Flatten(BuildSchedule(rows, start, end))
        <==> start <= Deduplicate(rows)[i].time < end
  {
    var table := CanonicalRows(Deduplicate(rows));
    var w := Window(table, start, end);
    var x := table[i];
    assert x in table;
    GroupByKeeps(w, x);
    assert x in w <==> x in multiset(w);
  }

  /** The processed schedule holds exactly the windowed rows, each as often as
    * the table holds it. */
  lemma SchedulePartition(rows: seq<LobRow>, start: Nanos, end: Nanos)
    ensures multiset(Flatten(BuildSchedule(rows, start, end)))
         == multiset(Window(CanonicalRows(Deduplicate(rows)), start, end))
  {
    GroupByPartitions(Window(CanonicalRows(Deduplicate(rows)), start, end));
  }

  /** Two rows sharing a `Time`: the second moves one nanosecond later. */
  lemma DeduplicatePair(a: LobRow, b: LobRow)
    requires a.time == b.time
    ensures Deduplicate([a, b]) == [a, b.(time := b.time + 1)]
  {
    var ts := Times([a, b]);
    CumCountFirst(ts, 0);
    CumCountNext(ts, 0, 1);
  }

  /** Of two rows, the first inside the window and the second past its end,
    * only the first is kept. */
  lemma WindowDropsSecond(first: (Nanos, Record<string>), second: (Nanos, Record<string>), start: Nanos, end: Nanos)
    requires start <= first.0 < end && end <= second.0
    ensures Window([first, second], start, end) == [first]
  {
    var inside := Inside(start, end);
    assert [first, second] == [first] + [second];
    WhereConcat([first], [second], inside);
    WhereSingle(first, inside);
    WhereSingle(second, inside);
  }

  /** The correction comes before the window: two rows at `end - 1` become
    * `end - 1` and `end`, and the second one falls out of the window. */
  lemma DeduplicateBeforeWindow(a: LobRow, b: LobRow, start: Nanos, end: Nanos)
    requires start < end && a.time == end - 1 && b.time == end - 1
    ensures Flatten(BuildSchedule([a, b], start, end)) == [Canonical(a)]
  {
    DeduplicatePair(a, b);
    assert CanonicalRows([a, b.(time := end)]) == [Canonical(a), Canonical(b.(time := end))];
    WindowDropsSecond(Canonical(a), Canonical(b.(time := end)), start, end);
    GroupBySingle(Canonical(a));
  }

  // ---------------------------------------------------------------------------
  // MarketReplayAgentUSD.placeOrder

  /** The decision `placeOrder` takes for one record, given the agent's open
    * orders: a new order of Type 'R' with a positive Size is placed as a limit
    * order; an open order is cancelled by Size 0 and modified to the record's
    * absolute Size by a positive Size; anything else makes no call. */
  function Decide(agentId: int, symbol: string, time: Nanos, orders: map<int, LimitOrder>,
                  e: Record<string>): (a: Option<Action>)
    ensures (a.Some? && a.value.PlaceLimit?) <==> e.orderId !in orders && e.size > 0 && e.kind == "R"
    ensures (a.Some? && a.value.Cancel?) <==> e.orderId in orders && e.size == 0
    ensures (a.Some? && a.value.Modify?) <==> e.orderId in orders && e.size > 0
    ensures a.None? <==> (e.orderId !in orders && !(e.size > 0 && e.kind == "R")) || (e.orderId in orders && e.size < 0)
    ensures a.Some? && a.value.PlaceLimit? ==> a.value == PlaceLimit(symbol, e.size, IsBuy(e.direction), e.price, e.orderId)
    ensures a.Some? && a.value.Cancel? ==> a.value.order == orders[e.orderId]
    ensures a.Some? && a.value.Modify? ==>
      a.value.order == orders[e.orderId]
      && a.value.replacement == LimitOrder(agentId, time, symbol, e.size, IsBuy(e.direction), e.price, e.orderId)
    ensures a.Some? ==> !a.value.PlaceMarket? && !a.value.SetWakeup?
  {
    if e.orderId !in orders && e.size > 0 && e.kind == "R" then
      Some(PlaceLimit(symbol, e.size, IsBuy(e.direction), e.price, e.orderId))
    else if e.orderId in orders && e.size == 0 then
      Some(Cancel(orders[e.orderId]))
    else if e.orderId in orders && e.size > 0 then
      Some(Modify(orders[e.orderId], LimitOrder(agentId, time, symbol, e.size, IsBuy(e.direction), e.price, e.orderId)))
    else
      None
  }

  /** `placeOrder`'s decision for each record of one dispatch. */
  function Policy(agentId: int, symbol: string, time: Nanos, orders: map<int, LimitOrder>): Record<string> -> Option<Action> {
    e => Decide(agentId, symbol, time, orders, e)
  }

  // ---------------------------------------------------------------------------
  // MarketReplayAgentUSD

  class MarketReplayAgentUSD {
    const agentId: int
    const symbol: string
    /** `historical_orders.orders_dict` */
    const schedule: Schedule<Record<string>>
    /** `historical_orders.first_wakeup` */
    const firstWakeup: Nanos
    /** The times still to be scheduled, consumed from the front. */
    var wakeupTimes: seq<Nanos>
    var executedTrades: map<Nanos, (int, int)>
    var lastTrade: map<string, int>
    /** Every call made into the base class or the kernel, in order. */
    var actions: seq<Action>

    /** The first wake-up is the first key, and the wake-up list is what is
      * left of the schedule's keys once a prefix has been consumed. */
    ghost predicate Valid()
      reads this
    {
      && |schedule.keys| > 0
      && firstWakeup == schedule.keys[0]
      && |wakeupTimes| <= |schedule.keys|
      && wakeupTimes == schedule.keys[|schedule.keys| - |wakeupTimes|..]
    }

    /** Construction keeps every key, the first included, in the wake-up list. */
    constructor (agentId: int, symbol: string, schedule: Schedule<Record<string>>)
      requires schedule.keys != []
      ensures Valid()
      ensures this.agentId == agentId && this.symbol == symbol && this.schedule == schedule
      ensures firstWakeup == schedule.keys[0] && wakeupTimes == schedule.keys
      ensures executedTrades == map[] && lastTrade == map[] && actions == []
    {
      this.agentId := agentId;
      this.symbol := symbol;
      this.schedule := schedule;
      firstWakeup := schedule.keys[0];
      wakeupTimes := schedule.keys;
      executedTrades := map[];
      lastTrade := map[];
      actions := [];
    }

    /** The agent with its processor: construction fails (IndexError on
      * `wakeup_times[0]`) exactly when the processed schedule is empty. */
    static method Create(agentId: int, symbol: string, cached: Option<Schedule<Record<string>>>,
                         rows: seq<LobRow>, start: Nanos, end: Nanos)
      returns (agent: Option<MarketReplayAgentUSD>)
      ensures agent.None? <==> ProcessOrders(cached, rows, start, end).keys == []
      ensures agent.Some? ==>
        && fresh(agent.value) && agent.value.Valid()
        && agent.value.schedule == ProcessOrders(cached, rows, start, end)
        && agent.value.wakeupTimes == agent.value.schedule.keys
        && agent.value.actions == []
    {
      var schedule := ProcessOrders(cached, rows, start, end);
      if schedule.keys == [] {
        agent := None;
      } else {
        var a := new MarketReplayAgentUSD(agentId, symbol, schedule);
        agent := Some(a);
      }
    }

    /** `getWakeFrequency`: the offset of the first wake-up from the market open. */
    method GetWakeFrequency(mktOpen: Nanos) returns (offset: int)
      requires Valid()
      ensures mktOpen + offset == schedule.keys[0]
    {
      offset := firstWakeup - mktOpen;
    }

    /** `placeOrder`: the records are dispatched one at a time, in list order. */
    method PlaceOrder(currentTime: Nanos, orders: map<int, LimitOrder>, events: seq<Record<string>>)
      requires Valid()
      modifies this
      ensures Valid()
      ensures actions == old(actions) + Dispatch(Policy(agentId, symbol, currentTime, orders), events)
      ensures wakeupTimes == old(wakeupTimes)
      ensures executedTrades == old(executedTrades) && lastTrade == old(lastTrade)
    {
      var policy := Policy(agentId, symbol, currentTime, orders);
      var i := 0;
      while i < |events|
        invariant 0 <= i <= |events|
        invariant actions == old(actions) + Dispatch(policy, events[..i])
        invariant wakeupTimes == old(wakeupTimes)
        invariant executedTrades == old(executedTrades) && lastTrade == old(lastTrade)
      {
        assert events[..i + 1] == events[..i] + [events[i]];
        DispatchSnoc(policy, events[..i], events[i]);
        var decision := policy(events[i]);
        actions := actions + Emitted(decision);
        i := i + 1;
      }
      assert events[..|events|] == events;
    }

    /** `wakeup`: schedule and pop the head of the wake-up list, then dispatch
      * the records at the current time. An empty list ends the wake-up before
      * any dispatch; a current time with no records raises after the pop. When
      * the keys ascend, the time scheduled precedes every time left. */
    method Wakeup(currentTime: Nanos, marketHoursKnown: bool, orders: map<int, LimitOrder>)
      returns (outcome: WakeOutcome)
      requires Valid()
      modifies this
      ensures Valid()
      ensures executedTrades == old(executedTrades) && lastTrade == old(lastTrade)
      ensures !marketHoursKnown ==>
        outcome == MarketHoursUnknown && wakeupTimes == old(wakeupTimes) && actions == old(actions)
      ensures marketHoursKnown && old(wakeupTimes) == [] ==>
        outcome == AllSubmitted && wakeupTimes == [] && actions == old(actions)
      ensures marketHoursKnown && old(wakeupTimes) != [] ==>
        && wakeupTimes == old(wakeupTimes)[1..]
        && (currentTime in schedule.groups ==>
              && outcome == Scheduled(old(wakeupTimes)[0])
              && actions == old(actions) + [SetWakeup(old(wakeupTimes)[0])]
                            + Dispatch(Policy(agentId, symbol, currentTime, orders), schedule.groups[currentTime]))
        && (currentTime !in schedule.groups ==>
              outcome == MissingKey && actions == old(actions) + [SetWakeup(old(wakeupTimes)[0])])
      ensures StrictlyAscending(schedule.keys) && outcome.Scheduled? ==>
        forall t :: t in wakeupTimes ==> outcome.next < t
    {
      if !marketHoursKnown {
        return MarketHoursUnknown;
      }
      if wakeupTimes == [] {
        return AllSubmitted;
      }
      var next := wakeupTimes[0];
      actions := actions + [SetWakeup(next)];
      ghost var n := |schedule.keys| - |wakeupTimes|;
      wakeupTimes := wakeupTimes[1..];
      assert wakeupTimes == schedule.keys[n + 1..] && next == schedule.keys[n];
      if currentTime !in schedule.groups {
        return MissingKey;
      }
      PlaceOrder(currentTime, orders, schedule.groups[currentTime]);
      outcome := Scheduled(next);
    }

    /** `receiveMessage`: an ORDER_EXECUTED is logged at the current time. */
    method ReceiveMessage(currentTime: Nanos, msg: Message)
      requires Valid()
      modifies this
      ensures Valid()
      ensures (executedTrades, lastTrade) == LogFill(old(executedTrades), old(lastTrade), symbol, currentTime, msg)
      ensures wakeupTimes == old(wakeupTimes) && actions == old(actions)
    {
      if msg.OrderExecuted? {
        executedTrades := executedTrades[currentTime := (msg.fillPrice, msg.quantity)];
        lastTrade := lastTrade[symbol := msg.fillPrice];
      }
    }
  }
}
