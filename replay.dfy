/** What the three replay agents share: the record of one scheduled order
  * event, the calls an agent makes into its trading base class, the messages
  * it receives, and the decoding of direction flags. */
module Replay {
  import opened Frames

  datatype Option<T> = None | Some(value: T)

  /** The `Direction` column: 'BUY', 'SELL', or a raw flag value that the
    * decoding table did not map (`DataFrame.replace` leaves it as it was). */
  datatype Direction = Buy | Sell | Raw(code: int)

  /** One order event of a replay schedule, the dict `to_dict(orient='records')`
    * makes of a row: Order_ID, Price, Direction, Size and Type. The timestamp
    * is the schedule key. `K` is the feed's Type domain. */
  datatype Record<K> = Record(orderId: int, price: int, direction: Direction, size: int, kind: K)

  /** A limit order: what the open-order table holds and what `modifyOrder`
    * receives as the replacement. */
  datatype LimitOrder = LimitOrder(agentId: int, time: Nanos, symbol: string, quantity: int,
                                   isBuy: bool, limitPrice: int, orderId: int)

  /** A call the agent makes into its trading base class or into the kernel. */
  datatype Action =
    | PlaceLimit(symbol: string, quantity: int, isBuy: bool, limitPrice: int, orderId: int)
    | PlaceMarket(symbol: string, quantity: int, isBuy: bool, orderId: int)
    | Cancel(order: LimitOrder)
    | Modify(order: LimitOrder, replacement: LimitOrder)
    | SetWakeup(time: Nanos)

  /** An inbound message; only ORDER_EXECUTED is acted on. */
  datatype Message = OrderExecuted(fillPrice: int, quantity: int) | OtherMessage(kind: string)

  /** How a wake-up ends. `AllSubmitted` is the caught IndexError of an empty
    * wake-up list; `MissingKey` is the KeyError of a wake-up time with no
    * scheduled records, which `wakeup` does not catch. */
  datatype WakeOutcome = MarketHoursUnknown | Scheduled(next: Nanos) | AllSubmitted | MissingKey

  /** `flags.replace(table)`: a flag the table maps is decoded, any other flag
    * is kept as its raw value. */
  function DecodeDirection(table: map<int, Direction>, flag: int): (d: Direction)
    ensures flag in table ==> d == table[flag]
    ensures flag !in table ==> d == Raw(flag)
  {
    if flag in table then table[flag] else Raw(flag)
  }

  /** The `Direction == 'BUY'` test that turns a direction into `is_buy_order`. */
  predicate IsBuy(d: Direction) {
    d == Buy
  }

  /** The actions of one decision: none, or the one call it makes. */
  function Emitted(a: Option<Action>): (r: seq<Action>)
    ensures a.None? <==> r == []
    ensures a.Some? ==> r == [a.value]
  {
    if a.Some? then [a.value] else []
  }

  /** The calls `placeOrder` makes for a list of records when the call for a
    * record depends on that record alone: a list that is not a single record
    * is dispatched one record at a time, in list order. Every call made is the
    * decision of a record of the list. */
  function Dispatch<K(==)>(decide: Record<K> -> Option<Action>, events: seq<Record<K>>): (acts: seq<Action>)
    ensures |acts| <= |events|
  {
    if events == [] then []
    else Dispatch(decide, events[..|events| - 1]) + Emitted(decide(events[|events| - 1]))
  }

  /** Every call a dispatch makes is the decision of a record of the list. */
  lemma {:induction false} DispatchOrigin<K>(decide: Record<K> -> Option<Action>, events: seq<Record<K>>)
    ensures forall a :: a in Dispatch(decide, events) ==> exists e :: e in events && decide(e) == Some(a)
  {
    if events != [] {
      var init, last := events[..|events| - 1], events[|events| - 1];
      DispatchOrigin(decide, init);
      assert events == init + [last];
      forall a | a in Dispatch(decide, events)
        ensures exists e :: e in events && decide(e) == Some(a)
      {
        if a !in Dispatch(decide, init) {
          assert decide(last) == Some(a);
        }
      }
    }
  }

  /** Dispatching one more record appends that record's call, if any. */
  lemma DispatchSnoc<K>(decide: Record<K> -> Option<Action>, events: seq<Record<K>>, e: Record<K>)
    ensures Dispatch(decide, events + [e]) == Dispatch(decide, events) + Emitted(decide(e))
  {
    assert (events + [e])[..|events|] == events;
  }

  /** Dispatching a list is dispatching its parts one after the other. */
  lemma {:induction false} DispatchConcat<K>(decide: Record<K> -> Option<Action>, a: seq<Record<K>>, b: seq<Record<K>>)
    ensures Dispatch(decide, a + b) == Dispatch(decide, a) + Dispatch(decide, b)
    decreases |b|
  {
    if b == [] {
      assert a + b == a;
    } else {
      var b' := b[..|b| - 1];
      assert (a + b)[..|a + b| - 1] == a + b';
      assert (a + b)[|a + b| - 1] == b[|b| - 1];
      DispatchConcat(decide, a, b');
    }
  }

  /** The fill log after an ORDER_EXECUTED at `time`: the entry at that time
    * becomes [fill_price, quantity], replacing an earlier fill at the same time,
    * and the symbol's last trade price becomes the fill price; every other entry
    * stays. Any other message changes nothing. */
  function LogFill(executed: map<Nanos, (int, int)>, lastTrade: map<string, int>,
                   symbol: string, time: Nanos, msg: Message): (r: (map<Nanos, (int, int)>, map<string, int>))
    ensures msg.OrderExecuted? ==> time in r.0 && r.0[time] == (msg.fillPrice, msg.quantity)
    ensures msg.OrderExecuted? ==> symbol in r.1 && r.1[symbol] == msg.fillPrice
    ensures msg.OrderExecuted? ==> r.0.Keys == executed.Keys + {time} && r.1.Keys == lastTrade.Keys + {symbol}
    ensures forall t :: t in executed && t != time ==> t in r.0 && r.0[t] == executed[t]
    ensures forall s :: s in lastTrade && s != symbol ==> s in r.1 && r.1[s] == lastTrade[s]
    ensures msg.OtherMessage? ==> r == (executed, lastTrade)
  {
    match msg
    case OrderExecuted(price, quantity) => (executed[time := (price, quantity)], lastTrade[symbol := price])
    case OtherMessage(_) => (executed, lastTrade)
  }
}
