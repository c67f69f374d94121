# Historical order replay agents, in Dafny

This project models the three replay agents of the ABIDES fork under
`agent/examples/`: `RejectReplayAgent`, `MarketReplayAgentUSD` and
`MarketReplayAgent`. Each source file has two parts, and the model keeps both.

- **The order processor** (`L3OrdersProcessor.processOrders`) turns a table of
  historical rows into a schedule: an insertion-ordered dict from timestamps to
  the list of order records at that timestamp. The model states each whole-table
  step over a `seq` of rows: the window filter, the `groupby(...).cumcount()`
  nanosecond correction, direction decoding, integer casts, renaming and
  projection, the synthesis of compensations, the sort, and `groupby(level=0)`.
  Each of these is a pure function.
- **The agent** replays the schedule. It is a class whose fields are the wake-up
  list, the fill log, the last trade price, the holdings (reject agent only) and
  the log of calls it has made (`placeLimitOrder`, `placeMarketOrder`,
  `cancelOrder`, `modifyOrder`, `setWakeup`). Its methods update those fields
  in place, as `wakeup`, `placeOrder` and `receiveMessage` do.

Files:

- `frames.dfy`, module `Frames`: the table operations the three processors share.
  These are row selection (`Where`), cumcount and the corrected timestamp column
  (`CumCount`, `Shifted`), the sorted distinct keys (`SortedKeys`), grouping
  (`GroupBy`, `Select`) and the partition lemmas about grouping.
- `replay.dfy`, module `Replay`: the record, order, call and message types, direction
  decoding, per-record dispatch of a list (`Dispatch`) and the fill log (`LogFill`).
- `reject_replay.dfy`, module `RejectReplay`: `RejectReplayAgent.py`.
- `market_replay_usd.dfy`, module `MarketReplayUSD`: `MarketReplayAgentUSD.py`.
- `market_replay.dfy`, module `MarketReplay`: `MarketReplayAgent.py`.

The three variants differ on purpose, and the model keeps them apart:

| | window | correction | directions | modify |
|---|---|---|---|---|
| reject | closed `[start, end]`, before the correction | yes, on the windowed rows | raw `BookSide` | none |
| USD | right-open `[start, end)` | yes, on the whole table before the window | `{0: BUY, 1: SELL}` | to the record's Size |
| CSV | right-open `[start, end)` | none | `{1: BUY, -1: SELL}` | to `existing.quantity - Size` |

The wake-up order differs too. The reject agent dispatches first and then schedules and
pops. The other two schedule and pop first and then dispatch.

Modelling choices:

- Timestamps are integer nanoseconds (`Frames.Nanos`).
- The agent's open-order table `self.orders` belongs to the `TradingAgent` base
  class, which is not part of this model. It is a `map<int, LimitOrder>`
  parameter, fixed for one dispatch. A record "has an existing order" when its
  Order_ID is a key of that map.
- The `not self.mkt_open or not self.mkt_close` test is the `marketHoursKnown` flag.
  `getWakeFrequency` takes the market open time as a parameter.
- The pickle cache is an optional schedule that is returned unchanged (`ProcessOrders`).
- The `IndexError` that `wakeup` catches is the outcome `AllSubmitted`. The
  `KeyError` of a wake-up time with no records is not caught in the source; it is
  the outcome `MissingKey`, and the state it leaves is specified.
- A processor whose schedule is empty fails on `wakeup_times[0]`. The static
  `Create` methods return `None` in exactly that case.

Behaviours of the code that a reader might not expect, each with the lemma
that exhibits it:

- The reject processor filters on a closed window and corrects afterwards, so
  two deals at `end` both stay and the second moves past `end`
  (`RejectReplay.WindowBeforeDeduplicate`). The USD processor corrects the whole
  table first and then filters on a right-open window
  (`MarketReplayUSD.DeduplicateBeforeWindow`).
- The CSV processor has no correction, so rows with equal timestamps share a
  key (`MarketReplay.SameTimestampSharesGroup`).
- The correction separates only rows that shared a timestamp: a shifted row can
  land on a neighbour's timestamp (`Frames.ShiftedMayCollide`). Compensations are
  not corrected again, so a key can hold several records.
- Compensation ids lie above every reject id when the reject ids are positive
  (`RejectReplay.CompensationIds`). A reject with id 0 gets the largest reject's
  id (`RejectReplay.CompensationIdMayCollide`).
- Only the reject agent drops the first key from its wake-up list and
  dispatches before popping. The USD and CSV agents keep the first key and pop
  before dispatching.

## Model

| member | source | states |
|---|---|---|
| Frames.Where | agent/examples/MarketReplayAgentUSD.py:138 | a boolean-mask selection keeps each passing row exactly as often as the table holds it and drops every other row |
| Frames.WhereConcat | agent/examples/MarketReplayAgentUSD.py:138 | selection keeps row order: selecting from two consecutive blocks is the first block's selection followed by the second's |
| Frames.WhereSameCount | agent/examples/RejectReplayAgent.py:143-145 | two tables whose rows pass their masks at the same positions keep the same number of rows |
| Frames.CumCount | agent/examples/MarketReplayAgentUSD.py:122 | the cumcount of a row counts earlier rows with the same value and is below the number of rows holding that value |
| Frames.CumCountFirst | agent/examples/RejectReplayAgent.py:133 | the first row holding a value gets rank 0 |
| Frames.CumCountNext | agent/examples/RejectReplayAgent.py:133 | the next row holding the same value gets the next rank, so the k-th such row gets rank k |
| Frames.CumCountGrows | agent/examples/RejectReplayAgent.py:133 | a later row with the same value has a strictly larger rank |
| Frames.Shifted | agent/examples/MarketReplayAgentUSD.py:122-123 | adding the rank in nanoseconds moves each row forward by less than its group size and makes rows that shared a value pairwise distinct, in row order |
| Frames.ShiftedMayCollide | agent/examples/MarketReplayAgentUSD.py:122-123 | the correction does not prevent a shifted row from landing on a neighbouring row's timestamp: [5, 5, 6] becomes [5, 6, 6] |
| Frames.InsertKey | agent/examples/MarketReplayAgentUSD.py:141 | inserting into strictly ascending keys keeps them strictly ascending and adds exactly the new key |
| Frames.SortedKeys | agent/examples/MarketReplayAgentUSD.py:141 | the keys of `groupby` are strictly ascending and are exactly the timestamps of the table |
| Frames.Select | agent/examples/MarketReplayAgentUSD.py:141 | a group holds a record exactly when the table holds it with that timestamp |
| Frames.SelectConcat | agent/examples/MarketReplayAgentUSD.py:141 | a group keeps row order across consecutive blocks of rows |
| Frames.GroupBy | agent/examples/MarketReplayAgentUSD.py:139-141 | the grouped dict has strictly ascending keys, exactly the table's timestamps, each mapped to its non-empty group |
| Frames.GroupByPartitions | agent/examples/MarketReplayAgentUSD.py:139-141 | the groups partition the table: flattening the dict gives every row exactly as often as the table holds it |
| Frames.GroupByKeeps | agent/examples/MarketReplayAgentUSD.py:139-141 | a row is in the grouped dict exactly when it is in the table |
| Frames.GroupBySingle | agent/examples/MarketReplayAgentUSD.py:139-141 | a one-row table groups into one key holding that row |
| Frames.GroupByCount | agent/examples/MarketReplayAgentUSD.py:139-141 | grouping keeps the number of rows |
| Frames.GroupBySharedStamp | agent/examples/MarketReplayAgent.py:131-133 | two rows with the same timestamp group into one key holding both, in row order |
| Replay.DecodeDirection | agent/examples/MarketReplayAgentUSD.py:125 | `replace` with a direction table decodes mapped flags and keeps every other flag raw |
| Replay.Dispatch | agent/examples/MarketReplayAgentUSD.py:66-68 | a list is dispatched one record at a time in list order; it makes at most one call per record |
| Replay.DispatchOrigin | agent/examples/MarketReplayAgentUSD.py:47-68 | every call a dispatch makes is the decision of a record of the list |
| Replay.DispatchConcat | agent/examples/MarketReplayAgentUSD.py:66-68 | dispatching a list is dispatching its parts one after the other |
| Replay.LogFill | agent/examples/MarketReplayAgentUSD.py:42-45 | an ORDER_EXECUTED sets the fill log at the current time to the fill price and quantity, overwriting an earlier entry there, and sets the symbol's last trade; every other entry stays and other messages change nothing |
| MarketReplayUSD.Deduplicate | agent/examples/MarketReplayAgentUSD.py:122-123 | the whole table is corrected: only `Time` changes, it moves forward by less than the number of rows sharing it, and rows that shared a `Time` become strictly increasing in row order, so the k-th such row moves by exactly k ns |
| MarketReplayUSD.DeduplicatePair | agent/examples/MarketReplayAgentUSD.py:122-123 | of two rows with the same `Time`, the second moves one nanosecond later |
| MarketReplayUSD.Canonical | agent/examples/MarketReplayAgentUSD.py:125-137 | a row becomes its Timestamp and a record of exactly Order_ID, Price, Direction, Size and Type, with flag 0 decoded to BUY, 1 to SELL and any other flag kept |
| MarketReplayUSD.Window | agent/examples/MarketReplayAgentUSD.py:138 | the window keeps exactly the rows with `start <= Timestamp < end`, each as often as the table holds it |
| MarketReplayUSD.KeysInWindow | agent/examples/MarketReplayAgentUSD.py:138-141 | every key of the processed schedule lies in `[start, end)` |
| MarketReplayUSD.RowKeptIffInWindow | agent/examples/MarketReplayAgentUSD.py:122-141 | a row reaches the schedule exactly when its corrected timestamp lies in `[start, end)` |
| MarketReplayUSD.SchedulePartition | agent/examples/MarketReplayAgentUSD.py:139-141 | the schedule holds exactly the windowed rows, each once per occurrence |
| MarketReplayUSD.WindowDropsSecond | agent/examples/MarketReplayAgentUSD.py:138 | a row inside the window is kept and a row at or past `end` is dropped |
| MarketReplayUSD.DeduplicateBeforeWindow | agent/examples/MarketReplayAgentUSD.py:122-138 | the correction runs before the window: two rows at `end - 1` become `end - 1` and `end`, and only the first reaches the schedule |
| MarketReplayUSD.ProcessOrders | agent/examples/MarketReplayAgentUSD.py:97-145 | a cached schedule is returned as it is; otherwise the schedule has strictly ascending keys, all in `[start, end)`, each with a non-empty group, and its groups hold exactly the corrected, windowed rows, each as often as the table holds it |
| MarketReplayUSD.Decide | agent/examples/MarketReplayAgentUSD.py:48-65 | the decision table, both ways: new order with Type 'R' and Size > 0 is placed as a limit order with its Size, side, Price and id; an existing order is cancelled by Size 0 and modified to the absolute Size with the same id by Size > 0; everything else makes no call |
| MarketReplayUSD.MarketReplayAgentUSD.constructor | agent/examples/MarketReplayAgentUSD.py:93-95 | the first wake-up is the first key and the wake-up list keeps every key, the first included |
| MarketReplayUSD.MarketReplayAgentUSD.Create | agent/examples/MarketReplayAgentUSD.py:93-95 | construction fails exactly when the processed schedule is empty; otherwise the agent holds that schedule and all its keys |
| MarketReplayUSD.MarketReplayAgentUSD.GetWakeFrequency | agent/examples/MarketReplayAgentUSD.py:70-72 | the offset added to the market open gives the first key |
| MarketReplayUSD.MarketReplayAgentUSD.PlaceOrder | agent/examples/MarketReplayAgentUSD.py:47-68 | the calls made are those of dispatching the list; the wake-up list and fill log are unchanged |
| MarketReplayUSD.MarketReplayAgentUSD.Wakeup | agent/examples/MarketReplayAgentUSD.py:29-38 | with market hours known, an empty list ends with AllSubmitted and no call; otherwise the head is scheduled and popped, then the records at the current time are dispatched, or the missing key is reported after the pop; the time scheduled precedes every time left when keys ascend |
| MarketReplayUSD.MarketReplayAgentUSD.ReceiveMessage | agent/examples/MarketReplayAgentUSD.py:40-45 | the fill log and last trade become `LogFill` of the old ones; nothing else changes |
| MarketReplay.ToInt | agent/examples/MarketReplayAgent.py:126-129 | `astype(int)` truncates toward zero |
| MarketReplay.Canonical | agent/examples/MarketReplayAgent.py:123-129 | a CSV row becomes its Timestamp and a record with truncated Price, Size and Type, flag 1 decoded to BUY, -1 to SELL and any other flag kept |
| MarketReplay.Window | agent/examples/MarketReplayAgent.py:130 | a row with a Timestamp in `[start, end)` is kept, unwrapped, as often as the table holds it; every other row, a row whose Time did not parse included, is dropped |
| MarketReplay.WindowConcat | agent/examples/MarketReplayAgent.py:130 | the window keeps row order |
| MarketReplay.ParsedCount | agent/examples/MarketReplayAgent.py:125-130 | unwrapping the parsed Timestamps keeps each row's count |
| MarketReplay.WindowKeepsPair | agent/examples/MarketReplayAgent.py:130 | two rows inside the window are both kept, in order |
| MarketReplay.KeysInWindow | agent/examples/MarketReplayAgent.py:130-133 | every key of the processed schedule lies in `[start, end)` |
| MarketReplay.RowKeptIffInWindow | agent/examples/MarketReplayAgent.py:130-133 | a row with a Timestamp reaches the schedule exactly when that Timestamp lies in `[start, end)` |
| MarketReplay.SchedulePartition | agent/examples/MarketReplayAgent.py:131-133 | the schedule holds exactly the windowed rows, each once per occurrence |
| MarketReplay.SameTimestampSharesGroup | agent/examples/MarketReplayAgent.py:130-133 | there is no correction: two rows with the same Timestamp share one key, and its group lists them in row order |
| MarketReplay.ProcessOrders | agent/examples/MarketReplayAgent.py:96-137 | a cached schedule is returned as it is; otherwise the schedule has strictly ascending keys, all in `[start, end)`, each with a non-empty group, and its groups hold exactly the windowed rows, each as often as the table holds it |
| MarketReplay.Decide | agent/examples/MarketReplayAgent.py:48-65 | the decision table, both ways: new order with Type 1 or 5 and Size > 0 is placed as a limit order; an existing order is cancelled by Type 3 whatever its Size and modified by Type 2 to `existing.quantity - Size` with the same id; everything else makes no call |
| MarketReplay.MarketReplayAgent.constructor | agent/examples/MarketReplayAgent.py:92-94 | the first wake-up is the first key and the wake-up list keeps every key |
| MarketReplay.MarketReplayAgent.Create | agent/examples/MarketReplayAgent.py:92-94 | construction fails exactly when the processed schedule is empty |
| MarketReplay.MarketReplayAgent.GetWakeFrequency | agent/examples/MarketReplayAgent.py:70-72 | the offset added to the market open gives the first key |
| MarketReplay.MarketReplayAgent.PlaceOrder | agent/examples/MarketReplayAgent.py:47-68 | the calls made are those of dispatching the list; nothing else changes |
| MarketReplay.MarketReplayAgent.Wakeup | agent/examples/MarketReplayAgent.py:29-38 | the head is scheduled and popped before the dispatch; an empty list ends with AllSubmitted and no call; a missing key is reported after the pop |
| MarketReplay.MarketReplayAgent.ReceiveMessage | agent/examples/MarketReplayAgent.py:40-45 | the fill log and last trade become `LogFill` of the old ones |
| RejectReplay.Window | agent/examples/RejectReplayAgent.py:128 | the window keeps exactly the rows with `start <= Moment <= end`, closed at both ends, each as often as the table holds it |
| RejectReplay.Deduplicate | agent/examples/RejectReplayAgent.py:133-135 | only the Moment changes, it moves forward by less than the number of rows sharing it, and rows that shared a Moment become strictly increasing in row order, so the k-th such row moves by exactly k ns |
| RejectReplay.DeduplicatePair | agent/examples/RejectReplayAgent.py:133-135 | of two rows with the same Moment, the second moves one nanosecond later |
| RejectReplay.WindowKeepsPair | agent/examples/RejectReplayAgent.py:128 | two rows inside the closed window are both kept, in order |
| RejectReplay.WindowBeforeDeduplicate | agent/examples/RejectReplayAgent.py:128-135 | the window runs before the correction: two rows at `end` both survive, the second moved to `end + 1` |
| RejectReplay.RejectRecord | agent/examples/RejectReplayAgent.py:129-147 | a rejected deal becomes a REJECT record with its index as Order_ID, its BookSide, its price and the absolute BaseQty |
| RejectReplay.Rejects | agent/examples/RejectReplayAgent.py:143-147 | one REJECT record per corrected row whose original Type is 'Reject', in row order |
| RejectReplay.Opposite | agent/examples/RejectReplayAgent.py:150 | BUY and SELL swap and any other side is kept |
| RejectReplay.OppositeInvolutive | agent/examples/RejectReplayAgent.py:150 | swapping twice gives the side back |
| RejectReplay.MaxOrderId | agent/examples/RejectReplayAgent.py:153 | the maximum reject id is at least every reject id and is one of them |
| RejectReplay.Compensate | agent/examples/RejectReplayAgent.py:148-153 | a compensation is two seconds later, on the opposite side, of Type COMPENSATION, with the id shifted and the same Price and Size |
| RejectReplay.Compensations | agent/examples/RejectReplayAgent.py:148-153 | one compensation per reject, ids shifted by the largest reject id |
| RejectReplay.CompensationIds | agent/examples/RejectReplayAgent.py:153 | with positive reject ids every compensation id exceeds every reject id, and distinct reject ids give distinct compensation ids |
| RejectReplay.CompensationIdMayCollide | agent/examples/RejectReplayAgent.py:153 | with a reject id of 0 the shift collides: that reject's compensation takes the largest reject's id |
| RejectReplay.Table | agent/examples/RejectReplayAgent.py:143-154 | the concatenated table holds two records per windowed reject: the REJECT records in row order, then one compensation for each, in the same order, two seconds later on the other side with the same Price and Size |
| RejectReplay.InsertByTimeAndId | agent/examples/RejectReplayAgent.py:154-155 | inserting into rows sorted by Timestamp then Order_ID keeps them sorted and adds exactly the new row |
| RejectReplay.SortByTimeAndId | agent/examples/RejectReplayAgent.py:154-155 | the sort gives a permutation of the rows, sorted by Timestamp and then Order_ID |
| RejectReplay.InsertStable | agent/examples/RejectReplayAgent.py:154-155 | inserting a record places it before every record with the same Timestamp and Order_ID, and keeps those records in order |
| RejectReplay.SortStable | agent/examples/RejectReplayAgent.py:154-155 | the sort is stable: for every Timestamp and Order_ID, the records with that key keep their order in the concatenated table, rejects before their colliding compensations |
| RejectReplay.ScheduleCount | agent/examples/RejectReplayAgent.py:143-163 | the schedule holds exactly two records per reject inside the window |
| RejectReplay.SchedulePartition | agent/examples/RejectReplayAgent.py:154-163 | the groups partition the rejects and their compensations: none is lost or repeated |
| RejectReplay.RejectsKinds | agent/examples/RejectReplayAgent.py:143-147 | every reject record has Type REJECT and a non-negative Size |
| RejectReplay.CompensationsKinds | agent/examples/RejectReplayAgent.py:147-151 | every compensation has Type COMPENSATION and keeps the non-negative Size |
| RejectReplay.ScheduleKinds | agent/examples/RejectReplayAgent.py:143-163 | every record of the schedule is a REJECT or a COMPENSATION with a non-negative Size |
| RejectReplay.SelectSortedById | agent/examples/RejectReplayAgent.py:154-163 | a group of rows sorted by Timestamp and Order_ID is in Order_ID order |
| RejectReplay.GroupsOrderedById | agent/examples/RejectReplayAgent.py:154-163 | within each key of the schedule the records are in Order_ID order |
| RejectReplay.ProcessOrders | agent/examples/RejectReplayAgent.py:107-167 | a cached schedule is returned as it is; otherwise the schedule has strictly ascending keys, each with a non-empty group, holds exactly the rejects and their compensations, two records per windowed reject, and lists each key's records in Order_ID order |
| RejectReplay.Decide | agent/examples/RejectReplayAgent.py:47-80 | the call table, both ways: new COMPENSATION with Size > 0 sends one market order with its Size, side and id; an existing order with Size 0 is cancelled; everything else, REJECTs included, makes no call |
| RejectReplay.Book | agent/examples/RejectReplayAgent.py:52-64 | booking a REJECT opens the symbol's position at 0 if absent; BUY pays Size × Price in cash for Size more units, SELL the opposite, any other side changes no amount; every other holding stays |
| RejectReplay.BookBuyThenSell | agent/examples/RejectReplayAgent.py:55-62 | booking a BUY and then a SELL of the same Size and Price restores the holdings |
| RejectReplay.Booked | agent/examples/RejectReplayAgent.py:47-80 | bookkeeping over a list keeps the cash entry and never removes a holding |
| RejectReplay.BookedFrame | agent/examples/RejectReplayAgent.py:52-64 | a dispatch touches only the cash and the symbol's position, and a list without a new REJECT touches nothing |
| RejectReplay.BookedConcat | agent/examples/RejectReplayAgent.py:78-80 | bookkeeping over a list is bookkeeping over its parts one after the other |
| RejectReplay.RejectReplayAgent.constructor | agent/examples/RejectReplayAgent.py:102-105 | the first wake-up is the first key, the wake-up list holds the other keys, and the holdings are the starting cash |
| RejectReplay.RejectReplayAgent.Create | agent/examples/RejectReplayAgent.py:102-105 | construction fails exactly when the processed schedule is empty; otherwise the wake-up list is the keys after the first |
| RejectReplay.RejectReplayAgent.GetWakeFrequency | agent/examples/RejectReplayAgent.py:82-84 | the offset added to the market open gives the first key |
| RejectReplay.RejectReplayAgent.PlaceOne | agent/examples/RejectReplayAgent.py:48-77 | a single record books a new REJECT into the holdings, or makes its call, and changes nothing else |
| RejectReplay.RejectReplayAgent.PlaceOrder | agent/examples/RejectReplayAgent.py:47-80 | the calls made are those of dispatching the list and the holdings are those of booking it |
| RejectReplay.RejectReplayAgent.Wakeup | agent/examples/RejectReplayAgent.py:29-38 | with market hours known and records at the current time, they are dispatched first; then an empty list ends with AllSubmitted and nothing scheduled, otherwise the head is scheduled and popped; a missing key changes nothing |
| RejectReplay.RejectReplayAgent.ReceiveMessage | agent/examples/RejectReplayAgent.py:40-45 | the fill log and last trade become `LogFill` of the old ones; the agent's own bookkeeping of holdings and its calls are unchanged |

## Left out

- The pickle cache, `read_csv`, `read_pickle` and `pickle.dump` are file I/O. A cached schedule is a parameter that `ProcessOrders` returns unchanged.
- The hard-coded input path and the debug window on `Time` in agent/examples/MarketReplayAgentUSD.py:120-121 read a fixed local file. The USD table is a parameter, and the debug window is not applied.
- `convertDate` (agent/examples/MarketReplayAgent.py:97-105) is floating-point seconds arithmetic. A CSV row carries its converted Timestamp, or `None` when the text did not parse.
- MarketReplay.Canonical: the leftover raw `Time` column that `to_dict` also puts in each CSV record is not part of the record, because no decision reads it.
- The `TradingAgent` base class is not part of this model. This covers how `placeLimitOrder`, `placeMarketOrder`, `cancelOrder` and `modifyOrder` change `self.orders`, and what `setWakeup`, `super().wakeup` and `super().receiveMessage` do.
- MarketReplayUSD.MarketReplayAgentUSD.PlaceOrder, MarketReplay.MarketReplayAgent.PlaceOrder, RejectReplay.RejectReplayAgent.PlaceOrder: the open-order table is fixed for one dispatch. An order placed for one record is not seen as existing by a later record of the same list.
- Kernel delivery of wake-ups and messages belongs to the simulation kernel and is not modelled.
- `log_print`, `print` and `logEvent('HOLDINGS_UPDATED', ...)` are logging.
- The unused `DIRECTION` table of agent/examples/RejectReplayAgent.py:91 and all commented-out code are dead code.
- No restoration or impact-conservation queue exists in these files, so none is modelled.
- RejectReplay.Book: for a symbol named "CASH" the contract states only the keys and the untouched holdings. The body still applies the two updates in the source's order.
- The processors' `wakeup_times` list and the agent's list are one list object in the source. Only the agent's copy is modelled, because the processor never reads it again.
- `getWakeFrequency` with no market open time (a `TypeError` in the source) is not modelled. The market open time is always given.
- An open order is taken to be truthy. `existing_order` is tested by truthiness in the source, and the model uses "is a key of the open-order table".
- Integer casts of NaN and non-numeric cells raise in pandas. The model reads every numeric cell as a number.
- RejectReplay.Book, RejectReplay.BookBuyThenSell, MarketReplayUSD.Canonical: the deals table's ReferenceClientPrice and BaseQty, and the order-book table's PRICE and SIZE, are never cast in the source and may be floats. The model takes them as integers (minor units), so the cash updates `Size * Price` are exact. Float values and rounding are not modelled, and the round trip of `BookBuyThenSell` holds only in this exact arithmetic.
