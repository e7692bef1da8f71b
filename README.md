# Ready Trader Go market maker — a Dafny model of `autotrader.py`

This project models the decision core of a single-venue market maker. The
trader quotes one instrument (the ETF), prices its quotes off the other
instrument's book (the future), and hedges its fills in the future.

What the model covers:

- `Book`, the two-snapshot order book kept per instrument. Its `update`
  moves the new snapshot into "old". Its `is_ready` is a Python `and` chain
  whose value is either an empty list or a boolean.
- `Order`, a mutable record. `insert_shifted_order` (its branch for an
  existing shifted order) re-numbers, re-prices and re-sizes an order that
  is already stored in a dictionary; `send_enlargen_order` only re-numbers
  one. Both paths are modelled,
  but neither is reached from the handlers: `send_enlargen_order` has no
  caller, and the shifted slots it would need are always `None` (see
  `Valid` below).
- The `AutoTrader` handlers:
  - `on_order_book_update_message`: the book bookkeeping and the full
    requote on a futures message.
  - `on_order_filled_message`: the position, the hedge and the shifted
    order.
  - `on_order_status_message` and `on_error_message`.
  - The helpers `insert_shifted_order` and `send_enlargen_order`.
- The integer parts of pricing and sizing: `calc_price`, the guard of
  `calc_lot_sizes` and `delta_hedge`.

Modules, one per file:

- `Exchange` (`exchange.dfy`): sides, instruments, the competition
  constants, the outbound commands and the Python exceptions.
  - Every command the trader sends is appended to a ghost log, `sent`.
  - The predicate `FreshIds` states that the ids drawn by the logged
    commands strictly increase and are never reused.
- `Orders` (`orders.dfy`):
  - `Order` is a class.
  - `OrderDict` models a Python `dict` from id to order. It keeps the
    insertion order of its keys, which is the order the requote cancels in.
- `Books` (`books.dfy`):
  - The book snapshots.
  - `IsReady`, with its empty-list value.
  - `Received`, the book after one message.
  - The `Book` class and `Receive`.
- `Pricing` (`pricing.dfy`):
  - `SpreadIndex` and `CalcPrice`.
  - `PlanQuotes`, the quotes a futures message inserts.
  - `DeltaHedge`, the hedge size or the exception it raises.
- `Trader` (`trader.dfy`): the `AutoTrader` class and its handlers.
  - Its invariant `Valid` says that resting ids come from the counter.
  - It also says that no id sits in both dictionaries and that drawn ids
    never repeat (`IssuedIdsNeverRepeat` spells this out).
  - It says that `ask_shifted`/`bid_shifted` are always `None`.
  - It says that the futures position stays strictly inside ±100.

A handler that raises in Python returns `Raised(fault)`. The state it
changed before raising is kept. Sends are appends to `sent`; nothing
else about the exchange session is modelled.

The model keeps the source's behaviour as written, quirks included:

- The requote resets the bid slots twice and never resets `ask_base`.
- The fill handler stores the shifted order in `shifted_ask`/`shifted_bid`,
  so `ask_shifted`/`bid_shifted` stay `None`. This is proved as part of
  `Valid`.
- `insert_shifted_order` reads `base.price` on a `None` base
  (`Raised(NoneAttribute)`).
- The re-id branch leaves the old dictionary key mapped to the re-numbered
  order.
- Shifted orders skip the position-limit guard.
- `is_ready` is an empty list, not `False`, while a book's old snapshot is
  empty. `delta_hedge` then does not fall back and raises `IndexError`
  (`FreshBookBreaksFallback`).
- `calc_price` ignores `is_ask` (`CalcPriceIgnoresSide`).
- The quoted level is `4 - min(2, ⌊liquidity / 2·10⁷⌋)`, so never closer
  than level 2, and the price is skewed by `-(position // 10)` ticks.
- The limit tests are `position + lot < 100` for a bid and
  `position - lot > -100` for an ask.
- There is no emergency hedge and no timer: hedges go out only after a
  fill, and every futures message requotes.
- Cancelled ids stay in the dictionaries until a status message with
  nothing remaining arrives.
- `delta` multiplies the best ask and best bid where an average was
  evidently meant (`DoubledDelta`).
- A futures message requotes even when its sequence number is stale. Only
  the book update is skipped: the requote code sits outside the `elif`.

## Model

| member | source | states |
|---|---|---|
| Exchange.Cancels | autotrader.py:184-194 | one cancel per id, in the dictionary's iteration order, and nothing else |
| Exchange.FreshIdsAfterIssue | autotrader.py:107 | drawing `next(order_ids)` for a command and advancing the counter keeps every drawn id unique and below the counter |
| Exchange.FreshIdsAfterCancels | autotrader.py:187 | sending cancels draws no id, so the drawn ids stay fresh |
| Exchange.IssuedIdsConcat | autotrader.py:107 | the ids drawn by two stretches of the log are those of the first followed by those of the second |
| Exchange.CancelsIssueNoIds | autotrader.py:184-194 | a run of cancels draws no id |
| Exchange.IssuedIdsNeverRepeat | autotrader.py:107 | under the id bookkeeping no id is drawn twice and none equals the counter's next value |
| Orders.Order.constructor | autotrader.py:75-79 | the four fields are set from the arguments |
| Orders.Order.Copy | autotrader.py:81-82 | a fresh order with the same four fields |
| Orders.Without | autotrader.py:311 | deleting a key leaves exactly the other keys, no more of them than before, and keeps them distinct |
| Orders.WithoutKeepsOrder | autotrader.py:311 | deleting a key that occurs once keeps the keys before and after it in their order, which fixes the cancel order of later requotes |
| Orders.OrderDict.Put | autotrader.py:204 | `d[k] = o` maps k to o; a new key goes last, a present key keeps its place |
| Orders.OrderDict.Delete | autotrader.py:311 | `del d[k]` removes exactly k from the map and from the key order |
| Books.IsReady | autotrader.py:59-61 | truthy exactly when an old snapshot exists and both snapshots have non-zero best ask and best bid; the empty list exactly while the old snapshot is empty |
| Books.Received | autotrader.py:173-177 | a first message creates the book with an empty old snapshot; a newer one shifts new into old; both store exactly the message's sequence number; a not-newer one leaves the book unchanged; the sequence number never decreases |
| Books.ReceivedTwice | autotrader.py:176-177 | a repeated message changes nothing |
| Books.Book.constructor | autotrader.py:36-44 | the book holds the message as new and an empty old snapshot |
| Books.Book.Update | autotrader.py:46-57 | the old snapshot becomes the previous new one and the new one becomes the message |
| Books.Receive | autotrader.py:164-168 | the stored book afterwards is `Received` of the one before; an existing book is updated in place |
| Books.DoubledDelta | autotrader.py:63-66 | twice `delta()`, the new product of best ask and best bid minus the old one; zero or positive exactly when the new product equals or exceeds the old |
| Books.FirstMessageNotReady | autotrader.py:40-43 | a book that has seen one message is not ready, and its readiness is not `False` |
| Pricing.CalcLotSizes | autotrader.py:377-394 | without a best ask and a best bid both lots and liquidities are zero; otherwise they are the computed ones |
| Pricing.SpreadIndex | autotrader.py:363 | the level index is 4, 3 or 2 by liquidity band, and always in [2, 4] for non-negative liquidity |
| Pricing.SpreadIndexAntitone | autotrader.py:363 | more liquidity never moves the level away from the best price |
| Pricing.CalcPrice | autotrader.py:355-366 | 0 for an empty level; otherwise the level price minus `(position // 10)` ticks, below the level exactly when position ≥ 10 and above it exactly when position < 0 |
| Pricing.CalcPriceAntitoneInPosition | autotrader.py:362-366 | a larger position never gives a higher price at a given level |
| Pricing.CalcPriceIgnoresSide | autotrader.py:355-366 | the `is_ask` flag does not change the price |
| Pricing.PlanQuotes | autotrader.py:179-212 | without a best ask and a best bid nothing is quoted (the guard of `calc_lot_sizes` zeroes the lots); otherwise a bid is quoted exactly when its lot and price are non-zero and `position + lot < 100`, an ask exactly when its lot and price are non-zero and `position - lot > -100`, each at the computed price and lot |
| Pricing.DeltaHedge | autotrader.py:336-351 | half the volume when a book is missing or `False`-ready, or when a delta is 0; 0 when the deltas differ in sign; else `min(volume // 2, int(delta*volume))`; `IndexError` exactly when both books exist, neither is `False`-ready, and one has an empty old snapshot; the value is within [0, volume // 2] |
| Pricing.FreshBookBreaksFallback | autotrader.py:337-339 | one book with an empty old snapshot and the other ready makes the hedge raise instead of falling back |
| Trader.QuoteCommands | autotrader.py:199-212 | the requote's inserts: at most a bid then an ask, with consecutive ids from `firstId` |
| Trader.LedgerAfterStore | autotrader.py:202-204 | storing an order under the counter's next id keeps the sides disjoint and the ids fresh |
| Trader.AutoTrader.constructor | autotrader.py:101-113 | the counter at 1, empty dictionaries, zero positions, no books, empty slots, nothing sent; `shifted_ask`/`shifted_bid`, which the source first creates when the fill handler assigns them and never reads, start as `null` |
| Trader.AutoTrader.OnErrorMessage | autotrader.py:134-142 | an error on a known non-zero id removes it as a zero-remaining status does; any other error changes nothing |
| Trader.AutoTrader.OnOrderStatus | autotrader.py:309-315 | with nothing remaining the id is deleted from bids if there, else from asks, the other side unchanged; an id in neither raises; a non-zero remaining volume changes nothing |
| Trader.AutoTrader.CancelAll | autotrader.py:184-187 | one cancel per resting id, in iteration order; the dictionary is kept |
| Trader.AutoTrader.PlaceOrder | autotrader.py:202-204 | a fresh order under the next id is sent and stored as the side's newest key |
| Trader.AutoTrader.Reissue | autotrader.py:222-224 | the order takes the next id, its insert is sent and it is stored under that id, price and lot kept |
| Trader.AutoTrader.SendEnlargenOrder | autotrader.py:215-225 | a cancel of the old id, then an insert under the next id, and the order stored under it; the old key stays |
| Trader.AutoTrader.InsertShiftedOrder | autotrader.py:227-245 | with a shifted order, it is moved one tick more aggressive (up for a buy, down for a sell), re-sized, re-numbered and stored, the old key still mapping to it; else a new order one tick more aggressive than the base; with neither, `NoneAttribute` and nothing changes |
| Trader.AutoTrader.SendHedge | autotrader.py:267-270 | a hedge at the extreme tick is sent and booked into the futures position only when that stays strictly inside ±100 |
| Trader.AutoTrader.ShiftAfterFill | autotrader.py:271-283 | past a position of ±10 a shifted order of `volume // 2` lots goes one tick more aggressive than the base on the other side, into `shifted_ask`/`shifted_bid`, with no limit check; a missing base raises |
| Trader.AutoTrader.HedgeAndShift | autotrader.py:267-272 | the hedge step, then the shift step, ids drawn in that order |
| Trader.AutoTrader.FillOn | autotrader.py:264-283 | the position moves by the fill; a failing hedge sizing raises with nothing else changed; otherwise hedge then shift |
| Trader.AutoTrader.OnOrderFilled | autotrader.py:248-283 | a fill on a bid is a buy, on an ask a sell, on an unknown id changes nothing |
| Trader.AutoTrader.CancelResting | autotrader.py:184-196 | every resting id of bids then asks is cancelled, the dictionaries kept; the bid slots are cleared and the ask slots are not |
| Trader.AutoTrader.PlaceQuotes | autotrader.py:199-212 | the planned bid then the planned ask are placed as the sides' base orders under consecutive ids |
| Trader.AutoTrader.Requote | autotrader.py:184-212 | cancels of all resting ids followed by the planned inserts; a side without a quote keeps its dictionary |
| Trader.AutoTrader.ReceiveBook | autotrader.py:164-177 | only the message's instrument's book changes, as `Received` says; a book the first message creates is a new object |
| Trader.AutoTrader.OnOrderBookUpdate | autotrader.py:154-212 | an ETF message only updates the ETF book; a futures message updates the futures book, then, whatever the sequence number, cancels all resting ids and inserts the quotes `PlanQuotes` gives; a book the first message creates is a new object; positions are unchanged |

## Left out

- `calc_liquidity` and `calc_lot_size` (autotrader.py:397-434) use floating point: logarithms, square roots and float division. The lot sizes and liquidities they give are the parameter `computed` of `OnOrderBookUpdate`. Their failures are not modelled: division by zero when a level equals the average price (line 406) and a `ValueError` for a position beyond 100 (line 426).
- Trader.AutoTrader.OnOrderBookUpdate: requires non-negative liquidities, which `calc_liquidity` gives for non-negative volumes.
- Pricing.SpreadIndex: takes `liquidity // (0.2*10**8)` as the exact floor of a real quotient. `0.2*10**8` is exactly 2·10⁷ as a double, but float rounding of the quotient is not modelled.
- Pricing.DeltaHedge: the float ratio `etf_delta / futures_delta` and `int(delta*volume)` are the parameter `scaled`, used only where that ratio is positive. The deltas are compared as exact integers (twice `Book.delta`). The float `/ 2` in `delta` agrees with that only while the price products stay below 2⁵³.
- `Book.delta`'s value is not modelled beyond its sign and whether it is zero, which is all `delta_hedge` uses.
- File I/O and logging are not modelled: the CSV writes, `log`, `print_status` and the `logger` calls.
- The `BaseAutoTrader`/asyncio plumbing is not modelled; the `send_*` calls are appends to the ghost log.
- `on_hedge_filled_message`, `on_trade_ticks_message` and the `__repr__`/`__str__` methods only log.
- The order lifespan (always good-for-day) is not kept in the commands.
- `MINIMUM_BID` and `MAXIMUM_ASK` belong to the ready_trader_go library, which is not part of this model. They are taken as 1 and 2147483647.
- Messages carry exactly five levels per side, as the exchange sends them. The type `Row` states this.
- Trader.AutoTrader.OnOrderFilled: the `price` argument is unused, as in the source. `volume` is taken as non-negative.
- Trader.AutoTrader.FillOn: the source moves the position before sizing the hedge; the model sizes it first. The sizing reads only the two books, so nothing observes the difference.
- Trader.AutoTrader.InsertShiftedOrder: in the re-id branch the source draws the new id before updating the price and lot. The model updates the fields first. Nothing observes the order in between.
- `Book.instrument` is stored but never read by the trader, so the invariant does not track it.
