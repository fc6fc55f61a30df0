# Price-time-priority order book, in Dafny

This project models the in-memory order book of `com.mizuho.order`:

- `OrderBook` keeps a canonical store from order id to order.
- It keeps one lookup per side, from price to the ids resting at that price. The ids are kept in arrival order.
  - The bid lookup iterates from the highest price down.
  - The offer lookup iterates from the lowest price up.
- Every operation validates its arguments first and rejects bad input with the first check that fails.
- Three operations change the book:
  - `addOrder` inserts an order, creating its price level when absent.
  - `removeOrderById` cancels an order and drops a level once it is empty.
  - `updateOrderSizeById` amends a size without touching time priority.
- Three queries read the book:
  - `getPriceOfLevelBySide` gives the level-th best price.
  - `getTotalSizeByLevelAndSide` gives the summed size at that price.
  - `getAllOrdersBySide` lists a side best level first, FIFO within a level.
- `OrderSides` is the two-constant side enum, `BID('B')` and `OFFER('O')`.

Files:

- `order_sides.dfy` (module `OrderSides`): the side enum and the side-token predicate the book validates with.
- `price_levels.dfy` (module `PriceLevels`): one side lookup.
  - A `ConcurrentSkipListMap<Double, LinkedHashSet<Long>>` is represented by its entries in iteration order: a `seq<Level>` strictly ordered best to worst.
  - `AddId` models `computeIfAbsent(price, …).add(id)`.
  - `RemoveId` models `computeIfAbsent(price, …).remove(id)` followed by `remove(price)` when the level empties.
  - Both are proved to keep the lookup ordered, non-empty per level and repeat-free. Each is proved to change only the level at its price.
  - The ordered representation is proved canonical.
- `order_book.dfy` (module `Book`): the book itself.
  - Orders, errors and the validation functions, with checks in source order.
  - The book invariant:
    - both lookups are well formed;
    - every stored order is a valid order under its own id;
    - every filed id is stored with that side and the price of its level;
    - every stored order is filed at its own side and price.
  - Lemmas that `addOrder`, `removeOrderById` and `updateOrderSizeById` preserve the invariant.
  - The class `OrderBook`:
    - its three fields are updated in place by the three mutators;
    - the three queries are functions reading the current state;
    - the three view getters.
- `scenarios.dfy` (module `Scenarios`): small concrete books modelled on the unit tests. Their assertions are checked by the verifier:
  - bid levels best first;
  - an amendment keeps its place;
  - a rejected amendment or a duplicate id changes nothing;
  - removing the last order of a level drops the level;
  - the total-size discrepancy below.

Modelling choices:

- Java's `long` ids and sizes are unbounded `int`s.
- A `double` price is a `real`. The code only compares prices.
- A `char` side is a `char`.
- A `null` order argument is `Option<Order>.None`.
- A thrown `IllegalArgumentException` or `NullPointerException` is an `Error` value. It carries the datum its message reports:
  - a mutator returns `Outcome.Failed(e)`;
  - a query returns `Result.Err(e)`.
- The preconditions on the class members are `Valid()`, the book invariant. It holds after the constructor and is preserved by every mutator. Nothing else is required of callers.

## Model

| member | source | states |
|---|---|---|
| OrderSides.Values | src/main/java/com/mizuho/order/enums/OrderSides.java:3-4 | the enum has exactly two constants, BID then OFFER, and they are distinct |
| OrderSides.ValuesComplete | src/main/java/com/mizuho/order/enums/OrderSides.java:3-4 | every side is one of the listed constants |
| OrderSides.GetOrderSide | src/main/java/com/mizuho/order/enums/OrderSides.java:4-14 | BID's token is 'B' and OFFER's token is 'O' |
| OrderSides.GetOrderSideInjective | src/main/java/com/mizuho/order/enums/OrderSides.java:4 | two constants have the same token exactly when they are the same constant |
| OrderSides.IsSide | src/main/java/com/mizuho/order/OrderBook.java:44 | a char is an accepted side iff some constant has it as token, iff it is 'B' or 'O' |
| OrderSides.SideOf | src/main/java/com/mizuho/order/OrderBook.java:85 | the lookup chosen for a char is the side whose token it is; any other char selects the offer side |
| OrderSides.SideOfToken | src/main/java/com/mizuho/order/OrderBook.java:90 | reading a side's token back selects that side |
| PriceLevels.Append | src/main/java/com/mizuho/order/OrderBook.java:34 | `LinkedHashSet.add` keeps every id and its position, adds the new id last when absent, and keeps the level repeat-free |
| PriceLevels.Without | src/main/java/com/mizuho/order/OrderBook.java:71 | `LinkedHashSet.remove` keeps exactly the other ids, never grows the level and keeps it repeat-free |
| PriceLevels.WithoutSplice | src/main/java/com/mizuho/order/OrderBook.java:71 | removing the id at a position closes the gap: the remaining ids keep their relative (time-priority) order |
| PriceLevels.Better | src/main/java/com/mizuho/order/OrderBook.java:21-22 | bids come highest price first (`Comparator.reverseOrder()`), offers lowest price first |
| PriceLevels.BetterStrictTotal | src/main/java/com/mizuho/order/OrderBook.java:21-22 | either side's order is strict, and of two distinct prices exactly one comes first |
| PriceLevels.PriceIn | src/main/java/com/mizuho/order/OrderBook.java:129 | the price of every entry is a key of `keySet()` |
| PriceLevels.PriceHasEntry | src/main/java/com/mizuho/order/OrderBook.java:129 | every key of `keySet()` is the price of some entry |
| PriceLevels.AbsentPriceIsEmpty | src/main/java/com/mizuho/order/OrderBook.java:91 | a price that is not a key has the fresh, empty level `computeIfAbsent` would create |
| PriceLevels.Ids | src/main/java/com/mizuho/order/OrderBook.java:168-170 | flattening the levels keeps every id of every level |
| PriceLevels.IdsAtInIds | src/main/java/com/mizuho/order/OrderBook.java:168-170 | every id filed at some price appears in the flattened listing |
| PriceLevels.AddId | src/main/java/com/mizuho/order/OrderBook.java:89-92 | filing an id under a price makes that price a key and keeps every other key |
| PriceLevels.AddIdOrdered | src/main/java/com/mizuho/order/OrderBook.java:21-22 | filing keeps the lookup in iteration order (bids descending, offers ascending) |
| PriceLevels.AddIdLevels | src/main/java/com/mizuho/order/OrderBook.java:89-92 | filing appends the id to the level at its price, creating the level when absent, and leaves every other level as it was |
| PriceLevels.AddIdWellFormed | src/main/java/com/mizuho/order/OrderBook.java:32-34 | filing keeps the lookup ordered, with no empty level and no repeated id in a level |
| PriceLevels.RemoveId | src/main/java/com/mizuho/order/OrderBook.java:70-75 | unfiling never adds a key |
| PriceLevels.RemoveIdOrdered | src/main/java/com/mizuho/order/OrderBook.java:70-75 | unfiling keeps the lookup in iteration order |
| PriceLevels.RemoveIdLevels | src/main/java/com/mizuho/order/OrderBook.java:70-87 | unfiling removes the id only from the level at its price, and drops that price from the keys exactly when its level becomes empty |
| PriceLevels.RemoveIdWellFormed | src/main/java/com/mizuho/order/OrderBook.java:72-75 | unfiling keeps the lookup well formed: no empty level is left behind |
| PriceLevels.AddThenRemove | src/main/java/com/mizuho/order/OrderBook.java:29-76 | filing a fresh id and unfiling it restores the lookup exactly, including a level created and dropped again |
| PriceLevels.WithoutAppended | src/main/java/com/mizuho/order/OrderBook.java:34 | removing the id just appended to a level gives the level back |
| PriceLevels.Canonical | src/main/java/com/mizuho/order/OrderBook.java:21-22 | two ordered lookups with the same keys and the same level under every key are identical |
| PriceLevels.AsMap | src/main/java/com/mizuho/order/OrderBook.java:197-209 | the map view has exactly the lookup's prices as keys, each mapped to its level |
| PriceLevels.LevelCount | src/main/java/com/mizuho/order/OrderBook.java:21-22 | an ordered lookup has one entry per price |
| PriceLevels.BetterCountAt | src/main/java/com/mizuho/order/OrderBook.java:129-131 | the entry at position i (level i+1) is beaten by exactly i prices of its side |
| PriceLevels.IdsAtIndex | src/main/java/com/mizuho/order/OrderBook.java:155-157 | the entry at a position is the level the map finds under its price |
| PriceLevels.IdsInSomeLevel | src/main/java/com/mizuho/order/OrderBook.java:168-170 | every id of the flattened listing rests in a level at one of the lookup's prices |
| Book.ValidateOrder | src/main/java/com/mizuho/order/OrderBook.java:37-59 | an order is accepted iff non-null, id > 0, side 'B' or 'O', price >= 0, size > 0 and id new; otherwise the first failing check in that order is reported |
| Book.ValidateOrderId | src/main/java/com/mizuho/order/OrderBook.java:78-82 | an id is accepted iff it is stored; otherwise it is reported as not existing |
| Book.ValidateOrderIdAndSize | src/main/java/com/mizuho/order/OrderBook.java:108-116 | accepted iff the id is stored and size > 0; a missing id is reported before a bad size |
| Book.ValidateLevelAndSide | src/main/java/com/mizuho/order/OrderBook.java:135-142 | accepted iff level > 0 and the side is 'B' or 'O'; a bad level is reported before a bad side |
| Book.ValidateSide | src/main/java/com/mizuho/order/OrderBook.java:175-179 | accepted iff the side is 'B' or 'O'; otherwise reported as unsupported |
| Book.AddKeepsInvariant | src/main/java/com/mizuho/order/OrderBook.java:29-35 | a successful add keeps store, bid lookup and offer lookup consistent |
| Book.AddSameSide | src/main/java/com/mizuho/order/OrderBook.java:32-34 | storing an order and filing it under its own side keeps that side consistent with the store |
| Book.AddOtherSide | src/main/java/com/mizuho/order/OrderBook.java:33 | storing an order leaves the other side consistent |
| Book.RemoveKeepsInvariant | src/main/java/com/mizuho/order/OrderBook.java:66-76 | a successful remove keeps the book invariant, so no empty level and no dangling id remain |
| Book.RemoveSameSide | src/main/java/com/mizuho/order/OrderBook.java:69-75 | dropping an order from the store and from its level keeps its side consistent |
| Book.RemoveOtherSide | src/main/java/com/mizuho/order/OrderBook.java:69 | dropping an order from the store leaves the other side consistent |
| Book.UpdateKeepsInvariant | src/main/java/com/mizuho/order/OrderBook.java:100-106 | replacing an order by one with the same id, price and side keeps the invariant with both lookups untouched |
| Book.ReplaceKeepsSide | src/main/java/com/mizuho/order/OrderBook.java:103-105 | such a replacement leaves each side consistent |
| Book.AddThenRemoveRestores | src/main/java/com/mizuho/order/OrderBook.java:29-76 | removing an order right after adding it restores the store and the lookup of its side |
| Book.SumAfterAmend | src/main/java/com/mizuho/order/OrderBook.java:100-106 | an amendment changes the total of the level holding the order by exactly the size difference, and any other level's total not at all |
| Book.StoreIsUnion | src/main/java/com/mizuho/order/OrderBook.java:20-22 | the stored ids are exactly the ids filed on the two sides |
| Book.SideIdsStored | src/main/java/com/mizuho/order/OrderBook.java:20-22 | the listing of one side holds exactly the stored ids of that side |
| Book.FiledOnce | src/main/java/com/mizuho/order/OrderBook.java:85-91 | an id filed in a level of a side is stored with that side and that price, so it is filed nowhere else |
| Book.AllIdsUnique | src/main/java/com/mizuho/order/OrderBook.java:20-22 | across both sides every resting id is filed exactly once |
| Book.SideIdsNoDup | src/main/java/com/mizuho/order/OrderBook.java:168-170 | one side's flattened listing has no repeated id |
| Book.ListingBestToWorst | src/main/java/com/mizuho/order/OrderBook.java:167-172 | in the flattened listing every earlier order's price equals or beats every later one |
| Book.ListingFifo | src/main/java/com/mizuho/order/OrderBook.java:167-172 | the listing's orders at a price are that level's orders in arrival order |
| Book.ListingComplete | src/main/java/com/mizuho/order/OrderBook.java:164-173 | a side's listing holds exactly the stored ids of that side, and as many ids as there are such orders |
| Book.SumSizes | src/main/java/com/mizuho/order/OrderBook.java:160 | the summed stored sizes of a group of ids; a group whose sizes are all positive totals at least its number of ids |
| Book.OrdersOf | src/main/java/com/mizuho/order/OrderBook.java:171 | `map(orderBook::get)` gives one stored record per id, the k-th being the record stored under the k-th id |
| Book.Lookup | src/main/java/com/mizuho/order/OrderBook.java:128 | BID's token selects the bid lookup and every other char the offer lookup |
| Book.LevelSizesPositive | src/main/java/com/mizuho/order/OrderBook.java:160 | every id a level lists is stored with a positive size, so `orderBook.get(id)` is never null |
| Book.OrderBook.constructor | src/main/java/com/mizuho/order/OrderBook.java:20-22 | a new book is empty and satisfies the invariant |
| Book.OrderBook.AddOrder | src/main/java/com/mizuho/order/OrderBook.java:29-59 | the outcome is the first failing validation, and a rejection changes nothing; otherwise the order is stored, its id is appended last at its price on its side (creating the level), no other level and no other side changes, and the invariant holds |
| Book.OrderBook.RemoveOrderById | src/main/java/com/mizuho/order/OrderBook.java:66-92 | a missing id is rejected with no change; otherwise the order leaves the store and its level, other ids keep their order, the level is dropped exactly when it empties, no other level changes, the id is filed nowhere, and the invariant holds |
| Book.OrderBook.UpdateOrderSizeById | src/main/java/com/mizuho/order/OrderBook.java:100-116 | a missing id then a non-positive size are rejected with no change; otherwise only the size of that order changes, and both lookups (time priority) are untouched |
| Book.OrderBook.GetPriceOfLevelBySide | src/main/java/com/mizuho/order/OrderBook.java:125-142 | succeeds iff level > 0, the side is valid and level <= the number of levels. The errors come in validation order, then out of range. The price is a key with a non-empty level, beaten by exactly level-1 prices of its side |
| Book.OrderBook.GetTotalSizeByLevelAndSide | src/main/java/com/mizuho/order/OrderBook.java:151-162 | fails iff validation fails, with the validation error. In range, it is the sum of the current stored sizes of the ids at the level's price, and at least their number. Past the last level, the result is 0 |
| Book.OrderBook.TotalSizePastLastLevel | src/main/java/com/mizuho/order/OrderBook.java:151-162 | for a valid level past the last one, the total is 0 while the price query reports the same level out of range |
| Book.OrderBook.TotalSizeOfLevel | src/test/java/com/mizuho/order/OrderBookTest.java:382-384 | the corrected total fails exactly when the price query fails, with its error, and otherwise is the level's summed size |
| Book.OrderBook.GetAllOrdersBySide | src/main/java/com/mizuho/order/OrderBook.java:164-179 | fails iff the side is unsupported. Holds exactly the stored orders of that side, each a stored record, as many as there are, best price to worst, FIFO within each price |
| Book.OrderBook.GetOrderBook | src/main/java/com/mizuho/order/OrderBook.java:187-189 | the view is the store itself; its ids are exactly the ids filed on the two sides, each under its own id |
| Book.OrderBook.GetBidsLookup | src/main/java/com/mizuho/order/OrderBook.java:197-199 | the bid map's keys are the bid prices, one per level, each mapped to its non-empty level |
| Book.OrderBook.GetOffersLookup | src/main/java/com/mizuho/order/OrderBook.java:207-209 | the offer map's keys are the offer prices, one per level, each mapped to its non-empty level |

## Left out

- Concurrency is not modelled: the `ConcurrentHashMap`/`ConcurrentSkipListMap` containers, and the window in which a reader sees the store and a lookup out of step. Every operation is sequential and atomic.
- Java `double` semantics (NaN, -0.0, comparator quirks) are not modelled; a price is an ordered `real`. A NaN price would pass the check at `OrderBook.java:48`, and the model cannot express that.
- Book.OrderBook.GetTotalSizeByLevelAndSide: does not model `long` overflow of the sum at `OrderBook.java:160`, because sizes are unbounded integers.
- Book.OrderBook.GetBidsLookup: returns the current map value, not a live unmodifiable view, because aliasing by callers is not modelled. The same holds for `GetOffersLookup` and `GetOrderBook`.
- Exception classes and message texts are not modelled. Each rejection is an `Error` constructor carrying the value its message reports. A `null` order is `NullOrder`, modelling the `NullPointerException` from `Objects.requireNonNull`.
- The `Order` record is not part of this model beyond its four fields.
- The JUnit test harness is not part of this model. `scenarios.dfy` restates a few of its situations as verified assertions.
- The `computeIfAbsent` in `removeOrderById` can never create a level for an id that passed validation, because the invariant files it at its price. The model therefore removes from the existing level.

## Findings

| source | as written | input that shows it | evidently intended | confidence | as-written member | corrected member |
|---|---|---|---|---|---|---|
| src/main/java/com/mizuho/order/OrderBook.java:151-162 | a valid level past the last one of its side skips every entry, sums an empty stream and returns 0 | one offer of size 11 at 98.0, then `getTotalSizeByLevelAndSide(2, 'O')` returns 0 | reject the level as "Level 2 is out of range", as `getPriceOfLevelBySide` does and as the test at src/test/java/com/mizuho/order/OrderBookTest.java:382-384 expects | high (the test states it); not executed | Book.OrderBook.TotalSizePastLastLevel | Book.OrderBook.TotalSizeOfLevel |

`GetTotalSizeByLevelAndSide` models the code as written. `TotalSizeOfLevel` adds the range check. `Scenarios.TotalSizePastLastOffer` shows both results on the input above.
