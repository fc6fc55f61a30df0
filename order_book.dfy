/**
 * The price-time-priority order book (`OrderBook`): a canonical store from
 * order id to order, and one price-ordered lookup per side from price to the
 * ids resting there in arrival order.
 */
module Book {
  import opened OrderSides
  import opened PriceLevels

  datatype Option<T> = None | Some(value: T)

  /** An order as the caller hands it to the book: an immutable four-field record. */
  datatype Order = Order(id: int, price: real, side: char, size: int)

  /** Why a call was rejected, with the value its message reports. */
  datatype Error =
    | NullOrder                   // "Order can't be null"
    | NonPositiveId(id: int)      // "Id of and order can't have negative values"
    | UnsupportedSide(side: char) // "Unsupported order side"
    | NegativePrice(id: int)      // "Price of the order <id> can't be negative"
    | NonPositiveSize(size: int)  // "Size of and order can't have negative values"
    | AlreadyExists(id: int)      // "This order already exists"
    | DoesNotExist(id: int)       // "Order <id> doesn't exist"
    | NonPositiveLevel(level: int) // "Level can't be negative"
    | LevelOutOfRange(level: int) // "Level <level> is out of range"

  /** The result of a mutator: it either completes or throws. */
  datatype Outcome = Done | Failed(error: Error)

  /** The result of a query: a value or the exception it throws. */
  datatype Result<T> = Ok(value: T) | Err(error: Error)

  function OutcomeOf(check: Option<Error>): Outcome
  {
    match check
    case None => Done
    case Some(e) => Failed(e)
  }

  /** The lookup a side character selects: the bids for BID's token, the offers for any other. */
  function Lookup(side: char, bids: seq<Level>, offers: seq<Level>): (r: seq<Level>)
    ensures side == GetOrderSide(Bid) ==> r == bids
    ensures side != GetOrderSide(Bid) ==> r == offers
  {
    match SideOf(side)
    case Bid => bids
    case Offer => offers
  }

  // ---------------------------------------------------------------------
  // Validation, in the order the checks run

  /** `validateOrder`: the first failing check is the one reported. */
  function ValidateOrder(store: map<int, Order>, order: Option<Order>): (r: Option<Error>)
    ensures r == None <==>
              order.Some? && order.value.id > 0 && IsSide(order.value.side) && order.value.price >= 0.0 &&
              order.value.size > 0 && order.value.id !in store
    ensures order.None? ==> r == Some(NullOrder)
    ensures order.Some? && order.value.id <= 0 ==> r == Some(NonPositiveId(order.value.id))
    ensures order.Some? && order.value.id > 0 && !IsSide(order.value.side) ==>
              r == Some(UnsupportedSide(order.value.side))
    ensures order.Some? && order.value.id > 0 && IsSide(order.value.side) && order.value.price < 0.0 ==>
              r == Some(NegativePrice(order.value.id))
    ensures (order.Some? && order.value.id > 0 && IsSide(order.value.side) && order.value.price >= 0.0 &&
             order.value.size <= 0) ==> r == Some(NonPositiveSize(order.value.size))
    ensures (order.Some? && order.value.id > 0 && IsSide(order.value.side) && order.value.price >= 0.0 &&
             order.value.size > 0 && order.value.id in store) ==> r == Some(AlreadyExists(order.value.id))
  {
    match order
    case None => Some(NullOrder)
    case Some(o) =>
      if o.id <= 0 then Some(NonPositiveId(o.id))
      else if o.side != GetOrderSide(Bid) && o.side != GetOrderSide(Offer) then Some(UnsupportedSide(o.side))
      else if o.price < 0.0 then Some(NegativePrice(o.id))
      else if o.size <= 0 then Some(NonPositiveSize(o.size))
      else if o.id in store then Some(AlreadyExists(o.id))
      else None
  }

  /** `validateOrderId`: the id must be in the store. */
  function ValidateOrderId(store: map<int, Order>, id: int): (r: Option<Error>)
    ensures r == None <==> id in store
    ensures r != None ==> r == Some(DoesNotExist(id))
  {
    if id !in store then Some(DoesNotExist(id)) else None
  }

  /** `validateOrderIdAndSize`: a missing id is reported before a bad size. */
  function ValidateOrderIdAndSize(store: map<int, Order>, id: int, size: int): (r: Option<Error>)
    ensures r == None <==> id in store && size > 0
    ensures id !in store ==> r == Some(DoesNotExist(id))
    ensures id in store && size <= 0 ==> r == Some(NonPositiveSize(size))
  {
    if id !in store then Some(DoesNotExist(id))
    else if size <= 0 then Some(NonPositiveSize(size))
    else None
  }

  /** `validateLevelAndSide`: a bad level is reported before a bad side. */
  function ValidateLevelAndSide(level: int, side: char): (r: Option<Error>)
    ensures r == None <==> level > 0 && IsSide(side)
    ensures level <= 0 ==> r == Some(NonPositiveLevel(level))
    ensures level > 0 && !IsSide(side) ==> r == Some(UnsupportedSide(side))
  {
    if level <= 0 then Some(NonPositiveLevel(level))
    else if GetOrderSide(Offer) != side && GetOrderSide(Bid) != side then Some(UnsupportedSide(side))
    else None
  }

  /** `validateSide` */
  function ValidateSide(side: char): (r: Option<Error>)
    ensures r == None <==> IsSide(side)
    ensures r != None ==> r == Some(UnsupportedSide(side))
  {
    if GetOrderSide(Offer) != side && GetOrderSide(Bid) != side then Some(UnsupportedSide(side)) else None
  }

  // ---------------------------------------------------------------------
  // The book invariant

  /** A stored order that passed validation, filed under its own id. */
  ghost predicate Resting(o: Order, id: int)
  {
    o.id == id && id > 0 && IsSide(o.side) && o.price >= 0.0 && o.size > 0
  }

  /**
   * One side's lookup agrees with the store: every filed id is stored with
   * this side and the price of its level, and every stored order of this
   * side is filed at its own price.
   */
  ghost predicate SideConsistent(store: map<int, Order>, side: Side, levels: seq<Level>)
  {
    FiledInStore(store, side, levels) && StoredFiled(store, side, levels)
  }

  /** Every filed id is stored, with this side and the price of its level. */
  ghost predicate FiledInStore(store: map<int, Order>, side: Side, levels: seq<Level>)
  {
    forall p, id | id in IdsAt(levels, p) :: id in store && store[id].side == GetOrderSide(side) && store[id].price == p
  }

  /** Every stored order of this side is filed at its own price. */
  ghost predicate StoredFiled(store: map<int, Order>, side: Side, levels: seq<Level>)
  {
    forall id | id in store && store[id].side == GetOrderSide(side) :: id in IdsAt(levels, store[id].price)
  }

  /**
   * The three structures agree: both lookups well formed (ordered, no empty
   * level, no repeated id in a level), every stored order valid, and each
   * side's lookup consistent with the store.
   */
  ghost predicate BookInvariant(store: map<int, Order>, bids: seq<Level>, offers: seq<Level>)
  {
    WellFormed(Bid, bids) && WellFormed(Offer, offers) &&
    (forall id | id in store :: Resting(store[id], id)) &&
    SideConsistent(store, Bid, bids) && SideConsistent(store, Offer, offers)
  }

  lemma {:induction false} LookupValid(store: map<int, Order>, bids: seq<Level>, offers: seq<Level>, c: char)
    requires BookInvariant(store, bids, offers)
    ensures WellFormed(SideOf(c), Lookup(c, bids, offers))
    ensures SideConsistent(store, SideOf(c), Lookup(c, bids, offers))
  {
  }

  /** Filing an order with a fresh id under its own side keeps that side consistent. */
  lemma {:induction false} AddSameSide(store: map<int, Order>, side: Side, levels: seq<Level>, o: Order)
    requires Ordered(side, levels) && SideConsistent(store, side, levels)
    requires o.id !in store && o.side == GetOrderSide(side)
    ensures SideConsistent(store[o.id := o], side, AddId(side, levels, o.price, o.id))
  {
    AddFiled(store, side, levels, o);
    AddStored(store, side, levels, o);
  }

  lemma {:induction false} AddFiled(store: map<int, Order>, side: Side, levels: seq<Level>, o: Order)
    requires Ordered(side, levels) && FiledInStore(store, side, levels)
    requires o.id !in store && o.side == GetOrderSide(side)
    ensures FiledInStore(store[o.id := o], side, AddId(side, levels, o.price, o.id))
  {
    var store', levels' := store[o.id := o], AddId(side, levels, o.price, o.id);
    AddIdLevels(side, levels, o.price, o.id);
    forall p, x | x in IdsAt(levels', p)
      ensures x in store' && store'[x].side == GetOrderSide(side) && store'[x].price == p
    {
      if p == o.price {
        assert x in Append(IdsAt(levels, p), o.id);
        if x != o.id {
          assert x in IdsAt(levels, p);
        }
      } else {
        assert x in IdsAt(levels, p);
      }
    }
  }

  lemma {:induction false} AddStored(store: map<int, Order>, side: Side, levels: seq<Level>, o: Order)
    requires Ordered(side, levels) && StoredFiled(store, side, levels)
    requires o.id !in store && o.side == GetOrderSide(side)
    ensures StoredFiled(store[o.id := o], side, AddId(side, levels, o.price, o.id))
  {
    var store', levels' := store[o.id := o], AddId(side, levels, o.price, o.id);
    AddIdLevels(side, levels, o.price, o.id);
    forall x | x in store' && store'[x].side == GetOrderSide(side) ensures x in IdsAt(levels', store'[x].price) {
      if x != o.id {
        assert x in IdsAt(levels, store[x].price);
      }
    }
  }

  /** Storing an order of the other side with a fresh id leaves a side consistent. */
  lemma {:induction false} AddOtherSide(store: map<int, Order>, side: Side, levels: seq<Level>, o: Order)
    requires SideConsistent(store, side, levels)
    requires o.id !in store && o.side != GetOrderSide(side)
    ensures SideConsistent(store[o.id := o], side, levels)
  {
  }

  /** A successful `addOrder` keeps the book invariant. */
  lemma {:induction false} AddKeepsInvariant(store: map<int, Order>, bids: seq<Level>, offers: seq<Level>, o: Order)
    requires BookInvariant(store, bids, offers)
    requires ValidateOrder(store, Some(o)) == None
    ensures BookInvariant(store[o.id := o],
                          if o.side == GetOrderSide(Bid) then AddId(Bid, bids, o.price, o.id) else bids,
                          if o.side == GetOrderSide(Bid) then offers else AddId(Offer, offers, o.price, o.id))
  {
    if o.side == GetOrderSide(Bid) {
      AddIdWellFormed(Bid, bids, o.price, o.id);
      AddSameSide(store, Bid, bids, o);
      AddOtherSide(store, Offer, offers, o);
    } else {
      AddIdWellFormed(Offer, offers, o.price, o.id);
      AddSameSide(store, Offer, offers, o);
      AddOtherSide(store, Bid, bids, o);
    }
  }

  /** Taking a stored id out of its own level keeps that side consistent once it leaves the store. */
  lemma {:induction false} RemoveSameSide(store: map<int, Order>, side: Side, levels: seq<Level>, id: int)
    requires Ordered(side, levels) && SideConsistent(store, side, levels)
    requires id in store && store[id].side == GetOrderSide(side)
    ensures SideConsistent(store - {id}, side, RemoveId(levels, store[id].price, id))
  {
    RemoveFiled(store, side, levels, id);
    RemoveStored(store, side, levels, id);
  }

  lemma {:induction false} RemoveFiled(store: map<int, Order>, side: Side, levels: seq<Level>, id: int)
    requires Ordered(side, levels) && FiledInStore(store, side, levels) && id in store
    ensures FiledInStore(store - {id}, side, RemoveId(levels, store[id].price, id))
  {
    var price := store[id].price;
    var store', levels' := store - {id}, RemoveId(levels, price, id);
    RemoveIdLevels(side, levels, price, id);
    forall p, x | x in IdsAt(levels', p)
      ensures x in store' && store'[x].side == GetOrderSide(side) && store'[x].price == p
    {
      if p == price {
        assert x in Without(IdsAt(levels, price), id);
        assert x in IdsAt(levels, price) && x != id;
      } else {
        assert x in IdsAt(levels, p);
      }
    }
  }

  lemma {:induction false} RemoveStored(store: map<int, Order>, side: Side, levels: seq<Level>, id: int)
    requires Ordered(side, levels) && StoredFiled(store, side, levels) && id in store
    ensures StoredFiled(store - {id}, side, RemoveId(levels, store[id].price, id))
  {
    var price := store[id].price;
    var store', levels' := store - {id}, RemoveId(levels, price, id);
    RemoveIdLevels(side, levels, price, id);
    forall x | x in store' && store'[x].side == GetOrderSide(side) ensures x in IdsAt(levels', store'[x].price) {
      assert x in IdsAt(levels, store[x].price);
    }
  }

  /** Removing a stored id of the other side leaves a side consistent. */
  lemma {:induction false} RemoveOtherSide(store: map<int, Order>, side: Side, levels: seq<Level>, id: int)
    requires SideConsistent(store, side, levels)
    requires id in store && store[id].side != GetOrderSide(side)
    ensures SideConsistent(store - {id}, side, levels)
  {
  }

  /** A successful `removeOrderById` keeps the book invariant. */
  lemma {:induction false} RemoveKeepsInvariant(store: map<int, Order>, bids: seq<Level>, offers: seq<Level>, id: int)
    requires BookInvariant(store, bids, offers) && id in store
    ensures var o := store[id];
            BookInvariant(store - {id},
                          if o.side == GetOrderSide(Bid) then RemoveId(bids, o.price, id) else bids,
                          if o.side == GetOrderSide(Bid) then offers else RemoveId(offers, o.price, id))
  {
    var o := store[id];
    if o.side == GetOrderSide(Bid) {
      RemoveIdWellFormed(Bid, bids, o.price, id);
      RemoveSameSide(store, Bid, bids, id);
      RemoveOtherSide(store, Offer, offers, id);
    } else {
      RemoveIdWellFormed(Offer, offers, o.price, id);
      RemoveSameSide(store, Offer, offers, id);
      RemoveOtherSide(store, Bid, bids, id);
    }
  }

  /**
   * `removeOrderById` undoes a successful `addOrder`: the store and both
   * lookups return to what they were before the add.
   */
  lemma {:induction false} AddThenRemoveRestores(store: map<int, Order>, bids: seq<Level>, offers: seq<Level>, o: Order)
    requires BookInvariant(store, bids, offers) && ValidateOrder(store, Some(o)) == None
    ensures store[o.id := o] - {o.id} == store
    ensures o.side == GetOrderSide(Bid) ==> RemoveId(AddId(Bid, bids, o.price, o.id), o.price, o.id) == bids
    ensures o.side != GetOrderSide(Bid) ==> RemoveId(AddId(Offer, offers, o.price, o.id), o.price, o.id) == offers
  {
    if o.side == GetOrderSide(Bid) {
      assert o.id !in IdsAt(bids, o.price);
      AddThenRemove(Bid, bids, o.price, o.id);
    } else {
      assert o.id !in IdsAt(offers, o.price);
      AddThenRemove(Offer, offers, o.price, o.id);
    }
  }

  /** Replacing a stored order by one with the same id, price and side leaves a side consistent. */
  lemma {:induction false} ReplaceKeepsSide(store: map<int, Order>, side: Side, levels: seq<Level>, id: int, size: int)
    requires SideConsistent(store, side, levels) && id in store
    ensures SideConsistent(store[id := Order(id, store[id].price, store[id].side, size)], side, levels)
  {
  }

  /** A successful `updateOrderSizeById` keeps the book invariant without touching either lookup. */
  lemma {:induction false} UpdateKeepsInvariant(store: map<int, Order>, bids: seq<Level>, offers: seq<Level>, id: int, size: int)
    requires BookInvariant(store, bids, offers) && ValidateOrderIdAndSize(store, id, size) == None
    ensures BookInvariant(store[id := Order(id, store[id].price, store[id].side, size)], bids, offers)
  {
    ReplaceKeepsSide(store, Bid, bids, id, size);
    ReplaceKeepsSide(store, Offer, offers, id, size);
  }

  // ---------------------------------------------------------------------
  // What the invariant gives

  /** One side's listing holds exactly the stored ids of that side. */
  lemma {:induction false} SideIdsStored(store: map<int, Order>, side: Side, levels: seq<Level>)
    requires Ordered(side, levels) && SideConsistent(store, side, levels)
    ensures forall id :: id in Ids(levels) <==> id in store && store[id].side == GetOrderSide(side)
  {
    forall id | id in store && store[id].side == GetOrderSide(side) ensures id in Ids(levels) {
      IdsAtInIds(levels, store[id].price, id);
    }
    forall id | id in Ids(levels) ensures id in store && store[id].side == GetOrderSide(side) {
      var p := IdsInSomeLevel(side, levels, id);
    }
  }

  /** The stored ids are exactly the ids filed on the two sides. */
  lemma {:induction false} StoreIsUnion(store: map<int, Order>, bids: seq<Level>, offers: seq<Level>)
    requires BookInvariant(store, bids, offers)
    ensures forall id :: id in store <==> id in Ids(bids) || id in Ids(offers)
  {
    SideIdsStored(store, Bid, bids);
    SideIdsStored(store, Offer, offers);
    forall id | id in store ensures id in Ids(bids) || id in Ids(offers) {
      assert Resting(store[id], id);
    }
  }

  /** An id filed anywhere is filed under its own side and price: nowhere else. */
  lemma {:induction false} FiledOnce(store: map<int, Order>, bids: seq<Level>, offers: seq<Level>, id: int, c: char, p: real)
    requires BookInvariant(store, bids, offers)
    requires IsSide(c) && id in IdsAt(Lookup(c, bids, offers), p)
    ensures id in store && store[id].side == c && store[id].price == p
  {
    LookupValid(store, bids, offers, c);
  }

  /** The head level of a well-formed, filed lookup, and what its tail keeps. */
  lemma {:induction false} TailFiled(store: map<int, Order>, side: Side, levels: seq<Level>)
    requires WellFormed(side, levels) && FiledInStore(store, side, levels) && levels != []
    ensures WellFormed(side, levels[1..]) && FiledInStore(store, side, levels[1..])
    ensures IdsAt(levels, levels[0].price) == levels[0].ids && NoDup(levels[0].ids)
    ensures forall x | x in levels[0].ids :: x in store && store[x].price == levels[0].price
    ensures forall x | x in Ids(levels[1..]) :: x in store && Better(side, levels[0].price, store[x].price)
  {
    var l, rest := levels[0], levels[1..];
    assert l.price !in Prices(rest);
    AbsentPriceIsEmpty(rest, l.price);
    assert IdsAt(levels, l.price) == l.ids;
    forall p | p in Prices(rest) ensures IdsAt(rest, p) != [] && NoDup(IdsAt(rest, p)) {
      assert p != l.price;
      assert IdsAt(levels, p) == IdsAt(rest, p);
    }
    forall p, x | x in IdsAt(rest, p)
      ensures x in store && store[x].side == GetOrderSide(side) && store[x].price == p
    {
      if p != l.price {
        assert IdsAt(levels, p) == IdsAt(rest, p);
      }
    }
    forall x | x in Ids(rest) ensures x in store && Better(side, l.price, store[x].price) {
      var q := IdsInSomeLevel(side, rest, x);
      assert IdsAt(levels, q) == IdsAt(rest, q);
    }
  }

  /** The ids of a well-formed, filed lookup are repeat-free. */
  lemma {:induction false} SideIdsNoDup(store: map<int, Order>, side: Side, levels: seq<Level>)
    requires WellFormed(side, levels) && FiledInStore(store, side, levels)
    ensures NoDup(Ids(levels))
    decreases |levels|
  {
    if levels != [] {
      TailFiled(store, side, levels);
      SideIdsNoDup(store, side, levels[1..]);
      NoDupConcat(levels[0].ids, Ids(levels[1..]));
    }
  }

  lemma {:induction false} NoDupConcat(a: seq<int>, b: seq<int>)
    requires NoDup(a) && NoDup(b)
    requires forall x | x in a :: x !in b
    ensures NoDup(a + b)
  {
    forall i, j | 0 <= i < j < |a + b| ensures (a + b)[i] != (a + b)[j] {
      if j < |a| {
      } else if i < |a| {
        assert (a + b)[i] in a && (a + b)[j] in b;
      } else {
        assert (a + b)[i] == b[i - |a|] && (a + b)[j] == b[j - |a|];
      }
    }
  }

  /** A repeat-free sequence has as many distinct elements as positions. */
  lemma {:induction false} NoDupCard(s: seq<int>)
    requires NoDup(s)
    ensures |set x | x in s| == |s|
    decreases |s|
  {
    if s != [] {
      assert NoDup(s[1..]);
      NoDupCard(s[1..]);
      assert (set x | x in s) == {s[0]} + (set x | x in s[1..]);
      assert s[0] !in s[1..];
    }
  }

  /** Both sides together hold every resting id exactly once. */
  lemma {:induction false} AllIdsUnique(store: map<int, Order>, bids: seq<Level>, offers: seq<Level>)
    requires BookInvariant(store, bids, offers)
    ensures NoDup(Ids(bids) + Ids(offers))
  {
    SideIdsNoDup(store, Bid, bids);
    SideIdsNoDup(store, Offer, offers);
    forall x | x in Ids(bids) ensures x in store && store[x].side == GetOrderSide(Bid) {
      var p := IdsInSomeLevel(Bid, bids, x);
    }
    forall x | x in Ids(offers) ensures x in store && store[x].side == GetOrderSide(Offer) {
      var p := IdsInSomeLevel(Offer, offers, x);
    }
    NoDupConcat(Ids(bids), Ids(offers));
  }

  // ---------------------------------------------------------------------
  // Sizes and listings read through the store

  /** Every position of `ids` holds a stored id (`orderBook.get(id)` is never null). */
  ghost predicate AllStored(store: map<int, Order>, ids: seq<int>)
  {
    forall k | 0 <= k < |ids| :: ids[k] in store
  }

  /** Every id the lookup lists, in any level, is stored. */
  lemma {:induction false} ListingStored(store: map<int, Order>, side: Side, levels: seq<Level>)
    requires Ordered(side, levels) && FiledInStore(store, side, levels)
    ensures AllStored(store, Ids(levels))
    ensures forall p :: AllStored(store, IdsAt(levels, p))
  {
    forall k | 0 <= k < |Ids(levels)| ensures Ids(levels)[k] in store {
      assert Ids(levels)[k] in Ids(levels);
      var q := IdsInSomeLevel(side, levels, Ids(levels)[k]);
    }
    forall p ensures AllStored(store, IdsAt(levels, p)) {
      forall k | 0 <= k < |IdsAt(levels, p)| ensures IdsAt(levels, p)[k] in store {
        FiledAt(store, side, levels, p, k);
      }
    }
  }

  /** The id at position `k` of a filed level is stored with that side and price. */
  lemma {:induction false} FiledAt(store: map<int, Order>, side: Side, levels: seq<Level>, p: real, k: int)
    requires FiledInStore(store, side, levels) && 0 <= k < |IdsAt(levels, p)|
    ensures var x := IdsAt(levels, p)[k]; x in store && store[x].side == GetOrderSide(side) && store[x].price == p
  {
    assert IdsAt(levels, p)[k] in IdsAt(levels, p);
  }

  /** Every order filed at a level has a positive size. */
  lemma {:induction false} LevelSizesPositive(store: map<int, Order>, bids: seq<Level>, offers: seq<Level>, c: char, p: real)
    requires BookInvariant(store, bids, offers) && IsSide(c)
    ensures var ids := IdsAt(Lookup(c, bids, offers), p);
            forall k | 0 <= k < |ids| :: ids[k] in store && store[ids[k]].size > 0
  {
    LookupValid(store, bids, offers, c);
    var ids := IdsAt(Lookup(c, bids, offers), p);
    forall k | 0 <= k < |ids| ensures ids[k] in store && store[ids[k]].size > 0 {
      FiledAt(store, SideOf(c), Lookup(c, bids, offers), p, k);
      assert Resting(store[ids[k]], ids[k]);
    }
  }

  /** Sum of the stored sizes of `ids` (`mapToLong(id -> orderBook.get(id).size()).sum()`). */
  function SumSizes(store: map<int, Order>, ids: seq<int>): (r: int)
    requires AllStored(store, ids)
    ensures (forall k | 0 <= k < |ids| :: store[ids[k]].size > 0) ==> r >= |ids|
    decreases |ids|
  {
    if ids == [] then 0 else store[ids[0]].size + SumSizes(store, ids[1..])
  }

  /** The stored records of `ids`, in the same order (`map(orderBook::get)`). */
  function OrdersOf(store: map<int, Order>, ids: seq<int>): (r: seq<Order>)
    requires AllStored(store, ids)
    ensures |r| == |ids|
    ensures forall k | 0 <= k < |ids| :: r[k] == store[ids[k]]
    decreases |ids|
  {
    if ids == [] then [] else [store[ids[0]]] + OrdersOf(store, ids[1..])
  }

  /** The orders of `os` at price `p`, in their order in `os`. */
  function AtPrice(os: seq<Order>, p: real): (r: seq<Order>)
    ensures forall o :: o in r <==> o in os && o.price == p
    decreases |os|
  {
    if os == [] then []
    else
      var rest := AtPrice(os[1..], p);
      assert os == [os[0]] + os[1..];
      if os[0].price == p then [os[0]] + rest else rest
  }

  /**
   * Amending one order's size changes the sum of any repeat-free group of
   * ids holding it by exactly the difference of the sizes, and any other
   * group not at all.
   */
  lemma {:induction false} SumAfterAmend(store: map<int, Order>, ids: seq<int>, id: int, size: int)
    requires AllStored(store, ids) && NoDup(ids) && id in store
    ensures var store' := store[id := Order(id, store[id].price, store[id].side, size)];
            SumSizes(store', ids) == SumSizes(store, ids) + (if id in ids then size - store[id].size else 0)
    decreases |ids|
  {
    if ids != [] {
      assert NoDup(ids[1..]);
      assert ids[0] == id ==> id !in ids[1..];
      SumAfterAmend(store, ids[1..], id, size);
    }
  }

  lemma {:induction false} OrdersOfConcat(store: map<int, Order>, a: seq<int>, b: seq<int>)
    requires AllStored(store, a) && AllStored(store, b)
    ensures AllStored(store, a + b)
    ensures OrdersOf(store, a + b) == OrdersOf(store, a) + OrdersOf(store, b)
  {
    assert forall k | 0 <= k < |a + b| :: (a + b)[k] == if k < |a| then a[k] else b[k - |a|];
  }

  lemma {:induction false} AtPriceConcat(a: seq<Order>, b: seq<Order>, p: real)
    ensures AtPrice(a + b, p) == AtPrice(a, p) + AtPrice(b, p)
    decreases |a|
  {
    if a != [] {
      assert (a + b)[1..] == a[1..] + b;
      AtPriceConcat(a[1..], b, p);
    } else {
      assert a + b == b;
    }
  }

  lemma {:induction false} AtPriceAll(os: seq<Order>, p: real)
    requires forall k | 0 <= k < |os| :: os[k].price == p
    ensures AtPrice(os, p) == os
    decreases |os|
  {
    if os != [] {
      AtPriceAll(os[1..], p);
      assert [os[0]] + os[1..] == os;
    }
  }

  lemma {:induction false} AtPriceNone(os: seq<Order>, p: real)
    requires forall k | 0 <= k < |os| :: os[k].price != p
    ensures AtPrice(os, p) == []
    decreases |os|
  {
    if os != [] {
      AtPriceNone(os[1..], p);
    }
  }

  /** The listing of a lookup runs best level to worst level. */
  lemma {:induction false} ListingBestToWorst(store: map<int, Order>, side: Side, levels: seq<Level>, i: nat, j: nat)
    requires WellFormed(side, levels) && FiledInStore(store, side, levels)
    requires i < j < |Ids(levels)|
    ensures Ids(levels)[i] in store && Ids(levels)[j] in store
    ensures var pi, pj := store[Ids(levels)[i]].price, store[Ids(levels)[j]].price;
            pi == pj || Better(side, pi, pj)
    decreases |levels|
  {
    var l, rest := levels[0], levels[1..];
    TailFiled(store, side, levels);
    var ids := Ids(levels);
    assert ids == l.ids + Ids(rest);
    if j < |l.ids| {
      assert ids[i] == l.ids[i] && ids[j] == l.ids[j];
      assert ids[i] in l.ids && ids[j] in l.ids;
    } else if i < |l.ids| {
      assert ids[i] == l.ids[i] && ids[i] in l.ids;
      assert ids[j] == Ids(rest)[j - |l.ids|];
      assert ids[j] in Ids(rest);
    } else {
      assert ids[i] == Ids(rest)[i - |l.ids|] && ids[j] == Ids(rest)[j - |l.ids|];
      ListingBestToWorst(store, side, rest, i - |l.ids|, j - |l.ids|);
    }
  }

  /** Within one price the listing keeps that level's arrival order. */
  lemma {:induction false} ListingFifo(store: map<int, Order>, side: Side, levels: seq<Level>, p: real)
    requires WellFormed(side, levels) && FiledInStore(store, side, levels)
    ensures AllStored(store, Ids(levels)) && AllStored(store, IdsAt(levels, p))
    ensures AtPrice(OrdersOf(store, Ids(levels)), p) == OrdersOf(store, IdsAt(levels, p))
    decreases |levels|
  {
    ListingStored(store, side, levels);
    if levels != [] {
      var l, rest := levels[0], levels[1..];
      TailFiled(store, side, levels);
      ListingFifo(store, side, rest, p);
      ListingStored(store, side, rest);
      ListingStored(store, side, [l]);
      assert Ids([l]) == l.ids;
      OrdersOfConcat(store, l.ids, Ids(rest));
      var head, tail := OrdersOf(store, l.ids), OrdersOf(store, Ids(rest));
      AtPriceConcat(head, tail, p);
      forall k | 0 <= k < |head| ensures head[k].price == l.price {
        assert l.ids[k] in l.ids;
      }
      forall k | 0 <= k < |tail| ensures Better(side, l.price, tail[k].price) {
        assert Ids(rest)[k] in Ids(rest);
      }
      if l.price == p {
        AtPriceAll(head, p);
        AtPriceNone(tail, p);
      } else {
        AtPriceNone(head, p);
      }
    }
  }

  /** The records of a listing are stored under their own ids. */
  lemma {:induction false} ListingStoredOrders(store: map<int, Order>, levels: seq<Level>, os: seq<Order>)
    requires AllStored(store, Ids(levels)) && os == OrdersOf(store, Ids(levels))
    requires forall id | id in store :: store[id].id == id
    ensures forall k | 0 <= k < |os| :: os[k].id in store && store[os[k].id] == os[k]
  {
    forall k | 0 <= k < |os| ensures os[k].id in store && store[os[k].id] == os[k] {
      var x := Ids(levels)[k];
      assert x in store && os[k] == store[x];
      assert store[x].id == x;
    }
  }

  /** The listing of one side holds every stored order of that side, and only those. */
  lemma {:induction false} ListingHoldsSide(store: map<int, Order>, bids: seq<Level>, offers: seq<Level>, c: char)
    requires BookInvariant(store, bids, offers) && IsSide(c)
    ensures var levels := Lookup(c, bids, offers);
            AllStored(store, Ids(levels)) &&
            var os := OrdersOf(store, Ids(levels));
            (forall k | 0 <= k < |os| :: os[k].side == c) &&
            (forall id | id in store && store[id].side == c :: store[id] in os) &&
            |os| == |set id | id in store && store[id].side == c|
  {
    var levels := Lookup(c, bids, offers);
    LookupValid(store, bids, offers, c);
    ListingStored(store, SideOf(c), levels);
    ListingComplete(store, bids, offers, c);
    var os := OrdersOf(store, Ids(levels));
    forall k | 0 <= k < |os| ensures os[k].side == c {
      var x := Ids(levels)[k];
      assert x in Ids(levels) && os[k] == store[x];
    }
    forall id | id in store && store[id].side == c ensures store[id] in os {
      var k :| 0 <= k < |Ids(levels)| && Ids(levels)[k] == id;
      assert os[k] == store[id];
    }
  }

  /** The listing of a lookup, read as records, runs best price to worst. */
  lemma {:induction false} ListingOrderedByPrice(store: map<int, Order>, side: Side, levels: seq<Level>)
    requires WellFormed(side, levels) && FiledInStore(store, side, levels)
    ensures AllStored(store, Ids(levels))
    ensures var os := OrdersOf(store, Ids(levels));
            forall i, j | 0 <= i < j < |os| :: os[i].price == os[j].price || Better(side, os[i].price, os[j].price)
  {
    ListingStored(store, side, levels);
    var os := OrdersOf(store, Ids(levels));
    forall i, j | 0 <= i < j < |os| ensures os[i].price == os[j].price || Better(side, os[i].price, os[j].price) {
      ListingBestToWorst(store, side, levels, i, j);
    }
  }

  /** At every price, the listing keeps the level's arrival order. */
  lemma {:induction false} ListingFifoAll(store: map<int, Order>, side: Side, levels: seq<Level>)
    requires WellFormed(side, levels) && FiledInStore(store, side, levels)
    ensures AllStored(store, Ids(levels))
    ensures forall p :: AllStored(store, IdsAt(levels, p)) &&
                        AtPrice(OrdersOf(store, Ids(levels)), p) == OrdersOf(store, IdsAt(levels, p))
  {
    ListingStored(store, side, levels);
    forall p ensures AtPrice(OrdersOf(store, Ids(levels)), p) == OrdersOf(store, IdsAt(levels, p)) {
      ListingFifo(store, side, levels, p);
    }
  }

  /** The listing of a side holds exactly the stored orders of that side, each once. */
  lemma {:induction false} ListingComplete(store: map<int, Order>, bids: seq<Level>, offers: seq<Level>, c: char)
    requires BookInvariant(store, bids, offers) && IsSide(c)
    ensures forall id :: id in Ids(Lookup(c, bids, offers)) <==> id in store && store[id].side == c
    ensures |Ids(Lookup(c, bids, offers))| == |set id | id in store && store[id].side == c|
  {
    var levels := Lookup(c, bids, offers);
    LookupValid(store, bids, offers, c);
    forall id | id in Ids(levels) ensures id in store && store[id].side == c {
      var q := IdsInSomeLevel(SideOf(c), levels, id);
    }
    forall id | id in store && store[id].side == c ensures id in Ids(levels) {
      IdsAtInIds(levels, store[id].price, id);
    }
    SideIdsNoDup(store, SideOf(c), levels);
    NoDupCard(Ids(levels));
    assert (set id | id in Ids(levels)) == (set id | id in store && store[id].side == c);
  }

  // ---------------------------------------------------------------------
  // The book

  class OrderBook {
    /** The canonical store, id to order. */
    var orderBook: map<int, Order>
    /** Bid lookup, highest price first. */
    var bidsLookup: seq<Level>
    /** Offer lookup, lowest price first. */
    var offersLookup: seq<Level>

    ghost predicate Valid()
      reads this
    {
      BookInvariant(orderBook, bidsLookup, offersLookup)
    }

    constructor ()
      ensures Valid()
      ensures orderBook == map[] && bidsLookup == [] && offersLookup == []
    {
      orderBook, bidsLookup, offersLookup := map[], [], [];
    }

    /** The lookup a side character selects. */
    function LevelsOf(side: char): seq<Level>
      reads this
    {
      Lookup(side, bidsLookup, offersLookup)
    }

    /**
     * `addOrder`: validates, then stores the order and appends its id to the
     * level at its side and price, creating the level when absent.
     */
    method AddOrder(order: Option<Order>) returns (r: Outcome)
      requires Valid()
      modifies this
      ensures Valid()
      ensures r == OutcomeOf(ValidateOrder(old(orderBook), order))
      ensures r.Failed? ==> unchanged(this)
      ensures r.Done? ==> orderBook == old(orderBook)[order.value.id := order.value]
      ensures r.Done? ==>
                var o := order.value;
                if o.side == GetOrderSide(Bid)
                then bidsLookup == AddId(Bid, old(bidsLookup), o.price, o.id) && offersLookup == old(offersLookup)
                else offersLookup == AddId(Offer, old(offersLookup), o.price, o.id) && bidsLookup == old(bidsLookup)
      ensures r.Done? ==>
                var o := order.value;
                IdsAt(LevelsOf(o.side), o.price) == old(IdsAt(LevelsOf(o.side), o.price)) + [o.id] &&
                Prices(LevelsOf(o.side)) == old(Prices(LevelsOf(o.side))) + {o.price} &&
                forall q | q != o.price :: IdsAt(LevelsOf(o.side), q) == old(IdsAt(LevelsOf(o.side), q))
    {
      var check := ValidateOrder(orderBook, order);
      r := OutcomeOf(check);
      if check.Some? {
        return;
      }
      var o := order.value;
      AddKeepsInvariant(orderBook, bidsLookup, offersLookup, o);
      var side, levels := SideOf(o.side), LevelsOf(o.side);
      assert o.id !in IdsAt(levels, o.price);
      AddIdLevels(side, levels, o.price, o.id);
      if o.side == GetOrderSide(Bid) {
        bidsLookup := AddId(Bid, bidsLookup, o.price, o.id);
      } else {
        offersLookup := AddId(Offer, offersLookup, o.price, o.id);
      }
      orderBook := orderBook[o.id := o];
      assert LevelsOf(o.side) == AddId(side, levels, o.price, o.id);
    }

    /**
     * `removeOrderById`: deletes the order and its id from its level, and
     * drops the level once it is empty.
     */
    method RemoveOrderById(id: int) returns (r: Outcome)
      requires Valid()
      modifies this
      ensures Valid()
      ensures r == OutcomeOf(ValidateOrderId(old(orderBook), id))
      ensures r.Failed? ==> unchanged(this)
      ensures r.Done? ==> orderBook == old(orderBook) - {id}
      ensures r.Done? ==>
                var o := old(orderBook)[id];
                if o.side == GetOrderSide(Bid)
                then bidsLookup == RemoveId(old(bidsLookup), o.price, id) && offersLookup == old(offersLookup)
                else offersLookup == RemoveId(old(offersLookup), o.price, id) && bidsLookup == old(bidsLookup)
      ensures r.Done? ==>
                var o := old(orderBook)[id];
                IdsAt(LevelsOf(o.side), o.price) == Without(old(IdsAt(LevelsOf(o.side), o.price)), id) &&
                Prices(LevelsOf(o.side)) ==
                  (if IdsAt(LevelsOf(o.side), o.price) == [] then old(Prices(LevelsOf(o.side))) - {o.price}
                   else old(Prices(LevelsOf(o.side)))) &&
                forall q | q != o.price :: IdsAt(LevelsOf(o.side), q) == old(IdsAt(LevelsOf(o.side), q))
      ensures r.Done? ==> id !in Ids(bidsLookup) && id !in Ids(offersLookup)
    {
      var check := ValidateOrderId(orderBook, id);
      r := OutcomeOf(check);
      if check.Some? {
        return;
      }
      var o := orderBook[id];
      RemoveKeepsInvariant(orderBook, bidsLookup, offersLookup, id);
      if o.side == GetOrderSide(Bid) {
        RemoveIdLevels(Bid, bidsLookup, o.price, id);
        bidsLookup := RemoveId(bidsLookup, o.price, id);
      } else {
        RemoveIdLevels(Offer, offersLookup, o.price, id);
        offersLookup := RemoveId(offersLookup, o.price, id);
      }
      orderBook := orderBook - {id};
      StoreIsUnion(orderBook, bidsLookup, offersLookup);
    }

    /**
     * `updateOrderSizeById`: replaces the stored order by one with the new
     * size and the same id, price and side; the lookups, and so the time
     * priority, are untouched.
     */
    method UpdateOrderSizeById(id: int, size: int) returns (r: Outcome)
      requires Valid()
      modifies this
      ensures Valid()
      ensures r == OutcomeOf(ValidateOrderIdAndSize(old(orderBook), id, size))
      ensures r.Failed? ==> unchanged(this)
      ensures r.Done? ==>
                orderBook == old(orderBook)[id := Order(id, old(orderBook)[id].price, old(orderBook)[id].side, size)]
      ensures bidsLookup == old(bidsLookup) && offersLookup == old(offersLookup)
    {
      var check := ValidateOrderIdAndSize(orderBook, id, size);
      r := OutcomeOf(check);
      if check.Some? {
        return;
      }
      var o := orderBook[id];
      UpdateKeepsInvariant(orderBook, bidsLookup, offersLookup, id, size);
      orderBook := orderBook[id := Order(o.id, o.price, o.side, size)];
    }

    /**
     * `getPriceOfLevelBySide`: the price of the `level`-th level of a side,
     * counting from 1, best price first.
     */
    function GetPriceOfLevelBySide(level: int, side: char): (r: Result<real>)
      reads this
      requires Valid()
      ensures r.Ok? <==> level > 0 && IsSide(side) && level <= |Prices(LevelsOf(side))|
      ensures ValidateLevelAndSide(level, side).Some? ==> r == Err(ValidateLevelAndSide(level, side).value)
      ensures ValidateLevelAndSide(level, side).None? && r.Err? ==> r.error == LevelOutOfRange(level)
      ensures r.Ok? ==> r.value in Prices(LevelsOf(side)) && IdsAt(LevelsOf(side), r.value) != []
      ensures r.Ok? ==> BetterCount(SideOf(side), LevelsOf(side), r.value) == level - 1
    {
      match ValidateLevelAndSide(level, side)
      case Some(e) => Err(e)
      case None =>
        var levels := LevelsOf(side);
        LookupValid(orderBook, bidsLookup, offersLookup, side);
        LevelCount(SideOf(side), levels);
        if level - 1 < |levels| then
          PriceIn(levels, level - 1);
          BetterCountAt(SideOf(side), levels, level - 1);
          Ok(levels[level - 1].price)
        else
          Err(LevelOutOfRange(level))
    }

    /**
     * `getTotalSizeByLevelAndSide`: the sum of the current stored sizes of
     * the orders at the `level`-th price of a side. A level past the last
     * one sums an empty stream: the result is 0, not an error.
     */
    function GetTotalSizeByLevelAndSide(level: int, side: char): (r: Result<int>)
      reads this
      requires Valid()
      ensures r.Err? <==> ValidateLevelAndSide(level, side).Some?
      ensures r.Err? ==> r == Err(ValidateLevelAndSide(level, side).value)
      ensures r.Ok? && level <= |Prices(LevelsOf(side))| ==>
                var price := GetPriceOfLevelBySide(level, side);
                price.Ok? &&
                AllStored(orderBook, IdsAt(LevelsOf(side), price.value)) &&
                r.value == SumSizes(orderBook, IdsAt(LevelsOf(side), price.value)) &&
                r.value >= |IdsAt(LevelsOf(side), price.value)| > 0
      ensures r.Ok? && level > |Prices(LevelsOf(side))| ==> r.value == 0
    {
      match ValidateLevelAndSide(level, side)
      case Some(e) => Err(e)
      case None =>
        var levels := LevelsOf(side);
        LookupValid(orderBook, bidsLookup, offersLookup, side);
        LevelCount(SideOf(side), levels);
        if level - 1 < |levels| then
          PriceIn(levels, level - 1);
          IdsAtIndex(SideOf(side), levels, level - 1);
          LevelSizesPositive(orderBook, bidsLookup, offersLookup, side, levels[level - 1].price);
          Ok(SumSizes(orderBook, levels[level - 1].ids))
        else
          Ok(0)
    }

    /**
     * As written, a level past the last one of its side passes validation
     * and sums an empty stream: the total is 0, where the price query for
     * the same level reports it out of range.
     */
    lemma TotalSizePastLastLevel(level: int, side: char)
      requires Valid() && ValidateLevelAndSide(level, side).None? && level > |Prices(LevelsOf(side))|
      ensures GetTotalSizeByLevelAndSide(level, side) == Ok(0)
      ensures GetPriceOfLevelBySide(level, side) == Err(LevelOutOfRange(level))
    {
    }

    /**
     * The total size with the range check the price query applies: a level
     * past the last one is reported out of range, and a level in range sums
     * the current sizes of the orders resting at its price.
     */
    function TotalSizeOfLevel(level: int, side: char): (r: Result<int>)
      reads this
      requires Valid()
      ensures r.Err? <==> GetPriceOfLevelBySide(level, side).Err?
      ensures r.Err? ==> r.error == GetPriceOfLevelBySide(level, side).error
      ensures r.Ok? ==>
                var price := GetPriceOfLevelBySide(level, side).value;
                AllStored(orderBook, IdsAt(LevelsOf(side), price)) &&
                r.value == SumSizes(orderBook, IdsAt(LevelsOf(side), price)) &&
                r.value >= |IdsAt(LevelsOf(side), price)| > 0
    {
      match GetPriceOfLevelBySide(level, side)
      case Err(e) => Err(e)
      case Ok(_) => GetTotalSizeByLevelAndSide(level, side)
    }

    /**
     * `getAllOrdersBySide`: the stored orders of a side, best level first
     * and in arrival order within each level.
     */
    function GetAllOrdersBySide(side: char): (r: Result<seq<Order>>)
      reads this
      requires Valid()
      ensures r.Err? <==> !IsSide(side)
      ensures r.Err? ==> r.error == UnsupportedSide(side)
      ensures r.Ok? ==> |r.value| == |set id | id in orderBook && orderBook[id].side == side|
      ensures r.Ok? ==> forall k | 0 <= k < |r.value| ::
                          r.value[k].id in orderBook && orderBook[r.value[k].id] == r.value[k] && r.value[k].side == side
      ensures r.Ok? ==> forall id | id in orderBook && orderBook[id].side == side :: orderBook[id] in r.value
      ensures r.Ok? ==> forall i, j | 0 <= i < j < |r.value| ::
                          r.value[i].price == r.value[j].price || Better(SideOf(side), r.value[i].price, r.value[j].price)
      ensures r.Ok? ==> forall p ::
                          AllStored(orderBook, IdsAt(LevelsOf(side), p)) &&
                          AtPrice(r.value, p) == OrdersOf(orderBook, IdsAt(LevelsOf(side), p))
    {
      match ValidateSide(side)
      case Some(e) => Err(e)
      case None =>
        var levels := LevelsOf(side);
        LookupValid(orderBook, bidsLookup, offersLookup, side);
        ListingStored(orderBook, SideOf(side), levels);
        var os := OrdersOf(orderBook, Ids(levels));
        ListingStoredOrders(orderBook, levels, os);
        ListingHoldsSide(orderBook, bidsLookup, offersLookup, side);
        ListingOrderedByPrice(orderBook, SideOf(side), levels);
        ListingFifoAll(orderBook, SideOf(side), levels);
        Ok(os)
    }

    /** `getOrderBook`: the store, whose ids are exactly those filed on the two sides. */
    function GetOrderBook(): (r: map<int, Order>)
      reads this
      requires Valid()
      ensures r == orderBook
      ensures forall id :: id in r <==> id in Ids(bidsLookup) || id in Ids(offersLookup)
      ensures forall id | id in r :: r[id].id == id
    {
      StoreIsUnion(orderBook, bidsLookup, offersLookup);
      orderBook
    }

    /** `getBidsLookup`: the bid side as a map, one non-empty level per key. */
    function GetBidsLookup(): (r: map<real, seq<int>>)
      reads this
      requires Valid()
      ensures r.Keys == Prices(bidsLookup) && |r| == |bidsLookup|
      ensures forall p | p in r :: r[p] == IdsAt(bidsLookup, p) && r[p] != []
    {
      LevelCount(Bid, bidsLookup);
      AsMap(bidsLookup)
    }

    /** `getOffersLookup`: the offer side as a map, one non-empty level per key. */
    function GetOffersLookup(): (r: map<real, seq<int>>)
      reads this
      requires Valid()
      ensures r.Keys == Prices(offersLookup) && |r| == |offersLookup|
      ensures forall p | p in r :: r[p] == IdsAt(offersLookup, p) && r[p] != []
    {
      LevelCount(Offer, offersLookup);
      AsMap(offersLookup)
    }
  }
}
