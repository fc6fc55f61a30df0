/**
 * Small concrete books, replaying what the repository's unit tests do and
 * showing the one place where the code and its test disagree.
 */
module Scenarios {
  import opened OrderSides
  import opened PriceLevels
  import opened Book

  /**
   * One offer resting at one price: level 2 of the offer side is out of
   * range for the price query, yet the size query as written returns 0.
   * The corrected query reports the level out of range.
   */
  method TotalSizePastLastOffer()
  {
    var book := new OrderBook();
    var r := book.AddOrder(Some(Order(6, 98.0, 'O', 11)));
    assert r == Done;
    assert book.offersLookup == [Level(98.0, [6])];
    var total := book.GetTotalSizeByLevelAndSide(1, 'O');
    assert total == Ok(11);
    var past := book.GetTotalSizeByLevelAndSide(2, 'O');
    assert past == Ok(0);
    var price := book.GetPriceOfLevelBySide(2, 'O');
    assert price == Err(LevelOutOfRange(2));
    var checked := book.TotalSizeOfLevel(2, 'O');
    assert checked == Err(LevelOutOfRange(2));
  }

  /** Three bids at three prices, added worst-first in the middle. */
  method ThreeBids() returns (book: OrderBook)
    ensures fresh(book) && book.Valid()
    ensures book.bidsLookup == [Level(27.8, [3]), Level(22.3, [1]), Level(12.5, [2])]
  {
    book := new OrderBook();
    var r1 := book.AddOrder(Some(Order(1, 22.3, 'B', 10)));
    assert r1 == Done && book.bidsLookup == [Level(22.3, [1])];
    var r2 := book.AddOrder(Some(Order(2, 12.5, 'B', 20)));
    assert r2 == Done && book.bidsLookup == [Level(22.3, [1]), Level(12.5, [2])];
    assert AddId(Bid, book.bidsLookup, 27.8, 3) == [Level(27.8, [3]), Level(22.3, [1]), Level(12.5, [2])];
    var r3 := book.AddOrder(Some(Order(3, 27.8, 'B', 30)));
    assert r3 == Done;
  }

  /** Bid levels run from the highest price down. */
  method BidLevelsBestFirst()
  {
    var book := ThreeBids();
    var p1 := book.GetPriceOfLevelBySide(1, 'B');
    assert p1 == Ok(27.8);
    var p3 := book.GetPriceOfLevelBySide(3, 'B');
    assert p3 == Ok(12.5);
    var p4 := book.GetPriceOfLevelBySide(4, 'B');
    assert p4 == Err(LevelOutOfRange(4));
  }

  /** Two bids at one price, in arrival order; a repeated id is refused. */
  method TwoBidsAtOnePrice() returns (book: OrderBook)
    ensures fresh(book) && book.Valid()
    ensures book.bidsLookup == [Level(27.8, [3, 4])]
    ensures book.orderBook == map[3 := Order(3, 27.8, 'B', 30), 4 := Order(4, 27.8, 'B', 40)]
  {
    book := new OrderBook();
    var r1 := book.AddOrder(Some(Order(3, 27.8, 'B', 30)));
    assert r1 == Done && book.bidsLookup == [Level(27.8, [3])];
    assert Append([3], 4) == [3, 4];
    var r2 := book.AddOrder(Some(Order(4, 27.8, 'B', 40)));
    assert r2 == Done;
    var again := book.AddOrder(Some(Order(4, 27.8, 'B', 40)));
    assert again == Failed(AlreadyExists(4));
  }

  /** Amending a size keeps the order's place in its level and changes the level's total. */
  method AmendKeepsPlace()
  {
    var book := TwoBidsAtOnePrice();
    var u := book.UpdateOrderSizeById(3, 5);
    assert u == Done && book.bidsLookup == [Level(27.8, [3, 4])];
    assert book.orderBook == map[3 := Order(3, 27.8, 'B', 5), 4 := Order(4, 27.8, 'B', 40)];
    assert Prices(book.bidsLookup) == {27.8} && IdsAt(book.bidsLookup, 27.8) == [3, 4];
    assert SumSizes(book.orderBook, [3, 4]) == 45;
    var t1 := book.GetTotalSizeByLevelAndSide(1, 'B');
    assert t1 == Ok(45);
  }

  /** A missing id is reported before a bad size, and a rejected amendment changes nothing. */
  method AmendRejected()
  {
    var book := TwoBidsAtOnePrice();
    var missing := book.UpdateOrderSizeById(9, 0);
    assert missing == Failed(DoesNotExist(9));
    var bad := book.UpdateOrderSizeById(4, 0);
    assert bad == Failed(NonPositiveSize(0));
    assert book.orderBook[4].size == 40;
  }

  /** Two offers at different prices, the cheaper one first. */
  method TwoOffers() returns (book: OrderBook)
    ensures fresh(book) && book.Valid()
    ensures book.offersLookup == [Level(97.5, [1]), Level(98.0, [2])]
    ensures book.orderBook == map[1 := Order(1, 97.5, 'O', 17), 2 := Order(2, 98.0, 'O', 11)]
  {
    book := new OrderBook();
    var r1 := book.AddOrder(Some(Order(1, 97.5, 'O', 17)));
    assert r1 == Done && book.offersLookup == [Level(97.5, [1])];
    var r2 := book.AddOrder(Some(Order(2, 98.0, 'O', 11)));
    assert r2 == Done;
  }

  /** Removing the last order of a level drops the level; removing it again is refused. */
  method RemoveDropsEmptyLevel()
  {
    var book := TwoOffers();
    var gone := book.RemoveOrderById(1);
    assert gone == Done && book.offersLookup == [Level(98.0, [2])];
    var p1 := book.GetPriceOfLevelBySide(1, 'O');
    assert p1 == Ok(98.0);
    var missing := book.RemoveOrderById(1);
    assert missing == Failed(DoesNotExist(1));
  }
}
