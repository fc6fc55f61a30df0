/**
 * One side lookup of the book: a map from price to the insertion-ordered
 * set of order ids resting at that price, iterated best price first
 * (a `ConcurrentSkipListMap<Double, LinkedHashSet<Long>>`, with the reverse
 * comparator for bids and the natural one for offers).
 *
 * The ordered map is represented by its entries in iteration order, a
 * sequence of levels strictly ordered best to worst; the same definitions
 * serve both sides, parameterised by the direction of `Better`.
 */
module PriceLevels {
  import opened OrderSides

  /** One entry of a side lookup: a price and the ids resting there, oldest first. */
  datatype Level = Level(price: real, ids: seq<int>)

  /**
   * `p` comes before `q` on `side`: the bid lookup's `Comparator.reverseOrder()`
   * puts higher prices first, the offer lookup's natural order lower prices.
   */
  predicate Better(side: Side, p: real, q: real): (b: bool)
    ensures side == Bid ==> (b <==> q < p)
    ensures side == Offer ==> (b <==> p < q)
  {
    match side
    case Bid => p > q
    case Offer => p < q
  }

  /** Either side's order is strict and total: of two distinct prices exactly one comes first. */
  lemma BetterStrictTotal(side: Side, p: real, q: real)
    ensures !Better(side, p, p)
    ensures p != q ==> (Better(side, p, q) <==> !Better(side, q, p))
  {
  }

  /** The keys of the lookup (`keySet()`). */
  function Prices(levels: seq<Level>): set<real>
    decreases |levels|
  {
    if levels == [] then {} else {levels[0].price} + Prices(levels[1..])
  }

  /** Iteration order of the lookup: every entry beats every later one. */
  ghost predicate Ordered(side: Side, levels: seq<Level>)
    decreases |levels|
  {
    levels == [] ||
    ((forall q | q in Prices(levels[1..]) :: Better(side, levels[0].price, q)) && Ordered(side, levels[1..]))
  }

  predicate NoDup(s: seq<int>)
  {
    forall i, j | 0 <= i < j < |s| :: s[i] != s[j]
  }

  /** `lookup.get(p)`, reading an absent key as the empty level. */
  function IdsAt(levels: seq<Level>, p: real): seq<int>
    decreases |levels|
  {
    if levels == [] then []
    else if levels[0].price == p then levels[0].ids
    else IdsAt(levels[1..], p)
  }

  /**
   * All ids of the lookup, level by level in iteration order
   * (`values().stream().flatMap`): exactly the ids of its entries.
   */
  function Ids(levels: seq<Level>): (r: seq<int>)
    ensures forall i, x | 0 <= i < |levels| && x in levels[i].ids :: x in r
    decreases |levels|
  {
    if levels == [] then []
    else
      var rest := Ids(levels[1..]);
      assert forall i | 1 <= i < |levels| :: levels[i] == levels[1..][i - 1];
      levels[0].ids + rest
  }

  /** A well-formed lookup: ordered, and every level non-empty and without repeats. */
  ghost predicate WellFormed(side: Side, levels: seq<Level>)
  {
    Ordered(side, levels) &&
    forall p | p in Prices(levels) :: IdsAt(levels, p) != [] && NoDup(IdsAt(levels, p))
  }

  /** `LinkedHashSet.add`: appends an id that is not yet present, keeps the rest in place. */
  function Append(ids: seq<int>, id: int): (r: seq<int>)
    ensures forall x :: x in r <==> x in ids || x == id
    ensures |r| >= |ids| && r[..|ids|] == ids
    ensures id !in ids ==> r == ids + [id]
    ensures NoDup(ids) ==> NoDup(r)
  {
    if id in ids then ids else ids + [id]
  }

  /** `LinkedHashSet.remove`: drops `id`, keeping the others in their order. */
  function Without(ids: seq<int>, id: int): (r: seq<int>)
    ensures forall x :: x in r <==> x in ids && x != id
    ensures |r| <= |ids|
    ensures NoDup(ids) ==> NoDup(r)
    decreases |ids|
  {
    if ids == [] then []
    else
      var rest := Without(ids[1..], id);
      assert ids == [ids[0]] + ids[1..];
      assert NoDup(ids) ==> ids[0] !in ids[1..];
      if ids[0] == id then rest else [ids[0]] + rest
  }

  /** Removing an id that is absent changes nothing. */
  lemma {:induction false} WithoutAbsent(ids: seq<int>, id: int)
    requires id !in ids
    ensures Without(ids, id) == ids
    decreases |ids|
  {
    if ids != [] {
      WithoutAbsent(ids[1..], id);
      assert [ids[0]] + ids[1..] == ids;
    }
  }

  /**
   * Removing the id at position `i` of a repeat-free level closes the gap:
   * the remaining ids keep their relative (time-priority) order.
   */
  lemma {:induction false} WithoutSplice(ids: seq<int>, i: nat)
    requires NoDup(ids) && i < |ids|
    ensures Without(ids, ids[i]) == ids[..i] + ids[i + 1..]
    decreases |ids|
  {
    if i == 0 {
      assert ids[0] !in ids[1..];
      WithoutAbsent(ids[1..], ids[0]);
    } else {
      assert ids[1..][i - 1] == ids[i];
      assert NoDup(ids[1..]);
      WithoutSplice(ids[1..], i - 1);
      assert ids[0] != ids[i];
      assert [ids[0]] + (ids[1..][..i - 1] + ids[1..][i..]) == ids[..i] + ids[i + 1..];
    }
  }

  /** `computeIfAbsent(price, new LinkedHashSet).add(id)` on the ordered lookup. */
  function AddId(side: Side, levels: seq<Level>, price: real, id: int): (r: seq<Level>)
    ensures Prices(r) == Prices(levels) + {price}
    decreases |levels|
  {
    if levels == [] then [Level(price, [id])]
    else if levels[0].price == price then [Level(price, Append(levels[0].ids, id))] + levels[1..]
    else if Better(side, price, levels[0].price) then [Level(price, [id])] + levels
    else [levels[0]] + AddId(side, levels[1..], price, id)
  }

  /**
   * `computeIfAbsent(price, …).remove(id)`, then `lookup.remove(price)` once that
   * level is empty. An absent price is left absent (`computeIfAbsent`
   * creates an empty level that is removed again at once).
   */
  function RemoveId(levels: seq<Level>, price: real, id: int): (r: seq<Level>)
    ensures Prices(r) <= Prices(levels)
    decreases |levels|
  {
    if levels == [] then []
    else if levels[0].price == price then
      var rest := Without(levels[0].ids, id);
      if rest == [] then levels[1..] else [Level(price, rest)] + levels[1..]
    else [levels[0]] + RemoveId(levels[1..], price, id)
  }

  /** Number of levels whose price beats `p`. */
  function BetterCount(side: Side, levels: seq<Level>, p: real): nat
    decreases |levels|
  {
    if levels == [] then 0
    else (if Better(side, levels[0].price, p) then 1 else 0) + BetterCount(side, levels[1..], p)
  }

  /** The map view of the lookup: its keys are the prices, each mapped to its level. */
  function AsMap(levels: seq<Level>): (m: map<real, seq<int>>)
    ensures m.Keys == Prices(levels)
    ensures forall p | p in m :: m[p] == IdsAt(levels, p)
    decreases |levels|
  {
    if levels == [] then map[] else AsMap(levels[1..])[levels[0].price := levels[0].ids]
  }

  // ---------------------------------------------------------------------
  // Facts about the ordering

  /** Every key is the price of some entry. */
  lemma {:induction false} PriceHasEntry(levels: seq<Level>, p: real) returns (i: nat)
    requires p in Prices(levels)
    ensures i < |levels| && levels[i].price == p
    decreases |levels|
  {
    if levels[0].price == p {
      i := 0;
    } else {
      var j := PriceHasEntry(levels[1..], p);
      i := j + 1;
    }
  }

  /** `get` of an absent key is the empty level. */
  lemma {:induction false} AbsentPriceIsEmpty(levels: seq<Level>, p: real)
    requires p !in Prices(levels)
    ensures IdsAt(levels, p) == []
    decreases |levels|
  {
    if levels != [] {
      AbsentPriceIsEmpty(levels[1..], p);
    }
  }

  /** The price of every entry is a key. */
  lemma {:induction false} PriceIn(levels: seq<Level>, i: nat)
    requires i < |levels|
    ensures levels[i].price in Prices(levels)
    decreases |levels|
  {
    if i > 0 {
      PriceIn(levels[1..], i - 1);
    }
  }

  /** Prices are strictly ordered, so each key occurs once: one level per price. */
  lemma {:induction false} LevelCount(side: Side, levels: seq<Level>)
    requires Ordered(side, levels)
    ensures |Prices(levels)| == |levels|
    decreases |levels|
  {
    if levels != [] {
      LevelCount(side, levels[1..]);
      assert levels[0].price !in Prices(levels[1..]);
    }
  }

  /** The level at position `i` is the one the map view finds under its price. */
  lemma {:induction false} IdsAtIndex(side: Side, levels: seq<Level>, i: nat)
    requires Ordered(side, levels) && i < |levels|
    ensures IdsAt(levels, levels[i].price) == levels[i].ids
    decreases |levels|
  {
    if i > 0 {
      PriceIn(levels[1..], i - 1);
      assert levels[0].price != levels[i].price;
      IdsAtIndex(side, levels[1..], i - 1);
    }
  }

  lemma {:induction false} NoneBetter(side: Side, levels: seq<Level>, p: real)
    requires forall q | q in Prices(levels) :: !Better(side, q, p)
    ensures BetterCount(side, levels, p) == 0
    decreases |levels|
  {
    if levels != [] {
      NoneBetter(side, levels[1..], p);
    }
  }

  /**
   * Level numbering: the price at position `i` (level `i + 1`) is beaten by
   * exactly `i` prices of the lookup.
   */
  lemma {:induction false} BetterCountAt(side: Side, levels: seq<Level>, i: nat)
    requires i < |levels|
    ensures Ordered(side, levels) ==> BetterCount(side, levels, levels[i].price) == i
    decreases |levels|
  {
    if Ordered(side, levels) {
      if i == 0 {
        forall q | q in Prices(levels[1..]) ensures !Better(side, q, levels[0].price) {
        }
        NoneBetter(side, levels[1..], levels[0].price);
      } else {
        PriceIn(levels[1..], i - 1);
        BetterCountAt(side, levels[1..], i - 1);
      }
    }
  }

  /**
   * The ordered representation is canonical: two ordered lookups with the
   * same keys and the same level under every key are the same sequence.
   */
  lemma {:induction false} Canonical(side: Side, a: seq<Level>, b: seq<Level>)
    requires Ordered(side, a) && Ordered(side, b)
    requires Prices(a) == Prices(b)
    requires forall p :: IdsAt(a, p) == IdsAt(b, p)
    ensures a == b
    decreases |a|
  {
    if a != [] && b != [] {
      var pa, pb := a[0].price, b[0].price;
      assert pa == pb;
      assert a[0].ids == b[0].ids by {
        assert IdsAt(a, pa) == IdsAt(b, pa);
      }
      assert pa !in Prices(a[1..]) && pa !in Prices(b[1..]);
      assert Prices(a[1..]) == Prices(a) - {pa};
      assert Prices(b[1..]) == Prices(b) - {pa};
      forall p ensures IdsAt(a[1..], p) == IdsAt(b[1..], p) {
        if p == pa {
          AbsentPriceIsEmpty(a[1..], p);
          AbsentPriceIsEmpty(b[1..], p);
        } else {
          assert IdsAt(a, p) == IdsAt(b, p);
        }
      }
      Canonical(side, a[1..], b[1..]);
      assert a == [a[0]] + a[1..] && b == [b[0]] + b[1..];
    }
  }

  // ---------------------------------------------------------------------
  // Adding an id

  /** Adding keeps the lookup in iteration order. */
  lemma {:induction false} AddIdOrdered(side: Side, levels: seq<Level>, price: real, id: int)
    requires Ordered(side, levels)
    ensures Ordered(side, AddId(side, levels, price, id))
    decreases |levels|
  {
    var r := AddId(side, levels, price, id);
    if levels == [] {
      assert r[1..] == [];
    } else if levels[0].price == price {
      assert r[1..] == levels[1..];
    } else if Better(side, price, levels[0].price) {
      assert r[1..] == levels;
      forall q | q in Prices(levels) ensures Better(side, price, q) {
        if q != levels[0].price {
          assert q in Prices(levels[1..]);
        }
      }
    } else {
      AddIdOrdered(side, levels[1..], price, id);
      assert r[1..] == AddId(side, levels[1..], price, id);
      assert Better(side, levels[0].price, price);
    }
  }

  /**
   * Adding files `id` last at `price` (creating the level when absent) and
   * leaves every other level as it was.
   */
  lemma {:induction false} AddIdLevels(side: Side, levels: seq<Level>, price: real, id: int)
    requires Ordered(side, levels)
    ensures forall q :: IdsAt(AddId(side, levels, price, id), q) ==
                        if q == price then Append(IdsAt(levels, price), id) else IdsAt(levels, q)
    decreases |levels|
  {
    var r := AddId(side, levels, price, id);
    if levels == [] {
      assert r[1..] == [];
    } else if levels[0].price == price {
      assert r[1..] == levels[1..];
    } else if Better(side, price, levels[0].price) {
      assert r[1..] == levels;
      assert price !in Prices(levels[1..]);
      AbsentPriceIsEmpty(levels[1..], price);
    } else {
      AddIdLevels(side, levels[1..], price, id);
      assert r[1..] == AddId(side, levels[1..], price, id);
    }
  }

  lemma AddIdWellFormed(side: Side, levels: seq<Level>, price: real, id: int)
    requires WellFormed(side, levels)
    ensures WellFormed(side, AddId(side, levels, price, id))
  {
    AddIdOrdered(side, levels, price, id);
    AddIdLevels(side, levels, price, id);
    var r := AddId(side, levels, price, id);
    forall p | p in Prices(r) ensures IdsAt(r, p) != [] && NoDup(IdsAt(r, p)) {
      if p == price && price !in Prices(levels) {
        AbsentPriceIsEmpty(levels, price);
      }
    }
  }

  // ---------------------------------------------------------------------
  // Removing an id

  /** Removing keeps the lookup in iteration order. */
  lemma {:induction false} RemoveIdOrdered(side: Side, levels: seq<Level>, price: real, id: int)
    requires Ordered(side, levels)
    ensures Ordered(side, RemoveId(levels, price, id))
    decreases |levels|
  {
    var r := RemoveId(levels, price, id);
    if levels != [] {
      if levels[0].price == price {
        if Without(levels[0].ids, id) != [] {
          assert r[1..] == levels[1..];
        }
      } else {
        RemoveIdOrdered(side, levels[1..], price, id);
        assert r[1..] == RemoveId(levels[1..], price, id);
      }
    }
  }

  /**
   * Removing takes `id` out of the level at `price` only, and drops that
   * price from the keys exactly when its level becomes empty.
   */
  lemma {:induction false} RemoveIdLevels(side: Side, levels: seq<Level>, price: real, id: int)
    requires Ordered(side, levels)
    ensures forall q :: IdsAt(RemoveId(levels, price, id), q) ==
                        if q == price then Without(IdsAt(levels, price), id) else IdsAt(levels, q)
    ensures Prices(RemoveId(levels, price, id)) ==
            if Without(IdsAt(levels, price), id) == [] then Prices(levels) - {price} else Prices(levels)
    decreases |levels|
  {
    var r := RemoveId(levels, price, id);
    if levels != [] {
      if levels[0].price == price {
        assert price !in Prices(levels[1..]);
        AbsentPriceIsEmpty(levels[1..], price);
        if Without(levels[0].ids, id) != [] {
          assert r[1..] == levels[1..];
        }
      } else {
        RemoveIdLevels(side, levels[1..], price, id);
        assert r[1..] == RemoveId(levels[1..], price, id);
      }
    }
  }

  lemma RemoveIdWellFormed(side: Side, levels: seq<Level>, price: real, id: int)
    requires WellFormed(side, levels)
    ensures WellFormed(side, RemoveId(levels, price, id))
  {
    RemoveIdOrdered(side, levels, price, id);
    RemoveIdLevels(side, levels, price, id);
  }

  /** Removing the id just appended gives the level back. */
  lemma {:induction false} WithoutAppended(ids: seq<int>, id: int)
    requires id !in ids
    ensures Without(ids + [id], id) == ids
    decreases |ids|
  {
    if ids == [] {
      assert [] + [id] == [id];
    } else {
      assert (ids + [id])[1..] == ids[1..] + [id];
      WithoutAppended(ids[1..], id);
      assert [ids[0]] + ids[1..] == ids;
    }
  }

  /**
   * Adding a fresh id and then removing it restores the lookup exactly,
   * including a level created by the add and dropped again by the remove.
   */
  lemma AddThenRemove(side: Side, levels: seq<Level>, price: real, id: int)
    requires WellFormed(side, levels) && id !in IdsAt(levels, price)
    ensures RemoveId(AddId(side, levels, price, id), price, id) == levels
  {
    var added := AddId(side, levels, price, id);
    var back := RemoveId(added, price, id);
    AddIdOrdered(side, levels, price, id);
    AddIdLevels(side, levels, price, id);
    RemoveIdOrdered(side, added, price, id);
    RemoveIdLevels(side, added, price, id);
    WithoutAppended(IdsAt(levels, price), id);
    if price !in Prices(levels) {
      AbsentPriceIsEmpty(levels, price);
    }
    Canonical(side, back, levels);
  }

  // ---------------------------------------------------------------------
  // The flattened listing

  /** An id of any level is an id of the listing. */
  lemma {:induction false} IdsAtInIds(levels: seq<Level>, p: real, id: int)
    requires id in IdsAt(levels, p)
    ensures id in Ids(levels)
    decreases |levels|
  {
    if levels[0].price != p {
      IdsAtInIds(levels[1..], p, id);
    }
  }

  /** An id of the listing rests at one of the lookup's prices. */
  lemma {:induction false} IdsInSomeLevel(side: Side, levels: seq<Level>, id: int) returns (p: real)
    requires Ordered(side, levels) && id in Ids(levels)
    ensures p in Prices(levels) && id in IdsAt(levels, p)
    decreases |levels|
  {
    if id in levels[0].ids {
      p := levels[0].price;
    } else {
      p := IdsInSomeLevel(side, levels[1..], id);
      assert p != levels[0].price;
    }
  }
}
