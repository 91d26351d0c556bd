/**
 * Order total derivation: the total of an order is the sum of the prices of
 * its associated product set. Each product counts once, however many times
 * its id was requested.
 */
module Totals {
  import opened Entities
  import opened Ids

  /** Some element of a non-empty set. */
  ghost function Pick(s: set<int>): int
    requires s != {}
  {
    NonEmptyHasMember(s);
    var x :| x in s; x
  }

  /** The sum of the prices of the products whose ids are in `ids`. */
  ghost function SumPrices(ids: set<int>, catalog: map<int, Product>): Cents
    requires ids <= catalog.Keys
    decreases ids
  {
    if ids == {} then 0
    else
      var x := Pick(ids);
      catalog[x].price + SumPrices(ids - {x}, catalog)
  }

  /** The sum may be split at any member, not only at the one Pick chooses. */
  lemma {:induction false} SumPricesRemove(ids: set<int>, y: int, catalog: map<int, Product>)
    requires ids <= catalog.Keys && y in ids
    ensures SumPrices(ids, catalog) == catalog[y].price + SumPrices(ids - {y}, catalog)
    decreases ids
  {
    var x := Pick(ids);
    if x != y {
      SumPricesRemove(ids - {x}, y, catalog);
      SumPricesRemove(ids - {y}, x, catalog);
      assert ids - {x} - {y} == ids - {y} - {x};
    }
  }

  /** Adding a product that is not yet in the set adds its price. */
  lemma SumPricesAdd(ids: set<int>, y: int, catalog: map<int, Product>)
    requires ids <= catalog.Keys && y in catalog && y !in ids
    ensures SumPrices(ids + {y}, catalog) == SumPrices(ids, catalog) + catalog[y].price
  {
    SumPricesRemove(ids + {y}, y, catalog);
    assert ids + {y} - {y} == ids;
  }

  /** The sum reads only the prices of the products in the set. */
  lemma {:induction false} SumPricesFrame(ids: set<int>, c1: map<int, Product>, c2: map<int, Product>)
    requires ids <= c1.Keys && ids <= c2.Keys
    requires forall id :: id in ids ==> c1[id].price == c2[id].price
    ensures SumPrices(ids, c1) == SumPrices(ids, c2)
    decreases ids
  {
    if ids != {} {
      var x := Pick(ids);
      SumPricesFrame(ids - {x}, c1, c2);
    }
  }

  /** With positive prices the total is positive exactly when the set is non-empty. */
  lemma {:induction false} SumPricesPositive(ids: set<int>, catalog: map<int, Product>)
    requires ids <= catalog.Keys
    requires forall id :: id in catalog ==> catalog[id].price > 0
    ensures SumPrices(ids, catalog) >= 0
    ensures SumPrices(ids, catalog) > 0 <==> ids != {}
    decreases ids
  {
    if ids != {} {
      SumPricesPositive(ids - {Pick(ids)}, catalog);
    }
  }

  /** The product set an order gets from the requested id list. */
  function IdSet(ids: seq<int>): (r: set<int>)
    ensures forall x :: x in r <==> x in ids
  {
    set x | x in ids
  }

  /**
   * A reference total over the requested id list: each id is charged at its
   * first occurrence and skipped when it repeats.
   */
  function RequestTotal(ids: seq<int>, catalog: map<int, Product>): Cents
    requires forall i :: 0 <= i < |ids| ==> ids[i] in catalog
    decreases |ids|
  {
    if ids == [] then 0
    else
      var last := ids[|ids| - 1];
      var prefix := ids[..|ids| - 1];
      RequestTotal(prefix, catalog) + (if last in prefix then 0 else catalog[last].price)
  }

  /** Duplicate ids collapse: the set total equals the first-occurrence total of the list. */
  lemma {:induction false} DuplicatesCollapse(ids: seq<int>, catalog: map<int, Product>)
    requires forall i :: 0 <= i < |ids| ==> ids[i] in catalog
    ensures IdSet(ids) <= catalog.Keys
    ensures SumPrices(IdSet(ids), catalog) == RequestTotal(ids, catalog)
    decreases |ids|
  {
    if ids != [] {
      var last := ids[|ids| - 1];
      var prefix := ids[..|ids| - 1];
      assert ids == prefix + [last];
      DuplicatesCollapse(prefix, catalog);
      if last in prefix {
        assert IdSet(ids) == IdSet(prefix);
      } else {
        assert IdSet(ids) == IdSet(prefix) + {last};
        SumPricesAdd(IdSet(prefix), last, catalog);
      }
    }
  }
}
