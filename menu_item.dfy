/**
 * A menu item: an immutable catalogue record plus the per-day stock counter
 * that sales decrement and the daily reset restores (ftsim/models/menu_item.py).
 */
module MenuItems {

  /** The catalogue fields of a menu item; none of them changes after construction. */
  datatype CatalogItem = CatalogItem(
    name: string,
    price: real,
    healthRating: int,      // 1..10
    itemType: string,       // "food" or "drink"
    category: string,
    subType: string,        // "sweet" or "savory"
    energyBoost: bool,
    inventoryPerDay: int,
    calories: int)

  /** The counter after one sale attempt: one unit fewer when any is left, otherwise unchanged. */
  function AfterSell(stock: int): (r: int)
    ensures stock > 0 ==> r == stock - 1
    ensures stock <= 0 ==> r == stock
  {
    if stock > 0 then stock - 1 else stock
  }

  /** The stock invariant: within `0..maximum`, or still at the maximum when that is negative. */
  predicate StockInRange(stock: int, maximum: int)
  {
    stock <= maximum && (0 <= stock || stock == maximum)
  }

  /** A sale attempt keeps the stock invariant. */
  lemma {:induction false} AfterSellInRange(stock: int, maximum: int)
    requires StockInRange(stock, maximum)
    ensures StockInRange(AfterSell(stock), maximum)
    ensures AfterSell(stock) <= stock
  {
  }

  /**
   * `n` successive sale attempts on a counter holding `stock`: the number of
   * attempts that succeed and the stock left afterwards.
   */
  function SellRepeatedly(stock: int, n: nat): (nat, int)
  {
    if n == 0 then (0, stock)
    else
      var rest := SellRepeatedly(AfterSell(stock), n - 1);
      ((if stock > 0 then 1 else 0) + rest.0, rest.1)
  }

  function Min(a: int, b: int): int { if a <= b then a else b }

  /**
   * From a full counter of `maximum >= 0` units, `n` attempts succeed
   * `min(n, maximum)` times and leave `maximum - min(n, maximum)` units.
   */
  lemma {:induction false} SellsAfterReset(maximum: int, n: nat)
    requires maximum >= 0
    ensures SellRepeatedly(maximum, n) == (Min(n, maximum), maximum - Min(n, maximum))
  {
    if n > 0 {
      if maximum > 0 {
        SellsAfterReset(maximum - 1, n - 1);
      } else {
        SellsAfterEmpty(n - 1);
      }
    }
  }

  /** Attempts on an empty counter never succeed and leave it empty. */
  lemma {:induction false} SellsAfterEmpty(n: nat)
    ensures SellRepeatedly(0, n) == (0, 0)
  {
    if n > 0 {
      SellsAfterEmpty(n - 1);
    }
  }

  class MenuItem {
    const catalog: CatalogItem
    var currentInventory: int

    ghost predicate Valid()
      reads this
    {
      StockInRange(currentInventory, catalog.inventoryPerDay)
    }

    /** A new item starts the day with its full daily stock. */
    constructor (catalog: CatalogItem)
      ensures this.catalog == catalog
      ensures currentInventory == catalog.inventoryPerDay
      ensures Valid()
    {
      this.catalog := catalog;
      currentInventory := catalog.inventoryPerDay;
    }

    /** Restores the daily stock, whatever was left. */
    method ResetInventory()
      modifies this
      ensures currentInventory == catalog.inventoryPerDay
      ensures Valid()
    {
      currentInventory := catalog.inventoryPerDay;
    }

    /** In stock: at least one unit left. */
    predicate IsAvailable()
      reads this
    {
      currentInventory > 0
    }

    /** Sells one unit when any is left; reports whether it did. */
    method SellOne() returns (sold: bool)
      modifies this
      ensures sold <==> old(currentInventory) > 0
      ensures currentInventory == AfterSell(old(currentInventory))
      ensures old(Valid()) ==> Valid()
    {
      if currentInventory > 0 {
        currentInventory := currentInventory - 1;
        return true;
      }
      return false;
    }
  }
}
