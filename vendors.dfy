/**
 * The three kinds of vendor (ftsim/models/vendors.py): food trucks with finite
 * per-item stock, the school lunch with a daily-rotating menu, and the fast-food
 * burger joint with a fixed menu. Only a truck's stock ever changes.
 */
module Vendors {
  import opened Config
  import opened Seqs
  import opened MenuItems

  predicate IsFood(m: MenuItem) { m.catalog.itemType == ItemTypeFood }
  predicate IsDrink(m: MenuItem) { m.catalog.itemType == ItemTypeDrink }
  predicate IsFoodEntry(c: CatalogItem) { c.itemType == ItemTypeFood }
  predicate IsDrinkEntry(c: CatalogItem) { c.itemType == ItemTypeDrink }

  /** The in-stock items of `items`, in their order. */
  function InStock(items: seq<MenuItem>): (r: seq<MenuItem>)
    reads items
    ensures forall i :: 0 <= i < |r| ==> r[i] in items && r[i].currentInventory > 0
    ensures forall i :: 0 <= i < |items| && items[i].currentInventory > 0 ==> items[i] in r
    ensures Sublist(r, items)
  {
    if items == [] then []
    else if items[0].IsAvailable() then [items[0]] + InStock(items[1..])
    else InStock(items[1..])
  }

  /** `InStock` keeps every in-stock item as often as the menu lists it, and no other. */
  lemma {:induction false} InStockCount(items: seq<MenuItem>)
    ensures forall m :: m in items ==> multiset(InStock(items))[m] == if m.currentInventory > 0 then multiset(items)[m] else 0
  {
    if items != [] {
      InStockCount(items[1..]);
      var stocked := set m | m in items && m.currentInventory > 0;
      FilterCountStep(items, m => m in stocked, InStock(items[1..]), InStock(items));
    }
  }

  /** The catalogue records of `items`, in order. */
  function Catalogs(items: seq<MenuItem>): (r: seq<CatalogItem>)
    ensures |r| == |items|
    ensures forall i :: 0 <= i < |items| ==> r[i] == items[i].catalog
  {
    if items == [] then [] else [items[0].catalog] + Catalogs(items[1..])
  }

  class FoodTruck {
    const name: string
    const menu: seq<MenuItem>

    ghost predicate Valid()
      reads menu
    {
      forall i :: 0 <= i < |menu| ==> menu[i].Valid()
    }

    constructor (name: string, menu: seq<MenuItem>)
      requires forall i :: 0 <= i < |menu| ==> menu[i].Valid()
      ensures this.name == name && this.menu == menu
      ensures Valid()
    {
      this.name := name;
      this.menu := menu;
    }

    /** Every menu item back at its daily stock. */
    method ResetInventory()
      modifies menu
      ensures forall i :: 0 <= i < |menu| ==> menu[i].currentInventory == menu[i].catalog.inventoryPerDay
      ensures Valid()
    {
      for k := 0 to |menu|
        invariant forall i :: 0 <= i < k ==> menu[i].currentInventory == menu[i].catalog.inventoryPerDay
      {
        menu[k].ResetInventory();
      }
    }

    /** The in-stock menu items, in menu order. */
    function AvailableItems(): (r: seq<MenuItem>)
      reads menu
      ensures forall i :: 0 <= i < |r| ==> r[i] in menu && r[i].currentInventory > 0
      ensures forall i :: 0 <= i < |menu| && menu[i].currentInventory > 0 ==> menu[i] in r
      ensures Sublist(r, menu)
    {
      InStock(menu)
    }

    /** The in-stock food items, in menu order. */
    function AvailableFood(): (r: seq<MenuItem>)
      reads menu
      ensures forall i :: 0 <= i < |r| ==> r[i] in menu && r[i].currentInventory > 0 && IsFood(r[i])
      ensures forall i :: 0 <= i < |menu| && menu[i].currentInventory > 0 && IsFood(menu[i]) ==> menu[i] in r
      ensures Sublist(r, menu)
    {
      var r := Filter(AvailableItems(), IsFood);
      SublistTrans(r, AvailableItems(), menu);
      r
    }

    /** The in-stock drinks, in menu order. */
    function AvailableDrinks(): (r: seq<MenuItem>)
      reads menu
      ensures forall i :: 0 <= i < |r| ==> r[i] in menu && r[i].currentInventory > 0 && IsDrink(r[i])
      ensures forall i :: 0 <= i < |menu| && menu[i].currentInventory > 0 && IsDrink(menu[i]) ==> menu[i] in r
      ensures Sublist(r, menu)
    {
      var r := Filter(AvailableItems(), IsDrink);
      SublistTrans(r, AvailableItems(), menu);
      r
    }

    /**
     * The available lists keep each in-stock menu item as often as the menu
     * lists it, and no other: with their sublist order, they are exactly the
     * filtered menu.
     */
    lemma AvailableCounts()
      ensures forall m :: m in menu ==>
        multiset(AvailableItems())[m] == if m.currentInventory > 0 then multiset(menu)[m] else 0
      ensures forall m :: m in menu ==>
        multiset(AvailableFood())[m] == if m.currentInventory > 0 && IsFood(m) then multiset(menu)[m] else 0
      ensures forall m :: m in menu ==>
        multiset(AvailableDrinks())[m] == if m.currentInventory > 0 && IsDrink(m) then multiset(menu)[m] else 0
    {
      InStockCount(menu);
      FilterCount(AvailableItems(), IsFood);
      FilterCount(AvailableItems(), IsDrink);
    }

    /** A sale attempt on `item`; no other item's stock changes. */
    method SellItem(item: MenuItem) returns (sold: bool)
      modifies item
      ensures sold <==> old(item.currentInventory) > 0
      ensures item.currentInventory == AfterSell(old(item.currentInventory))
      ensures old(item.Valid()) ==> item.Valid()
    {
      sold := item.SellOne();
    }
  }

  /** Every menu item of every truck: what selling can change. */
  ghost function StockOf(trucks: seq<FoodTruck>): set<MenuItem>
    decreases |trucks|
  {
    if trucks == [] then {} else (set m | m in trucks[0].menu) + StockOf(trucks[1..])
  }

  /** The trucks' stock consists of allocated items. */
  lemma {:induction false} StockAllocated(trucks: seq<FoodTruck>)
    ensures forall m :: m in StockOf(trucks) ==> allocated(m)
    decreases |trucks|
  {
    if trucks != [] {
      StockAllocated(trucks[1..]);
    }
  }

  /** Each truck's menu items belong to the trucks' stock. */
  lemma {:induction false} MenuInStockOf(trucks: seq<FoodTruck>, i: nat)
    requires i < |trucks|
    ensures forall m :: m in trucks[i].menu ==> m in StockOf(trucks)
    decreases i
  {
    if i > 0 {
      MenuInStockOf(trucks[1..], i - 1);
      assert trucks[1..][i - 1] == trucks[i];
    }
  }

  // The school lunch pools and the burger joint's menu; every entry is stocked with `Unlimited`.

  const SchoolLunchFoodPool: seq<CatalogItem> := [
    CatalogItem("Chicken Tenders", 3.50, 5, "food", "fried", "savory", false, Unlimited, 450),
    CatalogItem("Spaghetti w/ Meat Sauce", 3.00, 6, "food", "savory", "savory", false, Unlimited, 500),
    CatalogItem("Grilled Cheese", 2.50, 5, "food", "savory", "savory", false, Unlimited, 400),
    CatalogItem("Turkey Sandwich", 3.00, 7, "food", "healthy", "savory", false, Unlimited, 350),
    CatalogItem("Bean & Cheese Burrito", 3.00, 6, "food", "savory", "savory", false, Unlimited, 480),
    CatalogItem("Garden Salad", 2.00, 9, "food", "healthy", "savory", false, Unlimited, 180),
    CatalogItem("Fish Sticks", 3.00, 5, "food", "fried", "savory", false, Unlimited, 400),
    CatalogItem("Mac & Cheese", 2.50, 4, "food", "savory", "savory", false, Unlimited, 450),
    CatalogItem("Veggie Burger", 3.50, 7, "food", "healthy", "savory", false, Unlimited, 320),
    CatalogItem("Hamburger", 3.50, 5, "food", "fried", "savory", false, Unlimited, 500)
  ]

  const SchoolLunchDrinkPool: seq<CatalogItem> := [
    CatalogItem("Chocolate Milk", 1.50, 5, "drink", "milk", "sweet", false, Unlimited, 200),
    CatalogItem("Apple Juice", 1.50, 7, "drink", "juice", "sweet", false, Unlimited, 120),
    CatalogItem("Fruit Punch", 1.50, 4, "drink", "juice", "sweet", false, Unlimited, 150),
    CatalogItem("Water", 0.00, 10, "drink", "water", "savory", false, Unlimited, 0),
    CatalogItem("Low-Fat Milk", 1.50, 8, "drink", "milk", "savory", false, Unlimited, 110)
  ]

  const BurgerJointMenu: seq<CatalogItem> := [
    CatalogItem("Cheeseburger", 6.00, 3, "food", "fried", "savory", false, Unlimited, 550),
    CatalogItem("Double Bacon Burger", 9.00, 2, "food", "fried", "savory", false, Unlimited, 900),
    CatalogItem("Chicken Nuggets (10pc)", 7.00, 3, "food", "fried", "savory", false, Unlimited, 480),
    CatalogItem("Large Fries", 5.00, 2, "food", "fried", "savory", false, Unlimited, 500),
    CatalogItem("Hot Dog", 5.00, 3, "food", "fried", "savory", false, Unlimited, 400),
    CatalogItem("Large Soda", 3.00, 1, "drink", "soda", "sweet", false, Unlimited, 250),
    CatalogItem("Chocolate Shake", 6.00, 2, "drink", "milk", "sweet", false, Unlimited, 700),
    CatalogItem("Sweet Tea", 3.00, 2, "drink", "juice", "sweet", false, Unlimited, 180)
  ]

  /** What `random.sample(pool, k)` returns, by position: `k` distinct positions of the pool. */
  predicate IsSample(picks: seq<nat>, poolSize: nat)
  {
    && (forall i :: 0 <= i < |picks| ==> picks[i] < poolSize)
    && (forall i, j :: 0 <= i < j < |picks| ==> picks[i] != picks[j])
  }

  /** The pool entries at `picks`, in pick order. */
  function Pick(pool: seq<CatalogItem>, picks: seq<nat>): (r: seq<CatalogItem>)
    requires forall i :: 0 <= i < |picks| ==> picks[i] < |pool|
    ensures |r| == |picks|
    ensures forall i :: 0 <= i < |picks| ==> r[i] == pool[picks[i]]
  {
    if picks == [] then [] else [pool[picks[0]]] + Pick(pool, picks[1..])
  }

  class SchoolLunch {
    const name: string
    var dailyMenu: seq<CatalogItem>

    constructor ()
      ensures name == "School Lunch" && dailyMenu == []
    {
      name := "School Lunch";
      dailyMenu := [];
    }

    /** Today's menu: the sampled foods followed by the sampled drinks. */
    method GenerateDailyMenu(foodPicks: seq<nat>, drinkPicks: seq<nat>)
      requires IsSample(foodPicks, |SchoolLunchFoodPool|) && IsSample(drinkPicks, |SchoolLunchDrinkPool|)
      modifies this
      ensures dailyMenu == Pick(SchoolLunchFoodPool, foodPicks) + Pick(SchoolLunchDrinkPool, drinkPicks)
    {
      var food := Pick(SchoolLunchFoodPool, foodPicks);
      var drinks := Pick(SchoolLunchDrinkPool, drinkPicks);
      dailyMenu := food + drinks;
    }

    /** The whole of today's menu; school lunch stock is never checked. */
    function AvailableItems(): (r: seq<CatalogItem>)
      reads this
      ensures |r| == |dailyMenu| && forall i :: 0 <= i < |r| ==> r[i] == dailyMenu[i]
    {
      dailyMenu
    }

    /** The food entries of today's menu; there is no stock check. */
    function AvailableFood(): (r: seq<CatalogItem>)
      reads this
      ensures forall i :: 0 <= i < |r| ==> r[i] in dailyMenu && IsFoodEntry(r[i])
      ensures forall i :: 0 <= i < |dailyMenu| && IsFoodEntry(dailyMenu[i]) ==> dailyMenu[i] in r
      ensures forall c :: c in dailyMenu ==> multiset(r)[c] == if IsFoodEntry(c) then multiset(dailyMenu)[c] else 0
      ensures Sublist(r, dailyMenu)
    {
      FilterCount(dailyMenu, IsFoodEntry);
      Filter(dailyMenu, IsFoodEntry)
    }

    /** The drink entries of today's menu; there is no stock check. */
    function AvailableDrinks(): (r: seq<CatalogItem>)
      reads this
      ensures forall i :: 0 <= i < |r| ==> r[i] in dailyMenu && IsDrinkEntry(r[i])
      ensures forall i :: 0 <= i < |dailyMenu| && IsDrinkEntry(dailyMenu[i]) ==> dailyMenu[i] in r
      ensures forall c :: c in dailyMenu ==> multiset(r)[c] == if IsDrinkEntry(c) then multiset(dailyMenu)[c] else 0
      ensures Sublist(r, dailyMenu)
    {
      FilterCount(dailyMenu, IsDrinkEntry);
      Filter(dailyMenu, IsDrinkEntry)
    }
  }

  /** The burger joint: a name and the fixed `BurgerJointMenu`. */
  datatype FastFood = FastFood(name: string)
  {
    /** The whole fixed menu; the burger joint never runs out. */
    function AvailableItems(): (r: seq<CatalogItem>)
      ensures |r| == |BurgerJointMenu| && forall i :: 0 <= i < |r| ==> r[i] == BurgerJointMenu[i]
    {
      BurgerJointMenu
    }

    /** The food entries of the fixed menu, in menu order. */
    function AvailableFood(): (r: seq<CatalogItem>)
      ensures forall i :: 0 <= i < |r| ==> r[i] in BurgerJointMenu && IsFoodEntry(r[i])
      ensures forall i :: 0 <= i < |BurgerJointMenu| && IsFoodEntry(BurgerJointMenu[i]) ==> BurgerJointMenu[i] in r
      ensures forall c :: c in BurgerJointMenu ==> multiset(r)[c] == if IsFoodEntry(c) then multiset(BurgerJointMenu)[c] else 0
      ensures Sublist(r, BurgerJointMenu)
    {
      FilterCount(BurgerJointMenu, IsFoodEntry);
      Filter(BurgerJointMenu, IsFoodEntry)
    }

    /** The drink entries of the fixed menu, in menu order. */
    function AvailableDrinks(): (r: seq<CatalogItem>)
      ensures forall i :: 0 <= i < |r| ==> r[i] in BurgerJointMenu && IsDrinkEntry(r[i])
      ensures forall i :: 0 <= i < |BurgerJointMenu| && IsDrinkEntry(BurgerJointMenu[i]) ==> BurgerJointMenu[i] in r
      ensures forall c :: c in BurgerJointMenu ==> multiset(r)[c] == if IsDrinkEntry(c) then multiset(BurgerJointMenu)[c] else 0
      ensures Sublist(r, BurgerJointMenu)
    {
      FilterCount(BurgerJointMenu, IsDrinkEntry);
      Filter(BurgerJointMenu, IsDrinkEntry)
    }
  }

  /** The default burger joint. */
  function BurgerJoint(): (f: FastFood)
    ensures f.name == "Burger Joint"
  {
    FastFood("Burger Joint")
  }
}
