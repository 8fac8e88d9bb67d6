/**
 * The engine's view of the trucks' stock (ftsim/simulation/engine.py): each
 * truck as a shelf of item names, and the stock levels of every truck item at
 * one moment, in truck order and menu order.
 */
module Snapshots {
  import opened Wrappers
  import opened Config
  import opened Seqs
  import opened MenuItems
  import opened Students
  import opened Vendors
  import opened Decision
  import opened Tally

  /** A truck as the stock check walks it: its name and its items' names, in menu order. */
  function ShelfOf(truck: FoodTruck): (r: Shelf)
    ensures r.truck == truck.name && |r.items| == |truck.menu|
    ensures forall j :: 0 <= j < |truck.menu| ==> r.items[j] == truck.menu[j].catalog.name
  {
    Shelf(truck.name, ItemNames(truck.menu))
  }

  /** Every truck as a shelf, in truck order. */
  function Shelves(trucks: seq<FoodTruck>): (r: seq<Shelf>)
    ensures |r| == |trucks|
    ensures forall i :: 0 <= i < |trucks| ==> r[i] == ShelfOf(trucks[i])
  {
    if trucks == [] then [] else [ShelfOf(trucks[0])] + Shelves(trucks[1..])
  }

  /** The stock levels of a menu's items, in menu order. */
  function MenuLevels(menu: seq<MenuItem>): (r: seq<int>)
    reads menu
    ensures |r| == |menu|
    ensures forall j :: 0 <= j < |menu| ==> r[j] == menu[j].currentInventory
  {
    if menu == [] then [] else [menu[0].currentInventory] + MenuLevels(menu[1..])
  }

  /** The stock levels of every truck item: one row per truck, in truck order. */
  function Levels(trucks: seq<FoodTruck>): (r: seq<seq<int>>)
    reads StockOf(trucks)
    ensures |r| == |trucks|
    ensures forall i :: 0 <= i < |trucks| ==> r[i] == MenuLevels(trucks[i].menu)
    decreases |trucks|
  {
    if trucks == [] then [] else [MenuLevels(trucks[0].menu)] + Levels(trucks[1..])
  }

  /** Every truck's catalog entries, in truck order and menu order; they do not change. */
  function MenuCatalogs(trucks: seq<FoodTruck>): (r: seq<seq<CatalogItem>>)
    ensures |r| == |trucks|
    ensures forall i :: 0 <= i < |trucks| ==> r[i] == Catalogs(trucks[i].menu)
  {
    if trucks == [] then [] else [Catalogs(trucks[0].menu)] + MenuCatalogs(trucks[1..])
  }

  /** The daily stock of a menu's items, in menu order: the levels a restock sets. */
  function DailyStock(menu: seq<MenuItem>): (r: seq<int>)
    ensures |r| == |menu|
    ensures forall j :: 0 <= j < |menu| ==> r[j] == menu[j].catalog.inventoryPerDay
  {
    if menu == [] then [] else [menu[0].catalog.inventoryPerDay] + DailyStock(menu[1..])
  }

  /** The daily stock of every truck item: one row per truck, in truck order. */
  function DailyLevels(trucks: seq<FoodTruck>): (r: seq<seq<int>>)
    ensures |r| == |trucks|
    ensures forall i :: 0 <= i < |trucks| ==> r[i] == DailyStock(trucks[i].menu)
  {
    if trucks == [] then [] else [DailyStock(trucks[0].menu)] + DailyLevels(trucks[1..])
  }

  /** The entries of `catalog` of type `itemType` whose level is positive, in menu order. */
  function Stocked(catalog: seq<CatalogItem>, levels: seq<int>, itemType: string): seq<CatalogItem>
  {
    if catalog == [] || levels == [] then []
    else (if levels[0] > 0 && catalog[0].itemType == itemType then [catalog[0]] else [])
         + Stocked(catalog[1..], levels[1..], itemType)
  }

  /** What a truck with `catalog` offers at `levels`: its in-stock food and its in-stock drinks. */
  function ListingAt(catalog: seq<CatalogItem>, levels: seq<int>): Listing
  {
    Listing(Stocked(catalog, levels, ItemTypeFood), Stocked(catalog, levels, ItemTypeDrink))
  }

  /** What every truck offers at one snapshot of the levels, in truck order. */
  function ListingsAt(catalogs: seq<seq<CatalogItem>>, levels: seq<seq<int>>): (r: seq<Listing>)
    ensures |levels| == |catalogs| ==> |r| == |catalogs|
  {
    if catalogs == [] || levels == [] then []
    else [ListingAt(catalogs[0], levels[0])] + ListingsAt(catalogs[1..], levels[1..])
  }

  /** A menu's in-stock items of one type, as catalog entries, are those its levels show. */
  lemma {:induction false} InStockIsStocked(menu: seq<MenuItem>, itemType: string, p: MenuItem -> bool)
    requires forall m :: p(m) == (m.catalog.itemType == itemType)
    ensures Catalogs(Filter(InStock(menu), p)) == Stocked(Catalogs(menu), MenuLevels(menu), itemType)
  {
    if menu != [] {
      var m, rest := menu[0], InStock(menu[1..]);
      InStockIsStocked(menu[1..], itemType, p);
      assert Catalogs(menu) == [m.catalog] + Catalogs(menu[1..]);
      assert MenuLevels(menu) == [m.currentInventory] + MenuLevels(menu[1..]);
      var head := if m.currentInventory > 0 && m.catalog.itemType == itemType then [m.catalog] else [];
      assert Stocked(Catalogs(menu), MenuLevels(menu), itemType)
          == head + Stocked(Catalogs(menu[1..]), MenuLevels(menu[1..]), itemType);
      if m.IsAvailable() {
        assert InStock(menu) == [m] + rest;
        assert ([m] + rest)[1..] == rest;
        if p(m) {
          assert Filter(InStock(menu), p) == [m] + Filter(rest, p);
        } else {
          assert Filter(InStock(menu), p) == Filter(rest, p);
        }
      } else {
        assert InStock(menu) == rest;
      }
    }
  }

  /** What the trucks offer is what their catalogs and their current levels show. */
  lemma {:induction false} TruckListingsAtLevels(trucks: seq<FoodTruck>)
    ensures TruckListings(trucks) == ListingsAt(MenuCatalogs(trucks), Levels(trucks))
    decreases |trucks|
  {
    if trucks != [] {
      var t := trucks[0];
      TruckListingsAtLevels(trucks[1..]);
      InStockIsStocked(t.menu, ItemTypeFood, IsFood);
      InStockIsStocked(t.menu, ItemTypeDrink, IsDrink);
      assert TruckListing(t) == ListingAt(Catalogs(t.menu), MenuLevels(t.menu));
      assert MenuCatalogs(trucks)[1..] == MenuCatalogs(trucks[1..]);
      assert Levels(trucks)[1..] == Levels(trucks[1..]);
    }
  }

  /** Every item's level in `after` is a `StepDown` of its level in `before`. */
  predicate SnapshotStep(before: seq<seq<int>>, after: seq<seq<int>>)
  {
    && |after| == |before|
    && (forall i :: 0 <= i < |before| ==> |after[i]| == |before[i]|)
    && (forall i, j :: 0 <= i < |before| && 0 <= j < |before[i]| ==> StepDown(before[i][j], after[i][j]))
  }

  /**
   * From `before` to `after`, each item in `sold` lost one unit and every
   * other truck item kept its level.
   */
  predicate SoldLevels(trucks: seq<FoodTruck>, sold: seq<MenuItem>, before: seq<seq<int>>, after: seq<seq<int>>)
  {
    && Fits(Shelves(trucks), before) && Fits(Shelves(trucks), after)
    && forall i, j :: 0 <= i < |trucks| && 0 <= j < |trucks[i].menu| ==>
         after[i][j] == before[i][j] - (if trucks[i].menu[j] in sold then 1 else 0)
  }

  /**
   * A sale recorded by `SoldOnce` takes one unit from each item in `sold` and
   * leaves every other level as it was, so every level moves by a `StepDown`.
   */
  twostate lemma SaleStepsDown(trucks: seq<FoodTruck>, new sold: seq<MenuItem>)
    requires SoldOnce(trucks, sold)
    ensures SnapshotStep(old(Levels(trucks)), Levels(trucks))
    ensures SoldLevels(trucks, sold, old(Levels(trucks)), Levels(trucks))
  {
  }

  /** Every consecutive pair of snapshots in `history` is a `SnapshotStep`. */
  predicate SteppedDown(history: seq<seq<seq<int>>>)
  {
    forall k :: 0 <= k < |history| - 1 ==> SnapshotStep(history[k], history[k + 1])
  }

  /** In a history of `SnapshotStep`s, every item's column steps down. */
  lemma ColumnStepsDown(shelves: seq<Shelf>, history: seq<seq<seq<int>>>, i: nat, j: nat)
    requires AllFit(shelves, history) && SteppedDown(history)
    requires i < |shelves| && j < |shelves[i].items|
    ensures StepsDown(Column(shelves, history, i, j))
  {
    var col := Column(shelves, history, i, j);
    forall k | 0 <= k < |col| - 1 ensures StepDown(col[k], col[k + 1]) {
      assert SnapshotStep(history[k], history[k + 1]);
    }
  }

  /** No menu item object is on the menus of two trucks. */
  predicate Unshared(trucks: seq<FoodTruck>)
  {
    forall i, i', j, j' :: 0 <= i < i' < |trucks| && 0 <= j < |trucks[i].menu| && 0 <= j' < |trucks[i'].menu| ==>
      trucks[i].menu[j] != trucks[i'].menu[j']
  }

  /**
   * Trucks whose sales show by name: truck names are distinct, so are the
   * item names of each truck, and no menu item is on two trucks.
   */
  predicate Distinguishable(trucks: seq<FoodTruck>)
  {
    UniqueNames(Shelves(trucks)) && Unshared(trucks)
  }

  /**
   * The units record `r` took from the item at position `j` of `shelf`: one
   * per purchase of that item's name, when `r` bought from the shelf's truck.
   */
  function Taken(r: StateRecord, shelf: Shelf, j: nat): nat
    requires j < |shelf.items|
  {
    if r.purchasedFromTruck == Some(shelf.truck) then Count(r.purchasedItems, shelf.items[j]) else 0
  }

  /** From `before` to `after`, every item lost exactly the units record `r` took from it. */
  predicate SaleStep(shelves: seq<Shelf>, before: seq<seq<int>>, after: seq<seq<int>>, r: StateRecord)
  {
    && Fits(shelves, before) && Fits(shelves, after)
    && forall i, j :: 0 <= i < |shelves| && 0 <= j < |shelves[i].items| ==>
         after[i][j] == before[i][j] - Taken(r, shelves[i], j)
  }

  /**
   * `history` holds one snapshot more than there are records, and every
   * record took its purchases from the snapshot before it, leaving the one
   * after it.
   */
  predicate SalesInTurn(shelves: seq<Shelf>, records: seq<StateRecord>, history: seq<seq<seq<int>>>)
    decreases |records|
  {
    && |history| == |records| + 1 && Fits(shelves, history[0])
    && (records != [] ==>
          var n := |records| - 1;
          && SalesInTurn(shelves, records[..n], history[..n + 1])
          && SaleStep(shelves, history[n], history[n + 1], records[n]))
  }

  /** With distinguishable trucks, the day's records are sold in turn over the snapshots of `history`. */
  predicate SoldInTurn(trucks: seq<FoodTruck>, records: seq<StateRecord>, history: seq<seq<seq<int>>>)
  {
    Distinguishable(trucks) ==> SalesInTurn(Shelves(trucks), records, history)
  }

  /** The units of the item at position `j` of `shelf` that the records took, over all records. */
  function SoldUnits(records: seq<StateRecord>, shelf: Shelf, j: nat): nat
    requires j < |shelf.items|
  {
    if records == [] then 0
    else SoldUnits(records[..|records| - 1], shelf, j) + Taken(records[|records| - 1], shelf, j)
  }

  /**
   * A sale the engine recorded, seen in the levels: with distinguishable
   * trucks, the items bought (all on the named truck, none twice) are exactly
   * the units the record took by name.
   */
  lemma SaleOnTruck(trucks: seq<FoodTruck>, sold: seq<MenuItem>, t: nat, r: StateRecord,
                    before: seq<seq<int>>, after: seq<seq<int>>)
    requires Distinguishable(trucks) && SoldLevels(trucks, sold, before, after) && BoughtOn(trucks, sold, t, r)
    ensures SaleStep(Shelves(trucks), before, after, r)
  {
    var shelves := Shelves(trucks);
    forall i, j | 0 <= i < |shelves| && 0 <= j < |shelves[i].items|
      ensures after[i][j] == before[i][j] - Taken(r, shelves[i], j)
    {
      var x := trucks[i].menu[j];
      if sold == [] {
        assert r.purchasedItems == [];
      } else if i == t {
        assert DistinctNames(shelves[t].items);
        SoldOnMenu(sold, trucks[t].menu, j, shelves[t].items);
      } else {
        assert TruckNames(shelves)[i] == trucks[i].name && TruckNames(shelves)[t] == trucks[t].name;
        forall m | 0 <= m < |sold| ensures sold[m] != x {
          var j' :| 0 <= j' < |trucks[t].menu| && trucks[t].menu[j'] == sold[m];
          if i < t {
            assert trucks[i].menu[j] != trucks[t].menu[j'];
          } else {
            assert trucks[t].menu[j'] != trucks[i].menu[j];
          }
        }
      }
    }
  }

  /**
   * What a student bought, as the engine sees it: `sold` holds at most two
   * distinct items, all on truck `t`, which the record names, and the
   * record's purchases are their names.
   */
  predicate BoughtOn(trucks: seq<FoodTruck>, sold: seq<MenuItem>, t: nat, r: StateRecord)
  {
    && r.purchasedItems == ItemNames(sold)
    && |sold| <= 2 && (|sold| == 2 ==> sold[0] != sold[1])
    && (sold != [] ==>
          && t < |trucks| && r.purchasedFromTruck == Some(trucks[t].name)
          && forall m :: 0 <= m < |sold| ==> sold[m] in trucks[t].menu)
  }

  /**
   * At most two distinct items of one menu whose names are distinct: the
   * name of the item at position `j` occurs once among their names when the
   * item is among them, and not at all otherwise.
   */
  lemma SoldOnMenu(sold: seq<MenuItem>, menu: seq<MenuItem>, j: nat, names: seq<string>)
    requires j < |menu| && names == ItemNames(menu) && DistinctNames(names)
    requires |sold| <= 2 && (|sold| == 2 ==> sold[0] != sold[1])
    requires forall m :: 0 <= m < |sold| ==> sold[m] in menu
    ensures Count(ItemNames(sold), names[j]) == if menu[j] in sold then 1 else 0
  {
    forall m | 0 <= m < |sold| ensures sold[m].catalog.name == names[j] <==> sold[m] == menu[j] {
      var j' :| 0 <= j' < |menu| && menu[j'] == sold[m];
      assert names[j'] == sold[m].catalog.name;
    }
    CountShort(ItemNames(sold), names[j]);
  }

  /** The count of `x` among at most two names, position by position. */
  lemma CountShort(ns: seq<string>, x: string)
    requires |ns| <= 2
    ensures Count(ns, x) == (if 1 <= |ns| && ns[0] == x then 1 else 0) + (if |ns| == 2 && ns[1] == x then 1 else 0)
  {
    if |ns| == 1 {
      assert ns[..0] == [];
    } else if |ns| == 2 {
      assert ns[..1][..0] == [];
    }
  }

  /** One more record, taking its purchases from the latest snapshot, keeps the sales in turn. */
  lemma SaleArrival(shelves: seq<Shelf>, records: seq<StateRecord>, history: seq<seq<seq<int>>>,
                    record: StateRecord, levels: seq<seq<int>>)
    requires SalesInTurn(shelves, records, history)
    requires SaleStep(shelves, history[|records|], levels, record)
    ensures SalesInTurn(shelves, records + [record], history + [levels])
  {
    var rs, h := records + [record], history + [levels];
    assert rs[..|records|] == records && h[..|records| + 1] == history;
  }

  /**
   * Stock is conserved over the day: an item's level fell, from the first
   * snapshot to the one after the last record, by exactly the units the
   * records took from it.
   */
  lemma {:induction false} SalesConserved(shelves: seq<Shelf>, records: seq<StateRecord>, history: seq<seq<seq<int>>>,
                                          i: nat, j: nat)
    requires SalesInTurn(shelves, records, history)
    requires i < |shelves| && j < |shelves[i].items|
    ensures Fits(shelves, history[|records|])
    ensures history[0][i][j] - history[|records|][i][j] == SoldUnits(records, shelves[i], j)
    decreases |records|
  {
    if records != [] {
      var n := |records| - 1;
      SalesConserved(shelves, records[..n], history[..n + 1], i, j);
    }
  }

  /**
   * No item sells more units in a day than it started with: in a history of
   * `StepDown`s from a non-negative level, the units taken never exceed it.
   */
  lemma {:induction false} SoldWithinStock(shelves: seq<Shelf>, records: seq<StateRecord>, history: seq<seq<seq<int>>>,
                                           i: nat, j: nat)
    requires SalesInTurn(shelves, records, history) && AllFit(shelves, history) && SteppedDown(history)
    requires i < |shelves| && j < |shelves[i].items| && history[0][i][j] >= 0
    ensures SoldUnits(records, shelves[i], j) <= history[0][i][j]
  {
    SalesConserved(shelves, records, history, i, j);
    ColumnStepsDown(shelves, history, i, j);
    var col := Column(shelves, history, i, j);
    for k := 0 to |records|
      invariant col[k] >= 0
    {
      assert StepDown(col[k], col[k + 1]);
    }
  }
}
