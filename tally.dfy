/**
 * The bookkeeping of a simulation day and of a run (ftsim/simulation/engine.py),
 * stated as functions of the students' exported records: what each truck
 * earns, how many customers it serves, how many units of each item it sells,
 * how many students are lost for each reason, and which items ran out.
 */
module Tally {
  import opened Wrappers
  import opened Students

  /** A count read from a tally; a key never counted reads 0 (`dict.get(key, 0)`). */
  function Get(m: map<string, nat>, k: string): nat
  {
    if k in m then m[k] else 0
  }

  /** The tally with one more for `k`. */
  function Bump(m: map<string, nat>, k: string): (r: map<string, nat>)
    ensures r.Keys == m.Keys + {k}
    ensures forall x :: Get(r, x) == Get(m, x) + (if x == k then 1 else 0)
  {
    m[k := Get(m, k) + 1]
  }

  /** How often `x` occurs in `names`. */
  function Count(names: seq<string>, x: string): nat
  {
    if names == [] then 0
    else Count(names[..|names| - 1], x) + (if names[|names| - 1] == x then 1 else 0)
  }

  /**
   * The student counts as a customer of `truck`: they bought something and the
   * record names that truck; an empty name is false in a condition, so it never counts.
   */
  predicate BoughtFrom(r: StateRecord, truck: string)
  {
    r.purchasedItems != [] && r.purchasedFromTruck == Some(truck) && truck != ""
  }

  /** The student counts as a customer of some truck. */
  predicate BoughtFromTruck(r: StateRecord)
  {
    r.purchasedFromTruck.Some? && BoughtFrom(r, r.purchasedFromTruck.value)
  }

  /** The record carries `reason` as its loss; an empty reason is false in a condition, so it never counts. */
  predicate LostFor(r: StateRecord, reason: string)
  {
    r.lossReason == Some(reason) && reason != ""
  }

  /** The record carries some loss reason that counts. */
  predicate Lost(r: StateRecord)
  {
    r.lossReason.Some? && LostFor(r, r.lossReason.value)
  }

  /** What `truck` earned from the students of `records`. */
  function Revenue(records: seq<StateRecord>, truck: string): real
  {
    if records == [] then 0.0
    else
      var r := records[|records| - 1];
      Revenue(records[..|records| - 1], truck) + (if BoughtFrom(r, truck) then r.totalSpent else 0.0)
  }

  /** How many students of `records` bought from `truck`. */
  function Customers(records: seq<StateRecord>, truck: string): nat
  {
    if records == [] then 0
    else Customers(records[..|records| - 1], truck) + (if BoughtFrom(records[|records| - 1], truck) then 1 else 0)
  }

  /** How many units named `item` the students of `records` bought from `truck`. */
  function Sold(records: seq<StateRecord>, truck: string, item: string): nat
  {
    if records == [] then 0
    else
      var r := records[|records| - 1];
      Sold(records[..|records| - 1], truck, item) + (if BoughtFrom(r, truck) then Count(r.purchasedItems, item) else 0)
  }

  /** How many students of `records` were lost for `reason`. */
  function Losses(records: seq<StateRecord>, reason: string): nat
  {
    if records == [] then 0
    else Losses(records[..|records| - 1], reason) + (if LostFor(records[|records| - 1], reason) then 1 else 0)
  }

  /** What all students of `records` who count as some truck's customer spent. */
  function TruckSpend(records: seq<StateRecord>): real
  {
    if records == [] then 0.0
    else
      var r := records[|records| - 1];
      TruckSpend(records[..|records| - 1]) + (if BoughtFromTruck(r) then r.totalSpent else 0.0)
  }

  /** How many students of `records` count as some truck's customer. */
  function TruckCustomers(records: seq<StateRecord>): nat
  {
    if records == [] then 0
    else TruckCustomers(records[..|records| - 1]) + (if BoughtFromTruck(records[|records| - 1]) then 1 else 0)
  }

  /** How many students of `records` carry a loss reason. */
  function LostStudents(records: seq<StateRecord>): nat
  {
    if records == [] then 0
    else LostStudents(records[..|records| - 1]) + (if Lost(records[|records| - 1]) then 1 else 0)
  }

  /** The revenues of the trucks named in `names`, added up. */
  function SumRevenue(records: seq<StateRecord>, names: seq<string>): real
  {
    if names == [] then 0.0 else Revenue(records, names[0]) + SumRevenue(records, names[1..])
  }

  /** What one record adds to the revenues of the trucks named in `names`. */
  function SumShare(r: StateRecord, names: seq<string>): real
  {
    if names == [] then 0.0 else (if BoughtFrom(r, names[0]) then r.totalSpent else 0.0) + SumShare(r, names[1..])
  }

  predicate DistinctNames(names: seq<string>)
  {
    forall i, j :: 0 <= i < j < |names| ==> names[i] != names[j]
  }

  /** A record's spending goes to the one truck it names, when that truck is among `names`. */
  lemma {:induction false} SumShareIsSpend(r: StateRecord, names: seq<string>)
    requires DistinctNames(names)
    requires BoughtFromTruck(r) ==> r.purchasedFromTruck.value in names
    ensures SumShare(r, names) == if BoughtFromTruck(r) then r.totalSpent else 0.0
    decreases |names|
  {
    if names != [] {
      var rest := names[1..];
      assert DistinctNames(rest) by {
        forall i, j | 0 <= i < j < |rest| ensures rest[i] != rest[j] {
          assert rest[i] == names[i + 1] && rest[j] == names[j + 1];
        }
      }
      if BoughtFrom(r, names[0]) {
        assert forall k :: 0 <= k < |rest| ==> rest[k] == names[k + 1] && names[k + 1] != names[0];
        NoShareOutside(r, rest);
      } else {
        assert BoughtFromTruck(r) ==> r.purchasedFromTruck.value in rest;
        SumShareIsSpend(r, rest);
      }
    }
  }

  /** A record adds nothing to trucks it does not name. */
  lemma {:induction false} NoShareOutside(r: StateRecord, names: seq<string>)
    requires r.purchasedFromTruck.Some? ==> r.purchasedFromTruck.value !in names
    ensures SumShare(r, names) == 0.0
    decreases |names|
  {
    if names != [] {
      assert forall k :: 0 <= k < |names[1..]| ==> names[1..][k] in names;
      NoShareOutside(r, names[1..]);
    }
  }

  /** The sum over trucks of one more record. */
  lemma {:induction false} SumRevenueStep(records: seq<StateRecord>, names: seq<string>)
    requires records != []
    ensures SumRevenue(records, names) ==
      SumRevenue(records[..|records| - 1], names) + SumShare(records[|records| - 1], names)
    decreases |names|
  {
    if names != [] {
      SumRevenueStep(records, names[1..]);
    }
  }

  /**
   * Revenue is conserved: with distinct truck names, and every customer naming
   * one of the trucks, the trucks' revenues add up to what their customers spent.
   */
  lemma {:induction false} RevenueConservation(records: seq<StateRecord>, names: seq<string>)
    requires DistinctNames(names)
    requires forall i :: 0 <= i < |records| && BoughtFromTruck(records[i]) ==> records[i].purchasedFromTruck.value in names
    ensures SumRevenue(records, names) == TruckSpend(records)
    decreases |records|
  {
    if records == [] {
      SumRevenueEmpty(names);
    } else {
      var n := |records| - 1;
      assert forall i :: 0 <= i < n ==> records[..n][i] == records[i];
      RevenueConservation(records[..n], names);
      SumRevenueStep(records, names);
      SumShareIsSpend(records[n], names);
    }
  }

  lemma {:induction false} SumRevenueEmpty(names: seq<string>)
    ensures SumRevenue([], names) == 0.0
    decreases |names|
  {
    if names != [] {
      SumRevenueEmpty(names[1..]);
    }
  }

  /** Each student either counts as a truck customer or carries a loss reason, not both. */
  predicate Accounted(r: StateRecord)
  {
    BoughtFromTruck(r) != Lost(r)
  }

  /** When every student is accounted for, customers and losses together number the students. */
  lemma {:induction false} EveryStudentAccounted(records: seq<StateRecord>)
    requires forall i :: 0 <= i < |records| ==> Accounted(records[i])
    ensures TruckCustomers(records) + LostStudents(records) == |records|
    decreases |records|
  {
    if records != [] {
      var n := |records| - 1;
      assert forall i :: 0 <= i < n ==> records[..n][i] == records[i];
      EveryStudentAccounted(records[..n]);
    }
  }

  /** A truck as the stock check walks it: the truck's name and its items' names, in menu order. */
  datatype Shelf = Shelf(truck: string, items: seq<string>)

  /** The names of the shelves' trucks, in order. */
  function TruckNames(shelves: seq<Shelf>): (r: seq<string>)
    ensures |r| == |shelves|
    ensures forall i :: 0 <= i < |shelves| ==> r[i] == shelves[i].truck
  {
    if shelves == [] then [] else [shelves[0].truck] + TruckNames(shelves[1..])
  }

  /** Stock levels, one per item of each shelf. */
  predicate Fits(shelves: seq<Shelf>, levels: seq<seq<int>>)
  {
    |levels| == |shelves| && forall i :: 0 <= i < |shelves| ==> |levels[i]| == |shelves[i].items|
  }

  /** Every shelf entry has a slot in `m`. */
  predicate Covers<V>(shelves: seq<Shelf>, m: map<string, map<string, V>>)
  {
    && (forall i :: 0 <= i < |shelves| ==> shelves[i].truck in m)
    && (forall i, j :: 0 <= i < |shelves| && 0 <= j < |shelves[i].items| ==>
          shelves[i].truck in m && shelves[i].items[j] in m[shelves[i].truck])
  }

  /** Truck names are distinct, and so are the item names of each truck. */
  predicate UniqueNames(shelves: seq<Shelf>)
  {
    && DistinctNames(TruckNames(shelves))
    && forall i :: 0 <= i < |shelves| ==> DistinctNames(shelves[i].items)
  }

  /** The stock check's two tables: each item's last seen level, and its stocked-out flag (0 or 1). */
  datatype StockBook = StockBook(prev: map<string, map<string, int>>, flags: map<string, map<string, nat>>)

  /** The item slot is in both tables. */
  predicate Has(book: StockBook, truck: string, item: string)
  {
    truck in book.prev && item in book.prev[truck] && truck in book.flags && item in book.flags[truck]
  }

  /**
   * One item checked: flag it when its level went from positive to 0, and
   * remember the level. The tables miss a slot only when two trucks share a
   * name and list different item names: the opening tables keep the last such
   * truck's items, and the source then fails with a KeyError on the first
   * truck's items (engine.py:112). The model skips the missing slot instead.
   */
  function CheckItem(book: StockBook, truck: string, item: string, level: int): (r: StockBook)
    ensures r.prev.Keys == book.prev.Keys && r.flags.Keys == book.flags.Keys
    ensures Has(book, truck, item) ==> Has(r, truck, item) && r.prev[truck][item] == level
    ensures !Has(book, truck, item) ==> r == book
  {
    if !Has(book, truck, item) then book
    else
      var flags := if book.prev[truck][item] > 0 && level == 0
        then book.flags[truck := book.flags[truck][item := 1]] else book.flags;
      StockBook(book.prev[truck := book.prev[truck][item := level]], flags)
  }

  /** Every item of one truck checked, in menu order. */
  function CheckItems(book: StockBook, truck: string, items: seq<string>, levels: seq<int>): (r: StockBook)
    requires |levels| == |items|
  {
    if items == [] then book
    else
      var n := |items| - 1;
      CheckItem(CheckItems(book, truck, items[..n], levels[..n]), truck, items[n], levels[n])
  }

  /** Every item of every truck checked, truck by truck: one stock check after a student's decision. */
  function CheckAll(book: StockBook, shelves: seq<Shelf>, levels: seq<seq<int>>): (r: StockBook)
    requires Fits(shelves, levels)
  {
    if shelves == [] then book
    else
      var n := |shelves| - 1;
      CheckItems(CheckAll(book, shelves[..n], levels[..n]), shelves[n].truck, shelves[n].items, levels[n])
  }

  /** Checking one more truck after the first `i`: the checks so far, then that truck's items. */
  lemma CheckAllNext(book: StockBook, shelves: seq<Shelf>, levels: seq<seq<int>>, i: nat)
    requires i < |shelves| && i < |levels| && Fits(shelves[..i], levels[..i]) && |levels[i]| == |shelves[i].items|
    ensures Fits(shelves[..i + 1], levels[..i + 1])
    ensures CheckAll(book, shelves[..i + 1], levels[..i + 1])
         == CheckItems(CheckAll(book, shelves[..i], levels[..i]), shelves[i].truck, shelves[i].items, levels[i])
  {
    assert shelves[..i + 1][..i] == shelves[..i] && levels[..i + 1][..i] == levels[..i];
  }

  /** A stock check adds no truck and drops none. */
  lemma {:induction false} CheckAllKeepsTrucks(book: StockBook, shelves: seq<Shelf>, levels: seq<seq<int>>)
    requires Fits(shelves, levels)
    ensures var r := CheckAll(book, shelves, levels);
      r.prev.Keys == book.prev.Keys && r.flags.Keys == book.flags.Keys
    decreases |shelves|
  {
    if shelves != [] {
      var n := |shelves| - 1;
      CheckAllKeepsTrucks(book, shelves[..n], levels[..n]);
      CheckItemsKeepsTrucks(CheckAll(book, shelves[..n], levels[..n]), shelves[n].truck, shelves[n].items, levels[n]);
    }
  }

  lemma {:induction false} CheckItemsKeepsTrucks(book: StockBook, truck: string, items: seq<string>, levels: seq<int>)
    requires |levels| == |items|
    ensures var r := CheckItems(book, truck, items, levels);
      r.prev.Keys == book.prev.Keys && r.flags.Keys == book.flags.Keys
    decreases |items|
  {
    if items != [] {
      var n := |items| - 1;
      CheckItemsKeepsTrucks(book, truck, items[..n], levels[..n]);
    }
  }

  lemma CoversPrefix<V>(shelves: seq<Shelf>, n: nat, m: map<string, map<string, V>>)
    requires n <= |shelves| && Covers(shelves, m)
    ensures Covers(shelves[..n], m)
  {
    assert forall i :: 0 <= i < n ==> shelves[..n][i] == shelves[i];
  }

  lemma DistinctPrefix(names: seq<string>, n: nat)
    requires n <= |names| && DistinctNames(names)
    ensures DistinctNames(names[..n])
    ensures forall k :: 0 <= k < n ==> names[..n][k] == names[k]
  {
  }

  /** One item check keeps every slot, and leaves another truck's slots alone. */
  lemma CheckItemElsewhere(book: StockBook, truck: string, item: string, level: int, t: string)
    requires t in book.prev && t in book.flags
    ensures var r := CheckItem(book, truck, item, level);
      && t in r.prev && t in r.flags
      && (forall x :: Has(book, t, x) ==> Has(r, t, x))
      && (t != truck ==> r.prev[t] == book.prev[t] && r.flags[t] == book.flags[t])
  {
  }

  /** What one item check leaves in a slot of the same truck. */
  lemma CheckItemAt(book: StockBook, truck: string, item: string, level: int, x: string)
    requires Has(book, truck, item) && Has(book, truck, x)
    ensures var r := CheckItem(book, truck, item, level);
      && Has(r, truck, x)
      && r.prev[truck][x] == (if x == item then level else book.prev[truck][x])
      && r.flags[truck][x] ==
           if x == item && book.prev[truck][x] > 0 && level == 0 then 1 else book.flags[truck][x]
  {
  }

  /** Checking one truck's items keeps every slot, and leaves another truck's slots alone. */
  lemma {:induction false} CheckItemsOther(book: StockBook, truck: string, items: seq<string>, levels: seq<int>, t: string)
    requires |levels| == |items|
    requires t in book.prev && t in book.flags
    ensures var r := CheckItems(book, truck, items, levels);
      && t in r.prev && t in r.flags
      && (forall x :: Has(book, t, x) ==> Has(r, t, x))
      && (t != truck ==> r.prev[t] == book.prev[t] && r.flags[t] == book.flags[t])
    decreases |items|
  {
    if items != [] {
      var n := |items| - 1;
      CheckItemsOther(book, truck, items[..n], levels[..n], t);
      CheckItemElsewhere(CheckItems(book, truck, items[..n], levels[..n]), truck, items[n], levels[n], t);
    }
  }

  /** Checking a truck's items leaves its other items' slots alone. */
  lemma {:induction false} CheckItemsUntouched(book: StockBook, truck: string, items: seq<string>, levels: seq<int>, x: string)
    requires |levels| == |items|
    requires Has(book, truck, x) && x !in items
    ensures var r := CheckItems(book, truck, items, levels);
      Has(r, truck, x) && r.prev[truck][x] == book.prev[truck][x] && r.flags[truck][x] == book.flags[truck][x]
    decreases |items|
  {
    if items != [] {
      var n := |items| - 1;
      assert x != items[n] && x !in items[..n];
      CheckItemsUntouched(book, truck, items[..n], levels[..n], x);
      var before := CheckItems(book, truck, items[..n], levels[..n]);
      if Has(before, truck, items[n]) {
        CheckItemAt(before, truck, items[n], levels[n], x);
      }
    }
  }

  /**
   * With distinct item names, checking a truck's items remembers each item's
   * level and flags it when the level went from positive to 0.
   */
  lemma {:induction false} CheckItemsSlot(book: StockBook, truck: string, items: seq<string>, levels: seq<int>, j: nat)
    requires |levels| == |items|
    requires forall k :: 0 <= k < |items| ==> Has(book, truck, items[k])
    requires DistinctNames(items) && j < |items|
    ensures var r := CheckItems(book, truck, items, levels);
      && Has(book, truck, items[j]) && Has(r, truck, items[j])
      && r.prev[truck][items[j]] == levels[j]
      && r.flags[truck][items[j]] ==
           if book.prev[truck][items[j]] > 0 && levels[j] == 0 then 1 else book.flags[truck][items[j]]
    decreases |items|
  {
    var n := |items| - 1;
    assert forall k :: 0 <= k < n ==> items[..n][k] == items[k] && levels[..n][k] == levels[k];
    var before := CheckItems(book, truck, items[..n], levels[..n]);
    var x := items[j];
    CheckItemsOther(book, truck, items[..n], levels[..n], truck);
    assert Has(before, truck, items[n]) && Has(before, truck, x);
    CheckItemAt(before, truck, items[n], levels[n], x);
    if j < n {
      DistinctPrefix(items, n);
      assert x != items[n];
      CheckItemsSlot(book, truck, items[..n], levels[..n], j);
    } else {
      assert x !in items[..n];
      CheckItemsUntouched(book, truck, items[..n], levels[..n], x);
    }
  }

  /** Truck names listed after a unique-named prefix. */
  lemma UniquePrefix(shelves: seq<Shelf>, n: nat)
    requires n <= |shelves| && UniqueNames(shelves)
    ensures UniqueNames(shelves[..n])
    ensures TruckNames(shelves[..n]) == TruckNames(shelves)[..n]
    ensures forall i :: 0 <= i < n ==> shelves[..n][i] == shelves[i]
    ensures n < |shelves| ==> shelves[n].truck !in TruckNames(shelves[..n])
  {
    var names := TruckNames(shelves);
    assert forall i :: 0 <= i < n ==> shelves[..n][i] == shelves[i];
    assert TruckNames(shelves[..n]) == names[..n];
    DistinctPrefix(names, n);
    if n < |shelves| {
      forall i | 0 <= i < n ensures names[i] != shelves[n].truck {
        assert names[n] == shelves[n].truck;
      }
    }
  }

  /** A stock check keeps every slot, and leaves the slots of a truck not on the shelves alone. */
  lemma {:induction false} CheckAllOther(book: StockBook, shelves: seq<Shelf>, levels: seq<seq<int>>, u: string)
    requires Fits(shelves, levels)
    requires u in book.prev && u in book.flags
    ensures var r := CheckAll(book, shelves, levels);
      && u in r.prev && u in r.flags
      && (forall x :: Has(book, u, x) ==> Has(r, u, x))
      && (u !in TruckNames(shelves) ==> r.prev[u] == book.prev[u] && r.flags[u] == book.flags[u])
    decreases |shelves|
  {
    if shelves != [] {
      var n := |shelves| - 1;
      var prefix := shelves[..n];
      assert forall k :: 0 <= k < n ==> prefix[k] == shelves[k] && levels[..n][k] == levels[k];
      assert TruckNames(prefix) == TruckNames(shelves)[..n];
      CheckAllOther(book, prefix, levels[..n], u);
      CheckItemsOther(CheckAll(book, prefix, levels[..n]), shelves[n].truck, shelves[n].items, levels[n], u);
    }
  }

  /** One slot after a stock check: its level is remembered and it is flagged when the level fell from positive to 0. */
  lemma {:induction false} CheckAllSlot(book: StockBook, shelves: seq<Shelf>, levels: seq<seq<int>>, i: nat, j: nat)
    requires Fits(shelves, levels)
    requires Covers(shelves, book.prev) && Covers(shelves, book.flags)
    requires UniqueNames(shelves)
    requires i < |shelves| && j < |shelves[i].items|
    ensures var r := CheckAll(book, shelves, levels);
      var t := shelves[i].truck;
      var x := shelves[i].items[j];
      && Has(r, t, x)
      && r.prev[t][x] == levels[i][j]
      && r.flags[t][x] == if book.prev[t][x] > 0 && levels[i][j] == 0 then 1 else book.flags[t][x]
    decreases |shelves|, 1
  {
    if i < |shelves| - 1 {
      CheckAllSlotEarlier(book, shelves, levels, i, j);
    } else {
      CheckAllSlotLast(book, shelves, levels, j);
    }
  }

  /** A slot of the last shelf checked: the earlier shelves left it as it was. */
  lemma CheckAllSlotLast(book: StockBook, shelves: seq<Shelf>, levels: seq<seq<int>>, j: nat)
    requires Fits(shelves, levels)
    requires Covers(shelves, book.prev) && Covers(shelves, book.flags)
    requires UniqueNames(shelves)
    requires shelves != [] && j < |shelves[|shelves| - 1].items|
    ensures var r := CheckAll(book, shelves, levels);
      var n := |shelves| - 1;
      var t := shelves[n].truck;
      var x := shelves[n].items[j];
      && Has(r, t, x)
      && r.prev[t][x] == levels[n][j]
      && r.flags[t][x] == if book.prev[t][x] > 0 && levels[n][j] == 0 then 1 else book.flags[t][x]
  {
    var n := |shelves| - 1;
    var prefix := shelves[..n];
    UniquePrefix(shelves, n);
    assert Fits(prefix, levels[..n]);
    var before := CheckAll(book, prefix, levels[..n]);
    var t := shelves[n].truck;
    var items := shelves[n].items;
    CheckAllOther(book, prefix, levels[..n], t);
    assert forall k :: 0 <= k < |items| ==> Has(book, t, items[k]);
    CheckItemsSlot(before, t, items, levels[n], j);
  }

  /** A slot of an earlier shelf: checking the last shelf, a different truck, leaves it alone. */
  lemma {:induction false} CheckAllSlotEarlier(book: StockBook, shelves: seq<Shelf>, levels: seq<seq<int>>, i: nat, j: nat)
    requires Fits(shelves, levels)
    requires Covers(shelves, book.prev) && Covers(shelves, book.flags)
    requires UniqueNames(shelves)
    requires i < |shelves| - 1 && j < |shelves[i].items|
    ensures var r := CheckAll(book, shelves, levels);
      var t := shelves[i].truck;
      var x := shelves[i].items[j];
      && Has(r, t, x)
      && r.prev[t][x] == levels[i][j]
      && r.flags[t][x] == if book.prev[t][x] > 0 && levels[i][j] == 0 then 1 else book.flags[t][x]
    decreases |shelves|, 0
  {
    var n := |shelves| - 1;
    var prefix := shelves[..n];
    CoversPrefix(shelves, n, book.prev);
    CoversPrefix(shelves, n, book.flags);
    UniquePrefix(shelves, n);
    assert Fits(prefix, levels[..n]);
    var before := CheckAll(book, prefix, levels[..n]);
    CheckAllSlot(book, prefix, levels[..n], i, j);
    assert TruckNames(shelves)[i] != TruckNames(shelves)[n];
    CheckItemsOther(before, shelves[n].truck, shelves[n].items, levels[n], shelves[i].truck);
  }

  /**
   * With unique names, one stock check remembers every item's level and flags
   * every item whose level went from positive to 0.
   */
  lemma CheckAllEffect(book: StockBook, shelves: seq<Shelf>, levels: seq<seq<int>>)
    requires Fits(shelves, levels)
    requires Covers(shelves, book.prev) && Covers(shelves, book.flags)
    requires UniqueNames(shelves)
    ensures var r := CheckAll(book, shelves, levels);
      forall i, j :: 0 <= i < |shelves| && 0 <= j < |shelves[i].items| ==>
        var t := shelves[i].truck;
        var x := shelves[i].items[j];
        && Has(r, t, x)
        && r.prev[t][x] == levels[i][j]
        && r.flags[t][x] == if book.prev[t][x] > 0 && levels[i][j] == 0 then 1 else book.flags[t][x]
  {
    forall i: nat, j: nat | i < |shelves| && j < |shelves[i].items| {
      CheckAllSlot(book, shelves, levels, i, j);
    }
  }

  /** `{name: level}` over a truck's items; a repeated name keeps its last level. */
  function ItemLevels(items: seq<string>, levels: seq<int>): (r: map<string, int>)
    requires |levels| == |items|
    ensures forall k :: 0 <= k < |items| ==> items[k] in r
  {
    if items == [] then map[]
    else
      var n := |items| - 1;
      ItemLevels(items[..n], levels[..n])[items[n] := levels[n]]
  }

  /** `{name: 0}` over a truck's items. */
  function ZeroFlags(items: seq<string>): (r: map<string, nat>)
    ensures forall k :: 0 <= k < |items| ==> items[k] in r && r[items[k]] == 0
  {
    map x | x in items :: 0
  }

  /** The tables at the start of a day: every item's level as first seen, and no flags. */
  function InitialBook(shelves: seq<Shelf>, levels: seq<seq<int>>): (r: StockBook)
    requires Fits(shelves, levels)
    ensures r.prev.Keys == r.flags.Keys
  {
    if shelves == [] then StockBook(map[], map[])
    else
      var n := |shelves| - 1;
      var book := InitialBook(shelves[..n], levels[..n]);
      var t := shelves[n].truck;
      StockBook(book.prev[t := ItemLevels(shelves[n].items, levels[n])], book.flags[t := ZeroFlags(shelves[n].items)])
  }

  /** With distinct names, each item's level is in the map under its name. */
  lemma {:induction false} ItemLevelsAt(items: seq<string>, levels: seq<int>, j: nat)
    requires |levels| == |items| && DistinctNames(items) && j < |items|
    ensures items[j] in ItemLevels(items, levels) && ItemLevels(items, levels)[items[j]] == levels[j]
    decreases |items|
  {
    var n := |items| - 1;
    if j < n {
      DistinctPrefix(items, n);
      assert levels[..n][j] == levels[j];
      ItemLevelsAt(items[..n], levels[..n], j);
    }
  }

  /** With unique names, the start-of-day tables hold each item's level and a 0 flag. */
  lemma {:induction false} InitialBookSlot(shelves: seq<Shelf>, levels: seq<seq<int>>, i: nat, j: nat)
    requires Fits(shelves, levels) && UniqueNames(shelves)
    requires i < |shelves| && j < |shelves[i].items|
    ensures var book := InitialBook(shelves, levels);
      var t := shelves[i].truck;
      var x := shelves[i].items[j];
      Has(book, t, x) && book.prev[t][x] == levels[i][j] && book.flags[t][x] == 0
    decreases |shelves|
  {
    var n := |shelves| - 1;
    UniquePrefix(shelves, n);
    assert Fits(shelves[..n], levels[..n]);
    if i < n {
      assert levels[..n][i] == levels[i];
      assert TruckNames(shelves)[i] != TruckNames(shelves)[n];
      InitialBookSlot(shelves[..n], levels[..n], i, j);
      InitialBookFrame(shelves, levels, shelves[i].truck);
    } else {
      ItemLevelsAt(shelves[n].items, levels[n], j);
    }
  }

  /** Adding the last shelf leaves the other trucks' tables alone. */
  lemma InitialBookFrame(shelves: seq<Shelf>, levels: seq<seq<int>>, u: string)
    requires Fits(shelves, levels) && shelves != [] && u != shelves[|shelves| - 1].truck
    ensures var n := |shelves| - 1;
      var book := InitialBook(shelves, levels);
      var before := InitialBook(shelves[..n], levels[..n]);
      && (u in before.prev ==> u in book.prev && book.prev[u] == before.prev[u])
      && (u in before.flags ==> u in book.flags && book.flags[u] == before.flags[u])
  {
    var n := |shelves| - 1;
    assert Fits(shelves[..n], levels[..n]);
  }

  /** The start-of-day tables have an entry for every truck. */
  lemma {:induction false} InitialBookHasTruck(shelves: seq<Shelf>, levels: seq<seq<int>>, i: nat)
    requires Fits(shelves, levels) && i < |shelves|
    ensures shelves[i].truck in InitialBook(shelves, levels).prev && shelves[i].truck in InitialBook(shelves, levels).flags
    decreases |shelves|
  {
    var n := |shelves| - 1;
    if i < n {
      assert Fits(shelves[..n], levels[..n]) && shelves[..n][i] == shelves[i];
      InitialBookHasTruck(shelves[..n], levels[..n], i);
    }
  }

  /** With unique names, the start-of-day tables have a slot for every item. */
  lemma InitialBookCovers(shelves: seq<Shelf>, levels: seq<seq<int>>)
    requires Fits(shelves, levels) && UniqueNames(shelves)
    ensures Covers(shelves, InitialBook(shelves, levels).prev) && Covers(shelves, InitialBook(shelves, levels).flags)
  {
    var book := InitialBook(shelves, levels);
    forall i | 0 <= i < |shelves|
      ensures shelves[i].truck in book.prev && shelves[i].truck in book.flags
      ensures forall j :: 0 <= j < |shelves[i].items| ==> Has(book, shelves[i].truck, shelves[i].items[j])
    {
      InitialBookHasTruck(shelves, levels, i);
      forall j | 0 <= j < |shelves[i].items| ensures Has(book, shelves[i].truck, shelves[i].items[j]) {
        InitialBookSlot(shelves, levels, i, j);
      }
    }
  }

  /** Every snapshot in `history` fits the shelves. */
  predicate AllFit(shelves: seq<Shelf>, history: seq<seq<seq<int>>>)
  {
    forall k :: 0 <= k < |history| ==> Fits(shelves, history[k])
  }

  /** One stock check per snapshot, in order: the day's stock checks after each student. */
  function Replay(book: StockBook, shelves: seq<Shelf>, steps: seq<seq<seq<int>>>): StockBook
    requires AllFit(shelves, steps)
  {
    if steps == [] then book
    else
      var n := |steps| - 1;
      CheckAll(Replay(book, shelves, steps[..n]), shelves, steps[n])
  }

  /** The stock book after a day's checks: the opening tables of the first snapshot, then one check per later snapshot. */
  function DayBook(shelves: seq<Shelf>, history: seq<seq<seq<int>>>): StockBook
    requires history != [] && AllFit(shelves, history)
  {
    assert AllFit(shelves, history[1..]) by {
      forall k | 0 <= k < |history| - 1 ensures Fits(shelves, history[1..][k]) {
        assert history[1..][k] == history[k + 1];
      }
    }
    Replay(InitialBook(shelves, history[0]), shelves, history[1..])
  }

  /** The levels of item `j` of shelf `i`, snapshot by snapshot. */
  function Column(shelves: seq<Shelf>, history: seq<seq<seq<int>>>, i: nat, j: nat): (r: seq<int>)
    requires AllFit(shelves, history) && i < |shelves| && j < |shelves[i].items|
    ensures |r| == |history|
    ensures forall k :: 0 <= k < |history| ==> r[k] == history[k][i][j]
  {
    if history == [] then []
    else
      var n := |history| - 1;
      Column(shelves, history[..n], i, j) + [history[n][i][j]]
  }

  /** Somewhere in `col` a positive level is followed by 0. */
  predicate Falls(col: seq<int>)
  {
    exists k :: 0 <= k < |col| - 1 && col[k] > 0 && col[k + 1] == 0
  }

  lemma FallsAppend(col: seq<int>, v: int)
    requires col != []
    ensures Falls(col + [v]) <==> Falls(col) || (col[|col| - 1] > 0 && v == 0)
  {
    var c := col + [v];
    if Falls(c) && !(col[|col| - 1] > 0 && v == 0) {
      var k :| 0 <= k < |c| - 1 && c[k] > 0 && c[k + 1] == 0;
      assert k < |col| - 1 && col[k] > 0 && col[k + 1] == 0;
    }
    if Falls(col) {
      var k :| 0 <= k < |col| - 1 && col[k] > 0 && col[k + 1] == 0;
      assert c[k] > 0 && c[k + 1] == 0;
    }
    if col[|col| - 1] > 0 && v == 0 {
      assert c[|col| - 1] > 0 && c[|col|] == 0;
    }
  }

  /**
   * With unique names, after replaying the day's stock checks an item's table
   * entry holds its last level, and it is flagged exactly when its level fell
   * from positive to 0 between two consecutive snapshots (or it was flagged
   * already).
   */
  lemma {:induction false} ReplaySlot(book: StockBook, shelves: seq<Shelf>, steps: seq<seq<seq<int>>>, i: nat, j: nat)
    requires AllFit(shelves, steps)
    requires Covers(shelves, book.prev) && Covers(shelves, book.flags)
    requires UniqueNames(shelves)
    requires i < |shelves| && j < |shelves[i].items|
    ensures var r := Replay(book, shelves, steps);
      var t := shelves[i].truck;
      var x := shelves[i].items[j];
      var col := [book.prev[t][x]] + Column(shelves, steps, i, j);
      && Has(r, t, x)
      && r.prev[t][x] == col[|col| - 1]
      && r.flags[t][x] == if Falls(col) then 1 else book.flags[t][x]
    decreases |steps|
  {
    var t := shelves[i].truck;
    var x := shelves[i].items[j];
    if steps != [] {
      var n := |steps| - 1;
      assert AllFit(shelves, steps[..n]);
      ReplaySlot(book, shelves, steps[..n], i, j);
      var before := Replay(book, shelves, steps[..n]);
      ReplayCovers(book, shelves, steps[..n]);
      CheckAllSlot(before, shelves, steps[n], i, j);
      var col := [book.prev[t][x]] + Column(shelves, steps[..n], i, j);
      FallsAppend(col, steps[n][i][j]);
      assert [book.prev[t][x]] + Column(shelves, steps, i, j) == col + [steps[n][i][j]];
    } else {
      assert !Falls([book.prev[t][x]]);
    }
  }

  /** Replayed stock checks keep every truck's tables. */
  lemma {:induction false} ReplayKeepsTruck(book: StockBook, shelves: seq<Shelf>, steps: seq<seq<seq<int>>>, u: string)
    requires AllFit(shelves, steps)
    requires u in book.prev && u in book.flags
    ensures u in Replay(book, shelves, steps).prev && u in Replay(book, shelves, steps).flags
    decreases |steps|
  {
    if steps != [] {
      var n := |steps| - 1;
      assert AllFit(shelves, steps[..n]);
      ReplayKeepsTruck(book, shelves, steps[..n], u);
      CheckAllOther(Replay(book, shelves, steps[..n]), shelves, steps[n], u);
    }
  }

  /** Replayed stock checks keep a slot for every item. */
  lemma {:induction false} ReplayCovers(book: StockBook, shelves: seq<Shelf>, steps: seq<seq<seq<int>>>)
    requires AllFit(shelves, steps)
    requires Covers(shelves, book.prev) && Covers(shelves, book.flags)
    ensures var r := Replay(book, shelves, steps);
      Covers(shelves, r.prev) && Covers(shelves, r.flags)
    decreases |steps|
  {
    if steps != [] {
      var n := |steps| - 1;
      assert AllFit(shelves, steps[..n]);
      ReplayCovers(book, shelves, steps[..n]);
      var before := Replay(book, shelves, steps[..n]);
      var r := CheckAll(before, shelves, steps[n]);
      forall i | 0 <= i < |shelves|
        ensures shelves[i].truck in r.prev && shelves[i].truck in r.flags
        ensures forall j :: 0 <= j < |shelves[i].items| ==> Has(r, shelves[i].truck, shelves[i].items[j])
      {
        CheckAllOther(before, shelves, steps[n], shelves[i].truck);
        forall j | 0 <= j < |shelves[i].items| ensures Has(r, shelves[i].truck, shelves[i].items[j]) {
          assert Has(before, shelves[i].truck, shelves[i].items[j]);
        }
      }
    }
  }

  /**
   * A day's stockout flags: starting from the start-of-day tables over
   * `history[0]` and checking after each later snapshot, an item is flagged
   * (1) exactly when its level fell from positive to 0 at some step, and
   * is 0 otherwise; the remembered level is the last one.
   */
  lemma DayStockouts(shelves: seq<Shelf>, history: seq<seq<seq<int>>>, i: nat, j: nat)
    requires AllFit(shelves, history) && history != []
    requires UniqueNames(shelves)
    requires i < |shelves| && j < |shelves[i].items|
    ensures var r := DayBook(shelves, history);
      var t := shelves[i].truck;
      var x := shelves[i].items[j];
      var col := Column(shelves, history, i, j);
      && Has(r, t, x)
      && r.prev[t][x] == history[|history| - 1][i][j]
      && r.flags[t][x] == if Falls(col) then 1 else 0
  {
    var book := InitialBook(shelves, history[0]);
    InitialBookSlot(shelves, history[0], i, j);
    InitialBookCovers(shelves, history[0]);
    assert AllFit(shelves, history[1..]);
    ReplaySlot(book, shelves, history[1..], i, j);
    ColumnSplit(shelves, history, i, j);
  }

  lemma ColumnSplit(shelves: seq<Shelf>, history: seq<seq<seq<int>>>, i: nat, j: nat)
    requires AllFit(shelves, history) && history != []
    requires i < |shelves| && j < |shelves[i].items|
    ensures AllFit(shelves, history[1..])
    ensures Column(shelves, history, i, j) == [history[0][i][j]] + Column(shelves, history[1..], i, j)
  {
    assert AllFit(shelves, history[1..]);
  }

  /** One student step of an item's level: unchanged, or one unit sold from a positive level. */
  predicate StepDown(before: int, after: int)
  {
    after == before || (before > 0 && after == before - 1)
  }

  /** Every step of `col` is a `StepDown`. */
  predicate StepsDown(col: seq<int>)
  {
    forall k :: 0 <= k < |col| - 1 ==> StepDown(col[k], col[k + 1])
  }

  /**
   * In a column whose every step is a `StepDown`, a fall to 0 happens exactly
   * when it starts positive and ends at 0; it never ends above its start.
   */
  lemma {:induction false} FallsWhenSteppingDown(col: seq<int>)
    requires col != [] && StepsDown(col)
    ensures Falls(col) <==> col[0] > 0 && col[|col| - 1] == 0
    ensures col[|col| - 1] <= col[0]
    decreases |col|
  {
    var n := |col| - 1;
    if n > 0 {
      var prefix := col[..n];
      assert forall k :: 0 <= k < n ==> prefix[k] == col[k];
      FallsWhenSteppingDown(prefix);
      FallsAppend(prefix, col[n]);
      assert prefix + [col[n]] == col;
    }
  }
}
