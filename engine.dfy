/**
 * The simulation engine (ftsim/simulation/engine.py): a day resets the trucks,
 * rotates the school-lunch menu, draws every student's daily state, serves
 * the students in arrival order while tallying each truck's takings and
 * checking for items that just ran out; a run repeats the day and adds the
 * days up, naming the truck with the most revenue as the winner.
 */
module Engine {
  import opened Wrappers
  import opened Seqs
  import opened Config
  import opened MenuItems
  import opened Students
  import opened Vendors
  import opened Scorer
  import opened Decision
  import opened DailyStates
  import opened Tally
  import opened Snapshots
  import opened Results

  /** A permutation of `0..n`: the arrival order `random.shuffle` produces, by position. */
  predicate IsPermutation(order: seq<nat>, n: nat)
  {
    && |order| == n
    && (forall k :: 0 <= k < n ==> order[k] < n)
    && (forall k, l :: 0 <= k < l < n ==> order[k] != order[l])
  }

  /** The random draws of one day, as inputs: the school-lunch samples, one daily draw per student, and the arrival order. */
  datatype DayDraws = DayDraws(foodPicks: seq<nat>, drinkPicks: seq<nat>, students: seq<DailyDraw>, order: seq<nat>)

  /** The day's draws fit `n` students. */
  predicate DrawsFit(draws: DayDraws, n: nat)
  {
    && IsSample(draws.foodPicks, |SchoolLunchFoodPool|)
    && IsSample(draws.drinkPicks, |SchoolLunchDrinkPool|)
    && |draws.students| == n
    && IsPermutation(draws.order, n)
  }

  /** `states` in arrival order. */
  function Arrange<T>(states: seq<T>, order: seq<nat>): (r: seq<T>)
    requires forall k :: 0 <= k < |order| ==> order[k] < |states|
    ensures |r| == |order|
    ensures forall k :: 0 <= k < |order| ==> r[k] == states[order[k]]
  {
    seq(|order|, k requires 0 <= k < |order| => states[order[k]])
  }

  /** `{p.student_id: p for p in students}`: a repeated id keeps its last profile. */
  function ProfileLookup(students: seq<StudentProfile>): (r: map<int, StudentProfile>)
    ensures forall i :: 0 <= i < |students| ==> students[i].studentId in r
    ensures forall id :: id in r ==> r[id].studentId == id
  {
    if students == [] then map[]
    else
      var n := |students| - 1;
      ProfileLookup(students[..n])[students[n].studentId := students[n]]
  }

  /** The lookup finds the last profile that has the id. */
  lemma {:induction false} ProfileLookupIsLast(students: seq<StudentProfile>, i: nat)
    requires i < |students|
    requires forall k :: i < k < |students| ==> students[k].studentId != students[i].studentId
    ensures ProfileLookup(students)[students[i].studentId] == students[i]
    decreases |students|
  {
    var n := |students| - 1;
    if i < n {
      assert forall k :: i < k < n ==> students[..n][k] == students[k];
      ProfileLookupIsLast(students[..n], i);
    }
  }

  /** The day's running tallies: revenue, customers and units sold per truck name, students lost per reason. */
  datatype DayTally = DayTally(
    revenue: map<string, real>,
    customers: map<string, nat>,
    itemsSold: map<string, map<string, nat>>,
    losses: map<string, nat>)

  /**
   * `revenue`, `customers` and `itemsSold` hold the tallies of `records` for
   * the trucks named `names`: a name's revenue, customers and units sold per
   * item are those of its customers among `records`; only units sold are
   * recorded.
   */
  ghost predicate TrucksTallied(revenue: map<string, real>, customers: map<string, nat>,
                                itemsSold: map<string, map<string, nat>>, names: seq<string>, records: seq<StateRecord>)
  {
    && (forall i :: 0 <= i < |names| ==>
          && names[i] in revenue && revenue[names[i]] == Revenue(records, names[i])
          && names[i] in customers && customers[names[i]] == Customers(records, names[i])
          && names[i] in itemsSold)
    && (forall i, x :: 0 <= i < |names| ==> Get(itemsSold[names[i]], x) == Sold(records, names[i], x))
    && (forall n, x :: n in itemsSold && x in itemsSold[n] ==> itemsSold[n][x] > 0)
  }

  /** `losses` holds, per reason, the number of `records` lost for it; only reasons that occur are recorded. */
  ghost predicate LossesTallied(losses: map<string, nat>, records: seq<StateRecord>)
  {
    && (forall reason :: Get(losses, reason) == Losses(records, reason))
    && (forall reason :: reason in losses ==> losses[reason] > 0)
  }

  /** `tally` holds the day's tallies of `records`, for the trucks named `names`. */
  ghost predicate TallyOf(tally: DayTally, names: seq<string>, records: seq<StateRecord>)
  {
    TrucksTallied(tally.revenue, tally.customers, tally.itemsSold, names, records) && LossesTallied(tally.losses, records)
  }

  /** The tallies at the start of a day: 0 revenue and no customers for every truck, nothing sold, nobody lost. */
  function OpenTally(names: seq<string>): (t: DayTally)
    ensures forall n :: n in names ==> n in t.revenue && t.revenue[n] == 0.0 && n in t.customers && t.customers[n] == 0
    ensures forall n :: n in names ==> n in t.itemsSold && t.itemsSold[n] == map[]
    ensures t.revenue.Keys == t.customers.Keys == t.itemsSold.Keys && t.losses == map[]
  {
    DayTally(map n | n in names :: 0.0, map n | n in names :: 0, map n | n in names :: map[], map[])
  }

  lemma OpenTallyIsEmpty(names: seq<string>)
    ensures TallyOf(OpenTally(names), names, [])
  {
  }

  /** One more record: each tally grows by what that record adds. */
  lemma AppendRecord(records: seq<StateRecord>, r: StateRecord)
    ensures var all := records + [r];
      && (forall n :: Revenue(all, n) == Revenue(records, n) + (if BoughtFrom(r, n) then r.totalSpent else 0.0))
      && (forall n :: Customers(all, n) == Customers(records, n) + (if BoughtFrom(r, n) then 1 else 0))
      && (forall n, x :: Sold(all, n, x) == Sold(records, n, x) + (if BoughtFrom(r, n) then Count(r.purchasedItems, x) else 0))
      && (forall reason :: Losses(all, reason) == Losses(records, reason) + (if LostFor(r, reason) then 1 else 0))
  {
    assert (records + [r])[..|records|] == records;
  }

  /** `Count` over one more name. */
  lemma CountStep(names: seq<string>, k: nat)
    requires k < |names|
    ensures forall x :: Count(names[..k + 1], x) == Count(names[..k], x) + (if names[k] == x then 1 else 0)
  {
    assert names[..k + 1][..k] == names[..k];
  }

  /** `counts` with one more for each name of `items` (`counts[name] = counts.get(name, 0) + 1`, item by item). */
  method AddUnits(counts: map<string, nat>, items: seq<string>) returns (r: map<string, nat>)
    ensures forall x :: Get(r, x) == Get(counts, x) + Count(items, x)
    ensures forall x :: x in r ==> x in counts || r[x] > 0
  {
    r := counts;
    for k := 0 to |items|
      invariant forall x :: Get(r, x) == Get(counts, x) + Count(items[..k], x)
      invariant forall x :: x in r ==> x in counts || r[x] > 0
    {
      CountStep(items, k);
      r := Bump(r, items[k]);
    }
    assert items[..|items|] == items;
  }

  /** A record that is no truck's customer leaves the truck tallies as they are. */
  lemma NonCustomerStep(t: DayTally, names: seq<string>, records: seq<StateRecord>, r: StateRecord)
    requires TrucksTallied(t.revenue, t.customers, t.itemsSold, names, records)
    requires !BoughtFromTruck(r)
    ensures TrucksTallied(t.revenue, t.customers, t.itemsSold, names, records + [r])
  {
    AppendRecord(records, r);
  }

  /** A customer of the truck `name` adds one customer, what they spent and their units to that truck alone. */
  lemma CustomerStep(t: DayTally, names: seq<string>, records: seq<StateRecord>, r: StateRecord, units: map<string, nat>)
    requires TrucksTallied(t.revenue, t.customers, t.itemsSold, names, records)
    requires BoughtFromTruck(r) && r.purchasedFromTruck.value in names
    requires var name := r.purchasedFromTruck.value;
      && (forall x :: Get(units, x) == Get(t.itemsSold[name], x) + Count(r.purchasedItems, x))
      && (forall x :: x in units ==> x in t.itemsSold[name] || units[x] > 0)
    ensures var name := r.purchasedFromTruck.value;
      TrucksTallied(t.revenue[name := t.revenue[name] + r.totalSpent], t.customers[name := t.customers[name] + 1],
                    t.itemsSold[name := units], names, records + [r])
  {
    AppendRecord(records, r);
    var name := r.purchasedFromTruck.value;
    var revenue := t.revenue[name := t.revenue[name] + r.totalSpent];
    var customers := t.customers[name := t.customers[name] + 1];
    var itemsSold := t.itemsSold[name := units];
    var all := records + [r];
    forall i | 0 <= i < |names|
      ensures names[i] in revenue && revenue[names[i]] == Revenue(all, names[i])
      ensures names[i] in customers && customers[names[i]] == Customers(all, names[i])
    {
      assert BoughtFrom(r, names[i]) <==> names[i] == name;
    }
    forall i, x | 0 <= i < |names| ensures Get(itemsSold[names[i]], x) == Sold(all, names[i], x) {
      assert BoughtFrom(r, names[i]) <==> names[i] == name;
    }
    forall n, x | n in itemsSold && x in itemsSold[n] ensures itemsSold[n][x] > 0 {
      if n == name && x in t.itemsSold[name] {
        assert Get(units, x) >= Get(t.itemsSold[name], x);
      }
    }
  }

  /** A lost record adds one to its reason. */
  lemma LossStep(losses: map<string, nat>, records: seq<StateRecord>, r: StateRecord)
    requires LossesTallied(losses, records)
    ensures LossesTallied(if Lost(r) then Bump(losses, r.lossReason.value) else losses, records + [r])
  {
    AppendRecord(records, r);
  }

  /**
   * Records one served student in the day's tallies: a customer of a truck
   * adds one customer, what they spent and one unit per purchased item to
   * that truck; a lost student adds one to their loss reason.
   */
  method RecordOutcome(tally: DayTally, ghost names: seq<string>, ghost records: seq<StateRecord>, r: StateRecord)
      returns (next: DayTally)
    requires TallyOf(tally, names, records)
    requires BoughtFromTruck(r) ==> r.purchasedFromTruck.value in names
    ensures TallyOf(next, names, records + [r])
  {
    next := tally;
    if r.purchasedItems != [] && r.purchasedFromTruck.Some? && r.purchasedFromTruck.value != "" {
      var name := r.purchasedFromTruck.value;
      var units := AddUnits(next.itemsSold[name], r.purchasedItems);
      CustomerStep(tally, names, records, r, units);
      next := DayTally(next.revenue[name := next.revenue[name] + r.totalSpent],
                       next.customers[name := next.customers[name] + 1],
                       next.itemsSold[name := units],
                       next.losses);
    } else {
      NonCustomerStep(tally, names, records, r);
    }
    LossStep(tally.losses, records, r);
    if r.lossReason.Some? && r.lossReason.value != "" {
      next := next.(losses := Bump(next.losses, r.lossReason.value));
    }
  }

  /**
   * What a served student's record shows: they spent no more than their
   * money; they bought something exactly when the record names a truck, one
   * of `names`, and then lost nothing and chose no other vendor; otherwise
   * they spent nothing, chose exactly one of school lunch and fast food, and
   * carry the stockout, school-lunch or fast-food loss reason.
   */
  predicate Settled(r: StateRecord, names: seq<string>)
  {
    && r.totalSpent <= r.availableMoney
    && (r.purchasedItems != [] <==> r.purchasedFromTruck.Some?)
    && (r.purchasedFromTruck.Some? ==>
          r.purchasedFromTruck.value in names && r.lossReason.None? && !r.choseSchoolLunch && !r.choseFastFood)
    && (r.purchasedItems == [] ==>
          && r.totalSpent == 0.0
          && r.choseSchoolLunch != r.choseFastFood
          && r.lossReason.Some?
          && r.lossReason.value in {LossReasonStockout, LossReasonSchoolLunch, LossReasonFastFood})
  }

  /** A settled buyer bought from one of the named trucks. */
  lemma SettledBought(r: StateRecord, names: seq<string>)
    requires Settled(r, names)
    ensures BoughtFromTruck(r) ==> r.purchasedFromTruck.value in names
  {
  }

  /** With named trucks, a settled student is a truck customer or a loss, never both. */
  lemma SettledIsAccounted(r: StateRecord, names: seq<string>)
    requires Settled(r, names)
    requires forall i :: 0 <= i < |names| ==> names[i] != ""
    ensures Accounted(r)
  {
  }

  /** The record carries the drawn attributes of the state it was exported from. */
  predicate ExportOf(r: StateRecord, state: StudentDailyState)
  {
    && r.studentId == state.studentId && r.availableMoney == state.availableMoney
    && r.mood == state.mood && r.isDrowsy == state.isDrowsy
  }

  /**
   * A served student's record shows the decision `outcome` taken over the
   * truck listings `listings`: without a candidate they fall back to the
   * school lunch and are lost to a stockout; a school-lunch or fast-food win
   * is that choice and that loss; a truck win is a purchase from that truck
   * of the chosen food, then the chosen drink exactly when it fits in the
   * money left after the food.
   */
  predicate Follows(r: StateRecord, outcome: Outcome, listings: seq<Listing>, names: seq<string>)
  {
    match outcome
    case NoCandidate => r.purchasedItems == [] && r.choseSchoolLunch && r.lossReason == Some(LossReasonStockout)
    case SchoolWins => r.purchasedItems == [] && r.choseSchoolLunch && r.lossReason == Some(LossReasonSchoolLunch)
    case FastFoodWins => r.purchasedItems == [] && r.choseFastFood && r.lossReason == Some(LossReasonFastFood)
    case TruckWins(t, f, d) =>
      && t < |names| && t < |listings| && f < |listings[t].food|
      && r.purchasedFromTruck == Some(names[t])
      && var food := listings[t].food[f];
      && (|r.purchasedItems| == 2 <==>
            d.Some? && d.value < |listings[t].drinks| && listings[t].drinks[d.value].price <= r.availableMoney - food.price)
      && r.purchasedItems == [food.name] + (if |r.purchasedItems| == 2 then [listings[t].drinks[d.value].name] else [])
  }

  /**
   * A truck sale exported: the record names the winning truck, the food at
   * the chosen position of its listing, and the drink too exactly when one
   * was chosen and still affordable.
   */
  lemma TruckSaleFollows(r: StateRecord, outcome: Outcome, listings: seq<Listing>, names: seq<string>,
                         sold: seq<MenuItem>, food: seq<MenuItem>, drinks: seq<MenuItem>)
    requires outcome.TruckWins? && outcome.truck < |names| && outcome.truck < |listings|
    requires listings[outcome.truck] == Listing(Catalogs(food), Catalogs(drinks))
    requires outcome.food < |food| && (outcome.drink.Some? ==> outcome.drink.value < |drinks|)
    requires 1 <= |sold| <= 2 && sold[0] == food[outcome.food]
    requires |sold| == 2 <==>
      outcome.drink.Some? && drinks[outcome.drink.value].catalog.price <= r.availableMoney - sold[0].catalog.price
    requires |sold| == 2 ==> sold[1] == drinks[outcome.drink.value]
    requires |r.purchasedItems| == |sold| && forall i :: 0 <= i < |sold| ==> r.purchasedItems[i] == sold[i].catalog.name
    requires r.purchasedFromTruck == Some(names[outcome.truck])
    ensures Follows(r, outcome, listings, names)
  {
    var t, f := outcome.truck, outcome.food;
    var head := listings[t].food[f];
    assert head == sold[0].catalog;
    if |sold| == 2 {
      assert listings[t].drinks[outcome.drink.value] == sold[1].catalog;
      assert r.purchasedItems == [head.name] + [listings[t].drinks[outcome.drink.value].name];
    } else {
      assert r.purchasedItems == [head.name];
    }
  }

  /**
   * A student who arrived with nothing bought, exported after the decision
   * policy settled `outcome`: the record follows that outcome over the
   * listings the trucks offered before the sale.
   */
  twostate lemma SaleFollows(trucks: seq<FoodTruck>, new names: seq<string>, new outcome: Outcome,
                             new sold: seq<MenuItem>, new record: StateRecord)
    requires |names| == |trucks| && forall t :: 0 <= t < |trucks| ==> names[t] == trucks[t].name
    requires forall t :: 0 <= t < |trucks| ==> old(TruckListings(trucks))[t] == old(TruckListing(trucks[t]))
    requires |record.purchasedItems| == |sold| <= 2
    requires forall i :: 0 <= i < |sold| ==> record.purchasedItems[i] == sold[i].catalog.name
    requires outcome.NoCandidate? ==> sold == [] && record.choseSchoolLunch && record.lossReason == Some(LossReasonStockout)
    requires outcome.SchoolWins? ==> sold == [] && record.choseSchoolLunch && record.lossReason == Some(LossReasonSchoolLunch)
    requires outcome.FastFoodWins? ==> sold == [] && record.choseFastFood && record.lossReason == Some(LossReasonFastFood)
    requires outcome.TruckWins? ==>
      && outcome.truck < |trucks|
      && outcome.food < |old(trucks[outcome.truck].AvailableFood())|
      && (outcome.drink.Some? ==> outcome.drink.value < |old(trucks[outcome.truck].AvailableDrinks())|)
      && 1 <= |sold|
      && sold[0] == old(trucks[outcome.truck].AvailableFood()[outcome.food])
      && (|sold| == 2 <==>
            && outcome.drink.Some?
            && old(trucks[outcome.truck].AvailableDrinks()[outcome.drink.value]).catalog.price
                 <= record.availableMoney - sold[0].catalog.price)
      && (|sold| == 2 ==> sold[1] == old(trucks[outcome.truck].AvailableDrinks()[outcome.drink.value]))
      && record.purchasedFromTruck == Some(trucks[outcome.truck].name)
    ensures Follows(record, outcome, old(TruckListings(trucks)), names)
  {
    if outcome.TruckWins? {
      var t := outcome.truck;
      TruckSaleFollows(record, outcome, old(TruckListings(trucks)), names, sold,
                       old(trucks[t].AvailableFood()), old(trucks[t].AvailableDrinks()));
    }
  }

  /**
   * A student at the counter as the decision policy sees them: their profile,
   * the day's drawn attributes, the burger joint and the matcher the scorer
   * uses.
   */
  datatype Decider = Decider(profile: StudentProfile, attrs: DailyAttributes, fastFood: FastFood, fuzzy: FuzzyMatcher)

  /**
   * The record follows the decision of `decider` over the truck listings
   * `listings` and the school lunch's listing. The decision is named by a
   * bound variable, so that the decision policy is unfolded only where a
   * proof asks for this record's outcome.
   */
  predicate Decided(r: StateRecord, decider: Decider, listings: seq<Listing>, school: Listing, names: seq<string>)
  {
    match decider
    case Decider(profile, attrs, fastFood, fuzzy) =>
      forall outcome | outcome == Decide(listings, school, BurgerListing(profile, fastFood), DinerFor(profile, attrs, fuzzy)) ::
        Follows(r, outcome, listings, names)
  }

  /**
   * The records follow, in order, the decisions of `deciders`: the record at
   * each position is `Decided` by the decider at that position over what the
   * trucks offered at the stock snapshot `history` holds for that position.
   */
  predicate DecidedInTurn(records: seq<StateRecord>, deciders: seq<Decider>, catalogs: seq<seq<CatalogItem>>,
                          history: seq<seq<seq<int>>>, school: Listing, names: seq<string>)
  {
    && |records| <= |deciders| && |records| <= |history|
    && forall k {:trigger Decided(records[k], deciders[k], ListingsAt(catalogs, history[k]), school, names)} ::
         0 <= k < |records| ==> Decided(records[k], deciders[k], ListingsAt(catalogs, history[k]), school, names)
  }

  /**
   * The day's deciders in arrival order: the student at each position of
   * `order`, with the profile the lookup by id gives for their id and the
   * attributes drawn for them.
   */
  function DayDeciders(students: seq<StudentProfile>, draws: seq<DailyDraw>, order: seq<nat>,
                       fastFood: FastFood, fuzzy: FuzzyMatcher): (r: seq<Decider>)
    requires |draws| == |students| && forall k :: 0 <= k < |order| ==> order[k] < |students|
    ensures |r| == |order|
    ensures forall k :: 0 <= k < |order| ==>
      r[k] == Decider(ProfileLookup(students)[students[order[k]].studentId],
                      DailyAttributesFor(students[order[k]], draws[order[k]]), fastFood, fuzzy)
  {
    seq(|order|, k requires 0 <= k < |order| =>
      Decider(ProfileLookup(students)[students[order[k]].studentId],
              DailyAttributesFor(students[order[k]], draws[order[k]]), fastFood, fuzzy))
  }

  /** With distinct ids, every decider of the day decides with the arriving student's own profile. */
  lemma OwnProfiles(students: seq<StudentProfile>, draws: seq<DailyDraw>, order: seq<nat>,
                    fastFood: FastFood, fuzzy: FuzzyMatcher)
    requires |draws| == |students| && forall k :: 0 <= k < |order| ==> order[k] < |students|
    requires forall i, j :: 0 <= i < j < |students| ==> students[i].studentId != students[j].studentId
    ensures forall k :: 0 <= k < |order| ==>
      DayDeciders(students, draws, order, fastFood, fuzzy)[k]
        == Decider(students[order[k]], DailyAttributesFor(students[order[k]], draws[order[k]]), fastFood, fuzzy)
  {
    forall k | 0 <= k < |order|
      ensures ProfileLookup(students)[students[order[k]].studentId] == students[order[k]]
    {
      ProfileLookupIsLast(students, order[k]);
    }
  }

  /**
   * The day's records decided in turn, read position by position: when the
   * students' ids are distinct, the record at position `k` follows the
   * decision of the student who arrived `k`-th, with their own profile and
   * the attributes drawn for them, over what the trucks offered when they
   * reached the counter.
   */
  lemma DecidedInArrivalOrder(records: seq<StateRecord>, students: seq<StudentProfile>, draws: seq<DailyDraw>, order: seq<nat>,
                              fastFood: FastFood, fuzzy: FuzzyMatcher, catalogs: seq<seq<CatalogItem>>,
                              history: seq<seq<seq<int>>>, school: Listing, names: seq<string>, k: nat)
    requires |draws| == |students| && forall j :: 0 <= j < |order| ==> order[j] < |students|
    requires forall i, j :: 0 <= i < j < |students| ==> students[i].studentId != students[j].studentId
    requires DecidedInTurn(records, DayDeciders(students, draws, order, fastFood, fuzzy), catalogs, history, school, names)
    requires k < |records|
    ensures k < |order| && k < |history|
    ensures Decided(records[k], Decider(students[order[k]], DailyAttributesFor(students[order[k]], draws[order[k]]), fastFood, fuzzy),
                    ListingsAt(catalogs, history[k]), school, names)
  {
    OwnProfiles(students, draws, order, fastFood, fuzzy);
  }

  /** A listing by type of `menu`, with no stock check: what the school lunch offers when `menu` is its daily menu. */
  function MenuListing(menu: seq<CatalogItem>): (r: Listing)
    ensures Sublist(r.food, menu) && forall i :: 0 <= i < |r.food| ==> IsFoodEntry(r.food[i])
    ensures Sublist(r.drinks, menu) && forall i :: 0 <= i < |r.drinks| ==> IsDrinkEntry(r.drinks[i])
  {
    Listing(Filter(menu, IsFoodEntry), Filter(menu, IsDrinkEntry))
  }

  /**
   * The arrival at position `|records|`, decided by its decider over what the
   * trucks offered at its snapshot: the day's records, one longer and with
   * one more snapshot, are still decided in turn.
   */
  lemma DecidedArrival(records: seq<StateRecord>, deciders: seq<Decider>, catalogs: seq<seq<CatalogItem>>,
                       history: seq<seq<seq<int>>>, levels: seq<seq<int>>, record: StateRecord, school: Listing, names: seq<string>)
    requires DecidedInTurn(records, deciders, catalogs, history, school, names)
    requires |records| < |deciders| && |records| < |history|
    requires Decided(record, deciders[|records|], ListingsAt(catalogs, history[|records|]), school, names)
    ensures DecidedInTurn(records + [record], deciders, catalogs, history + [levels], school, names)
  {
    var h := history + [levels];
    forall k | 0 <= k < |records| + 1
      ensures Decided((records + [record])[k], deciders[k], ListingsAt(catalogs, h[k]), school, names)
    {
      assert h[k] == history[k];
    }
  }

  /**
   * The day so far: each record is exported from the arrival at its position
   * and settled; the tallies are those of the records; `history` holds one
   * stock snapshot more than there are records, each a step down from the
   * one before, and `book` holds the stock checks after each student.
   */
  ghost predicate DayProgress(arrivals: seq<StudentDailyState>, names: seq<string>, shelves: seq<Shelf>,
                              records: seq<StateRecord>, tally: DayTally, book: StockBook, history: seq<seq<seq<int>>>)
  {
    && |records| <= |arrivals| && |history| == |records| + 1
    && (forall k :: 0 <= k < |records| ==> ExportOf(records[k], arrivals[k]) && Settled(records[k], names))
    && TallyOf(tally, names, records)
    && AllFit(shelves, history) && SteppedDown(history)
    && book == DayBook(shelves, history)
  }

  /**
   * The day so far, with the decisions: `DayProgress`, and the records
   * decided in turn over the snapshots of `history`.
   */
  ghost predicate Served(arrivals: seq<StudentDailyState>, names: seq<string>, shelves: seq<Shelf>,
                         deciders: seq<Decider>, catalogs: seq<seq<CatalogItem>>, school: Listing,
                         records: seq<StateRecord>, tally: DayTally, book: StockBook, history: seq<seq<seq<int>>>)
  {
    && DayProgress(arrivals, names, shelves, records, tally, book, history)
    && DecidedInTurn(records, deciders, catalogs, history, school, names)
  }

  /** Before the first arrival: no records, the opening tallies, one snapshot and the stock book of it. */
  lemma OpenProgress(arrivals: seq<StudentDailyState>, names: seq<string>, shelves: seq<Shelf>, levels: seq<seq<int>>)
    requires Fits(shelves, levels)
    ensures DayProgress(arrivals, names, shelves, [], OpenTally(names), InitialBook(shelves, levels), [levels])
    ensures SalesInTurn(shelves, [], [levels])
  {
    OpenTallyIsEmpty(names);
    assert [levels][1..] == [];
  }

  /** One more student served, tallied and checked: the day progresses by one record and one snapshot. */
  lemma ProgressStep(arrivals: seq<StudentDailyState>, names: seq<string>, shelves: seq<Shelf>,
                     records: seq<StateRecord>, tally: DayTally, book: StockBook, history: seq<seq<seq<int>>>,
                     record: StateRecord, next: DayTally, levels: seq<seq<int>>)
    requires DayProgress(arrivals, names, shelves, records, tally, book, history) && |records| < |arrivals|
    requires ExportOf(record, arrivals[|records|]) && Settled(record, names)
    requires TallyOf(next, names, records + [record])
    requires Fits(shelves, levels) && SnapshotStep(history[|history| - 1], levels)
    ensures DayProgress(arrivals, names, shelves, records + [record], next, CheckAll(book, shelves, levels), history + [levels])
  {
    SettledStep(records, arrivals, names, record);
    HistoryStep(shelves, history, levels, book);
  }

  /** One more served student: the records stay exported and settled, position by position. */
  lemma SettledStep(records: seq<StateRecord>, arrivals: seq<StudentDailyState>, names: seq<string>, record: StateRecord)
    requires |records| < |arrivals|
    requires forall k :: 0 <= k < |records| ==> ExportOf(records[k], arrivals[k]) && Settled(records[k], names)
    requires ExportOf(record, arrivals[|records|]) && Settled(record, names)
    ensures forall k :: 0 <= k < |records| + 1 ==>
      ExportOf((records + [record])[k], arrivals[k]) && Settled((records + [record])[k], names)
  {
  }

  /**
   * One more snapshot after a stock check: the history still fits and steps
   * down, and the stock book is the replay of one more check.
   */
  lemma HistoryStep(shelves: seq<Shelf>, history: seq<seq<seq<int>>>, levels: seq<seq<int>>, book: StockBook)
    requires history != [] && AllFit(shelves, history) && SteppedDown(history)
    requires Fits(shelves, levels) && SnapshotStep(history[|history| - 1], levels)
    requires book == DayBook(shelves, history)
    ensures var h := history + [levels];
      && AllFit(shelves, h) && SteppedDown(h) && h[0] == history[0]
      && CheckAll(book, shelves, levels) == DayBook(shelves, h)
  {
    var h := history + [levels];
    forall k | 0 <= k < |h| ensures Fits(shelves, h[k]) {
      if k < |history| {
        assert h[k] == history[k];
      }
    }
    forall k | 0 <= k < |h| - 1 ensures SnapshotStep(h[k], h[k + 1]) {
      if k < |history| - 1 {
        assert h[k] == history[k] && h[k + 1] == history[k + 1];
      }
    }
    ReplayOneMore(InitialBook(shelves, history[0]), shelves, history[1..], levels);
    assert h[1..] == history[1..] + [levels];
  }

  /** Replaying one more snapshot is one more stock check. */
  lemma ReplayOneMore(book: StockBook, shelves: seq<Shelf>, steps: seq<seq<seq<int>>>, levels: seq<seq<int>>)
    requires AllFit(shelves, steps) && Fits(shelves, levels)
    ensures AllFit(shelves, steps + [levels])
    ensures Replay(book, shelves, steps + [levels]) == CheckAll(Replay(book, shelves, steps), shelves, levels)
  {
    var s := steps + [levels];
    assert forall k :: 0 <= k < |steps| ==> s[k] == steps[k];
    assert s[..|s| - 1] == steps;
  }

  /** The arrivals from position `i` on have not been served yet. */
  ghost predicate Waiting(arrivals: seq<StudentDailyState>, i: nat)
    reads set k | i <= k < |arrivals| :: arrivals[k]
  {
    forall k :: i <= k < |arrivals| ==> arrivals[k].Undecided() && 0.0 <= arrivals[k].availableMoney
  }

  /** Every truck item is at its daily stock. */
  predicate AtDailyStock(trucks: seq<FoodTruck>)
    reads set i, j | 0 <= i < |trucks| && 0 <= j < |trucks[i].menu| :: trucks[i].menu[j]
  {
    forall i, j :: 0 <= i < |trucks| && 0 <= j < |trucks[i].menu| ==>
      trucks[i].menu[j].currentInventory == trucks[i].menu[j].catalog.inventoryPerDay
  }

  /** At daily stock, the stock levels are the daily stock levels. */
  lemma DailyStockLevels(trucks: seq<FoodTruck>)
    requires AtDailyStock(trucks)
    ensures Levels(trucks) == DailyLevels(trucks)
  {
    forall i | 0 <= i < |trucks|
      ensures Levels(trucks)[i] == DailyLevels(trucks)[i]
    {
      assert forall j :: 0 <= j < |trucks[i].menu| ==> Levels(trucks)[i][j] == DailyLevels(trucks)[i][j];
    }
  }

  /** A served student's record describes their profile and the day's draw for them. */
  predicate Describes(r: StateRecord, profile: StudentProfile, draw: DailyDraw)
  {
    var attrs := DailyAttributesFor(profile, draw);
    && r.studentId == profile.studentId
    && r.availableMoney == attrs.availableMoney && r.mood == attrs.mood && r.isDrowsy == attrs.isDrowsy
  }

  /** Replaying the day's stock checks from the start-of-day tables keeps a table for every truck. */
  lemma ReplayHasTrucks(shelves: seq<Shelf>, history: seq<seq<seq<int>>>)
    requires AllFit(shelves, history) && history != []
    ensures var r := DayBook(shelves, history);
      forall i :: 0 <= i < |shelves| ==> shelves[i].truck in r.prev && shelves[i].truck in r.flags
  {
    assert AllFit(shelves, history[1..]);
    forall i | 0 <= i < |shelves|
      ensures shelves[i].truck in DayBook(shelves, history).flags
      ensures shelves[i].truck in DayBook(shelves, history).prev
    {
      InitialBookHasTruck(shelves, history[0], i);
      ReplayKeepsTruck(InitialBook(shelves, history[0]), shelves, history[1..], shelves[i].truck);
    }
  }

  /**
   * With unique names, the day's stockout flag of every truck item is 1
   * exactly when the item started the day in stock and ended it at 0.
   */
  lemma StockoutFlags(shelves: seq<Shelf>, history: seq<seq<seq<int>>>)
    requires AllFit(shelves, history) && history != [] && SteppedDown(history) && UniqueNames(shelves)
    ensures var r := DayBook(shelves, history);
      forall i, j :: 0 <= i < |shelves| && 0 <= j < |shelves[i].items| ==>
        && Has(r, shelves[i].truck, shelves[i].items[j])
        && r.flags[shelves[i].truck][shelves[i].items[j]] ==
             if history[0][i][j] > 0 && history[|history| - 1][i][j] == 0 then 1 else 0
  {
    forall i, j | 0 <= i < |shelves| && 0 <= j < |shelves[i].items|
      ensures var r := DayBook(shelves, history);
        && Has(r, shelves[i].truck, shelves[i].items[j])
        && r.flags[shelves[i].truck][shelves[i].items[j]] ==
             if history[0][i][j] > 0 && history[|history| - 1][i][j] == 0 then 1 else 0
    {
      DayStockouts(shelves, history, i, j);
      ColumnStepsDown(shelves, history, i, j);
      FallsWhenSteppingDown(Column(shelves, history, i, j));
    }
  }

  /**
   * The day's stockout flags in `results`: every truck item's flag is 1
   * exactly when its level in `first` was positive and its level in `last`
   * is 0.
   */
  ghost predicate FlagsStockouts(results: map<string, TruckDailyResult>, shelves: seq<Shelf>,
                                 first: seq<seq<int>>, last: seq<seq<int>>)
    requires Fits(shelves, first) && Fits(shelves, last)
  {
    forall i, j :: 0 <= i < |shelves| && 0 <= j < |shelves[i].items| ==>
      && shelves[i].truck in results
      && shelves[i].items[j] in results[shelves[i].truck].stockouts
      && results[shelves[i].truck].stockouts[shelves[i].items[j]] == if first[i][j] > 0 && last[i][j] == 0 then 1 else 0
  }

  /** Records exported from the day's arrivals describe the profiles and draws the arrivals came from. */
  lemma ExportsDescribe(records: seq<StateRecord>, arrivals: seq<StudentDailyState>, students: seq<StudentProfile>, draws: DayDraws)
    requires DrawsFit(draws, |students|) && |records| == |arrivals| == |students|
    requires forall k :: 0 <= k < |arrivals| ==> ExportOf(records[k], arrivals[k])
    requires forall k :: 0 <= k < |arrivals| ==>
      var p := draws.order[k];
      arrivals[k].studentId == students[p].studentId && arrivals[k].Attributes() == DailyAttributesFor(students[p], draws.students[p])
    ensures forall k :: 0 <= k < |records| ==> Describes(records[k], students[draws.order[k]], draws.students[draws.order[k]])
  {
  }

  /** The truck results hold the day's tallies of the records, for every truck name. */
  lemma ResultsTallied(result: DailyResult, names: seq<string>, tally: DayTally, flags: map<string, map<string, nat>>)
    requires TallyOf(tally, names, result.studentStates)
    requires forall i :: 0 <= i < |names| ==>
      var n := names[i];
      n in flags && n in result.truckResults
      && result.truckResults[n] == TruckDailyResult(n, tally.revenue[n], tally.customers[n], tally.itemsSold[n], flags[n])
    ensures forall i :: 0 <= i < |names| ==> DayTallied(result, names[i])
  {
    forall i | 0 <= i < |names| ensures DayTallied(result, names[i]) {
      TalliedAt(result, names, tally, flags, i);
    }
  }

  /** The truck result at one name holds that name's tallies. */
  lemma TalliedAt(result: DailyResult, names: seq<string>, tally: DayTally, flags: map<string, map<string, nat>>, i: nat)
    requires TrucksTallied(tally.revenue, tally.customers, tally.itemsSold, names, result.studentStates)
    requires i < |names| && names[i] in flags && names[i] in result.truckResults
    requires var n := names[i];
      result.truckResults[n] == TruckDailyResult(n, tally.revenue[n], tally.customers[n], tally.itemsSold[n], flags[n])
    ensures DayTallied(result, names[i])
  {
  }

  /** Every truck's result carries the stockout flags kept under the truck's name. */
  predicate FlagsCarried(results: map<string, TruckDailyResult>, shelves: seq<Shelf>, flags: map<string, map<string, nat>>)
  {
    forall i :: 0 <= i < |shelves| ==>
      var n := shelves[i].truck;
      n in flags && n in results && results[n].stockouts == flags[n]
  }

  /**
   * With unique names, the stockout flags of the truck results are those of
   * the replayed stock checks: 1 exactly for the items in stock at the start
   * of the day and at 0 at its end.
   */
  lemma ResultsFlagStockouts(results: map<string, TruckDailyResult>, shelves: seq<Shelf>, history: seq<seq<seq<int>>>,
                              flags: map<string, map<string, nat>>)
    requires AllFit(shelves, history) && history != [] && SteppedDown(history) && UniqueNames(shelves)
    requires flags == DayBook(shelves, history).flags && FlagsCarried(results, shelves, flags)
    ensures FlagsStockouts(results, shelves, history[0], history[|history| - 1])
  {
    StockoutFlags(shelves, history);
  }

  /** `truck_results`: one result per truck name, from the day's tallies and stockout flags. */
  method TruckResults(names: seq<string>, tally: DayTally, flags: map<string, map<string, nat>>)
      returns (results: map<string, TruckDailyResult>)
    requires forall i :: 0 <= i < |names| ==>
      names[i] in tally.revenue && names[i] in tally.customers && names[i] in tally.itemsSold && names[i] in flags
    ensures forall n :: n in results <==> n in names
    ensures forall i :: 0 <= i < |names| ==>
      var n := names[i];
      results[n] == TruckDailyResult(n, tally.revenue[n], tally.customers[n], tally.itemsSold[n], flags[n])
  {
    results := map[];
    for i := 0 to |names|
      invariant forall n :: n in results <==> n in names[..i]
      invariant forall i' :: 0 <= i' < i ==>
        var n := names[i'];
        results[n] == TruckDailyResult(n, tally.revenue[n], tally.customers[n], tally.itemsSold[n], flags[n])
    {
      var n := names[i];
      results := results[n := TruckDailyResult(n, tally.revenue[n], tally.customers[n], tally.itemsSold[n], flags[n])];
    }
    assert names[..|names|] == names;
  }

  /**
   * A day's result as the engine builds it for the trucks named `names` and
   * `n` students: one record per student, each settled; one truck result
   * per name, holding the tallies of the records; the losses tallied per
   * reason.
   */
  ghost predicate DayReport(r: DailyResult, names: seq<string>, n: nat)
  {
    && r.totalStudents == n && |r.studentStates| == n
    && (forall k :: 0 <= k < n ==> Settled(r.studentStates[k], names))
    && (forall x :: x in r.truckResults <==> x in names)
    && (forall i :: 0 <= i < |names| ==> DayTallied(r, names[i]))
    && LossesTallied(r.lossesByReason, r.studentStates)
  }

  /**
   * One day decided in turn: the day's records follow the decisions of the
   * day's arrivals, drawn by `draw`, over the day's stock snapshots `history`
   * and the day's school-lunch menu.
   */
  ghost predicate DayDecided(day: DailyResult, history: seq<seq<seq<int>>>, draw: DayDraws,
                             students: seq<StudentProfile>, fastFood: FastFood, fuzzy: FuzzyMatcher,
                             catalogs: seq<seq<CatalogItem>>, names: seq<string>)
  {
    && DrawsFit(draw, |students|)
    && DecidedInTurn(day.studentStates, DayDeciders(students, draw.students, draw.order, fastFood, fuzzy),
                     catalogs, history, MenuListing(day.schoolLunchMenu), names)
  }

  /** Every day of the run so far decided in turn, day `d` by `draws[d]` over `histories[d]`. */
  ghost predicate DaysDecided(days: seq<DailyResult>, histories: seq<seq<seq<seq<int>>>>, draws: seq<DayDraws>,
                              students: seq<StudentProfile>, fastFood: FastFood, fuzzy: FuzzyMatcher,
                              catalogs: seq<seq<CatalogItem>>, names: seq<string>)
  {
    && |days| <= |draws| && |histories| == |days|
    && forall d :: 0 <= d < |days| ==> DayDecided(days[d], histories[d], draws[d], students, fastFood, fuzzy, catalogs, names)
  }

  /** One more day decided in turn: the run so far, one day longer, is still decided day by day. */
  lemma DaysDecidedStep(days: seq<DailyResult>, histories: seq<seq<seq<seq<int>>>>, draws: seq<DayDraws>,
                        students: seq<StudentProfile>, fastFood: FastFood, fuzzy: FuzzyMatcher,
                        catalogs: seq<seq<CatalogItem>>, names: seq<string>, result: DailyResult, history: seq<seq<seq<int>>>)
    requires DaysDecided(days, histories, draws, students, fastFood, fuzzy, catalogs, names)
    requires |days| < |draws| && DrawsFit(draws[|days|], |students|)
    requires DecidedInTurn(result.studentStates, DayDeciders(students, draws[|days|].students, draws[|days|].order, fastFood, fuzzy),
                           catalogs, history, MenuListing(result.schoolLunchMenu), names)
    ensures DaysDecided(days + [result], histories + [history], draws, students, fastFood, fuzzy, catalogs, names)
  {
    var days', histories' := days + [result], histories + [history];
    assert DayDecided(result, history, draws[|days|], students, fastFood, fuzzy, catalogs, names);
    forall d | 0 <= d < |days'|
      ensures DayDecided(days'[d], histories'[d], draws[d], students, fastFood, fuzzy, catalogs, names)
    {
      if d < |days| {
        assert days'[d] == days[d] && histories'[d] == histories[d];
      }
    }
  }

  /**
   * Every day's sales, day by day: each day's stock levels start at the daily
   * stock and step down, record by record, by the units each record took.
   */
  ghost predicate DaysSold(days: seq<DailyResult>, histories: seq<seq<seq<seq<int>>>>, shelves: seq<Shelf>, daily: seq<seq<int>>)
  {
    && |histories| == |days|
    && forall d :: 0 <= d < |days| ==>
         histories[d] != [] && histories[d][0] == daily && SalesInTurn(shelves, days[d].studentStates, histories[d])
  }

  /** One more day sold in turn: the run so far, one day longer, still sells day by day. */
  lemma DaysSoldStep(days: seq<DailyResult>, histories: seq<seq<seq<seq<int>>>>, shelves: seq<Shelf>, daily: seq<seq<int>>,
                     result: DailyResult, history: seq<seq<seq<int>>>)
    requires DaysSold(days, histories, shelves, daily)
    requires history != [] && history[0] == daily && SalesInTurn(shelves, result.studentStates, history)
    ensures DaysSold(days + [result], histories + [history], shelves, daily)
  {
    var days', histories' := days + [result], histories + [history];
    forall d | 0 <= d < |days'|
      ensures histories'[d] != [] && histories'[d][0] == daily && SalesInTurn(shelves, days'[d].studentStates, histories'[d])
    {
      if d < |days| {
        assert days'[d] == days[d] && histories'[d] == histories[d];
      }
    }
  }

  /** One more reported day, numbered after the others. */
  lemma DaysStep(days: seq<DailyResult>, result: DailyResult, names: seq<string>, n: nat)
    requires forall e :: 0 <= e < |days| ==> days[e].day == e + 1 && DayReport(days[e], names, n)
    requires result.day == |days| + 1 && DayReport(result, names, n)
    ensures forall e :: 0 <= e < |days| + 1 ==>
      (days + [result])[e].day == e + 1 && DayReport((days + [result])[e], names, n)
  {
  }

  /** With named trucks, every student of a day is either one truck's customer or one loss. */
  lemma DayAccountsForStudents(r: DailyResult, names: seq<string>, n: nat)
    requires DayReport(r, names, n)
    requires forall i :: 0 <= i < |names| ==> names[i] != ""
    ensures TruckCustomers(r.studentStates) + LostStudents(r.studentStates) == n
  {
    forall k | 0 <= k < n ensures Accounted(r.studentStates[k]) {
      SettledIsAccounted(r.studentStates[k], names);
    }
    EveryStudentAccounted(r.studentStates);
  }

  /** With distinct truck names, the trucks' daily revenues add up to what the day's customers spent. */
  lemma DayRevenueConserved(r: DailyResult, names: seq<string>, n: nat)
    requires DayReport(r, names, n) && DistinctNames(names)
    ensures SumRevenue(r.studentStates, names) == TruckSpend(r.studentStates)
  {
    forall k | 0 <= k < n && BoughtFromTruck(r.studentStates[k])
      ensures r.studentStates[k].purchasedFromTruck.value in names
    {
    }
    RevenueConservation(r.studentStates, names);
  }

  /** One truck's run totals, day by day, and its daily averages. */
  method AggregateTruck(days: seq<DailyResult>, name: string, numDays: nat) returns (agg: TruckAggregateResult)
    requires Reports(days, name) && numDays >= 1
    ensures agg == TruckAggregateOf(days, name, numDays)
  {
    var revenue, customers, itemsSold, stockouts := 0.0, 0, map[], map[];
    for d := 0 to |days|
      invariant Reports(days[..d], name)
      invariant revenue == DaysRevenue(days[..d], name) && customers == DaysCustomers(days[..d], name)
      invariant itemsSold == DaysItemsSold(days[..d], name) && stockouts == DaysStockouts(days[..d], name)
    {
      assert days[..d + 1][..d] == days[..d];
      var t := days[d].truckResults[name];
      revenue, customers := revenue + t.revenue, customers + t.customers;
      itemsSold, stockouts := MergeCounts(itemsSold, t.itemsSold), MergeCounts(stockouts, t.stockouts);
    }
    assert days[..|days|] == days;
    agg := TruckAggregateResult(name, revenue, customers, itemsSold, stockouts,
                                revenue / numDays as real, customers as real / numDays as real);
  }

  /** `truck_aggregate`: one run record per truck name. */
  method AggregateTrucks(days: seq<DailyResult>, names: seq<string>, numDays: nat)
      returns (aggs: map<string, TruckAggregateResult>)
    requires numDays >= 1 && forall i :: 0 <= i < |names| ==> Reports(days, names[i])
    ensures forall n :: n in aggs <==> n in names
    ensures forall i :: 0 <= i < |names| ==> aggs[names[i]] == TruckAggregateOf(days, names[i], numDays)
  {
    aggs := map[];
    for i := 0 to |names|
      invariant forall n :: n in aggs <==> n in names[..i]
      invariant forall i' :: 0 <= i' < i ==> aggs[names[i']] == TruckAggregateOf(days, names[i'], numDays)
    {
      var agg := AggregateTruck(days, names[i], numDays);
      aggs := aggs[names[i] := agg];
    }
    assert names[..|names|] == names;
  }

  /** The losses per reason, merged day by day. */
  method TotalLosses(days: seq<DailyResult>) returns (total: map<string, nat>)
    ensures total == DaysLosses(days)
  {
    total := map[];
    for d := 0 to |days|
      invariant total == DaysLosses(days[..d])
    {
      assert days[..d + 1][..d] == days[..d];
      total := MergeCounts(total, days[d].lossesByReason);
    }
    assert days[..|days|] == days;
  }

  /** `max` over the names in order, by total revenue: a later name replaces the best so far only when it earned strictly more. */
  function FirstMaxOf(names: seq<string>, aggs: map<string, TruckAggregateResult>): (w: string)
    requires names != [] && forall i :: 0 <= i < |names| ==> names[i] in aggs
    ensures w in names
  {
    if |names| == 1 then names[0]
    else
      var best := FirstMaxOf(names[..|names| - 1], aggs);
      var last := names[|names| - 1];
      if aggs[last].totalRevenue > aggs[best].totalRevenue then last else best
  }

  /**
   * `winner` is a name at some position `w` whose total revenue is maximal,
   * and every name before `w` earned strictly less: the first name with the
   * maximal total revenue.
   */
  ghost predicate FirstTopEarner(winner: string, names: seq<string>, aggs: map<string, TruckAggregateResult>)
    requires forall i :: 0 <= i < |names| ==> names[i] in aggs
  {
    exists w :: 0 <= w < |names| && names[w] == winner
      && (forall i :: 0 <= i < |names| ==> aggs[names[i]].totalRevenue <= aggs[winner].totalRevenue)
      && (forall i :: 0 <= i < w ==> aggs[names[i]].totalRevenue < aggs[winner].totalRevenue)
  }

  /** The winner `max` picks is the first name with the maximal total revenue. */
  lemma FirstMaxIsTopEarner(names: seq<string>, aggs: map<string, TruckAggregateResult>)
    requires names != [] && forall i :: 0 <= i < |names| ==> names[i] in aggs
    ensures FirstTopEarner(FirstMaxOf(names, aggs), names, aggs)
  {
    var w := FirstMaxPosition(names, aggs);
  }

  /** The position of the name `max` picks: every name earned at most as much, every earlier one strictly less. */
  lemma {:induction false} FirstMaxPosition(names: seq<string>, aggs: map<string, TruckAggregateResult>) returns (w: nat)
    requires names != [] && forall i :: 0 <= i < |names| ==> names[i] in aggs
    ensures w < |names| && names[w] == FirstMaxOf(names, aggs)
    ensures forall i :: 0 <= i < |names| ==> aggs[names[i]].totalRevenue <= aggs[names[w]].totalRevenue
    ensures forall i :: 0 <= i < w ==> aggs[names[i]].totalRevenue < aggs[names[w]].totalRevenue
    decreases |names|
  {
    if |names| == 1 {
      w := 0;
    } else {
      var n := |names| - 1;
      var prefix := names[..n];
      assert forall i :: 0 <= i < n ==> prefix[i] == names[i];
      var v := FirstMaxPosition(prefix, aggs);
      var top := aggs[names[v]].totalRevenue;
      if aggs[names[n]].totalRevenue > top {
        w := n;
      } else {
        w := v;
      }
    }
  }

  /**
   * Over days that each report the trucks named `names`, every name has a
   * result every day, its run totals count every student-day, and so do the
   * run's loss totals.
   */
  lemma RunFacts(days: seq<DailyResult>, names: seq<string>, n: nat)
    requires forall d :: 0 <= d < |days| ==> DayReport(days[d], names, n)
    ensures forall i :: 0 <= i < |names| ==> Reports(days, names[i])
    ensures forall i :: 0 <= i < |names| ==>
      && DaysRevenue(days, names[i]) == RunRevenue(days, names[i])
      && DaysCustomers(days, names[i]) == RunCustomers(days, names[i])
      && forall x :: Get(DaysItemsSold(days, names[i]), x) == RunSold(days, names[i], x)
    ensures forall reason :: Get(DaysLosses(days), reason) == RunLosses(days, reason)
  {
    forall i | 0 <= i < |names|
      ensures Reports(days, names[i])
      ensures DaysRevenue(days, names[i]) == RunRevenue(days, names[i])
      ensures DaysCustomers(days, names[i]) == RunCustomers(days, names[i])
      ensures forall x :: Get(DaysItemsSold(days, names[i]), x) == RunSold(days, names[i], x)
    {
      RunTotalsCountStudents(days, names[i]);
    }
    RunLossesCountStudents(days);
  }

  /**
   * A run's aggregate over its days for the trucks named `names`: one run
   * record per name, holding the totals over the days, which count every
   * student-day's purchases, and the daily averages; the losses per reason
   * over the days, which count every lost student-day; and the winner, the
   * first name with the maximal total revenue.
   */
  ghost predicate Aggregated(r: CompetitionAggregateResult, names: seq<string>)
  {
    && r.totalDays >= 1
    && (forall x :: x in r.truckResults <==> x in names)
    && (forall i :: 0 <= i < |names| ==>
          && Reports(r.dailyResults, names[i])
          && r.truckResults[names[i]] == TruckAggregateOf(r.dailyResults, names[i], r.totalDays)
          && r.truckResults[names[i]].totalRevenue == RunRevenue(r.dailyResults, names[i])
          && r.truckResults[names[i]].totalCustomers == RunCustomers(r.dailyResults, names[i])
          && (forall x :: Get(r.truckResults[names[i]].totalItemsSold, x) == RunSold(r.dailyResults, names[i], x)))
    && r.totalLossesByReason == DaysLosses(r.dailyResults)
    && (forall reason :: Get(r.totalLossesByReason, reason) == RunLosses(r.dailyResults, reason))
    && FirstTopEarner(r.winner, names, r.truckResults)
  }

  /** `len(self.students) * self.num_days`: every student served once a day. */
  function StudentDays(perDay: nat, numDays: nat): nat
  {
    perDay * numDays
  }

  /**
   * The aggregation at the end of a run over `days` for the trucks named
   * `names` and `n` students a day.
   */
  method Aggregate(days: seq<DailyResult>, names: seq<string>, numDays: nat, n: nat) returns (result: CompetitionAggregateResult)
    requires numDays >= 1 && names != [] && |days| == numDays
    requires forall d :: 0 <= d < |days| ==> DayReport(days[d], names, n)
    ensures result.totalDays == numDays && result.totalStudentsServed == n * numDays && result.dailyResults == days
    ensures Aggregated(result, names)
  {
    RunFacts(days, names, n);
    var aggs := AggregateTrucks(days, names, numDays);
    var losses := TotalLosses(days);
    var winner := FirstMaxOf(names, aggs);
    result := CompetitionAggregateResult(numDays, aggs, losses, StudentDays(n, numDays), winner, days);
    AggregatedHolds(result, names);
  }

  /**
   * A run record built from the per-name aggregates, the merged losses and
   * the `max` winner is `Aggregated`, once the day-by-day totals are known
   * to count the student-days.
   */
  lemma AggregatedHolds(r: CompetitionAggregateResult, names: seq<string>)
    requires r.totalDays >= 1 && names != []
    requires forall x :: x in r.truckResults <==> x in names
    requires forall i :: 0 <= i < |names| ==> Reports(r.dailyResults, names[i])
    requires forall i :: 0 <= i < |names| ==>
      r.truckResults[names[i]] == TruckAggregateOf(r.dailyResults, names[i], r.totalDays)
    requires forall i :: 0 <= i < |names| ==>
      && DaysRevenue(r.dailyResults, names[i]) == RunRevenue(r.dailyResults, names[i])
      && DaysCustomers(r.dailyResults, names[i]) == RunCustomers(r.dailyResults, names[i])
      && forall x :: Get(DaysItemsSold(r.dailyResults, names[i]), x) == RunSold(r.dailyResults, names[i], x)
    requires r.totalLossesByReason == DaysLosses(r.dailyResults)
    requires forall reason :: Get(DaysLosses(r.dailyResults), reason) == RunLosses(r.dailyResults, reason)
    requires r.winner == FirstMaxOf(names, r.truckResults)
    ensures Aggregated(r, names)
  {
    FirstMaxIsTopEarner(names, r.truckResults);
  }

  /** The stock check of one truck, item by item in menu order: each item's level against the remembered one. */
  method CheckTruck(book: StockBook, truck: string, items: seq<string>, levels: seq<int>) returns (after: StockBook)
    requires |levels| == |items|
    ensures after == CheckItems(book, truck, items, levels)
  {
    after := book;
    for j := 0 to |items|
      invariant after == CheckItems(book, truck, items[..j], levels[..j])
    {
      assert items[..j + 1][..j] == items[..j] && levels[..j + 1][..j] == levels[..j];
      after := CheckItem(after, truck, items[j], levels[j]);
    }
    assert items[..|items|] == items && levels[..|items|] == levels;
  }

  /**
   * A student who arrived undecided, after the counter: the exported record
   * carries their drawn attributes and what they bought, and it is settled.
   */
  twostate lemma SettledAtCounter(state: StudentDailyState, new trucks: seq<FoodTruck>, new names: seq<string>,
                                  new sold: seq<MenuItem>, new record: StateRecord)
    requires old(allocated(trucks)) && old(state.Undecided()) && 0.0 <= state.availableMoney
    requires |names| == |trucks| && forall t :: 0 <= t < |trucks| ==> names[t] == trucks[t].name
    requires Recorded(state, trucks, sold)
    requires state.purchasedItems == old(state.purchasedItems) + sold
    requires state.totalSpent == old(state.totalSpent) + TotalPrice(sold)
    requires record == state.ToDict()
    ensures ExportOf(record, state) && Settled(record, names)
    ensures record.purchasedItems == ItemNames(sold) && record.totalSpent == TotalPrice(sold)
  {
  }

  /**
   * The simulation: the surveyed students, the competing trucks, the school
   * lunch and the burger joint, and the number of days to run. The fuzzy
   * name matcher the scorer uses is a parameter.
   */
  class SimulationEngine {
    const students: seq<StudentProfile>
    const trucks: seq<FoodTruck>
    const schoolLunch: SchoolLunch
    const fastFood: FastFood
    const numDays: nat
    const fuzzy: FuzzyMatcher

    constructor (students: seq<StudentProfile>, trucks: seq<FoodTruck>, numDays: nat, fuzzy: FuzzyMatcher)
      ensures this.students == students && this.trucks == trucks && this.numDays == numDays && this.fuzzy == fuzzy
      ensures fresh(schoolLunch) && schoolLunch.dailyMenu == [] && fastFood == BurgerJoint()
    {
      this.students := students;
      this.trucks := trucks;
      this.numDays := numDays;
      this.fuzzy := fuzzy;
      schoolLunch := new SchoolLunch();
      fastFood := BurgerJoint();
    }

    /** The trucks' names, in order. */
    function Names(): (r: seq<string>)
      ensures |r| == |trucks| && forall i :: 0 <= i < |trucks| ==> r[i] == trucks[i].name
    {
      TruckNames(Shelves(trucks))
    }

    /** Every truck back at its daily stock. */
    method ResetTrucks()
      modifies StockOf(trucks)
      ensures AtDailyStock(trucks)
    {
      for i := 0 to |trucks|
        invariant forall i', j :: 0 <= i' < i && 0 <= j < |trucks[i'].menu| ==>
          trucks[i'].menu[j].currentInventory == trucks[i'].menu[j].catalog.inventoryPerDay
      {
        MenuInStockOf(trucks, i);
        trucks[i].ResetInventory();
      }
    }

    /**
     * The stock check after one student, truck by truck over the trucks'
     * current levels: an item whose remembered level was positive and whose
     * level is now 0 is flagged, and every level is remembered.
     */
    method CheckStock(book: StockBook) returns (after: StockBook)
      ensures Fits(Shelves(trucks), old(Levels(trucks)))
      ensures after == CheckAll(book, Shelves(trucks), old(Levels(trucks)))
    {
      var shelves := Shelves(trucks);
      var levels := Levels(trucks);
      after := book;
      for i := 0 to |trucks|
        invariant Fits(shelves[..i], levels[..i])
        invariant after == CheckAll(book, shelves[..i], levels[..i])
      {
        CheckAllNext(book, shelves, levels, i);
        after := CheckTruck(after, shelves[i].truck, shelves[i].items, levels[i]);
      }
      assert shelves[..|trucks|] == shelves && levels[..|trucks|] == levels;
    }

    /**
     * One student at the counter: the decision policy picks a vendor and
     * records the purchase, and the student's state is exported.
     */
    method AtCounter(profile: StudentProfile, state: StudentDailyState)
        returns (record: StateRecord, ghost sold: seq<MenuItem>, ghost truck: nat)
      modifies state, StockOf(trucks)
      ensures old(state.purchasedItems) == [] ==>
        Decided(record, Decider(profile, state.Attributes(), fastFood, fuzzy),
                old(TruckListings(trucks)), old(MenuListing(schoolLunch.dailyMenu)), Names())
      ensures SoldOnce(trucks, sold)
      ensures old(state.purchasedItems) == [] ==> BoughtOn(trucks, sold, truck, record)
      ensures Recorded(state, trucks, sold)
      ensures state.purchasedItems == old(state.purchasedItems) + sold
      ensures state.totalSpent == old(state.totalSpent) + TotalPrice(sold)
      ensures record == state.ToDict()
    {
      ghost var listings := TruckListings(trucks);
      forall t | 0 <= t < |trucks|
        ensures listings[t] == TruckListing(trucks[t])
      {
        TruckListingAt(trucks, t);
      }
      ghost var outcome;
      outcome, sold := MakeDecision(profile, state, trucks, schoolLunch, fastFood, fuzzy);
      truck := if outcome.TruckWins? then outcome.truck else 0;
      record := state.ToDict();
      if old(state.purchasedItems) == [] {
        assert old(SchoolListing(schoolLunch) == MenuListing(schoolLunch.dailyMenu));
        assert state.purchasedItems == sold;
        SaleFollows(trucks, Names(), outcome, sold, record);
      }
    }

    /**
     * A student who arrives undecided leaves the counter settled: the
     * exported record carries their drawn attributes and what they bought,
     * and every truck item sold lost one unit.
     */
    method ServeStudent(profile: StudentProfile, state: StudentDailyState) returns (record: StateRecord, ghost sold: seq<MenuItem>)
      requires state.Undecided() && 0.0 <= state.availableMoney
      modifies state, StockOf(trucks)
      ensures SoldOnce(trucks, sold)
      ensures SnapshotStep(old(Levels(trucks)), Levels(trucks))
      ensures Distinguishable(trucks) ==> SaleStep(Shelves(trucks), old(Levels(trucks)), Levels(trucks), record)
      ensures ExportOf(record, state) && Settled(record, Names())
      ensures record.purchasedItems == ItemNames(sold) && record.totalSpent == TotalPrice(sold)
      ensures Decided(record, Decider(profile, state.Attributes(), fastFood, fuzzy),
                      old(TruckListings(trucks)), old(MenuListing(schoolLunch.dailyMenu)), Names())
    {
      ghost var before := Levels(trucks);
      ghost var truck;
      record, sold, truck := AtCounter(profile, state);
      SaleStepsDown(trucks, sold);
      SettledAtCounter(state, trucks, Names(), sold, record);
      if Distinguishable(trucks) {
        SaleOnTruck(trucks, sold, truck, record, before, Levels(trucks));
      }
    }

    /**
     * The start of a day: every truck restocked, the school lunch's menu of
     * the day drawn, and every student's daily state drawn, in arrival order.
     */
    method StartDay(draws: DayDraws) returns (arrivals: seq<StudentDailyState>)
      requires DrawsFit(draws, |students|)
      modifies StockOf(trucks), schoolLunch
      ensures AtDailyStock(trucks)
      ensures schoolLunch.dailyMenu == Pick(SchoolLunchFoodPool, draws.foodPicks) + Pick(SchoolLunchDrinkPool, draws.drinkPicks)
      ensures |arrivals| == |students|
      ensures forall k, l :: 0 <= k < l < |arrivals| ==> arrivals[k] != arrivals[l]
      ensures forall k :: 0 <= k < |arrivals| ==>
        var p := draws.order[k];
        && fresh(arrivals[k]) && arrivals[k].Undecided()
        && arrivals[k].studentId == students[p].studentId
        && arrivals[k].Attributes() == DailyAttributesFor(students[p], draws.students[p])
    {
      ResetTrucks();
      schoolLunch.GenerateDailyMenu(draws.foodPicks, draws.drinkPicks);
      var states := GenerateDailyStates(students, draws.students);
      arrivals := Arrange(states, draws.order);
    }

    /** The stock check, leaving every level as it was. */
    method CheckStockKeeping(book: StockBook) returns (after: StockBook)
      ensures Levels(trucks) == old(Levels(trucks))
      ensures Fits(Shelves(trucks), Levels(trucks))
      ensures after == CheckAll(book, Shelves(trucks), Levels(trucks))
    {
      after := CheckStock(book);
    }

    /** The tally of one record, leaving every level as it was. */
    method TallyKeeping(tally: DayTally, ghost records: seq<StateRecord>, record: StateRecord) returns (next: DayTally)
      requires TallyOf(tally, Names(), records) && Settled(record, Names())
      ensures Levels(trucks) == old(Levels(trucks))
      ensures TallyOf(next, Names(), records + [record])
    {
      ghost var levels := Levels(trucks);
      var names := Names();
      SettledBought(record, names);
      next := RecordOutcome(tally, names, records, record);
      assert Levels(trucks) == levels;
    }

    /**
     * One student served: they decide at the counter, are tallied, and the
     * stock check follows.
     */
    method ServeOne(profile: StudentProfile, state: StudentDailyState, tally: DayTally, ghost records: seq<StateRecord>, book: StockBook,
                    ghost levels: seq<seq<int>>, ghost school: Listing)
        returns (record: StateRecord, next: DayTally, after: StockBook)
      requires state.Undecided() && 0.0 <= state.availableMoney
      requires TallyOf(tally, Names(), records)
      requires levels == Levels(trucks) && school == MenuListing(schoolLunch.dailyMenu)
      modifies state, StockOf(trucks)
      ensures ExportOf(record, state) && Settled(record, Names())
      ensures TallyOf(next, Names(), records + [record])
      ensures SnapshotStep(old(Levels(trucks)), Levels(trucks))
      ensures Fits(Shelves(trucks), Levels(trucks))
      ensures after == CheckAll(book, Shelves(trucks), Levels(trucks))
      ensures Distinguishable(trucks) ==> SaleStep(Shelves(trucks), levels, Levels(trucks), record)
      ensures Decided(record, Decider(profile, state.Attributes(), fastFood, fuzzy), ListingsAt(MenuCatalogs(trucks), levels), school, Names())
    {
      TruckListingsAtLevels(trucks);
      ghost var sold;
      record, sold := ServeStudent(profile, state);
      after := CheckStockKeeping(book);
      next := TallyKeeping(tally, records, record);
    }

    /** One arrival served by id, tallied and checked for stockouts; the later arrivals still wait. */
    method ServeAt(arrivals: seq<StudentDailyState>, lookup: map<int, StudentProfile>, i: nat,
                   tally: DayTally, ghost records: seq<StateRecord>, book: StockBook, ghost levels: seq<seq<int>>, ghost school: Listing)
        returns (record: StateRecord, next: DayTally, after: StockBook)
      requires levels == Levels(trucks) && school == MenuListing(schoolLunch.dailyMenu)
      requires i < |arrivals| && arrivals[i].studentId in lookup
      requires arrivals[i].Undecided() && 0.0 <= arrivals[i].availableMoney
      requires forall k :: i < k < |arrivals| ==> arrivals[k] != arrivals[i]
      requires TallyOf(tally, Names(), records)
      modifies arrivals[i], StockOf(trucks)
      ensures ExportOf(record, arrivals[i]) && Settled(record, Names())
      ensures TallyOf(next, Names(), records + [record])
      ensures SnapshotStep(old(Levels(trucks)), Levels(trucks))
      ensures Fits(Shelves(trucks), Levels(trucks))
      ensures after == CheckAll(book, Shelves(trucks), Levels(trucks))
      ensures forall k :: i < k < |arrivals| ==> unchanged(arrivals[k])
      ensures Distinguishable(trucks) ==> SaleStep(Shelves(trucks), levels, Levels(trucks), record)
      ensures Decided(record, Decider(lookup[arrivals[i].studentId], arrivals[i].Attributes(), fastFood, fuzzy),
                      ListingsAt(MenuCatalogs(trucks), levels), school, Names())
    {
      record, next, after := ServeOne(lookup[arrivals[i].studentId], arrivals[i], tally, records, book, levels, school);
    }

    /** The day's queue: every arrival has a profile, no state arrives twice, and `deciders` holds each arrival's decision policy. */
    ghost predicate Lineup(arrivals: seq<StudentDailyState>, lookup: map<int, StudentProfile>, deciders: seq<Decider>)
    {
      && (forall k :: 0 <= k < |arrivals| ==> arrivals[k].studentId in lookup)
      && (forall k, l :: 0 <= k < l < |arrivals| ==> arrivals[k] != arrivals[l])
      && |deciders| == |arrivals|
      && forall k :: 0 <= k < |arrivals| ==>
           deciders[k] == Decider(lookup[arrivals[k].studentId], arrivals[k].Attributes(), fastFood, fuzzy)
    }

    /**
     * The day after `i` arrivals: the queue, the later arrivals still waiting,
     * the day so far `Served` and sold in turn, and the last snapshot at the
     * current stock levels.
     */
    ghost predicate InService(arrivals: seq<StudentDailyState>, lookup: map<int, StudentProfile>, deciders: seq<Decider>,
                              school: Listing, i: nat, records: seq<StateRecord>, tally: DayTally, book: StockBook,
                              history: seq<seq<seq<int>>>)
      reads set k | 0 <= k < |arrivals| :: arrivals[k]
      reads StockOf(trucks), schoolLunch
    {
      && i <= |arrivals| && Lineup(arrivals, lookup, deciders) && Waiting(arrivals, i)
      && Served(arrivals, Names(), Shelves(trucks), deciders, MenuCatalogs(trucks), school, records, tally, book, history)
      && |records| == i && history[i] == Levels(trucks)
      && school == MenuListing(schoolLunch.dailyMenu)
      && SoldInTurn(trucks, records, history)
    }

    /** The next arrival served: the day progresses by one student, and the later arrivals still wait. */
    method ServeNext(arrivals: seq<StudentDailyState>, lookup: map<int, StudentProfile>, i: nat,
                     records: seq<StateRecord>, tally: DayTally, book: StockBook, ghost history: seq<seq<seq<int>>>,
                     ghost deciders: seq<Decider>, ghost school: Listing)
        returns (records': seq<StateRecord>, tally': DayTally, book': StockBook, ghost history': seq<seq<seq<int>>>)
      requires i < |arrivals| && InService(arrivals, lookup, deciders, school, i, records, tally, book, history)
      modifies arrivals[i], StockOf(trucks)
      ensures InService(arrivals, lookup, deciders, school, i + 1, records', tally', book', history')
      ensures history'[0] == history[0]
    {
      var record, next, after := ServeAt(arrivals, lookup, i, tally, records, book, history[i], school);
      ghost var levels := Levels(trucks);
      ProgressStep(arrivals, Names(), Shelves(trucks), records, tally, book, history, record, next, levels);
      DecidedArrival(records, deciders, MenuCatalogs(trucks), history, levels, record, school, Names());
      if Distinguishable(trucks) {
        SaleArrival(Shelves(trucks), records, history, record, levels);
      }
      records', tally', book', history' := records + [record], next, after, history + [levels];
    }

    /**
     * The day's arrivals served in order: each student is looked up by id,
     * decides, is tallied, and the stock check follows. `history` holds the
     * stock levels before the first student and after each one.
     */
    method ServeArrivals(arrivals: seq<StudentDailyState>, lookup: map<int, StudentProfile>, ghost deciders: seq<Decider>)
        returns (records: seq<StateRecord>, tally: DayTally, book: StockBook, ghost history: seq<seq<seq<int>>>)
      requires Waiting(arrivals, 0) && Lineup(arrivals, lookup, deciders)
      modifies set k | 0 <= k < |arrivals| :: arrivals[k]
      modifies StockOf(trucks)
      ensures Served(arrivals, Names(), Shelves(trucks), deciders, MenuCatalogs(trucks), MenuListing(schoolLunch.dailyMenu),
                     records, tally, book, history)
      ensures |records| == |arrivals| && history[0] == old(Levels(trucks)) && history[|arrivals|] == Levels(trucks)
      ensures SoldInTurn(trucks, records, history)
    {
      ghost var school := MenuListing(schoolLunch.dailyMenu);
      ghost var start := Levels(trucks);
      records, tally, book, history := OpenDay(arrivals, lookup, deciders, school);
      for i := 0 to |arrivals|
        invariant InService(arrivals, lookup, deciders, school, i, records, tally, book, history)
        invariant history[0] == start
      {
        records, tally, book, history := ServeNext(arrivals, lookup, i, records, tally, book, history, deciders, school);
      }
    }

    /** Before the first arrival: no records, the opening tallies and stock book, and one snapshot, of the current levels. */
    method OpenDay(arrivals: seq<StudentDailyState>, ghost lookup: map<int, StudentProfile>, ghost deciders: seq<Decider>,
                   ghost school: Listing)
        returns (records: seq<StateRecord>, tally: DayTally, book: StockBook, ghost history: seq<seq<seq<int>>>)
      requires Waiting(arrivals, 0) && Lineup(arrivals, lookup, deciders) && school == MenuListing(schoolLunch.dailyMenu)
      ensures InService(arrivals, lookup, deciders, school, 0, records, tally, book, history)
      ensures history[0] == Levels(trucks)
    {
      history := [Levels(trucks)];
      book := InitialBook(Shelves(trucks), Levels(trucks));
      tally := OpenTally(Names());
      records := [];
      OpenProgress(arrivals, Names(), Shelves(trucks), Levels(trucks));
    }

    /** The truck results, leaving every level as it was. */
    method TruckResultsKeeping(tally: DayTally, flags: map<string, map<string, nat>>)
        returns (results: map<string, TruckDailyResult>)
      requires forall i :: 0 <= i < |trucks| ==>
        trucks[i].name in tally.revenue && trucks[i].name in tally.customers && trucks[i].name in tally.itemsSold
        && trucks[i].name in flags
      ensures Levels(trucks) == old(Levels(trucks))
      ensures forall n :: n in results <==> n in Names()
      ensures forall i :: 0 <= i < |trucks| ==>
        var n := trucks[i].name;
        results[n] == TruckDailyResult(n, tally.revenue[n], tally.customers[n], tally.itemsSold[n], flags[n])
    {
      ghost var levels := Levels(trucks);
      var names := Names();
      results := TruckResults(names, tally, flags);
      assert Levels(trucks) == levels;
    }

    /**
     * A day's service: the trucks restocked, the school lunch's menu drawn,
     * every student drawn and served in arrival order. `history` holds the
     * stock levels before the first student and after each one.
     */
    method ServeDay(draws: DayDraws)
        returns (records: seq<StateRecord>, tally: DayTally, book: StockBook, ghost history: seq<seq<seq<int>>>)
      requires DrawsFit(draws, |students|)
      modifies StockOf(trucks), schoolLunch
      ensures schoolLunch.dailyMenu == Pick(SchoolLunchFoodPool, draws.foodPicks) + Pick(SchoolLunchDrinkPool, draws.drinkPicks)
      ensures |records| == |students|
      ensures forall k :: 0 <= k < |students| ==>
        && Describes(records[k], students[draws.order[k]], draws.students[draws.order[k]])
        && Settled(records[k], Names())
      ensures TallyOf(tally, Names(), records)
      ensures |history| == |students| + 1 && AllFit(Shelves(trucks), history) && SteppedDown(history)
      ensures history[0] == DailyLevels(trucks)
      ensures history[|students|] == Levels(trucks)
      ensures book == DayBook(Shelves(trucks), history)
      ensures DecidedInTurn(records, DayDeciders(students, draws.students, draws.order, fastFood, fuzzy),
                            MenuCatalogs(trucks), history, MenuListing(schoolLunch.dailyMenu), Names())
      ensures SoldInTurn(trucks, records, history)
    {
      var arrivals := StartDay(draws);
      DailyStockLevels(trucks);
      var lookup := ProfileLookup(students);
      ghost var deciders := DayDeciders(students, draws.students, draws.order, fastFood, fuzzy);
      records, tally, book, history := ServeArrivals(arrivals, lookup, deciders);
      ExportsDescribe(records, arrivals, students, draws);
    }

    /**
     * One simulated day: the day's service, then the day's result built from
     * the tallies, one truck result per truck name.
     */
    method RunDay(day: nat, draws: DayDraws) returns (result: DailyResult, ghost history: seq<seq<seq<int>>>)
      requires DrawsFit(draws, |students|)
      modifies StockOf(trucks), schoolLunch
      ensures result.day == day && DayReport(result, Names(), |students|)
      ensures result.schoolLunchMenu == Pick(SchoolLunchFoodPool, draws.foodPicks) + Pick(SchoolLunchDrinkPool, draws.drinkPicks)
      ensures forall k :: 0 <= k < |students| ==>
        Describes(result.studentStates[k], students[draws.order[k]], draws.students[draws.order[k]])
      ensures |history| == |students| + 1 && AllFit(Shelves(trucks), history) && SteppedDown(history)
      ensures history[0] == DailyLevels(trucks)
      ensures history[|students|] == Levels(trucks)
      ensures UniqueNames(Shelves(trucks)) ==>
        FlagsStockouts(result.truckResults, Shelves(trucks), history[0], history[|students|])
      ensures DecidedInTurn(result.studentStates, DayDeciders(students, draws.students, draws.order, fastFood, fuzzy),
                            MenuCatalogs(trucks), history, MenuListing(result.schoolLunchMenu), Names())
      ensures SoldInTurn(trucks, result.studentStates, history)
    {
      var records, tally, book;
      records, tally, book, history := ServeDay(draws);
      ReplayHasTrucks(Shelves(trucks), history);
      result := ReportDay(day, records, tally, book.flags, history);
      if UniqueNames(Shelves(trucks)) {
        ResultsFlagStockouts(result.truckResults, Shelves(trucks), history, book.flags);
      }
    }

    /**
     * A day's result from its records, tallies and stock checks: one truck
     * result per truck name, the losses, and the records as the student
     * states; nothing changes.
     */
    method ReportDay(day: nat, records: seq<StateRecord>, tally: DayTally, flags: map<string, map<string, nat>>,
                     ghost history: seq<seq<seq<int>>>)
        returns (result: DailyResult)
      requires |records| == |students| && forall k :: 0 <= k < |records| ==> Settled(records[k], Names())
      requires TallyOf(tally, Names(), records)
      requires |history| == |students| + 1 && history[|students|] == Levels(trucks)
      requires forall i :: 0 <= i < |trucks| ==> Shelves(trucks)[i].truck in flags
      ensures result.day == day && result.studentStates == records && result.schoolLunchMenu == schoolLunch.dailyMenu
      ensures FlagsCarried(result.truckResults, Shelves(trucks), flags)
      ensures DayReport(result, Names(), |students|)
      ensures history[|students|] == Levels(trucks)
    {
      var truckResults := TruckResultsKeeping(tally, flags);
      result := DailyResult(day, truckResults, tally.losses, |students|, schoolLunch.dailyMenu, records);
      ResultsTallied(result, Names(), tally, flags);
    }

    /**
     * The days run so far: numbered from 1 and reported, decided in turn by
     * their draws, and, for distinguishable trucks, sold in turn from the
     * daily stock.
     */
    ghost predicate DaysRun(draws: seq<DayDraws>, days: seq<DailyResult>, histories: seq<seq<seq<seq<int>>>>)
    {
      && (forall e :: 0 <= e < |days| ==> days[e].day == e + 1 && DayReport(days[e], Names(), |students|))
      && DaysDecided(days, histories, draws, students, fastFood, fuzzy, MenuCatalogs(trucks), Names())
      && (Distinguishable(trucks) ==> DaysSold(days, histories, Shelves(trucks), DailyLevels(trucks)))
    }

    /** The next day's result, as `RunDay` promises it, extends the days run so far. */
    lemma DaysRunStep(draws: seq<DayDraws>, days: seq<DailyResult>, histories: seq<seq<seq<seq<int>>>>,
                      result: DailyResult, history: seq<seq<seq<int>>>)
      requires DaysRun(draws, days, histories)
      requires |days| < |draws| && DrawsFit(draws[|days|], |students|)
      requires result.day == |days| + 1 && DayReport(result, Names(), |students|)
      requires DecidedInTurn(result.studentStates, DayDeciders(students, draws[|days|].students, draws[|days|].order, fastFood, fuzzy),
                             MenuCatalogs(trucks), history, MenuListing(result.schoolLunchMenu), Names())
      requires history != [] && history[0] == DailyLevels(trucks) && SoldInTurn(trucks, result.studentStates, history)
      ensures DaysRun(draws, days + [result], histories + [history])
    {
      DaysStep(days, result, Names(), |students|);
      DaysDecidedStep(days, histories, draws, students, fastFood, fuzzy, MenuCatalogs(trucks), Names(), result, history);
      if Distinguishable(trucks) {
        DaysSoldStep(days, histories, Shelves(trucks), DailyLevels(trucks), result, history);
      }
    }

    /** The run's days, one after the other, numbered from 1. */
    method RunDays(draws: seq<DayDraws>) returns (days: seq<DailyResult>, ghost histories: seq<seq<seq<seq<int>>>>)
      requires |draws| == numDays && forall d :: 0 <= d < |draws| ==> DrawsFit(draws[d], |students|)
      modifies StockOf(trucks), schoolLunch
      ensures |days| == numDays
      ensures forall d :: 0 <= d < numDays ==> days[d].day == d + 1 && DayReport(days[d], Names(), |students|)
      ensures DaysDecided(days, histories, draws, students, fastFood, fuzzy, MenuCatalogs(trucks), Names())
      ensures Distinguishable(trucks) ==> DaysSold(days, histories, Shelves(trucks), DailyLevels(trucks))
    {
      days, histories := [], [];
      for d := 0 to numDays
        invariant |days| == d && DaysRun(draws, days, histories)
      {
        var result, history := RunDay(d + 1, draws[d]);
        DaysRunStep(draws, days, histories, result, history);
        days, histories := days + [result], histories + [history];
      }
    }

    /**
     * The whole run: `numDays` days, then the run's aggregate over them.
     */
    method Run(draws: seq<DayDraws>) returns (result: CompetitionAggregateResult, ghost histories: seq<seq<seq<seq<int>>>>)
      requires numDays >= 1 && |trucks| >= 1
      requires |draws| == numDays && forall d :: 0 <= d < |draws| ==> DrawsFit(draws[d], |students|)
      modifies StockOf(trucks), schoolLunch
      ensures result.totalDays == numDays && result.totalStudentsServed == |students| * numDays
      ensures |result.dailyResults| == numDays
      ensures forall d :: 0 <= d < numDays ==>
        result.dailyResults[d].day == d + 1 && DayReport(result.dailyResults[d], Names(), |students|)
      ensures Aggregated(result, Names())
      ensures DaysDecided(result.dailyResults, histories, draws, students, fastFood, fuzzy, MenuCatalogs(trucks), Names())
      ensures Distinguishable(trucks) ==> DaysSold(result.dailyResults, histories, Shelves(trucks), DailyLevels(trucks))
    {
      var days;
      days, histories := RunDays(draws);
      result := Aggregate(days, Names(), numDays, |students|);
    }
  }
}
