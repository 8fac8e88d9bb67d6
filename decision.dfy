/**
 * The lunch decision (ftsim/simulation/decision.py). Every vendor's menu is
 * scored with the same scorer; each vendor offers its first best-scoring food
 * and drink, rated by a combined score; the student goes to the vendor with the
 * best combined score, and only a food-truck win leads to a purchase.
 */
module Decision {
  import opened Wrappers
  import opened Config
  import opened MenuItems
  import opened Students
  import opened Vendors
  import opened Scorer

  /**
   * What the decision needs to know of the deciding student on the day: how
   * they score an item, and their money for the day.
   */
  datatype Diner = Diner(score: CatalogItem -> real, money: real)

  /** The deciding student as the scorer sees them. */
  function DinerFor(profile: StudentProfile, attrs: DailyAttributes, fuzzy: FuzzyMatcher): (d: Diner)
    ensures d.money == attrs.availableMoney
  {
    Diner(c => ScoreItem(c, profile, attrs, fuzzy), attrs.availableMoney)
  }

  /**
   * A student scores an item above 0 only when they can pay for it; on sane
   * inputs, exactly then.
   */
  lemma PositiveScoreIsAffordable(profile: StudentProfile, attrs: DailyAttributes, fuzzy: FuzzyMatcher, item: CatalogItem)
    ensures Score(item, DinerFor(profile, attrs, fuzzy)) > 0.0 ==> item.price <= attrs.availableMoney
    ensures 0.0 <= attrs.availableMoney && 0 <= item.healthRating <= 10 ==>
      (Score(item, DinerFor(profile, attrs, fuzzy)) > 0.0 <==> item.price <= attrs.availableMoney)
  {
    assert Score(item, DinerFor(profile, attrs, fuzzy)) == ScoreItem(item, profile, attrs, fuzzy);
    if 0.0 <= attrs.availableMoney && 0 <= item.healthRating <= 10 {
      ScorePositiveIffAffordable(item, profile, attrs, fuzzy);
    }
  }

  function Score(item: CatalogItem, diner: Diner): real
  {
    diner.score(item)
  }

  /** A vendor's offer at the moment of the decision: its food and its drinks, in menu order. */
  datatype Listing = Listing(food: seq<CatalogItem>, drinks: seq<CatalogItem>)

  /** Which vendor an option comes from; a truck by its position in the truck list. */
  datatype VendorTag = TruckAt(index: nat) | SchoolLunchVendor | FastFoodVendor

  /** A vendor's best offer: positions in its listing's food and drinks, and the combined score. */
  datatype VendorOption = VendorOption(vendor: VendorTag, bestFood: Option<nat>, bestDrink: Option<nat>, combinedScore: real)

  /** Position `k` holds a positive score that no item beats and no earlier item equals. */
  predicate IsFirstBest(items: seq<CatalogItem>, k: nat, diner: Diner)
  {
    && k < |items|
    && Score(items[k], diner) > 0.0
    && (forall i :: 0 <= i < |items| ==> Score(items[i], diner) <= Score(items[k], diner))
    && (forall i :: 0 <= i < k ==> Score(items[i], diner) < Score(items[k], diner))
  }

  /**
   * A scan keeping the best score so far, starting from no item and 0, and
   * replacing it only on a strictly higher score: it finds the first best item,
   * or none when no item scores above 0.
   */
  function ScanBest(items: seq<CatalogItem>, diner: Diner): (r: (Option<nat>, real))
    ensures r.0.None? <==> forall i :: 0 <= i < |items| ==> Score(items[i], diner) <= 0.0
    ensures r.0.None? ==> r.1 == 0.0
    ensures r.0.Some? ==> IsFirstBest(items, r.0.value, diner) && r.1 == Score(items[r.0.value], diner)
    decreases |items|
  {
    if items == [] then (None, 0.0)
    else
      var n := |items| - 1;
      var prev := ScanBest(items[..n], diner);
      assert forall i :: 0 <= i < n ==> items[..n][i] == items[i];
      var s := Score(items[n], diner);
      if s > prev.1 then (Some(n), s) else prev
  }

  /**
   * The score of a meal: the food's score alone when there is no drink; when
   * both fit the budget, the better of the food's score and the two scores'
   * sum over 1.5; otherwise the food's score with the no-drink penalty.
   */
  function CombinedScore(food: Option<CatalogItem>, foodScore: real, drink: Option<CatalogItem>, drinkScore: real, money: real): (r: real)
    ensures food.None? || drink.None? ==> r == foodScore
    ensures food.Some? && drink.Some? && food.value.price + drink.value.price <= money ==>
      r >= foodScore && r >= (foodScore + drinkScore) / 1.5 && (r == foodScore || r == (foodScore + drinkScore) / 1.5)
    ensures food.Some? && drink.Some? && food.value.price + drink.value.price > money ==> r == foodScore * PenaltyNoDrink
  {
    if food.Some? && drink.Some? then
      if food.value.price + drink.value.price <= money then
        var both := (foodScore + drinkScore) / 1.5;
        if foodScore >= both then foodScore else both
      else foodScore * PenaltyNoDrink
    else foodScore
  }

  function Entry(items: seq<CatalogItem>, k: Option<nat>): Option<CatalogItem>
  {
    if k.Some? && k.value < |items| then Some(items[k.value]) else None
  }

  /** A vendor's option: its best food and drink, and their combined score. */
  function EvaluateVendor(tag: VendorTag, listing: Listing, diner: Diner): (r: VendorOption)
    ensures r.vendor == tag
  {
    var food := ScanBest(listing.food, diner);
    var drink := ScanBest(listing.drinks, diner);
    VendorOption(tag, food.0, drink.0,
      CombinedScore(Entry(listing.food, food.0), food.1, Entry(listing.drinks, drink.0), drink.1, diner.money))
  }

  /**
   * A vendor's option holds the first best-scoring food and drink of its
   * listing, none when nothing scores above 0; a vendor with no such food has
   * combined score 0, otherwise the combined score of that food and drink.
   */
  lemma EvaluateVendorIsBest(tag: VendorTag, listing: Listing, diner: Diner)
    ensures var r := EvaluateVendor(tag, listing, diner);
      && (r.bestFood.None? <==> forall i :: 0 <= i < |listing.food| ==> Score(listing.food[i], diner) <= 0.0)
      && (r.bestDrink.None? <==> forall i :: 0 <= i < |listing.drinks| ==> Score(listing.drinks[i], diner) <= 0.0)
      && (r.bestFood.Some? ==> IsFirstBest(listing.food, r.bestFood.value, diner))
      && (r.bestDrink.Some? ==> IsFirstBest(listing.drinks, r.bestDrink.value, diner))
      && (r.bestFood.None? ==> r.combinedScore == 0.0)
      && (r.bestFood.Some? ==>
            r.combinedScore ==
            CombinedScore(Some(listing.food[r.bestFood.value]), Score(listing.food[r.bestFood.value], diner),
                          Entry(listing.drinks, r.bestDrink),
                          if r.bestDrink.Some? then Score(listing.drinks[r.bestDrink.value], diner) else 0.0,
                          diner.money))
  {
  }

  /** One scan over a vendor's items: the first item scoring strictly above every earlier one and above 0. */
  method ScanItems(items: seq<CatalogItem>, diner: Diner) returns (best: Option<nat>, bestScore: real)
    ensures (best, bestScore) == ScanBest(items, diner)
  {
    best, bestScore := None, 0.0;
    for k := 0 to |items|
      invariant (best, bestScore) == ScanBest(items[..k], diner)
    {
      assert items[..k + 1][..k] == items[..k];
      var score := Score(items[k], diner);
      if score > bestScore {
        bestScore := score;
        best := Some(k);
      }
    }
    assert items[..|items|] == items;
  }

  /** The best option of one vendor, by two scans over its food and its drinks. */
  method FindBestItemsForVendor(tag: VendorTag, listing: Listing, diner: Diner) returns (option: VendorOption)
    ensures option == EvaluateVendor(tag, listing, diner)
  {
    var bestFood, bestFoodScore := ScanItems(listing.food, diner);
    var bestDrink, bestDrinkScore := ScanItems(listing.drinks, diner);

    var food := if bestFood.Some? then Some(listing.food[bestFood.value]) else None;
    var drink := if bestDrink.Some? then Some(listing.drinks[bestDrink.value]) else None;
    var combinedScore := bestFoodScore;
    if food.Some? && drink.Some? {
      if food.value.price + drink.value.price <= diner.money {
        var both := (bestFoodScore + bestDrinkScore) / 1.5;
        combinedScore := if bestFoodScore >= both then bestFoodScore else both;
      } else {
        combinedScore := bestFoodScore * PenaltyNoDrink;
      }
    }
    option := VendorOption(tag, bestFood, bestDrink, combinedScore);
  }

  /**
   * Scanning options in order, keeping the current best and replacing it only
   * when an option with food has a strictly higher combined score: the position
   * of the first option with food that no other option with food beats, or none
   * when no option has food.
   */
  function BestOption(options: seq<VendorOption>): (r: Option<nat>)
    ensures r.None? <==> forall i :: 0 <= i < |options| ==> options[i].bestFood.None?
    ensures r.Some? ==>
      && r.value < |options|
      && options[r.value].bestFood.Some?
      && (forall i :: 0 <= i < |options| && options[i].bestFood.Some? ==>
            options[i].combinedScore <= options[r.value].combinedScore)
      && (forall i :: 0 <= i < r.value && options[i].bestFood.Some? ==>
            options[i].combinedScore < options[r.value].combinedScore)
    decreases |options|
  {
    if options == [] then None
    else
      var n := |options| - 1;
      var prev := BestOption(options[..n]);
      assert forall i :: 0 <= i < n ==> options[..n][i] == options[i];
      if options[n].bestFood.Some? && (prev.None? || options[n].combinedScore > options[prev.value].combinedScore)
      then Some(n)
      else prev
  }

  /** One more step of the scan behind `BestOption`. */
  lemma BestOptionStep(options: seq<VendorOption>, k: nat)
    requires k < |options|
    ensures BestOption(options[..k + 1]) ==
      var prev := BestOption(options[..k]);
      if options[k].bestFood.Some? && (prev.None? || options[k].combinedScore > options[prev.value].combinedScore)
      then Some(k) else prev
  {
    assert options[..k + 1][..k] == options[..k];
  }

  /** The option of every truck, in truck order. */
  function TruckOptions(listings: seq<Listing>, diner: Diner): (r: seq<VendorOption>)
    ensures |r| == |listings|
    ensures forall i :: 0 <= i < |listings| ==> r[i] == EvaluateVendor(TruckAt(i), listings[i], diner)
  {
    seq(|listings|, i requires 0 <= i < |listings| => EvaluateVendor(TruckAt(i), listings[i], diner))
  }

  /** The best truck option: the first truck option with food that no other truck beats. */
  function BestTruck(listings: seq<Listing>, diner: Diner): (r: Option<VendorOption>)
    ensures r.None? <==> BestOption(TruckOptions(listings, diner)).None?
    ensures r.Some? ==> r == Some(TruckOptions(listings, diner)[BestOption(TruckOptions(listings, diner)).value])
  {
    var options := TruckOptions(listings, diner);
    var k := BestOption(options);
    if k.None? then None else Some(options[k.value])
  }

  /** A truck's listing: its in-stock food and drinks, in menu order. */
  function TruckListing(truck: FoodTruck): (r: Listing)
    reads truck.menu
  {
    Listing(Catalogs(truck.AvailableFood()), Catalogs(truck.AvailableDrinks()))
  }

  /** The listing of every truck, in truck order. */
  function TruckListings(trucks: seq<FoodTruck>): (r: seq<Listing>)
    reads StockOf(trucks)
    ensures |r| == |trucks|
    decreases |trucks|
  {
    if trucks == [] then []
    else [TruckListing(trucks[0])] + TruckListings(trucks[1..])
  }

  /** Each truck's listing sits at the truck's own position. */
  lemma {:induction false} TruckListingAt(trucks: seq<FoodTruck>, i: nat)
    requires i < |trucks|
    ensures TruckListings(trucks)[i] == TruckListing(trucks[i])
    decreases |trucks|
  {
    if i > 0 {
      TruckListingAt(trucks[1..], i - 1);
    }
  }

  /** The best truck option, by one scan over the trucks' listings in truck order. */
  method FindBestItems(listings: seq<Listing>, diner: Diner) returns (best: Option<VendorOption>)
    ensures best == BestTruck(listings, diner)
  {
    ghost var options := TruckOptions(listings, diner);
    ghost var bestIndex: Option<nat> := None;
    best := None;
    for k := 0 to |listings|
      invariant bestIndex == BestOption(options[..k])
      invariant bestIndex.Some? ==> bestIndex.value < k
      invariant best == if bestIndex.None? then None else Some(options[bestIndex.value])
    {
      BestOptionStep(options, k);
      var option := FindBestItemsForVendor(TruckAt(k), listings[k], diner);
      if option.bestFood.Some? {
        if best.None? || option.combinedScore > best.value.combinedScore {
          best := Some(option);
          bestIndex := Some(k);
        }
      }
    }
    assert options[..|listings|] == options;
  }

  /** The school lunch's listing: today's menu, with no stock check. */
  function SchoolListing(school: SchoolLunch): Listing
    reads school
  {
    Listing(school.AvailableFood(), school.AvailableDrinks())
  }

  /** The burger joint's listing when the student has a car to get there; none otherwise. */
  function BurgerListing(profile: StudentProfile, fastFood: FastFood): (r: Option<Listing>)
    ensures r.Some? <==> profile.hasCar
  {
    if profile.hasCar then Some(Listing(fastFood.AvailableFood(), fastFood.AvailableDrinks())) else None
  }

  /** The options that offer food, in the order best truck, school lunch, burger joint. */
  function Candidates(best: Option<VendorOption>, school: VendorOption, burger: Option<VendorOption>): (r: seq<VendorOption>)
    ensures forall i :: 0 <= i < |r| ==> r[i].bestFood.Some?
    ensures forall i :: 0 <= i < |r| ==> (best.Some? && r[i] == best.value) || r[i] == school || (burger.Some? && r[i] == burger.value)
    ensures best.Some? && best.value.bestFood.Some? ==> best.value in r
    ensures school.bestFood.Some? ==> school in r
    ensures burger.Some? && burger.value.bestFood.Some? ==> burger.value in r
  {
    (if best.Some? && best.value.bestFood.Some? then [best.value] else [])
    + (if school.bestFood.Some? then [school] else [])
    + (if burger.Some? && burger.value.bestFood.Some? then [burger.value] else [])
  }

  /**
   * The position of the first option with the highest combined score, as
   * Python's `max` with a key finds it.
   */
  function MaxFirst(options: seq<VendorOption>): (k: nat)
    requires |options| > 0
    ensures k < |options|
    ensures forall i :: 0 <= i < |options| ==> options[i].combinedScore <= options[k].combinedScore
    ensures forall i :: 0 <= i < k ==> options[i].combinedScore < options[k].combinedScore
    decreases |options|
  {
    if |options| == 1 then 0
    else
      var n := |options| - 1;
      var k := MaxFirst(options[..n]);
      assert forall i :: 0 <= i < n ==> options[..n][i] == options[i];
      if options[n].combinedScore > options[k].combinedScore then n else k
  }

  /** What the student does: nothing anywhere, school lunch, the burger joint, or a truck's food and drink. */
  datatype Outcome = NoCandidate | SchoolWins | FastFoodWins | TruckWins(truck: nat, food: nat, drink: Option<nat>)

  /** The three vendor options the decision compares. */
  datatype Offers = Offers(truck: Option<VendorOption>, school: VendorOption, burger: Option<VendorOption>)

  function OffersFor(truckListings: seq<Listing>, school: Listing, burger: Option<Listing>, diner: Diner): (r: Offers)
    ensures r.school.vendor == SchoolLunchVendor
    ensures r.burger.Some? <==> burger.Some?
    ensures r.burger.Some? ==> r.burger.value.vendor == FastFoodVendor
  {
    Offers(BestTruck(truckListings, diner),
           EvaluateVendor(SchoolLunchVendor, school, diner),
           if burger.Some? then Some(EvaluateVendor(FastFoodVendor, burger.value, diner)) else None)
  }

  /**
   * The winner as the source finds it: the first candidate with the highest
   * combined score among the offers with food.
   */
  function FirstMaxWinner(offers: Offers): (r: Outcome)
    requires offers.truck.Some? ==> offers.truck.value.vendor.TruckAt?
    ensures r.NoCandidate? <==> Candidates(offers.truck, offers.school, offers.burger) == []
  {
    var cs := Candidates(offers.truck, offers.school, offers.burger);
    if cs == [] then NoCandidate
    else
      var w := cs[MaxFirst(cs)];
      match w.vendor
      case SchoolLunchVendor => SchoolWins
      case FastFoodVendor => FastFoodWins
      case TruckAt(t) => TruckWins(t, w.bestFood.value, w.bestDrink)
  }

  /** The option offers food. */
  predicate Offering(o: Option<VendorOption>)
  {
    o.Some? && o.value.bestFood.Some?
  }

  /** The first of `o` and `p`, when offering, scores at least as high as `p`. */
  predicate Beats(o: VendorOption, p: Option<VendorOption>)
  {
    Offering(p) ==> p.value.combinedScore <= o.combinedScore
  }

  /**
   * The winner among the offers, comparing the three options directly: the
   * best truck unless another offer scores strictly higher, then the school
   * lunch unless the burger joint scores strictly higher, then the burger joint.
   */
  function Winner(offers: Offers): (r: Outcome)
    requires offers.truck.Some? ==> offers.truck.value.vendor.TruckAt?
    ensures r.TruckWins? ==>
      && offers.truck.Some? && offers.truck.value.vendor.index == r.truck
      && offers.truck.value.bestFood == Some(r.food) && offers.truck.value.bestDrink == r.drink
  {
    var truck := offers.truck;
    var school := Some(offers.school);
    if Offering(truck) && Beats(truck.value, school) && Beats(truck.value, offers.burger) then
      TruckWins(truck.value.vendor.index, truck.value.bestFood.value, truck.value.bestDrink)
    else if Offering(school) && Beats(offers.school, offers.burger) then SchoolWins
    else if Offering(offers.burger) then FastFoodWins
    else NoCandidate
  }

  /** The direct comparison picks the same winner as the first maximum over the candidate list. */
  lemma WinnerIsFirstMax(o: Offers)
    requires o.truck.Some? ==> o.truck.value.vendor.TruckAt?
    requires o.school.vendor == SchoolLunchVendor
    requires o.burger.Some? ==> o.burger.value.vendor == FastFoodVendor
    ensures Winner(o) == FirstMaxWinner(o)
  {
    var cs := Candidates(o.truck, o.school, o.burger);
    if cs != [] {
      var t := if Offering(o.truck) then 1 else 0;
      var sc := if Offering(Some(o.school)) then 1 else 0;
      assert Offering(o.truck) ==> cs[0] == o.truck.value;
      assert Offering(Some(o.school)) ==> cs[t] == o.school;
      assert Offering(o.burger) ==> cs[t + sc] == o.burger.value;
    }
  }

  /** The decision over the vendors' listings: the winner among their offers. */
  function Decide(truckListings: seq<Listing>, school: Listing, burger: Option<Listing>, diner: Diner): (r: Outcome)
    ensures var o := OffersFor(truckListings, school, burger, diner);
      r.NoCandidate? <==> !Offering(o.truck) && o.school.bestFood.None? && !Offering(o.burger)
  {
    Winner(OffersFor(truckListings, school, burger, diner))
  }

  /**
   * The winner offers food and its combined score is the highest among the
   * offers with food; ties go to the truck, then to the school lunch. Nobody
   * wins exactly when no offer has food.
   */
  lemma WinnerIsBest(o: Offers)
    requires o.truck.Some? ==> o.truck.value.vendor.TruckAt?
    requires o.school.vendor == SchoolLunchVendor
    requires o.burger.Some? ==> o.burger.value.vendor == FastFoodVendor
    ensures var out := FirstMaxWinner(o);
      && (out.NoCandidate? <==> !Offering(o.truck) && !Offering(Some(o.school)) && !Offering(o.burger))
      && (out.TruckWins? ==>
            && Offering(o.truck)
            && (Offering(Some(o.school)) ==> o.school.combinedScore <= o.truck.value.combinedScore)
            && (Offering(o.burger) ==> o.burger.value.combinedScore <= o.truck.value.combinedScore))
      && (out.SchoolWins? ==>
            && Offering(Some(o.school))
            && (Offering(o.truck) ==> o.truck.value.combinedScore < o.school.combinedScore)
            && (Offering(o.burger) ==> o.burger.value.combinedScore <= o.school.combinedScore))
      && (out.FastFoodWins? ==>
            && Offering(o.burger)
            && (Offering(o.truck) ==> o.truck.value.combinedScore < o.burger.value.combinedScore)
            && (Offering(Some(o.school)) ==> o.school.combinedScore < o.burger.value.combinedScore))
  {
    // The direct three-way comparison is the first maximum; its cases read off the ordering.
    WinnerIsFirstMax(o);
  }

  /** Every vendor's offer carries its own tag, and a truck offer has food, so `WinnerIsBest` applies to `Decide`. */
  lemma OffersAreTagged(truckListings: seq<Listing>, school: Listing, burger: Option<Listing>, diner: Diner)
    ensures var o := OffersFor(truckListings, school, burger, diner);
      && (o.truck.Some? ==> o.truck.value.vendor.TruckAt? && o.truck.value.bestFood.Some?)
      && o.school.vendor == SchoolLunchVendor
      && (o.burger.Some? ==> o.burger.value.vendor == FastFoodVendor)
  {
  }

  /**
   * A school lunch food the student can afford, with a health rating in
   * range, keeps the student from the no-vendor fallback.
   */
  lemma AffordableSchoolFoodIsACandidate(truckListings: seq<Listing>, school: Listing, burger: Option<Listing>,
                                          profile: StudentProfile, attrs: DailyAttributes, fuzzy: FuzzyMatcher, k: nat)
    requires k < |school.food|
    requires 0.0 <= attrs.availableMoney && school.food[k].price <= attrs.availableMoney
    requires 0 <= school.food[k].healthRating <= 10
    ensures Decide(truckListings, school, burger, DinerFor(profile, attrs, fuzzy)) != NoCandidate
  {
    var diner := DinerFor(profile, attrs, fuzzy);
    PositiveScoreIsAffordable(profile, attrs, fuzzy, school.food[k]);
    EvaluateVendorIsBest(SchoolLunchVendor, school, diner);
    OffersAreTagged(truckListings, school, burger, diner);
    WinnerIsBest(OffersFor(truckListings, school, burger, diner));
    WinnerIsFirstMax(OffersFor(truckListings, school, burger, diner));
  }

  /** The sum of the items' prices. */
  function TotalPrice(items: seq<MenuItem>): (r: real)
    ensures (forall i :: 0 <= i < |items| ==> items[i].catalog.price >= 0.0) ==> r >= 0.0
  {
    if items == [] then 0.0 else items[0].catalog.price + TotalPrice(items[1..])
  }

  /** Buying one more item adds its price to the total. */
  lemma {:induction false} TotalPriceAppend(items: seq<MenuItem>, item: MenuItem)
    ensures TotalPrice(items + [item]) == TotalPrice(items) + item.catalog.price
    decreases |items|
  {
    if items != [] {
      assert (items + [item])[1..] == items[1..] + [item];
      TotalPriceAppend(items[1..], item);
    }
  }

  /**
   * The purchase at a winning truck: the food when the student can pay for it
   * and it is in stock, then the drink when the money left covers it and it is
   * in stock. When nothing at all has been bought, the student falls back to
   * school lunch with loss reason "stockout". `sold` is what this call bought.
   */
  method BuyFromTruck(state: StudentDailyState, truck: FoodTruck, food: MenuItem, drink: Option<MenuItem>)
      returns (ghost sold: seq<MenuItem>)
    requires drink.Some? ==> drink.value != food
    modifies state, food, if drink.Some? then {drink.value} else {}
    ensures var foodSold := food.catalog.price <= state.availableMoney && old(food.currentInventory) > 0;
      var left := if foodSold then state.availableMoney - food.catalog.price else state.availableMoney;
      var drinkSold := drink.Some? && drink.value.catalog.price <= left && old(drink.value.currentInventory) > 0;
      && sold == (if foodSold then [food] else []) + (if drinkSold then [drink.value] else [])
      && food.currentInventory == (if foodSold then old(food.currentInventory) - 1 else old(food.currentInventory))
      && (drink.Some? ==>
            drink.value.currentInventory ==
              if drinkSold then old(drink.value.currentInventory) - 1 else old(drink.value.currentInventory))
      && state.purchasedItems == old(state.purchasedItems) + sold
      && state.totalSpent == old(state.totalSpent) + TotalPrice(sold)
      && (sold != [] ==> TotalPrice(sold) <= state.availableMoney)
      && (state.purchasedItems != [] ==>
            && state.choseSchoolLunch == old(state.choseSchoolLunch)
            && state.lossReason == old(state.lossReason)
            && state.purchasedFromTruck == if foodSold then Some(truck.name) else old(state.purchasedFromTruck))
      && (state.purchasedItems == [] ==>
            && state.choseSchoolLunch && state.lossReason == Some(LossReasonStockout) && state.purchasedFromTruck == None)
      && state.choseFastFood == old(state.choseFastFood)
  {
    sold := [];
    var remainingMoney := state.availableMoney;

    // The food first.
    if food.catalog.price <= remainingMoney {
      var ok := truck.SellItem(food);
      if ok {
        state.purchasedItems := state.purchasedItems + [food];
        state.totalSpent := state.totalSpent + food.catalog.price;
        state.purchasedFromTruck := Some(truck.name);
        remainingMoney := remainingMoney - food.catalog.price;
        TotalPriceAppend([], food);
        sold := [food];
      }
    }

    // Then the drink, from the same truck, if the money left covers it.
    if drink.Some? && drink.value.catalog.price <= remainingMoney {
      var ok := truck.SellItem(drink.value);
      if ok {
        state.purchasedItems := state.purchasedItems + [drink.value];
        state.totalSpent := state.totalSpent + drink.value.catalog.price;
        TotalPriceAppend(sold, drink.value);
        sold := sold + [drink.value];
      }
    }

    if state.purchasedItems == [] {
      // Nothing could be bought: school lunch, lost to a stockout.
      state.choseSchoolLunch := true;
      state.lossReason := Some(LossReasonStockout);
      state.purchasedFromTruck := None;
    }
  }

  /**
   * When a truck wins, its option is the best truck option, evaluated on that
   * truck's listing, and the outcome names its food and drink.
   */
  lemma DecideTruckWin(truckListings: seq<Listing>, school: Listing, burger: Option<Listing>, diner: Diner)
    ensures var r := Decide(truckListings, school, burger, diner);
      r.TruckWins? ==>
        && r.truck < |truckListings|
        && r.food < |truckListings[r.truck].food|
        && (r.drink.Some? ==> r.drink.value < |truckListings[r.truck].drinks|)
        && BestTruck(truckListings, diner) == Some(EvaluateVendor(TruckAt(r.truck), truckListings[r.truck], diner))
        && EvaluateVendor(TruckAt(r.truck), truckListings[r.truck], diner).bestFood == Some(r.food)
        && EvaluateVendor(TruckAt(r.truck), truckListings[r.truck], diner).bestDrink == r.drink
  {
    var r := Decide(truckListings, school, burger, diner);
    OffersAreTagged(truckListings, school, burger, diner);
    if r.TruckWins? {
      var k := BestOption(TruckOptions(truckListings, diner)).value;
      assert TruckOptions(truckListings, diner)[k].vendor == TruckAt(k);
      EvaluateVendorIsBest(TruckAt(k), truckListings[k], diner);
    }
  }

  /**
   * A winning truck's chosen food is on its listing and costs no more than the
   * student has, and its chosen drink is on its listing: the food purchase of a
   * truck win never fails.
   */
  lemma TruckWinIsAffordable(truckListings: seq<Listing>, school: Listing, burger: Option<Listing>,
                             profile: StudentProfile, attrs: DailyAttributes, fuzzy: FuzzyMatcher)
    ensures var r := Decide(truckListings, school, burger, DinerFor(profile, attrs, fuzzy));
      r.TruckWins? ==>
        && r.truck < |truckListings|
        && r.food < |truckListings[r.truck].food|
        && truckListings[r.truck].food[r.food].price <= attrs.availableMoney
        && (r.drink.Some? ==> r.drink.value < |truckListings[r.truck].drinks|)
  {
    var diner := DinerFor(profile, attrs, fuzzy);
    var r := Decide(truckListings, school, burger, diner);
    DecideTruckWin(truckListings, school, burger, diner);
    if r.TruckWins? {
      EvaluateVendorIsBest(TruckAt(r.truck), truckListings[r.truck], diner);
      PositiveScoreIsAffordable(profile, attrs, fuzzy, truckListings[r.truck].food[r.food]);
    }
  }

  /** `TruckWinIsAffordable` read on the trucks themselves: the chosen food and drink are in stock on the winning truck. */
  lemma ChosenFoodIsOnTruck(profile: StudentProfile, attrs: DailyAttributes, trucks: seq<FoodTruck>,
                            school: SchoolLunch, fastFood: FastFood, fuzzy: FuzzyMatcher)
    ensures var r := Decide(TruckListings(trucks), SchoolListing(school), BurgerListing(profile, fastFood),
                            DinerFor(profile, attrs, fuzzy));
      r.TruckWins? ==>
        && r.truck < |trucks|
        && r.food < |trucks[r.truck].AvailableFood()|
        && trucks[r.truck].AvailableFood()[r.food].catalog.price <= attrs.availableMoney
        && (r.drink.Some? ==> r.drink.value < |trucks[r.truck].AvailableDrinks()|)
  {
    var listings := TruckListings(trucks);
    TruckWinIsAffordable(listings, SchoolListing(school), BurgerListing(profile, fastFood), profile, attrs, fuzzy);
    var r := Decide(listings, SchoolListing(school), BurgerListing(profile, fastFood), DinerFor(profile, attrs, fuzzy));
    if r.TruckWins? {
      TruckListingAt(trucks, r.truck);
    }
  }

  /** The options of every vendor for the student: the best truck, the school lunch, and the burger joint if they have a car. */
  method CollectOffers(truckListings: seq<Listing>, school: Listing, burger: Option<Listing>, diner: Diner)
      returns (offers: Offers)
    ensures offers == OffersFor(truckListings, school, burger, diner)
  {
    var bestTruck := FindBestItems(truckListings, diner);
    var schoolOption := FindBestItemsForVendor(SchoolLunchVendor, school, diner);
    var burgerOption: Option<VendorOption> := None;
    if burger.Some? {
      var option := FindBestItemsForVendor(FastFoodVendor, burger.value, diner);
      burgerOption := Some(option);
    }
    offers := Offers(bestTruck, schoolOption, burgerOption);
  }

  /**
   * Between the previous state and this one, every truck item in `sold` had
   * stock and lost exactly one unit, and every other truck item kept its stock.
   */
  twostate predicate SoldOnce(trucks: seq<FoodTruck>, new sold: seq<MenuItem>)
    reads set i, j | 0 <= i < |trucks| && 0 <= j < |trucks[i].menu| :: trucks[i].menu[j]
  {
    forall i, j :: 0 <= i < |trucks| && 0 <= j < |trucks[i].menu| ==>
      if trucks[i].menu[j] in sold then
        old(trucks[i].menu[j].currentInventory) > 0
        && trucks[i].menu[j].currentInventory == old(trucks[i].menu[j].currentInventory) - 1
      else trucks[i].menu[j].currentInventory == old(trucks[i].menu[j].currentInventory)
  }

  /**
   * How a settled decision shows in `state`: with nothing bought the student
   * took the school lunch (lost to a stockout or to the school lunch) or the
   * fast food (lost to it), and that choice flag is the only one raised;
   * with a purchase they bought it from one of the trucks, within their
   * money, and no choice flag or loss reason changed.
   */
  twostate predicate Recorded(state: StudentDailyState, trucks: seq<FoodTruck>, new sold: seq<MenuItem>)
    reads state
  {
    if sold == [] then
      && state.purchasedFromTruck == old(state.purchasedFromTruck)
      && state.lossReason.Some?
      && state.lossReason.value in {LossReasonStockout, LossReasonSchoolLunch, LossReasonFastFood}
      && (if state.lossReason == Some(LossReasonFastFood)
          then state.choseFastFood && state.choseSchoolLunch == old(state.choseSchoolLunch)
          else state.choseSchoolLunch && state.choseFastFood == old(state.choseFastFood))
    else
      && TotalPrice(sold) <= state.availableMoney
      && (exists t :: 0 <= t < |trucks| && state.purchasedFromTruck == Some(trucks[t].name))
      && state.choseSchoolLunch == old(state.choseSchoolLunch) && state.choseFastFood == old(state.choseFastFood)
      && state.lossReason == old(state.lossReason)
  }

  /**
   * Records the outcome of a decision in `state`. With no vendor offering
   * food the student falls back to school lunch with loss reason "stockout";
   * a school-lunch or burger-joint win records that choice and its loss
   * reason; a truck win buys the chosen food, in stock and affordable, then
   * the chosen drink when the money left covers it. Only the sold items lose
   * stock, one unit each.
   */
  method SettleOutcome(state: StudentDailyState, trucks: seq<FoodTruck>, decision: Outcome)
      returns (ghost sold: seq<MenuItem>)
    requires decision.TruckWins? ==>
      && decision.truck < |trucks|
      && decision.food < |trucks[decision.truck].AvailableFood()|
      && trucks[decision.truck].AvailableFood()[decision.food].catalog.price <= state.availableMoney
      && (decision.drink.Some? ==> decision.drink.value < |trucks[decision.truck].AvailableDrinks()|)
    modifies state, StockOf(trucks)
    ensures state.purchasedItems == old(state.purchasedItems) + sold
    ensures state.totalSpent == old(state.totalSpent) + TotalPrice(sold)
    ensures sold != [] ==> TotalPrice(sold) <= state.availableMoney
    ensures |sold| <= 2 && (|sold| == 2 ==> sold[0] != sold[1])
    ensures SoldOnce(trucks, sold)
    ensures Recorded(state, trucks, sold)
    ensures decision.NoCandidate? ==>
      && sold == [] && state.choseSchoolLunch && state.lossReason == Some(LossReasonStockout)
      && state.choseFastFood == old(state.choseFastFood) && state.purchasedFromTruck == old(state.purchasedFromTruck)
    ensures decision.SchoolWins? ==>
      && sold == [] && state.choseSchoolLunch && state.lossReason == Some(LossReasonSchoolLunch)
      && state.choseFastFood == old(state.choseFastFood) && state.purchasedFromTruck == old(state.purchasedFromTruck)
    ensures decision.FastFoodWins? ==>
      && sold == [] && state.choseFastFood && state.lossReason == Some(LossReasonFastFood)
      && state.choseSchoolLunch == old(state.choseSchoolLunch) && state.purchasedFromTruck == old(state.purchasedFromTruck)
    ensures decision.TruckWins? ==>
      && 1 <= |sold|
      && sold[0] == old(trucks[decision.truck].AvailableFood()[decision.food])
      && (|sold| == 2 <==>
            && decision.drink.Some?
            && old(trucks[decision.truck].AvailableDrinks()[decision.drink.value]).catalog.price
                 <= state.availableMoney - sold[0].catalog.price)
      && (|sold| == 2 ==> sold[1] == old(trucks[decision.truck].AvailableDrinks()[decision.drink.value]))
      && (forall m :: 0 <= m < |sold| ==> sold[m] in trucks[decision.truck].menu)
      && state.purchasedFromTruck == Some(trucks[decision.truck].name)
      && state.choseSchoolLunch == old(state.choseSchoolLunch) && state.choseFastFood == old(state.choseFastFood)
      && state.lossReason == old(state.lossReason)
  {
    if decision.TruckWins? {
      sold := SettleTruckWin(state, trucks, decision);
    } else {
      SettleLoss(state, trucks, decision);
      sold := [];
    }
  }

  /** A truck win settled: the best food bought, then the drink if it is still affordable. */
  method SettleTruckWin(state: StudentDailyState, trucks: seq<FoodTruck>, decision: Outcome)
      returns (ghost sold: seq<MenuItem>)
    requires decision.TruckWins?
    requires decision.truck < |trucks|
    requires decision.food < |trucks[decision.truck].AvailableFood()|
    requires trucks[decision.truck].AvailableFood()[decision.food].catalog.price <= state.availableMoney
    requires decision.drink.Some? ==> decision.drink.value < |trucks[decision.truck].AvailableDrinks()|
    modifies state, StockOf(trucks)
    ensures state.purchasedItems == old(state.purchasedItems) + sold
    ensures state.totalSpent == old(state.totalSpent) + TotalPrice(sold)
    ensures sold != [] ==> TotalPrice(sold) <= state.availableMoney
    ensures |sold| <= 2 && (|sold| == 2 ==> sold[0] != sold[1])
    ensures SoldOnce(trucks, sold)
    ensures Recorded(state, trucks, sold)
    ensures 1 <= |sold|
    ensures sold[0] == old(trucks[decision.truck].AvailableFood()[decision.food])
    ensures |sold| == 2 <==>
      && decision.drink.Some?
      && old(trucks[decision.truck].AvailableDrinks()[decision.drink.value]).catalog.price
           <= state.availableMoney - sold[0].catalog.price
    ensures |sold| == 2 ==> sold[1] == old(trucks[decision.truck].AvailableDrinks()[decision.drink.value])
    ensures forall m :: 0 <= m < |sold| ==> sold[m] in trucks[decision.truck].menu
    ensures state.purchasedFromTruck == Some(trucks[decision.truck].name)
    ensures state.choseSchoolLunch == old(state.choseSchoolLunch) && state.choseFastFood == old(state.choseFastFood)
    ensures state.lossReason == old(state.lossReason)
  {
    var truck := trucks[decision.truck];
    var food := truck.AvailableFood()[decision.food];
    var drink: Option<MenuItem> := if decision.drink.Some? then Some(truck.AvailableDrinks()[decision.drink.value]) else None;
    MenuInStockOf(trucks, decision.truck);
    sold := BuyFromTruck(state, truck, food, drink);
  }

  /** A decision without a truck settled: the school lunch or the fast food taken, and the loss reason recorded. */
  method SettleLoss(state: StudentDailyState, trucks: seq<FoodTruck>, decision: Outcome)
    requires !decision.TruckWins?
    modifies state
    ensures state.purchasedItems == old(state.purchasedItems) && state.totalSpent == old(state.totalSpent)
    ensures SoldOnce(trucks, []) && Recorded(state, trucks, [])
    ensures decision.NoCandidate? ==>
      && state.choseSchoolLunch && state.lossReason == Some(LossReasonStockout)
      && state.choseFastFood == old(state.choseFastFood) && state.purchasedFromTruck == old(state.purchasedFromTruck)
    ensures decision.SchoolWins? ==>
      && state.choseSchoolLunch && state.lossReason == Some(LossReasonSchoolLunch)
      && state.choseFastFood == old(state.choseFastFood) && state.purchasedFromTruck == old(state.purchasedFromTruck)
    ensures decision.FastFoodWins? ==>
      && state.choseFastFood && state.lossReason == Some(LossReasonFastFood)
      && state.choseSchoolLunch == old(state.choseSchoolLunch) && state.purchasedFromTruck == old(state.purchasedFromTruck)
  {
    match decision
    case NoCandidate =>
      // Nothing offered anywhere: school lunch, lost to a stockout.
      state.choseSchoolLunch := true;
      state.lossReason := Some(LossReasonStockout);
    case SchoolWins =>
      state.choseSchoolLunch := true;
      state.lossReason := Some(LossReasonSchoolLunch);
    case FastFoodWins =>
      state.choseFastFood := true;
      state.lossReason := Some(LossReasonFastFood);
  }

  /**
   * A student's lunch decision, recorded in `state`; `outcome` is the decision
   * and `sold` the truck items bought, in order. A truck win always buys the
   * truck's best food (it is in stock and affordable), so the "stockout"
   * fallback happens only when no vendor offers food; no more is spent than
   * the student has.
   */
  method MakeDecision(profile: StudentProfile, state: StudentDailyState, trucks: seq<FoodTruck>,
                      school: SchoolLunch, fastFood: FastFood, fuzzy: FuzzyMatcher)
      returns (ghost outcome: Outcome, ghost sold: seq<MenuItem>)
    modifies state, StockOf(trucks)
    ensures outcome == old(Decide(TruckListings(trucks), SchoolListing(school), BurgerListing(profile, fastFood),
                                  DinerFor(profile, state.Attributes(), fuzzy)))
    ensures state.purchasedItems == old(state.purchasedItems) + sold
    ensures state.totalSpent == old(state.totalSpent) + TotalPrice(sold)
    ensures sold != [] ==> TotalPrice(sold) <= state.availableMoney
    ensures |sold| <= 2 && (|sold| == 2 ==> sold[0] != sold[1])
    ensures SoldOnce(trucks, sold)
    ensures Recorded(state, trucks, sold)
    ensures outcome.NoCandidate? ==>
      && sold == [] && state.choseSchoolLunch && state.lossReason == Some(LossReasonStockout)
      && state.choseFastFood == old(state.choseFastFood) && state.purchasedFromTruck == old(state.purchasedFromTruck)
    ensures outcome.SchoolWins? ==>
      && sold == [] && state.choseSchoolLunch && state.lossReason == Some(LossReasonSchoolLunch)
      && state.choseFastFood == old(state.choseFastFood) && state.purchasedFromTruck == old(state.purchasedFromTruck)
    ensures outcome.FastFoodWins? ==>
      && sold == [] && state.choseFastFood && state.lossReason == Some(LossReasonFastFood)
      && state.choseSchoolLunch == old(state.choseSchoolLunch) && state.purchasedFromTruck == old(state.purchasedFromTruck)
    ensures outcome.TruckWins? ==>
      && outcome.truck < |trucks|
      && outcome.food < |old(trucks[outcome.truck].AvailableFood())|
      && (outcome.drink.Some? ==> outcome.drink.value < |old(trucks[outcome.truck].AvailableDrinks())|)
      && 1 <= |sold|
      && sold[0] == old(trucks[outcome.truck].AvailableFood()[outcome.food])
      && (|sold| == 2 <==>
            && outcome.drink.Some?
            && old(trucks[outcome.truck].AvailableDrinks()[outcome.drink.value]).catalog.price
                 <= state.availableMoney - sold[0].catalog.price)
      && (|sold| == 2 ==> sold[1] == old(trucks[outcome.truck].AvailableDrinks()[outcome.drink.value]))
      && (forall m :: 0 <= m < |sold| ==> sold[m] in trucks[outcome.truck].menu)
      && state.purchasedFromTruck == Some(trucks[outcome.truck].name)
      && state.choseSchoolLunch == old(state.choseSchoolLunch) && state.choseFastFood == old(state.choseFastFood)
      && state.lossReason == old(state.lossReason)
  {
    var decision := Choose(profile, state.Attributes(), trucks, school, fastFood, fuzzy);
    outcome := decision;
    sold := SettleOutcome(state, trucks, decision);
  }

  /** The decision over the vendors as they stand, with a truck win's choices on that truck and affordable. */
  method Choose(profile: StudentProfile, attrs: DailyAttributes, trucks: seq<FoodTruck>,
                school: SchoolLunch, fastFood: FastFood, fuzzy: FuzzyMatcher)
      returns (decision: Outcome)
    ensures decision == old(Decide(TruckListings(trucks), SchoolListing(school), BurgerListing(profile, fastFood),
                                   DinerFor(profile, attrs, fuzzy)))
    ensures decision.TruckWins? ==>
      && decision.truck < |trucks|
      && decision.food < |trucks[decision.truck].AvailableFood()|
      && trucks[decision.truck].AvailableFood()[decision.food].catalog.price <= attrs.availableMoney
      && (decision.drink.Some? ==> decision.drink.value < |trucks[decision.truck].AvailableDrinks()|)
    ensures decision.TruckWins? ==>
      && trucks[decision.truck].AvailableFood() == old(trucks[decision.truck].AvailableFood())
      && trucks[decision.truck].AvailableDrinks() == old(trucks[decision.truck].AvailableDrinks())
  {
    ChosenFoodIsOnTruck(profile, attrs, trucks, school, fastFood, fuzzy);
    StockAllocated(trucks);
    decision := DecideOn(TruckListings(trucks), SchoolListing(school), BurgerListing(profile, fastFood),
                         DinerFor(profile, attrs, fuzzy));
    if decision.TruckWins? {
      // Deciding changes no stock, so the winning truck lists what it listed before.
      MenuInStockOf(trucks, decision.truck);
    }
  }

  /** The decision over the vendors' listings: the offers collected by the scans, then the winner among them. */
  method DecideOn(truckListings: seq<Listing>, school: Listing, burger: Option<Listing>, diner: Diner)
      returns (decision: Outcome)
    ensures decision == Decide(truckListings, school, burger, diner)
  {
    var offers := CollectOffers(truckListings, school, burger, diner);
    OffersAreTagged(truckListings, school, burger, diner);
    decision := Winner(offers);
    assert Decide(truckListings, school, burger, diner) == Winner(offers);
  }
}
