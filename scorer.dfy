/**
 * Item scoring (ftsim/scoring/scorer.py): three subscores in [0, 1] combined
 * with weights 0.5/0.3/0.2 and scaled by a multiplicative bonus stack, with a
 * hard zero for any item the student cannot afford.
 */
module Scorer {
  import opened Wrappers
  import opened Strings
  import opened Config
  import opened MenuItems
  import opened Students
  import opened Vendors

  /**
   * The fuzzy similarity of an item name to a favourite-food text (0..100 in
   * the source, the best of four string-similarity ratios). The model takes it
   * as a parameter; only its comparisons with 85 and 70 matter.
   */
  type FuzzyMatcher = (string, string) -> int

  /** The fuzzy score of `item` against the student's favourite food. */
  function FuzzyScore(item: CatalogItem, profile: StudentProfile, fuzzy: FuzzyMatcher): int
  {
    fuzzy(item.name, profile.q8LunchChoice)
  }

  /** The student's rank for a drink's category; 5 for a category without a survey rank. */
  function DrinkCategoryRank(item: CatalogItem, profile: StudentProfile): (r: int)
    ensures RanksInRange(profile) ==> 1 <= r <= 5
    ensures Lower(item.category) == "energy" ==> r == profile.energyDrinkRank
    ensures Lower(item.category) == "soda" ==> r == profile.sodaRank
    ensures Lower(item.category) == "juice" ==> r == profile.juiceRank
    ensures Lower(item.category) == "water" ==> r == profile.waterRank
    ensures Lower(item.category) in {"milk", "coffee"} ==> r == profile.coffeeTeaRank
    ensures Lower(item.category) !in {"energy", "soda", "juice", "water", "milk", "coffee"} ==> r == 5
  {
    var category := Lower(item.category);
    if category == "energy" then profile.energyDrinkRank
    else if category == "soda" then profile.sodaRank
    else if category == "juice" then profile.juiceRank
    else if category == "water" then profile.waterRank
    else if category == "milk" then profile.coffeeTeaRank   // grouped with coffee/tea in the survey
    else if category == "coffee" then profile.coffeeTeaRank
    else 5
  }

  const HealthyKeywords: seq<string> := ["salad", "veggie", "fruit", "yogurt", "grilled", "wrap"]
  const FriedKeywords: seq<string> := ["fries", "burger", "tenders", "rings", "corn dog", "nachos", "cheese"]
  const SweetKeywords: seq<string> := ["brownie", "cookie", "ice cream", "churro", "cinnamon", "funnel", "parfait"]
  const SavoryKeywords: seq<string> := ["bowl", "wrap", "sandwich", "burrito", "chicken", "beef", "pork", "tacos"]

  /** A food item's preference from its category and the favourite-food text. */
  function FoodCategoryPreference(category: string, favorite: string): (r: real)
    ensures r in {0.75, 0.70, 0.50, 0.40}
    ensures r == 0.75 <==>
      || (category == "healthy" && ContainsAny(favorite, HealthyKeywords))
      || (category == "fried" && ContainsAny(favorite, FriedKeywords))
      || (category == "sweet" && ContainsAny(favorite, SweetKeywords))
    ensures r == 0.70 <==> category == "savory" && ContainsAny(favorite, SavoryKeywords)
    ensures r == 0.50 <==> category == "snack"
    ensures category !in {"healthy", "fried", "sweet", "savory", "snack"} ==> r == 0.40
  {
    if category == "healthy" && ContainsAny(favorite, HealthyKeywords) then 0.75
    else if category == "fried" && ContainsAny(favorite, FriedKeywords) then 0.75
    else if category == "sweet" && ContainsAny(favorite, SweetKeywords) then 0.75
    else if category == "savory" && ContainsAny(favorite, SavoryKeywords) then 0.70
    else if category == "snack" then 0.50
    else 0.40
  }

  /** The preference subscore together with the fuzzy score it was derived from. */
  function ScorePreference(item: CatalogItem, profile: StudentProfile, fuzzy: FuzzyMatcher): (r: (real, int))
    ensures r.1 == FuzzyScore(item, profile, fuzzy)
    ensures 0.3 <= r.0
    ensures (item.itemType != ItemTypeDrink || RanksInRange(profile)) ==> r.0 <= 1.0
    ensures r.1 >= FuzzyThresholdHigh ==> r.0 == 1.0
    ensures FuzzyThresholdMedium <= r.1 < FuzzyThresholdHigh ==> r.0 == 0.85
  {
    var fuzzyScore := FuzzyScore(item, profile, fuzzy);
    if fuzzyScore >= FuzzyThresholdHigh then (1.0, fuzzyScore)
    else if fuzzyScore >= FuzzyThresholdMedium then (0.85, fuzzyScore)
    else if item.itemType == ItemTypeDrink then
      var drinkScore := (6 - DrinkCategoryRank(item, profile)) as real / 5.0;
      (if drinkScore >= 0.3 then drinkScore else 0.3, fuzzyScore)
    else
      (FoodCategoryPreference(Lower(item.category), Lower(profile.q8LunchChoice)), fuzzyScore)
  }

  /**
   * Below the medium fuzzy threshold the preference comes from the item's
   * category: a drink scores `(6 - rank) / 5` with a floor of 0.3, a food
   * item its category preference against the favourite food.
   */
  lemma PreferenceByCategory(item: CatalogItem, profile: StudentProfile, fuzzy: FuzzyMatcher)
    requires FuzzyScore(item, profile, fuzzy) < FuzzyThresholdMedium
    ensures item.itemType == ItemTypeDrink ==>
      var rankScore := (6 - DrinkCategoryRank(item, profile)) as real / 5.0;
      ScorePreference(item, profile, fuzzy).0 == if rankScore >= 0.3 then rankScore else 0.3
    ensures item.itemType != ItemTypeDrink ==>
      ScorePreference(item, profile, fuzzy).0 == FoodCategoryPreference(Lower(item.category), Lower(profile.q8LunchChoice))
  {
  }

  /**
   * The affordability subscore as the source writes it: the fraction of the
   * budget left after the purchase, which divides by the budget even when it
   * is zero. Python raises `ZeroDivisionError` there; the model returns `Err`.
   */
  function AffordabilityAsWritten(price: real, money: real): (r: Result<real, string>)
    ensures r.Err? <==> price <= money && money == 0.0
    ensures r.Ok? && price > money ==> r.value == 0.0
  {
    if price > money then Ok(0.0)
    else if money == 0.0 then Err("ZeroDivisionError")
    else Ok(0.3 + (money - price) / money * 0.7)
  }

  /** The fraction of the budget left after paying `price`; a zero budget leaves all of nothing. */
  function RemainingFraction(price: real, money: real): (r: real)
    requires price <= money
    ensures 0.0 <= price && 0.0 < money ==> 0.0 <= r <= 1.0
    ensures money == 0.0 ==> r == 1.0
    ensures 0.0 <= money ==> 0.0 <= r
  {
    if money == 0.0 then 1.0 else (money - price) / money
  }

  /**
   * The affordability subscore: 0 when the item costs more than the budget,
   * otherwise `0.3 + 0.7 * remaining fraction`; with a zero budget the
   * remaining fraction is taken as 1, so a free item is fully affordable.
   */
  function ScoreAffordability(item: CatalogItem, attrs: DailyAttributes): (r: real)
    ensures item.price > attrs.availableMoney ==> r == 0.0
    ensures 0.0 <= attrs.availableMoney && item.price <= attrs.availableMoney ==> 0.3 <= r
    ensures 0.0 <= item.price <= attrs.availableMoney ==> r <= 1.0
    ensures attrs.availableMoney != 0.0 ==> AffordabilityAsWritten(item.price, attrs.availableMoney) == Ok(r)
  {
    if item.price > attrs.availableMoney then 0.0
    else 0.3 + RemainingFraction(item.price, attrs.availableMoney) * 0.7
  }

  /** The mood/health subscore: the health rating out of ten, inverted for a junk mood. */
  function ScoreMoodHealth(item: CatalogItem, attrs: DailyAttributes): (r: real)
    ensures 0 <= item.healthRating <= 10 ==> 0.0 <= r <= 1.0
    ensures attrs.mood == "healthy" ==> r == item.healthRating as real / 10.0
    ensures attrs.mood != "healthy" ==> r == 1.0 - item.healthRating as real / 10.0
  {
    var healthScore := item.healthRating as real / 10.0;
    if attrs.mood == "healthy" then healthScore else 1.0 - healthScore
  }

  /** The largest bonus multiplier the stack can produce: one fuzzy bonus and one taste bonus at most. */
  const MaxBonus: real := BonusFuzzyMatchHigh * BonusSweet * BonusEnergy * BonusHighCalorie * BonusCategoryMatch

  /** A name bonus exactly when the favourite food matches at least moderately; the stronger match earns more. */
  function FuzzyBonus(fuzzyScore: int): (r: real)
    ensures 1.0 <= r <= BonusFuzzyMatchHigh
    ensures r > 1.0 <==> fuzzyScore >= FuzzyThresholdMedium
    ensures fuzzyScore >= FuzzyThresholdHigh ==> r == BonusFuzzyMatchHigh
  {
    if fuzzyScore >= FuzzyThresholdHigh then BonusFuzzyMatchHigh
    else if fuzzyScore >= FuzzyThresholdMedium then BonusFuzzyMatchMedium
    else 1.0
  }

  /** A taste bonus exactly for a sweet item and a student wanting sweets, or a savory item and one preferring savory. */
  function TasteBonus(item: CatalogItem, profile: StudentProfile): (r: real)
    ensures 1.0 <= r <= BonusSweet
    ensures r > 1.0 <==>
      || (profile.q7WantsSweet in SweetPreferenceValues && SweetPreferenceValues[profile.q7WantsSweet] && item.subType == "sweet")
      || (profile.q7WantsSweet == "No, I prefer savory" && item.subType == "savory")
  {
    var wantsSweet := profile.q7WantsSweet in SweetPreferenceValues && SweetPreferenceValues[profile.q7WantsSweet];
    var prefersSavory := profile.q7WantsSweet == "No, I prefer savory";
    if wantsSweet && item.subType == "sweet" then BonusSweet
    else if prefersSavory && item.subType == "savory" then BonusSavory
    else 1.0
  }

  /** An energy bonus exactly for an energy-boosting item and a drowsy student. */
  function EnergyBonus(item: CatalogItem, attrs: DailyAttributes): (r: real)
    ensures 1.0 <= r <= BonusEnergy
    ensures r > 1.0 <==> attrs.isDrowsy && item.energyBoost
  {
    if attrs.isDrowsy && item.energyBoost then BonusEnergy else 1.0
  }

  /** A calorie bonus exactly for a high-calorie item and an active or high-metabolism student. */
  function CalorieBonus(item: CatalogItem, profile: StudentProfile): (r: real)
    ensures 1.0 <= r <= BonusHighCalorie
    ensures r > 1.0 <==>
      && (profile.q5ActivityLevel in HighActivityLevels || profile.q3Metabolism in HighMetabolismValues)
      && item.calories >= HighCalorieThreshold
  {
    var isActive := profile.q5ActivityLevel in HighActivityLevels;
    var hasHighMetabolism := profile.q3Metabolism in HighMetabolismValues;
    if (isActive || hasHighMetabolism) && item.calories >= HighCalorieThreshold then BonusHighCalorie else 1.0
  }

  /** A category bonus exactly when the item's category suits the day's mood. */
  function CategoryBonus(item: CatalogItem, attrs: DailyAttributes): (r: real)
    ensures 1.0 <= r <= BonusCategoryMatch
    ensures r > 1.0 <==>
      || (attrs.mood == "healthy" && item.category == "healthy")
      || (attrs.mood == "junk" && item.category in {"fried", "sweet"})
  {
    if attrs.mood == "healthy" && item.category == "healthy" then BonusCategoryMatch
    else if attrs.mood == "junk" && item.category in {"fried", "sweet"} then BonusCategoryMatch
    else 1.0
  }

  /**
   * The bonus multiplier: the product of the fuzzy, taste, energy, calorie and
   * category bonuses. It is at least 1, and at most `MaxBonus`.
   */
  function CalculateBonuses(item: CatalogItem, profile: StudentProfile, attrs: DailyAttributes, fuzzyScore: int): (r: real)
    ensures 1.0 <= r <= MaxBonus
    ensures fuzzyScore < FuzzyThresholdMedium ==> r <= MaxBonus / BonusFuzzyMatchHigh
  {
    var fb := FuzzyBonus(fuzzyScore);
    var tb := TasteBonus(item, profile);
    var eb := EnergyBonus(item, attrs);
    var cb := CalorieBonus(item, profile);
    var gb := CategoryBonus(item, attrs);
    BoundedProduct(fb, tb, eb, cb, gb);
    fb * tb * eb * cb * gb
  }

  /** Multiplying two factors that are each at least 1 and at most a bound. */
  lemma MulBounded(x: real, y: real, bx: real, bnd: real)
    requires 1.0 <= x <= bx && 1.0 <= y <= bnd
    ensures 1.0 <= x * y <= bx * bnd
  {
    assert x * y <= bx * y;
    assert bx * y <= bx * bnd;
  }

  /** Monotonicity of a product of five factors, each between 1 and its own bound. */
  lemma BoundedProduct(a: real, b: real, c: real, d: real, e: real)
    requires 1.0 <= a <= BonusFuzzyMatchHigh && 1.0 <= b <= BonusSweet && 1.0 <= c <= BonusEnergy
    requires 1.0 <= d <= BonusHighCalorie && 1.0 <= e <= BonusCategoryMatch
    ensures 1.0 <= a * b * c * d * e <= MaxBonus
    ensures a * b * c * d * e <= a * (MaxBonus / BonusFuzzyMatchHigh)
  {
    MulBounded(a, b, BonusFuzzyMatchHigh, BonusSweet);
    MulBounded(a * b, c, BonusFuzzyMatchHigh * BonusSweet, BonusEnergy);
    MulBounded(a * b * c, d, BonusFuzzyMatchHigh * BonusSweet * BonusEnergy, BonusHighCalorie);
    MulBounded(a * b * c * d, e, BonusFuzzyMatchHigh * BonusSweet * BonusEnergy * BonusHighCalorie, BonusCategoryMatch);
    MulBounded(b, c, BonusSweet, BonusEnergy);
    MulBounded(b * c, d, BonusSweet * BonusEnergy, BonusHighCalorie);
    MulBounded(b * c * d, e, BonusSweet * BonusEnergy * BonusHighCalorie, BonusCategoryMatch);
    assert a * b * c * d * e == a * (b * c * d * e);
  }

  /** The product of two factors of at least 1 is above 1 exactly when one of them is. */
  lemma MulAboveOne(x: real, y: real)
    requires 1.0 <= x && 1.0 <= y
    ensures 1.0 <= x * y
    ensures x * y > 1.0 <==> x > 1.0 || y > 1.0
  {
    assert x * y - x == x * (y - 1.0);
    assert x * y - y == y * (x - 1.0);
  }

  /** The stacked bonuses raise the score exactly when at least one bonus condition holds. */
  lemma {:induction false} BonusIffTriggered(item: CatalogItem, profile: StudentProfile, attrs: DailyAttributes, fuzzyScore: int)
    ensures CalculateBonuses(item, profile, attrs, fuzzyScore) > 1.0 <==>
      || FuzzyBonus(fuzzyScore) > 1.0 || TasteBonus(item, profile) > 1.0 || EnergyBonus(item, attrs) > 1.0
      || CalorieBonus(item, profile) > 1.0 || CategoryBonus(item, attrs) > 1.0
  {
    var fb := FuzzyBonus(fuzzyScore);
    var tb := TasteBonus(item, profile);
    var eb := EnergyBonus(item, attrs);
    var cb := CalorieBonus(item, profile);
    var gb := CategoryBonus(item, attrs);
    MulAboveOne(fb, tb);
    MulAboveOne(fb * tb, eb);
    MulAboveOne(fb * tb * eb, cb);
    MulAboveOne(fb * tb * eb * cb, gb);
  }

  /** The weighted base score before bonuses: a weighted average, so it stays within [0, 1] with its parts. */
  function BaseScore(preference: real, affordability: real, mood: real): (r: real)
    ensures 0.0 <= preference <= 1.0 && 0.0 <= affordability <= 1.0 && 0.0 <= mood <= 1.0 ==> 0.0 <= r <= 1.0
    ensures preference == affordability == mood ==> r == preference
  {
    WeightPreference * preference + WeightAffordability * affordability + WeightMoodHealth * mood
  }

  /** Scaling by a multiplier of at least 1 keeps a value at or above a non-negative bound. */
  lemma ScaledAtLeast(x: real, m: real, bound: real)
    requires 1.0 <= m && 0.0 <= bound
    ensures x >= bound ==> x * m >= bound
  {
    if x >= bound {
      assert x * m >= x * 1.0;
    }
  }

  /**
   * The total score of an item for a student on a day: exactly 0 when the item
   * is unaffordable, otherwise the weighted base scaled by the bonus multiplier.
   */
  function ScoreItem(item: CatalogItem, profile: StudentProfile, attrs: DailyAttributes, fuzzy: FuzzyMatcher): (r: real)
    ensures item.price > attrs.availableMoney ==> r == 0.0
    ensures 0.0 <= attrs.availableMoney && 0 <= item.healthRating <= 10 && item.price <= attrs.availableMoney ==> r >= 0.24
  {
    var pref := ScorePreference(item, profile, fuzzy);
    var affordability := ScoreAffordability(item, attrs);
    var mood := ScoreMoodHealth(item, attrs);
    if affordability == 0.0 then 0.0
    else
      var base := BaseScore(pref.0, affordability, mood);
      var bonus := CalculateBonuses(item, profile, attrs, pref.1);
      ScaledAtLeast(base, bonus, 0.24);
      base * bonus
  }

  /** On sane inputs the score is positive exactly when the item is affordable. */
  lemma ScorePositiveIffAffordable(item: CatalogItem, profile: StudentProfile, attrs: DailyAttributes, fuzzy: FuzzyMatcher)
    requires 0.0 <= attrs.availableMoney && 0 <= item.healthRating <= 10
    ensures ScoreItem(item, profile, attrs, fuzzy) > 0.0 <==> item.price <= attrs.availableMoney
    ensures ScoreItem(item, profile, attrs, fuzzy) >= 0.0
  {
  }

  /** A profile whose only relevant answers are the favourite food and the sweet question. */
  function SampleProfile(favorite: string, wantsSweet: string): StudentProfile
  {
    StudentProfile(1, 10, "F", "Middle", "$1-$3", "Maintain weight", "Average",
      "$5-$10", "Moderately active", "Somewhat important", wantsSweet, favorite,
      1, 2, 3, 4, 5, false)
  }

  /**
   * Worked example: a 5.00 savory item, rated 8, for a healthy-mood student
   * holding 10.00 whose favourite food it matches strongly, scores 1.71.
   */
  lemma ScoreOfStrongFavourite(fuzzy: FuzzyMatcher)
    requires fuzzy("Chicken Bowl", "chicken bowl") == 100
    ensures ScoreItem(CatalogItem("Chicken Bowl", 5.00, 8, ItemTypeFood, "savory", "savory", false, 20, 550),
                      SampleProfile("chicken bowl", "Rarely"),
                      DailyAttributes(10.00, "healthy", false), fuzzy) == 1.71
  {
    var item := CatalogItem("Chicken Bowl", 5.00, 8, ItemTypeFood, "savory", "savory", false, 20, 550);
    var attrs := DailyAttributes(10.00, "healthy", false);
    var profile := SampleProfile("chicken bowl", "Rarely");
    assert ScorePreference(item, profile, fuzzy).0 == 1.0;
    assert ScoreAffordability(item, attrs) == 0.65;
    assert ScoreMoodHealth(item, attrs) == 0.8;
    assert CalculateBonuses(item, profile, attrs, 100) == 2.0;
  }

  /** The free water of the school lunch drink pool, scored as written for a student with no money. */
  lemma FreeWaterWithNoMoneyDividesByZero()
    ensures SchoolLunchDrinkPool[3].name == "Water" && SchoolLunchDrinkPool[3].price == 0.0
    ensures AffordabilityAsWritten(SchoolLunchDrinkPool[3].price, 0.0).Err?
    ensures ScoreAffordability(SchoolLunchDrinkPool[3], DailyAttributes(0.0, "junk", false)) == 1.0
  {
  }
}
