/**
 * The simulation's tuning constants and lookup tables (ftsim/config.py).
 * Money, weights and multipliers are exact `real`s.
 */
module Config {

  const DrowsinessChance: real := 0.30
  const MoneyVariance: real := 0.20

  // Scoring weights; they sum to 1.
  const WeightPreference: real := 0.50
  const WeightAffordability: real := 0.30
  const WeightMoodHealth: real := 0.20

  // Multiplicative bonuses.
  const BonusFuzzyMatchHigh: real := 2.00
  const BonusFuzzyMatchMedium: real := 1.50
  const BonusSweet: real := 1.25
  const BonusSavory: real := 1.20
  const BonusEnergy: real := 1.30
  const BonusHighCalorie: real := 1.20
  const BonusCategoryMatch: real := 1.35

  /** Factor applied to a vendor whose best food and best drink do not fit the budget together. */
  const PenaltyNoDrink: real := 0.85

  const FuzzyThresholdHigh: int := 85
  const FuzzyThresholdMedium: int := 70
  const HighCalorieThreshold: int := 600

  /** (money-for-lunch bracket, income level) to base money. */
  const MoneyMapping: map<(string, string), real> := map[
    ("Less than $7", "Low") := 5.00,
    ("Less than $7", "Medium") := 6.00,
    ("Less than $7", "High") := 6.50,
    ("$7-$10", "Low") := 7.50,
    ("$7-$10", "Medium") := 8.50,
    ("$7-$10", "High") := 9.50,
    ("More than $10", "Low") := 10.50,
    ("More than $10", "Medium") := 12.00,
    ("More than $10", "High") := 14.00
  ]

  /** Base money when the bracket/income pair has no entry. */
  const DefaultBaseMoney: real := 8.50

  const HealthyMoodProbability: map<string, real> := map[
    "Very important - I always try to choose nutritious options" := 0.75,
    "Somewhat important - I try to balance healthy and tasty" := 0.50,
    "Not really important - I just eat what tastes good" := 0.25
  ]

  const DefaultHealthyMoodProbability: real := 0.50

  const SweetPreferenceValues: map<string, bool> := map[
    "Yes, I often crave something sweet" := true,
    "Sometimes" := true,
    "Rarely" := false,
    "No, I prefer savory" := false
  ]

  const DrinkSpendMapping: map<string, real> := map[
    "Less than $2" := 1.5,
    "$2-$3" := 2.5,
    "$3-$5" := 4.0,
    "More than $5" := 6.0
  ]

  const HighActivityLevels: set<string> := {
    "Very active (exercise daily)",
    "Active (exercise 3-4 times a week)"
  }

  const HighMetabolismValues: set<string> := {
    "Fast - I can eat a lot without gaining weight"
  }

  const HealthGoalModifier: map<string, real> := map[
    "Lose weight" := 0.10,
    "Maintain weight" := 0.0,
    "Gain weight/muscle" := -0.05,
    "Not focused on weight" := 0.0
  ]

  // Loss reasons. `price` is declared by the source but never produced.
  const LossReasonSchoolLunch: string := "school_lunch"
  const LossReasonPrice: string := "price"
  const LossReasonStockout: string := "stockout"
  const LossReasonFastFood: string := "fastfood"

  const ItemTypeFood: string := "food"
  const ItemTypeDrink: string := "drink"

  const FoodCategories: set<string> := {"healthy", "fried", "sweet", "savory", "snack"}
  const DrinkCategories: set<string> := {"energy", "soda", "juice", "water", "milk", "coffee"}
  const ValidSubTypes: set<string> := {"sweet", "savory"}

  /** The stock every school-lunch and fast-food item is created with. */
  const Unlimited: int := 9999

  /** The three scoring weights sum to one. */
  lemma WeightsSumToOne()
    ensures WeightPreference + WeightAffordability + WeightMoodHealth == 1.0
  {
  }
}
