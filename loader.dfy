/**
 * The data loader (ftsim/data/loader.py): the survey-answer normalisers, the
 * drink categoriser, the drink-rank fold of a survey row, and the validation
 * of a decoded menu document. Reading CSV, JSON and YAML files is not
 * modelled: the loader here starts from already-decoded rows and records.
 */
module Loader {
  import opened Wrappers
  import opened Strings
  import opened Config
  import opened MenuItems
  import opened Students

  // ---------------------------------------------------------------------------
  // Keyword rules
  // ---------------------------------------------------------------------------

  /** One branch of an `if "kw1" in text or "kw2" in text: return output` chain. */
  datatype Rule = Rule(keywords: seq<string>, output: string)

  /** The position of the first rule with a keyword in `text`, if any. */
  function FirstMatching(text: string, rules: seq<Rule>, from: nat): (r: Option<nat>)
    requires from <= |rules|
    ensures r.Some? ==> from <= r.value < |rules| && ContainsAny(text, rules[r.value].keywords)
    ensures r.Some? ==> forall k :: from <= k < r.value ==> !ContainsAny(text, rules[k].keywords)
    ensures r.None? ==> forall k :: from <= k < |rules| ==> !ContainsAny(text, rules[k].keywords)
    decreases |rules| - from
  {
    if from == |rules| then None
    else if ContainsAny(text, rules[from].keywords) then Some(from)
    else FirstMatching(text, rules, from + 1)
  }

  /**
   * Lower-cases `text` and returns the output of the first rule with a
   * keyword in it, or `default` when no rule matches.
   */
  function Normalise(text: string, rules: seq<Rule>, default: string): (r: string)
    ensures r == default || exists i :: 0 <= i < |rules| && r == rules[i].output
  {
    match FirstMatching(Lower(text), rules, 0)
    case Some(i) => rules[i].output
    case None => default
  }

  /** What `Normalise` returns: the first matching rule's output, or the default when none matches. */
  lemma NormaliseFirstRuleWins(text: string, rules: seq<Rule>, default: string)
    ensures forall i :: 0 <= i < |rules| && ContainsAny(Lower(text), rules[i].keywords)
              && (forall k :: 0 <= k < i ==> !ContainsAny(Lower(text), rules[k].keywords))
              ==> Normalise(text, rules, default) == rules[i].output
    ensures (forall k :: 0 <= k < |rules| ==> !ContainsAny(Lower(text), rules[k].keywords))
            ==> Normalise(text, rules, default) == default
  {
    var m := FirstMatching(Lower(text), rules, 0);
    if m.Some? {
      forall i | 0 <= i < |rules| && ContainsAny(Lower(text), rules[i].keywords)
        && (forall k :: 0 <= k < i ==> !ContainsAny(Lower(text), rules[k].keywords))
        ensures Normalise(text, rules, default) == rules[i].output
      {
      }
    }
  }

  /** Normalising ignores letter case: the lower-cased text normalises like the text itself. */
  lemma NormaliseIgnoresCase(text: string, rules: seq<Rule>, default: string)
    ensures Normalise(Lower(text), rules, default) == Normalise(text, rules, default)
  {
    LowerIdempotent(text);
  }

  /** The empty answer matches no rule (every keyword is non-empty) and normalises to the default. */
  lemma EmptyGetsDefault(rules: seq<Rule>, default: string)
    requires forall k, j :: 0 <= k < |rules| && 0 <= j < |rules[k].keywords| ==> rules[k].keywords[j] != []
    ensures Normalise("", rules, default) == default
  {
    LowerNoUpper("");
    NormaliseFirstRuleWins("", rules, default);
  }

  // ---------------------------------------------------------------------------
  // Survey-answer normalisers
  // ---------------------------------------------------------------------------

  const Q4Rules: seq<Rule> := [
    Rule(["less than", "low"], "Less than $7"),
    Rule(["more than", "high"], "More than $10")]

  /** `_parse_q4_money`: the money-for-lunch bracket. */
  function ParseQ4Money(answer: string): (r: string)
    ensures (r, "Low") in MoneyMapping && (r, "Medium") in MoneyMapping && (r, "High") in MoneyMapping
    ensures answer == "" ==> r == "$7-$10"
  {
    EmptyGetsDefault(Q4Rules, "$7-$10");
    Normalise(answer, Q4Rules, "$7-$10")
  }

  const Q6Rules: seq<Rule> := [
    Rule(["very important"], "Very important - I always try to choose nutritious options"),
    Rule(["somewhat"], "Somewhat important - I try to balance healthy and tasty")]

  /** `_parse_q6_healthy`: how much healthy eating matters. */
  function ParseQ6Healthy(answer: string): (r: string)
    ensures r in HealthyMoodProbability
    ensures answer == "" ==> r == "Not really important - I just eat what tastes good"
  {
    EmptyGetsDefault(Q6Rules, "Not really important - I just eat what tastes good");
    Normalise(answer, Q6Rules, "Not really important - I just eat what tastes good")
  }

  const Q7Rules: seq<Rule> := [
    Rule(["yes", "always"], "Yes, I often crave something sweet"),
    Rule(["sometimes"], "Sometimes"),
    Rule(["rarely"], "Rarely")]

  /** `_parse_q7_sweet`: the sweet craving. */
  function ParseQ7Sweet(answer: string): (r: string)
    ensures r in SweetPreferenceValues
    ensures answer == "" ==> r == "No, I prefer savory"
  {
    EmptyGetsDefault(Q7Rules, "No, I prefer savory");
    Normalise(answer, Q7Rules, "No, I prefer savory")
  }

  const Q5Rules: seq<Rule> := [
    Rule(["very active", "sports team"], "Very active (exercise daily)"),
    Rule(["active", "sometimes", "somewhat"], "Active (exercise 3-4 times a week)")]

  /** The activity levels `_parse_q5_activity` produces. */
  const ActivityLevels: set<string> := {"Very active (exercise daily)", "Active (exercise 3-4 times a week)", "Not very active"}

  /** `_parse_q5_activity`: the activity level. */
  function ParseQ5Activity(answer: string): (r: string)
    ensures r in ActivityLevels
    ensures r in HighActivityLevels <==> r != "Not very active"
    ensures answer == "" ==> r == "Not very active"
  {
    EmptyGetsDefault(Q5Rules, "Not very active");
    Normalise(answer, Q5Rules, "Not very active")
  }

  const Q3Rules: seq<Rule> := [
    Rule(["fast", "eat a lot", "hungry"], "Fast - I can eat a lot without gaining weight"),
    Rule(["slow", "full"], "Slow - I get full easily")]

  /** The metabolism answers `_parse_q3_metabolism` produces. */
  const MetabolismValues: set<string> := {"Fast - I can eat a lot without gaining weight", "Slow - I get full easily", "Average"}

  /** `_parse_q3_metabolism`: the metabolism. */
  function ParseQ3Metabolism(answer: string): (r: string)
    ensures r in MetabolismValues
    ensures r in HighMetabolismValues <==> r == "Fast - I can eat a lot without gaining weight"
    ensures answer == "" ==> r == "Average"
  {
    EmptyGetsDefault(Q3Rules, "Average");
    Normalise(answer, Q3Rules, "Average")
  }

  const Q2Rules: seq<Rule> := [
    Rule(["lose"], "Lose weight"),
    Rule(["gain", "muscle", "stronger"], "Gain weight/muscle"),
    Rule(["maintain"], "Maintain weight")]

  /** `_parse_q2_health_goal`: the weight goal. */
  function ParseQ2HealthGoal(answer: string): (r: string)
    ensures r in HealthGoalModifier
    ensures answer == "" ==> r == "Not focused on weight"
  {
    EmptyGetsDefault(Q2Rules, "Not focused on weight");
    Normalise(answer, Q2Rules, "Not focused on weight")
  }

  const Q1Rules: seq<Rule> := [
    Rule(["$4", "more"], "More than $5"),
    Rule(["$3"], "$3-$5"),
    Rule(["$2"], "$2-$3")]

  /** `_parse_q1_spend`: what the student spends on a drink. */
  function ParseQ1Spend(answer: string): (r: string)
    ensures r in DrinkSpendMapping
    ensures answer == "" ==> r == "Less than $2"
  {
    EmptyGetsDefault(Q1Rules, "Less than $2");
    Normalise(answer, Q1Rules, "Less than $2")
  }

  // ---------------------------------------------------------------------------
  // Literal keyword rules
  // ---------------------------------------------------------------------------

  /** A rule matches as soon as one of its keywords occurs. */
  lemma KeywordHit(text: string, keywords: seq<string>, j: nat)
    requires j < |keywords| && Contains(text, keywords[j])
    ensures ContainsAny(text, keywords)
  {
  }

  /** The first rule wins outright when it matches. */
  lemma FirstRuleHit(text: string, rules: seq<Rule>, default: string)
    requires rules != [] && ContainsAny(Lower(text), rules[0].keywords)
    ensures Normalise(text, rules, default) == rules[0].output
  {
  }

  /** "not very active" holds "very active" from its fifth character on. */
  lemma NotVeryActiveLowered(answer: string)
    requires answer == "Not very active"
    ensures Contains(Lower(answer), "very active")
  {
    var l := Lower(answer);
    assert l[4..15] == "very active";
    ContainsSlice(l, 4, "very active");
  }

  /**
   * The rules are applied literally: the answer "Not very active", which is
   * the activity normaliser's own default output, contains "very active" and
   * so normalises to the highest activity level.
   */
  lemma NotVeryActiveReadsAsVeryActive(answer: string)
    requires answer == "Not very active"
    ensures ParseQ5Activity(answer) == "Very active (exercise daily)"
    ensures ParseQ5Activity(answer) != answer
  {
    NotVeryActiveLowered(answer);
    KeywordHit(Lower(answer), Q5Rules[0].keywords, 0);
    FirstRuleHit(answer, Q5Rules, "Not very active");
  }

  /** The second rule wins when the first does not match and the second does. */
  lemma SecondRuleHit(text: string, rules: seq<Rule>, default: string)
    requires |rules| >= 2 && !ContainsAny(Lower(text), rules[0].keywords) && ContainsAny(Lower(text), rules[1].keywords)
    ensures Normalise(text, rules, default) == rules[1].output
  {
  }

  /** "$2-$3" has neither "$4" nor "more" in it, and has "$3". */
  lemma SpendLabelKeywords(answer: string)
    requires answer == "$2-$3"
    ensures Lower(answer) == answer
    ensures !Contains(answer, "$4") && !Contains(answer, "more") && Contains(answer, "$3")
  {
    LowerNoUpper(answer);
    MissingChar(answer, "$4", '4');
    MissingChar(answer, "more", 'm');
    assert answer[3..5] == "$3";
    ContainsSlice(answer, 3, "$3");
  }

  /**
   * The rules are applied literally: the bracket answer "$2-$3" contains "$3"
   * and so normalises to the bracket above it.
   */
  lemma SpendLabelShiftsUp(answer: string)
    requires answer == "$2-$3"
    ensures ParseQ1Spend(answer) == "$3-$5"
  {
    SpendLabelKeywords(answer);
    KeywordHit(answer, Q1Rules[1].keywords, 0);
    SecondRuleHit(answer, Q1Rules, "Less than $2");
  }

  /** The third rule wins when the first two do not match and the third does. */
  lemma ThirdRuleHit(text: string, rules: seq<Rule>, default: string)
    requires |rules| >= 3 && !ContainsAny(Lower(text), rules[0].keywords) && !ContainsAny(Lower(text), rules[1].keywords)
    requires ContainsAny(Lower(text), rules[2].keywords)
    ensures Normalise(text, rules, default) == rules[2].output
  {
  }

  /** "About $2" lower-cases to "about $2". */
  lemma MissingSpendLowered(answer: string)
    requires answer == "About $2"
    ensures Lower(answer) == "about $2"
  {
  }

  /** "about $2" has "$2" but none of "$4", "more" and "$3". */
  lemma MissingSpendKeywords(l: string)
    requires l == "about $2"
    ensures !Contains(l, "$4") && !Contains(l, "more") && !Contains(l, "$3") && Contains(l, "$2")
  {
    MissingChar(l, "$4", '4');
    MissingChar(l, "more", 'm');
    MissingChar(l, "$3", '3');
    assert l[6..8] == "$2";
    ContainsSlice(l, 6, "$2");
  }

  /**
   * A student with no drink-survey row (or no spend answer) gets the default
   * answer "About $2", which normalises to the "$2-$3" bracket.
   */
  lemma MissingSpendIsTwoToThree(answer: string)
    requires answer == "About $2"
    ensures ParseQ1Spend(answer) == "$2-$3"
  {
    MissingSpendLowered(answer);
    MissingSpendKeywords(Lower(answer));
    KeywordHit(Lower(answer), Q1Rules[2].keywords, 0);
    ThirdRuleHit(answer, Q1Rules, "Less than $2");
  }

  // ---------------------------------------------------------------------------
  // Drink categories and the drink-rank fold
  // ---------------------------------------------------------------------------

  /** The drink categories with their keywords, in the order `_drink_to_rank` tries them. */
  const DrinkRules: seq<Rule> := [
    Rule(["water", "sparkling water"], "water"),
    Rule(["pepsi", "coca-cola", "coke", "dr pepper", "sprite", "fanta", "mountain dew"], "soda"),
    Rule(["juice", "lemonade", "tea"], "juice"),
    Rule(["red bull", "monster", "rockstar", "bang", "energy"], "energy_drink"),
    Rule(["coffee", "iced coffee", "milk"], "coffee_tea")]

  /** The five ranked drink categories. */
  const DrinkCategoryNames: set<string> := {"water", "soda", "juice", "energy_drink", "coffee_tea"}

  /** `_drink_to_rank`: the category of a drink name; a name matching no keyword counts as soda. */
  function DrinkToRank(drinkName: string): (r: string)
    ensures r in DrinkCategoryNames
  {
    Normalise(drinkName, DrinkRules, "soda")
  }

  /** The three survey columns naming a student's favourite drinks, best first. */
  const RankColumns: seq<string> := ["Rank1_Drink", "Rank2_Drink", "Rank3_Drink"]

  /** The category named in column `col` of the drink row, when the column is present and non-empty. */
  function RankedCategory(row: map<string, string>, col: string): Option<string>
  {
    if col in row && row[col] != "" then Some(DrinkToRank(row[col])) else None
  }

  /** The categories of the three rank columns, in column order. */
  function RankedCategories(row: map<string, string>): (r: seq<Option<string>>)
    ensures |r| == |RankColumns|
    ensures forall i :: 0 <= i < |r| ==> r[i] == RankedCategory(row, RankColumns[i])
  {
    [RankedCategory(row, RankColumns[0]), RankedCategory(row, RankColumns[1]), RankedCategory(row, RankColumns[2])]
  }

  /**
   * `v` is the first 1-based position of `c` in `cats`, or 5 when `c` does
   * not appear there.
   */
  ghost predicate RankOf(v: int, cats: seq<Option<string>>, c: string)
  {
    || (v == 5 && forall q :: 0 <= q < |cats| ==> cats[q] != Some(c))
    || (1 <= v <= |cats| && cats[v - 1] == Some(c) && forall q :: 0 <= q < v - 1 ==> cats[q] != Some(c))
  }

  /** `ranks` gives every category its rank in `cats`. */
  ghost predicate FirstPositions(ranks: map<string, int>, cats: seq<Option<string>>)
  {
    && ranks.Keys == DrinkCategoryNames
    && forall c :: c in ranks ==> RankOf(ranks[c], cats, c)
  }

  /** One more column keeps a category's rank unless it is that category's first appearance. */
  lemma RankOfExtends(v: int, cats: seq<Option<string>>, c: string, x: Option<string>)
    requires RankOf(v, cats, c) && |cats| < 5
    requires v != 5 || x != Some(c)
    ensures RankOf(v, cats + [x], c)
  {
    var s := cats + [x];
    if v != 5 {
      assert s[v - 1] == cats[v - 1];
    }
  }

  /** The first appearance of a category is its rank. */
  lemma RankOfNew(cats: seq<Option<string>>, c: string)
    requires RankOf(5, cats, c) && |cats| < 5
    ensures RankOf(|cats| + 1, cats + [Some(c)], c)
  {
    var s := cats + [Some(c)];
    assert s[|cats|] == Some(c);
    assert forall q :: 0 <= q < |cats| ==> s[q] == cats[q];
  }

  /** A column whose category is missing or already ranked leaves every rank as it is. */
  lemma RankKept(ranks: map<string, int>, cats: seq<Option<string>>, c: Option<string>)
    requires FirstPositions(ranks, cats) && |cats| < 5
    requires c.None? || (c.value in ranks && ranks[c.value] != 5)
    ensures FirstPositions(ranks, cats + [c])
  {
    forall d | d in ranks
      ensures RankOf(ranks[d], cats + [c], d)
    {
      RankOfExtends(ranks[d], cats, d, c);
    }
  }

  /** A column naming a still-unranked category gives it the column's 1-based position. */
  lemma RankSet(ranks: map<string, int>, cats: seq<Option<string>>, c: string)
    requires FirstPositions(ranks, cats) && |cats| < 5
    requires c in ranks && ranks[c] == 5
    ensures FirstPositions(ranks[c := |cats| + 1], cats + [Some(c)])
  {
    var r := ranks[c := |cats| + 1];
    forall d | d in r
      ensures RankOf(r[d], cats + [Some(c)], d)
    {
      if d == c {
        RankOfNew(cats, c);
      } else {
        RankOfExtends(ranks[d], cats, d, Some(c));
      }
    }
  }

  /**
   * The drink-rank fold of `load_students`: every category starts at 5, and a
   * filled rank column gives its category the column's position unless the
   * category already has a rank.
   */
  method DrinkRanks(row: map<string, string>) returns (ranks: map<string, int>)
    ensures FirstPositions(ranks, RankedCategories(row))
  {
    ghost var cats := RankedCategories(row);
    ranks := map["water" := 5, "soda" := 5, "juice" := 5, "energy_drink" := 5, "coffee_tea" := 5];
    for i := 0 to |RankColumns|
      invariant FirstPositions(ranks, cats[..i])
    {
      var col := RankColumns[i];
      assert cats[..i + 1] == cats[..i] + [RankedCategory(row, col)];
      if col in row && row[col] != "" {
        var category := DrinkToRank(row[col]);
        if ranks[category] == 5 {
          RankSet(ranks, cats[..i], category);
          ranks := ranks[category := i + 1];
        } else {
          RankKept(ranks, cats[..i], Some(category));
        }
      } else {
        RankKept(ranks, cats[..i], None);
      }
    }
    assert cats[..|RankColumns|] == cats;
  }

  /**
   * With three rank columns the fold's ranks lie in 1..5, rank 4 is never
   * given, and no two categories share a rank below 5.
   */
  lemma FirstPositionsDistinct(ranks: map<string, int>, cats: seq<Option<string>>)
    requires FirstPositions(ranks, cats) && |cats| == 3
    ensures forall c :: c in ranks ==> 1 <= ranks[c] <= 5 && ranks[c] != 4
    ensures forall c, d :: c in ranks && d in ranks && ranks[c] == ranks[d] < 5 ==> c == d
  {
    forall c, d | c in ranks && d in ranks && ranks[c] == ranks[d] < 5
      ensures c == d
    {
      assert cats[ranks[c] - 1] == Some(c) && cats[ranks[d] - 1] == Some(d);
    }
  }

  /** The value of a survey column, or `default` when the row lacks it (`row.get(col, default)`). */
  function GetOr(row: map<string, string>, col: string, default: string): string
  {
    if col in row then row[col] else default
  }

  /** The five ranks of a profile, by category. */
  function RankMap(p: StudentProfile): map<string, int>
  {
    map["water" := p.waterRank, "soda" := p.sodaRank, "juice" := p.juiceRank,
        "energy_drink" := p.energyDrinkRank, "coffee_tea" := p.coffeeTeaRank]
  }

  /** A profile holding the five ranks of `ranks` has exactly those ranks. */
  lemma RankMapOf(ranks: map<string, int>, p: StudentProfile)
    requires ranks.Keys == DrinkCategoryNames
    requires p.waterRank == ranks["water"] && p.sodaRank == ranks["soda"] && p.juiceRank == ranks["juice"]
    requires p.energyDrinkRank == ranks["energy_drink"] && p.coffeeTeaRank == ranks["coffee_tea"]
    ensures RankMap(p) == ranks
  {
  }

  /**
   * The profile `load_students` builds from a student's food-survey row, the
   * drink-survey row (empty when the student has none) and the folded drink
   * ranks; a missing survey column reads as the `.get` default. The grade,
   * gender and car ownership are drawn at random by the loader and are
   * parameters here.
   */
  function ProfileOf(studentId: int, grade: int, gender: string, hasCar: bool,
                     food: map<string, string>, drink: map<string, string>, ranks: map<string, int>): (p: StudentProfile)
    requires FirstPositions(ranks, RankedCategories(drink))
    ensures RankMap(p) == ranks
    ensures RanksInRange(p)
  {
    FirstPositionsDistinct(ranks, RankedCategories(drink));
    var p := StudentProfile(
      studentId, grade, gender,
      GetOr(food, "IncomeLevel", "Medium"),
      ParseQ1Spend(GetOr(drink, "Q1_SpendOnDrink", "About $2")),
      ParseQ2HealthGoal(GetOr(food, "Q2_HealthGoal", "")),
      ParseQ3Metabolism(GetOr(food, "Q3_Metabolism", "")),
      ParseQ4Money(GetOr(food, "Q4_MoneyForLunch", "")),
      ParseQ5Activity(GetOr(food, "Q5_ActivityLevel", "")),
      ParseQ6Healthy(GetOr(food, "Q6_HealthyImportance", "")),
      ParseQ7Sweet(GetOr(food, "Q7_WantsSweet", "")),
      GetOr(food, "Q8_LunchChoice", ""),
      ranks["water"], ranks["soda"], ranks["juice"], ranks["energy_drink"], ranks["coffee_tea"],
      hasCar);
    RankMapOf(ranks, p);
    p
  }

  // ---------------------------------------------------------------------------
  // Menu validation
  // ---------------------------------------------------------------------------

  /** A decoded JSON/YAML scalar: text, a number, a boolean, or null. */
  datatype Value = Text(text: string) | Number(number: real) | Flag(flag: bool) | Null

  /** Python truthiness of a decoded scalar. */
  predicate Truthy(v: Value)
  {
    match v
    case Text(s) => s != ""
    case Number(x) => x != 0.0
    case Flag(b) => b
    case Null => false
  }

  /** `int(x)` on a float: truncation toward zero. */
  function Truncate(x: real): (r: int)
    ensures 0.0 <= x ==> 0 <= r && r as real <= x < r as real + 1.0
    ensures x < 0.0 ==> r <= 0 && r as real - 1.0 < x <= r as real
  {
    if 0.0 <= x then x.Floor else -((-x).Floor)
  }

  /** `int(v)`: numbers are truncated, booleans are 0 or 1; text and null are not converted. */
  function ToInt(v: Value): (r: Option<int>)
    ensures r.Some? <==> v.Number? || v.Flag?
    ensures v.Number? && 0.0 <= v.number ==> 0 <= r.value && r.value as real <= v.number < r.value as real + 1.0
    ensures v.Flag? ==> 0 <= r.value <= 1
  {
    match v
    case Number(x) => Some(Truncate(x))
    case Flag(b) => Some(if b then 1 else 0)
    case _ => None
  }

  /** `float(v)`: numbers as they are, booleans as 0.0 or 1.0; text and null are not converted. */
  function ToReal(v: Value): (r: Option<real>)
    ensures r.Some? <==> v.Number? || v.Flag?
    ensures v.Number? ==> r.value == v.number
    ensures v.Flag? ==> (r.value == 1.0 <==> v.flag) && (r.value == 0.0 <==> !v.flag)
  {
    match v
    case Number(x) => Some(x)
    case Flag(b) => Some(if b then 1.0 else 0.0)
    case _ => None
  }

  /** The text of a decoded value, for the item's name. */
  function TextOf(v: Value): string
  {
    if v.Text? then v.text else ""
  }

  /** The fields every menu item must have, in the order they are checked. */
  const RequiredFields: seq<string> := [
    "name", "price", "health_rating", "type", "category", "sub_type",
    "energy_boost", "inventory_per_day", "calories"]

  /** A decoded menu item: field name to value. */
  type RawItem = map<string, Value>

  /** Why a menu is rejected; item errors carry the item's label (its name, or "Item <n>"). */
  datatype MenuError =
    | NameMissing
    | NameBlank
    | FieldMissing(item: Value, field: string)
    | BadType(item: Value, itemType: Value)
    | BadCategory(item: Value, category: Value)
    | BadSubType(item: Value, subType: Value)
    | NotANumber(item: Value, field: string)
    | BadHealthRating(item: Value, healthRating: int)
    | BadPrice(item: Value, price: real)
    | BadInventory(item: Value, inventory: int)
    | BadCalories(item: Value, calories: int)
    | NoItems

  /** `item_data.get("name", f"Item {idx + 1}")`. */
  function Label(idx: nat, raw: RawItem): (r: Value)
    ensures "name" in raw ==> r == raw["name"]
    ensures "name" !in raw ==> r.Text? && |r.text| > 5 && r.text[..5] == "Item "
  {
    if "name" in raw then raw["name"] else Text("Item " + NatToString(idx + 1))
  }

  /** The first of `fields`, from position `from` on, that `raw` lacks. */
  function FirstMissing(raw: RawItem, fields: seq<string>, from: nat): (r: Option<string>)
    requires from <= |fields|
    ensures r.Some? ==> exists k :: from <= k < |fields| && fields[k] == r.value && r.value !in raw
                          && forall j :: from <= j < k ==> fields[j] in raw
    ensures r.None? <==> forall j :: from <= j < |fields| ==> fields[j] in raw
    decreases |fields| - from
  {
    if from == |fields| then None
    else if fields[from] !in raw then Some(fields[from])
    else FirstMissing(raw, fields, from + 1)
  }

  /** Every required field is present. */
  predicate HasAllFields(raw: RawItem)
  {
    && "name" in raw && "price" in raw && "health_rating" in raw && "type" in raw && "category" in raw
    && "sub_type" in raw && "energy_boost" in raw && "inventory_per_day" in raw && "calories" in raw
  }

  /** `HasAllFields` holds exactly when no required field is missing. */
  lemma AllFieldsListed(raw: RawItem)
    ensures HasAllFields(raw) <==> FirstMissing(raw, RequiredFields, 0).None?
  {
    if FirstMissing(raw, RequiredFields, 0).None? {
      assert forall j :: 0 <= j < |RequiredFields| ==> RequiredFields[j] in raw;
      assert RequiredFields[3] == "type" && RequiredFields[8] == "calories";
    } else {
      var f := FirstMissing(raw, RequiredFields, 0).value;
      assert f in RequiredFields;
    }
  }

  /** The categories allowed for an item type (food, or else drink). */
  function CategoriesFor(itemType: string): set<string>
  {
    if itemType == ItemTypeFood then FoodCategories else DrinkCategories
  }

  /** A catalogue record the loader accepts: every range and membership check passes. */
  predicate ValidItem(item: CatalogItem)
  {
    && item.itemType in {ItemTypeFood, ItemTypeDrink}
    && item.category in CategoriesFor(item.itemType)
    && item.subType in ValidSubTypes
    && 1 <= item.healthRating <= 10
    && item.price > 0.0
    && item.inventoryPerDay > 0
    && item.calories >= 0
  }

  /**
   * Check `k` (1 to 7) of an item with all its fields, in the loader's order:
   * type, category, sub_type, health rating, price, inventory, calories;
   * `None` when it passes.
   */
  function Check(idx: nat, raw: RawItem, k: nat): Option<MenuError>
    requires HasAllFields(raw) && 1 <= k <= 7
  {
    var itemLabel := Label(idx, raw);
    var t := raw["type"];
    if k == 1 then
      (if t.Text? && t.text in {ItemTypeFood, ItemTypeDrink} then None else Some(BadType(itemLabel, t)))
    else if k == 2 then
      var c := raw["category"];
      (if c.Text? && c.text in CategoriesFor(TextOf(t)) then None else Some(BadCategory(itemLabel, c)))
    else if k == 3 then
      var s := raw["sub_type"];
      (if s.Text? && s.text in ValidSubTypes then None else Some(BadSubType(itemLabel, s)))
    else if k == 4 then
      (match ToInt(raw["health_rating"])
       case None => Some(NotANumber(itemLabel, "health_rating"))
       case Some(h) => if 1 <= h <= 10 then None else Some(BadHealthRating(itemLabel, h)))
    else if k == 5 then
      (match ToReal(raw["price"])
       case None => Some(NotANumber(itemLabel, "price"))
       case Some(p) => if p > 0.0 then None else Some(BadPrice(itemLabel, p)))
    else if k == 6 then
      (match ToInt(raw["inventory_per_day"])
       case None => Some(NotANumber(itemLabel, "inventory_per_day"))
       case Some(n) => if n > 0 then None else Some(BadInventory(itemLabel, n)))
    else
      (match ToInt(raw["calories"])
       case None => Some(NotANumber(itemLabel, "calories"))
       case Some(n) => if n >= 0 then None else Some(BadCalories(itemLabel, n)))
  }

  /**
   * One pass of the validation loop of `load_menu` over item number `idx`
   * (0-based): the field-presence check, then the seven value checks in
   * order; the first failure is the error.
   */
  function ValidateItem(idx: nat, raw: RawItem): (r: Result<CatalogItem, MenuError>)
    ensures r.Ok? ==> ValidItem(r.value)
  {
    var itemLabel := Label(idx, raw);
    match FirstMissing(raw, RequiredFields, 0)
    case Some(field) => Err(FieldMissing(itemLabel, field))
    case None =>
      AllFieldsListed(raw);
      var t := raw["type"];
      if !(t.Text? && t.text in {ItemTypeFood, ItemTypeDrink}) then Err(BadType(itemLabel, t))
      else
        var c := raw["category"];
        if !(c.Text? && c.text in CategoriesFor(t.text)) then Err(BadCategory(itemLabel, c))
        else
          var s := raw["sub_type"];
          if !(s.Text? && s.text in ValidSubTypes) then Err(BadSubType(itemLabel, s))
          else match ToInt(raw["health_rating"])
          case None => Err(NotANumber(itemLabel, "health_rating"))
          case Some(h) =>
            if !(1 <= h <= 10) then Err(BadHealthRating(itemLabel, h))
            else match ToReal(raw["price"])
            case None => Err(NotANumber(itemLabel, "price"))
            case Some(p) =>
              if p <= 0.0 then Err(BadPrice(itemLabel, p))
              else match ToInt(raw["inventory_per_day"])
              case None => Err(NotANumber(itemLabel, "inventory_per_day"))
              case Some(n) =>
                if n <= 0 then Err(BadInventory(itemLabel, n))
                else match ToInt(raw["calories"])
                case None => Err(NotANumber(itemLabel, "calories"))
                case Some(cal) =>
                  if cal < 0 then Err(BadCalories(itemLabel, cal))
                  else Ok(CatalogItem(TextOf(raw["name"]), p, h, t.text, c.text, s.text,
                                      Truthy(raw["energy_boost"]), n, cal))
  }

  /**
   * The checks run in order and the first failure is reported: an item is
   * accepted exactly when all its fields are present and all seven checks
   * pass; a missing field is reported before any value check, and a value
   * error is the error of the first failing check.
   */
  lemma ValidateItemFirstFailure(idx: nat, raw: RawItem)
    ensures ValidateItem(idx, raw).Ok? <==> HasAllFields(raw) && forall k :: 1 <= k <= 7 ==> Check(idx, raw, k).None?
    ensures !HasAllFields(raw) ==> ValidateItem(idx, raw) == Err(FieldMissing(Label(idx, raw), FirstMissing(raw, RequiredFields, 0).value))
    ensures HasAllFields(raw) && ValidateItem(idx, raw).Err? ==>
              exists k :: 1 <= k <= 7 && Check(idx, raw, k) == Some(ValidateItem(idx, raw).error)
                && forall j :: 1 <= j < k ==> Check(idx, raw, j).None?
  {
    AllFieldsListed(raw);
    if HasAllFields(raw) {
      var r := ValidateItem(idx, raw);
      if Check(idx, raw, 1).Some? {
        assert Check(idx, raw, 1) == Some(r.error);
      } else if Check(idx, raw, 2).Some? {
        assert Check(idx, raw, 2) == Some(r.error);
      } else if Check(idx, raw, 3).Some? {
        assert Check(idx, raw, 3) == Some(r.error);
      } else if Check(idx, raw, 4).Some? {
        assert Check(idx, raw, 4) == Some(r.error);
      } else if Check(idx, raw, 5).Some? {
        assert Check(idx, raw, 5) == Some(r.error);
      } else if Check(idx, raw, 6).Some? {
        assert Check(idx, raw, 6) == Some(r.error);
      } else if Check(idx, raw, 7).Some? {
        assert Check(idx, raw, 7) == Some(r.error);
      } else {
        assert forall k :: 1 <= k <= 7 ==> Check(idx, raw, k).None?;
      }
    }
  }

  /** The decoded form of a catalogue record, integers written as JSON numbers. */
  function Encode(item: CatalogItem): RawItem
  {
    map["name" := Text(item.name), "price" := Number(item.price),
        "health_rating" := Number(item.healthRating as real), "type" := Text(item.itemType),
        "category" := Text(item.category), "sub_type" := Text(item.subType),
        "energy_boost" := Flag(item.energyBoost),
        "inventory_per_day" := Number(item.inventoryPerDay as real), "calories" := Number(item.calories as real)]
  }

  /** Every record the loader can accept is accepted back from its decoded form, unchanged. */
  lemma ValidItemRoundTrip(idx: nat, item: CatalogItem)
    requires ValidItem(item)
    ensures ValidateItem(idx, Encode(item)) == Ok(item)
  {
    var raw := Encode(item);
    assert HasAllFields(raw);
    assert Truncate(item.healthRating as real) == item.healthRating;
    assert Truncate(item.inventoryPerDay as real) == item.inventoryPerDay;
    assert Truncate(item.calories as real) == item.calories;
  }

  /**
   * The validation loop of `load_menu`: items are validated in order, the
   * first rejected item's error is the result, and otherwise the accepted
   * records keep the input order.
   */
  method ValidateItems(items: seq<RawItem>) returns (r: Result<seq<CatalogItem>, MenuError>)
    ensures r.Ok? <==> forall i :: 0 <= i < |items| ==> ValidateItem(i, items[i]).Ok?
    ensures r.Ok? ==> |r.value| == |items|
    ensures r.Ok? ==> forall i :: 0 <= i < |items| ==> r.value[i] == ValidateItem(i, items[i]).value
    ensures r.Ok? ==> forall i :: 0 <= i < |items| ==> ValidItem(r.value[i])
    ensures r.Err? ==> exists i :: 0 <= i < |items| && ValidateItem(i, items[i]) == Err(r.error)
                        && forall j :: 0 <= j < i ==> ValidateItem(j, items[j]).Ok?
  {
    var accepted: seq<CatalogItem> := [];
    for i := 0 to |items|
      invariant |accepted| == i
      invariant forall j :: 0 <= j < i ==> ValidateItem(j, items[j]).Ok? && accepted[j] == ValidateItem(j, items[j]).value
    {
      var v := ValidateItem(i, items[i]);
      if v.Err? {
        return Err(v.error);
      }
      accepted := accepted + [v.value];
    }
    return Ok(accepted);
  }

  /** A decoded menu document: its `name` entry, if any, and its `items` list (empty when absent). */
  datatype MenuDoc = MenuDoc(name: Option<Value>, items: seq<RawItem>)

  /** A loaded menu: the company name, stripped, and the accepted items in file order. */
  datatype MenuData = MenuData(name: string, items: seq<CatalogItem>)

  /** The name entry is text that is not blank after stripping. */
  predicate NameUsable(name: Option<Value>)
  {
    name.Some? && name.value.Text? && Strip(name.value.text) != []
  }

  /**
   * `load_menu` after decoding: the company name is checked first (absent or
   * falsy, then not usable text), then the items in order, and an empty item
   * list is rejected last.
   */
  method LoadMenu(doc: MenuDoc) returns (r: Result<MenuData, MenuError>)
    ensures !(doc.name.Some? && Truthy(doc.name.value)) ==> r == Err(NameMissing)
    ensures doc.name.Some? && Truthy(doc.name.value) && !NameUsable(doc.name) ==> r == Err(NameBlank)
    ensures r.Ok? <==> NameUsable(doc.name) && doc.items != []
                       && forall i :: 0 <= i < |doc.items| ==> ValidateItem(i, doc.items[i]).Ok?
    ensures r.Ok? ==> r.value.name == Strip(doc.name.value.text) && r.value.name != []
    ensures r.Ok? ==> |r.value.items| == |doc.items|
    ensures r.Ok? ==> forall i :: 0 <= i < |doc.items| ==>
                        r.value.items[i] == ValidateItem(i, doc.items[i]).value && ValidItem(r.value.items[i])
    ensures NameUsable(doc.name) && doc.items == [] ==> r == Err(NoItems)
    ensures NameUsable(doc.name) && r.Err? && r.error != NoItems ==>
              exists i :: 0 <= i < |doc.items| && ValidateItem(i, doc.items[i]) == Err(r.error)
                && forall j :: 0 <= j < i ==> ValidateItem(j, doc.items[j]).Ok?
  {
    if doc.name.None? || !Truthy(doc.name.value) {
      return Err(NameMissing);
    }
    var name := doc.name.value;
    if !name.Text? || Strip(name.text) == [] {
      return Err(NameBlank);
    }
    var companyName := Strip(name.text);
    var items := ValidateItems(doc.items);
    if items.Err? {
      return Err(items.error);
    }
    if items.value == [] {
      return Err(NoItems);
    }
    return Ok(MenuData(companyName, items.value));
  }
}
