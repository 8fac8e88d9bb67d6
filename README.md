# ftsim lunch-market model

A Dafny model of the deterministic core of **ftsim**, a simulation of a high-school lunch market. One or more food trucks compete for students against the school lunch line and an off-campus burger joint.

- **Each day:**
  - every truck is restocked;
  - the school lunch draws its menu of the day;
  - every student draws money, a mood and drowsiness;
  - the students arrive in random order.
- **Each student** scores every vendor's items and picks the vendor with the best combined score. When a truck wins, they buy its best food and, if the money still covers it, its best drink.
- **The engine** tallies revenue, customers, units sold, losses by reason and stockouts per day. At the end of the run it aggregates the days and names the truck with the highest total revenue as the winner.
- **The loader** turns survey answers into student profiles and validates a truck's menu document.

Randomness is not modelled: every random draw is a parameter. These are:

- the Gaussian money deviate and the two uniform draws per student and day;
- the school-lunch samples;
- the arrival order;
- each student's grade, gender and car ownership.

The fuzzy name matcher of the scorer is a function parameter too.

## Modules

| file | module | source |
|---|---|---|
| `wrappers.dfy` | `Wrappers` | `Option`, `Result` |
| `strings.dfy` | `Strings` | lower-casing, substring search, `strip` |
| `config.dfy` | `Config` | `ftsim/config.py` |
| `seqs.dfy` | `Seqs` | order-preserving filters (list comprehensions) |
| `menu_item.dfy` | `MenuItems` | `ftsim/models/menu_item.py` (class `MenuItem`) |
| `student.dfy` | `Students` | `ftsim/models/student.py` (class `StudentDailyState`) |
| `vendors.dfy` | `Vendors` | `ftsim/models/vendors.py` (classes `FoodTruck`, `SchoolLunch`) |
| `daily_state.dfy` | `DailyStates` | `ftsim/simulation/daily_state.py` |
| `scorer.dfy` | `Scorer` | `ftsim/scoring/scorer.py` |
| `decision.dfy` | `Decision` | `ftsim/simulation/decision.py` |
| `tally.dfy` | `Tally` | the bookkeeping loops of `ftsim/simulation/engine.py` |
| `results.dfy` | `Results` | result records as `engine.py` builds them |
| `snapshots.dfy` | `Snapshots` | the engine's view of truck stock levels |
| `engine.dfy` | `Engine` | `ftsim/simulation/engine.py` (class `SimulationEngine`) |
| `loader.dfy` | `Loader` | `ftsim/data/loader.py` |

## Model

| member | source | states |
|---|---|---|
| Config.WeightsSumToOne | ftsim/config.py:9-11 | The preference, affordability and mood weights sum to 1. |
| MenuItems.AfterSell | ftsim/models/menu_item.py:38-43 | A sale attempt removes one unit exactly when stock is positive and otherwise leaves the counter unchanged. |
| MenuItems.AfterSellInRange | ftsim/models/menu_item.py:26-43 | A sale attempt keeps the stock within `0..inventory_per_day` and never raises it. |
| MenuItems.SellsAfterReset | ftsim/models/menu_item.py:30-43 | From a full counter of `m >= 0` units, `n` attempts succeed `min(n, m)` times and leave `m - min(n, m)` units. |
| MenuItems.SellsAfterEmpty | ftsim/models/menu_item.py:38-43 | Sale attempts on an empty counter never succeed. |
| MenuItems.MenuItem.constructor | ftsim/models/menu_item.py:26-28 | A new item starts with its full daily stock. |
| MenuItems.MenuItem.ResetInventory | ftsim/models/menu_item.py:30-32 | Restores the daily stock and re-establishes the stock invariant. |
| MenuItems.MenuItem.SellOne | ftsim/models/menu_item.py:38-43 | Reports success exactly when stock was positive, decrements exactly then, and keeps the stock invariant. |
| Students.ItemNames | ftsim/models/student.py:63 | The names of the purchased items, one per item, in purchase order. |
| Students.StudentDailyState.constructor | ftsim/models/student.py:35-54 | A fresh state: no purchases (the missing list becomes empty), nothing spent, no vendor flags, no loss, no truck. |
| Students.StudentDailyState.ToDict | ftsim/models/student.py:56-69 | The export carries every field unchanged and the purchased items as their names, in order. |
| Vendors.InStock | ftsim/models/vendors.py:31 | Exactly the in-stock items of the menu, in menu order. |
| Vendors.Catalogs | ftsim/models/vendors.py:21-22 | One catalogue record per item, position by position. |
| Vendors.FoodTruck.ResetInventory | ftsim/models/vendors.py:24-27 | Every menu item is back at its daily stock and valid. |
| Vendors.FoodTruck.AvailableItems | ftsim/models/vendors.py:29-31 | Every in-stock menu item and nothing else, as an order-preserving sublist of the menu. |
| Vendors.FoodTruck.AvailableFood | ftsim/models/vendors.py:33-35 | Exactly the in-stock food items, as an order-preserving sublist of the menu. |
| Vendors.FoodTruck.AvailableDrinks | ftsim/models/vendors.py:37-39 | Exactly the in-stock drinks, as an order-preserving sublist of the menu. |
| Vendors.FoodTruck.SellItem | ftsim/models/vendors.py:41-43 | Delegates to the item's sale: success exactly when in stock, one unit fewer then. |
| Vendors.MenuInStockOf | ftsim/models/vendors.py:22 | Each truck's menu items belong to the stock that selling may change. |
| Vendors.Pick | ftsim/models/vendors.py:81-82 | The sampled positions' pool entries, in sample order. |
| Vendors.SchoolLunch.constructor | ftsim/models/vendors.py:72-77 | Named "School Lunch" with an empty menu. |
| Vendors.SchoolLunch.GenerateDailyMenu | ftsim/models/vendors.py:79-83 | Today's menu is the sampled foods followed by the sampled drinks. |
| Vendors.SchoolLunch.AvailableItems | ftsim/models/vendors.py:91-92 | The whole of today's menu: school lunch stock is never checked. |
| Vendors.SchoolLunch.AvailableFood | ftsim/models/vendors.py:94-95 | Exactly the food entries of today's menu, in menu order. |
| Vendors.SchoolLunch.AvailableDrinks | ftsim/models/vendors.py:97-98 | Exactly the drink entries of today's menu, in menu order. |
| Vendors.FastFood.AvailableItems | ftsim/models/vendors.py:134-135 | The whole fixed burger-joint menu. |
| Vendors.FastFood.AvailableFood | ftsim/models/vendors.py:137-138 | Exactly the food entries of the fixed menu, in menu order. |
| Vendors.FastFood.AvailableDrinks | ftsim/models/vendors.py:140-141 | Exactly the drink entries of the fixed menu, in menu order. |
| Vendors.BurgerJoint | ftsim/models/vendors.py:122-126 | The default burger joint is named "Burger Joint". |
| Vendors.FoodTruck.constructor | ftsim/models/vendors.py:17-22 | A truck with the given name and menu, valid when every menu item is. |
| Vendors.InStockCount | ftsim/models/vendors.py:31 | The in-stock list holds each in-stock item as often as the menu does, and no out-of-stock item. |
| Vendors.FoodTruck.AvailableCounts | ftsim/models/vendors.py:29-39 | The available items, food and drinks hold each in-stock item of the right kind as often as the menu does, and nothing else. |
| DailyStates.BaseMoney | ftsim/simulation/daily_state.py:16-19 | Base money lies in 5.00..14.00 and is 8.50 for a bracket/income pair without an entry. |
| DailyStates.HealthyMoodProbabilityOf | ftsim/simulation/daily_state.py:22-28 | The clamped healthy-mood probability lies in [0, 1], in fact in [0.20, 0.85] given the tables. |
| DailyStates.RoundCents | ftsim/simulation/daily_state.py:54 | `round(x, 2)`: a whole number of cents within half a cent of `x`, never negative for `x >= 0`. |
| DailyStates.RoundCentsMonotone | ftsim/simulation/daily_state.py:54 | Rounding to cents preserves order. |
| DailyStates.RawMoney | ftsim/simulation/daily_state.py:41-43 | The drawn money, floored at 0. |
| DailyStates.DailyAttributesFor | ftsim/simulation/daily_state.py:40-57 | Money is non-negative and within half a cent of the raw draw. The mood is "healthy" exactly when the mood draw is below the healthy probability, else "junk". Drowsy exactly when the draw is below 0.30. |
| DailyStates.NoMoneyFarBelowBase | ftsim/simulation/daily_state.py:41-43 | A deviate at or below -10 leaves the student with exactly 0. |
| DailyStates.MoneyMonotoneInDraw | ftsim/simulation/daily_state.py:41-54 | A higher deviate never gives less money. |
| DailyStates.GenerateDailyState | ftsim/simulation/daily_state.py:31-57 | A fresh, undecided state with the profile's id and the drawn attributes. |
| DailyStates.GenerateDailyStates | ftsim/simulation/daily_state.py:60-69 | One fresh, distinct, undecided state per profile, in profile order. |
| Scorer.DrinkCategoryRank | ftsim/scoring/scorer.py:54-75 | Each of the six listed categories (lower-cased) maps to its survey rank: energy, soda, juice and water to their own, milk and coffee to the coffee/tea rank. Any other category gets 5, and with ranks in 1..5 the result lies in 1..5. |
| Scorer.FoodCategoryPreference | ftsim/scoring/scorer.py:107-141 | 0.75 exactly when a healthy, fried or sweet item meets one of its category's keywords in the favourite food. 0.70 exactly when a savory item meets a savory keyword, 0.50 exactly for a snack, and 0.40 otherwise, including any unlisted category. |
| Scorer.ScorePreference | ftsim/scoring/scorer.py:78-105 | The fuzzy score is passed through. The preference is 1.0 at fuzzy score >= 85 and 0.85 at 70..84, and it lies in [0.3, 1]. |
| Scorer.PreferenceByCategory | ftsim/scoring/scorer.py:95-141 | Below fuzzy score 70, a drink's preference is `(6 - rank) / 5` with a floor of 0.3, and a food item's is `FoodCategoryPreference` of its lower-cased category and favourite food. |
| Scorer.AffordabilityAsWritten | ftsim/scoring/scorer.py:144-159 | As written, it fails (divides by zero) exactly for an affordable item with a zero budget, and is 0 for an unaffordable item. |
| Scorer.RemainingFraction | ftsim/scoring/scorer.py:157 | The fraction of the budget left lies in [0, 1]; a zero budget counts as all left. |
| Scorer.ScoreAffordability | ftsim/scoring/scorer.py:144-159 | 0 when unaffordable, otherwise in [0.3, 1], and equal to the as-written value whenever the budget is non-zero. |
| Scorer.ScoreMoodHealth | ftsim/scoring/scorer.py:162-179 | The health rating out of ten for a healthy mood, inverted otherwise, within [0, 1]. |
| Scorer.CalculateBonuses | ftsim/scoring/scorer.py:182-232 | The bonus multiplier lies between 1 and the product of the largest bonuses, with a tighter bound without a fuzzy match. |
| Scorer.ScoreItem | ftsim/scoring/scorer.py:235-271 | 0 for an unaffordable item; at least 0.24 for an affordable one. |
| Scorer.ScorePositiveIffAffordable | ftsim/scoring/scorer.py:253-271 | On sane inputs the score is non-negative, and positive exactly when the item is affordable. |
| Scorer.ScoreOfStrongFavourite | ftsim/scoring/scorer.py:235-271 | Worked example: a strongly matched 5.00 savory item for a healthy student with 10.00 scores 1.71. |
| Scorer.FreeWaterWithNoMoneyDividesByZero | ftsim/scoring/scorer.py:153-157 | The free school-lunch water with a zero budget divides by zero as written, and scores 1.0 in the corrected model. |
| Scorer.FuzzyBonus | ftsim/scoring/scorer.py:201-205 | Between 1 and the high-match bonus. A bonus applies exactly when the fuzzy score reaches the medium threshold, the full one from the high threshold on. |
| Scorer.TasteBonus | ftsim/scoring/scorer.py:207-214 | At most the sweet bonus. A bonus applies exactly for a sweet item and a student who wants sweets, or a savory item and a student who prefers savory. |
| Scorer.EnergyBonus | ftsim/scoring/scorer.py:216-218 | A bonus applies exactly for an energy-boosting item and a drowsy student. |
| Scorer.CalorieBonus | ftsim/scoring/scorer.py:220-224 | A bonus applies exactly for a high-calorie item and an active or high-metabolism student. |
| Scorer.CategoryBonus | ftsim/scoring/scorer.py:226-230 | A bonus applies exactly for a healthy item in a healthy mood, or a fried or sweet item in a junk mood. |
| Scorer.BonusIffTriggered | ftsim/scoring/scorer.py:182-232 | The multiplier exceeds 1 exactly when at least one bonus condition holds. |
| Scorer.BaseScore | ftsim/scoring/scorer.py:261-266 | The weighted base score of three scores in [0, 1] lies in [0, 1]; three equal scores give that score. |
| Decision.DinerFor | ftsim/simulation/decision.py:54 | The deciding student's budget is their drawn money. |
| Decision.PositiveScoreIsAffordable | ftsim/simulation/decision.py:53-64 | A positive score means the item is affordable; on sane inputs, exactly then. |
| Decision.ScanBest | ftsim/simulation/decision.py:46-64 | The strict-improvement scan finds the first best-scoring item, or none exactly when no item scores above 0. |
| Decision.CombinedScore | ftsim/simulation/decision.py:66-74 | Food alone without a drink. When both fit the budget, the maximum of the food score and the two scores' sum over 1.5. Otherwise the food score times 0.85. |
| Decision.EvaluateVendor | ftsim/simulation/decision.py:33-81 | The option carries its vendor's tag. |
| Decision.EvaluateVendorIsBest | ftsim/simulation/decision.py:33-81 | The option holds the first best food and drink (none exactly when nothing scores above 0) and their combined score, 0 without food. |
| Decision.FindBestItemsForVendor | ftsim/simulation/decision.py:33-81 | The two scanning loops compute `EvaluateVendor`. |
| Decision.BestOption | ftsim/simulation/decision.py:94-102 | The first option with food that no option with food beats; none exactly when no option has food. |
| Decision.BestOptionStep | ftsim/simulation/decision.py:96-100 | One loop step replaces the best only on strictly higher combined score. |
| Decision.TruckOptions | ftsim/simulation/decision.py:96-97 | Each truck's option, evaluated on its own listing, in truck order. |
| Decision.BestTruck | ftsim/simulation/decision.py:84-102 | The best truck option is the `BestOption` of the truck options. |
| Decision.TruckListings | ftsim/simulation/decision.py:43-44 | One listing per truck. |
| Decision.TruckListingAt | ftsim/simulation/decision.py:43-44 | Each truck's listing sits at the truck's position. |
| Decision.FindBestItems | ftsim/simulation/decision.py:84-102 | The loop over trucks computes `BestTruck`. |
| Decision.BurgerListing | ftsim/simulation/decision.py:128-130 | The burger joint is considered exactly when the student has a car. |
| Decision.Candidates | ftsim/simulation/decision.py:138-144 | Exactly the offers that have food, each from one of the three vendors. |
| Decision.MaxFirst | ftsim/simulation/decision.py:152 | `max` with a key: the first position of the highest combined score. |
| Decision.FirstMaxWinner | ftsim/simulation/decision.py:146-152 | No candidate exactly when no offer has food. |
| Decision.Winner | ftsim/simulation/decision.py:152-169 | A truck win names the best truck option's food and drink. |
| Decision.WinnerIsFirstMax | ftsim/simulation/decision.py:138-152 | The direct three-way comparison picks the same winner as `max` over the candidate list. |
| Decision.WinnerIsBest | ftsim/simulation/decision.py:138-164 | The winner has food and the highest combined score among offers with food. Ties go to the truck, then to the school lunch. Nobody wins exactly when no offer has food. |
| Decision.OffersAreTagged | ftsim/simulation/decision.py:122-130 | Each offer carries its vendor's tag, and a truck offer has food. |
| Decision.AffordableSchoolFoodIsACandidate | ftsim/simulation/decision.py:124-150 | An affordable school-lunch food rules out the "nothing anywhere" fallback. |
| Decision.TotalPriceAppend | ftsim/simulation/decision.py:176 | Buying one more item adds its price to the total spent. |
| Decision.BuyFromTruck | ftsim/simulation/decision.py:166-191 | Food is bought when affordable and in stock, then the drink when the remaining money covers it and it is in stock; each sale removes one unit. Spending never exceeds the money; the truck is recorded only when food was bought. Nothing bought means school lunch with "stockout". |
| Decision.DecideTruckWin | ftsim/simulation/decision.py:152-169 | A truck win's choices are that truck's best food and drink. |
| Decision.TruckWinIsAffordable | ftsim/simulation/decision.py:166-178 | A winning truck's chosen food is on its listing and within the student's money. |
| Decision.ChosenFoodIsOnTruck | ftsim/simulation/decision.py:166-178 | The chosen food and drink are in stock on the winning truck. |
| Decision.CollectOffers | ftsim/simulation/decision.py:119-130 | Collects the best truck, school-lunch and (with a car) burger-joint offers. |
| Decision.SettleOutcome | ftsim/simulation/decision.py:146-191 | No candidate gives school lunch with "stockout"; school or burger wins record that choice and its loss reason. A truck win buys the food, then the drink iff the money left covers it, and every sold item is on the winning truck's menu. Only sold items lose stock, one unit each. |
| Decision.SettleTruckWin | ftsim/simulation/decision.py:166-191 | A truck win always buys its food, buys the drink iff affordable afterwards, and records the truck. What it sells is on that truck's menu. |
| Decision.SettleLoss | ftsim/simulation/decision.py:146-164 | The non-truck outcomes set the right flag and loss reason and buy nothing. |
| Decision.MakeDecision | ftsim/simulation/decision.py:105-191 | The outcome is the decision over the vendors' listings at entry; state and stock change as `SettleOutcome` states, and a truck win sells only from the winning truck's menu. The "stockout" fallback happens only when no vendor offers food. |
| Decision.DecideOn | ftsim/simulation/decision.py:119-152 | The collected offers' winner is `Decide`. |
| Decision.ScanItems | ftsim/simulation/decision.py:46-64 | The scanning loop computes `ScanBest`: the first best-scoring item and its score. |
| Decision.OffersFor | ftsim/simulation/decision.py:119-130 | The school offer is tagged as the school lunch. A burger offer exists exactly when the burger joint is considered, and it is tagged as the burger joint. |
| Decision.Decide | ftsim/simulation/decision.py:119-152 | Nobody wins exactly when neither the best truck, the school lunch nor the burger joint offers food. |
| Decision.TotalPrice | ftsim/simulation/decision.py:173-184 | The total spent is never negative when no price is. |
| Decision.Choose | ftsim/simulation/decision.py:119-169 | The outcome is `Decide` over the listings at entry. A truck win names a food on that truck's listing within the student's money, and deciding leaves that truck's listing as it was. |
| Tally.Bump | ftsim/simulation/engine.py:104-106 | `d[k] = d.get(k, 0) + 1`: only `k` goes up, by one. |
| Tally.SumShareIsSpend | ftsim/simulation/engine.py:94-97 | A customer's spending goes to exactly the one truck they name. |
| Tally.NoShareOutside | ftsim/simulation/engine.py:94-97 | A record adds nothing to trucks it does not name. |
| Tally.RevenueConservation | ftsim/simulation/engine.py:94-97 | With distinct truck names, the trucks' revenues sum to what their customers spent. |
| Tally.EveryStudentAccounted | ftsim/simulation/engine.py:94-106 | When each student is a customer or a loss, customers plus losses equal the number of students. |
| Tally.TruckNames | ftsim/simulation/engine.py:70-75 | The trucks' names, in truck order. |
| Tally.CheckItemsSlot | ftsim/simulation/engine.py:110-116 | Checking a truck's items remembers each level and flags an item when its level went from positive to 0. |
| Tally.CheckAllEffect | ftsim/simulation/engine.py:108-116 | With unique names, one stock check remembers every level and flags every item that fell from positive to 0. |
| Tally.InitialBookSlot | ftsim/simulation/engine.py:73-84 | The start-of-day tables hold each item's level and a 0 flag. |
| Tally.ReplaySlot | ftsim/simulation/engine.py:108-116 | After repeated checks, an item's flag is 1 exactly when its level fell from positive to 0 at some step. |
| Tally.DayBook | ftsim/simulation/engine.py:73-116 | The day's tables: the opening tables followed by one check per later snapshot. |
| Tally.DayStockouts | ftsim/simulation/engine.py:73-116 | An item's day flag is 1 exactly when its level fell from positive to 0 at some step, and 0 otherwise. |
| Tally.FallsWhenSteppingDown | ftsim/simulation/engine.py:108-116 | When levels only step down by single sales, a fall to 0 happened exactly when the item started positive and ended at 0. |
| Tally.CheckItem | ftsim/simulation/engine.py:110-116 | Checking a known item remembers its new level and adds or drops no truck; an unknown item changes nothing, where the source raises `KeyError` (see "## Left out"). |
| Tally.CheckItems | ftsim/simulation/engine.py:110-116 | One truck's items checked in menu order (no contract of its own; `Tally.CheckItemsSlot` and `Tally.CheckItemsKeepsTrucks` state its effect). |
| Tally.CheckAll | ftsim/simulation/engine.py:108-116 | Every truck's items checked, truck by truck (no contract of its own; `Tally.CheckAllEffect` and `Tally.CheckAllKeepsTrucks` state its effect). |
| Tally.CheckItemsKeepsTrucks | ftsim/simulation/engine.py:110-116 | Checking a truck's items adds no truck to the tables and drops none. |
| Tally.CheckAllKeepsTrucks | ftsim/simulation/engine.py:108-116 | A stock check adds no truck to the tables and drops none. |
| Tally.InitialBook | ftsim/simulation/engine.py:73-84 | The level table and the flag table cover the same trucks. |
| Results.MergeCounts | ftsim/simulation/engine.py:170-179 | Merged tallies add key by key over the union of keys. |
| Results.RunTotalsCountStudents | ftsim/simulation/engine.py:160-173 | A truck's run totals (revenue, customers, units per item) count every student-day. |
| Results.RunLossesCountStudents | ftsim/simulation/engine.py:191-195 | The run's loss totals count every lost student-day. |
| Results.TruckAggregateOf | ftsim/simulation/engine.py:160-189 | The record carries the truck's name, and each daily average times the number of days gives its total. |
| Results.DaysRevenue | ftsim/simulation/engine.py:162-164 | The sum of the truck's daily revenues (no contract of its own; `Results.RunTotalsCountStudents` states what it counts). |
| Results.DaysCustomers | ftsim/simulation/engine.py:165-167 | The sum of the truck's daily customers (no contract of its own; `Results.RunTotalsCountStudents` states what it counts). |
| Results.DaysItemsSold | ftsim/simulation/engine.py:169-173 | The truck's daily unit counts merged over the days (no contract of its own; `Results.RunTotalsCountStudents` states what it counts). |
| Results.DaysStockouts | ftsim/simulation/engine.py:175-179 | The truck's daily stockout flags merged over the days (no contract of its own; `Results.MergeCounts` states the merge). |
| Results.DaysLosses | ftsim/simulation/engine.py:191-195 | The daily losses merged over the days (no contract of its own; `Results.RunLossesCountStudents` states what it counts). |
| Results.RunRevenue | ftsim/simulation/engine.py:94-97 | Reference definition: what the students of all days spent at the truck, student by student. |
| Results.RunCustomers | ftsim/simulation/engine.py:94-97 | Reference definition: how many student-days bought from the truck. |
| Results.RunSold | ftsim/simulation/engine.py:98-101 | Reference definition: how many units of an item the students of all days bought from the truck. |
| Results.RunLosses | ftsim/simulation/engine.py:103-106 | Reference definition: how many student-days were lost for a reason. |
| Snapshots.Shelves | ftsim/simulation/engine.py:81-84 | One shelf per truck with its item names, in order. |
| Snapshots.Levels | ftsim/simulation/engine.py:81-84 | One row of current stock levels per truck, in menu order. |
| Snapshots.ColumnStepsDown | ftsim/simulation/engine.py:108-116 | Each item's level steps down student by student. |
| Snapshots.MenuLevels | ftsim/simulation/engine.py:81-84 | One level per menu item, each that item's current stock. |
| Engine.Arrange | ftsim/simulation/engine.py:67 | The shuffled states, by the given arrival order. |
| Engine.ProfileLookup | ftsim/simulation/engine.py:64 | Every student's id is a key, and each key maps to a profile with that id. |
| Engine.ProfileLookupIsLast | ftsim/simulation/engine.py:64 | A repeated id keeps its last profile. |
| Engine.AddUnits | ftsim/simulation/engine.py:98-101 | Each purchased item adds one unit under its name. |
| Engine.RecordOutcome | ftsim/simulation/engine.py:94-106 | The tallies after one more student are the tallies of one more record. |
| Engine.SettledIsAccounted | ftsim/simulation/decision.py:146-191 | With non-empty truck names, a settled student is a customer or a loss, never both. |
| Engine.ReplayOneMore | ftsim/simulation/engine.py:108-116 | Replaying one more snapshot is one more stock check. |
| Engine.StockoutFlags | ftsim/simulation/engine.py:73-116 | With unique names, an item's day flag is 1 exactly when it started in stock and ended at 0. |
| Engine.ResultsTallied | ftsim/simulation/engine.py:122-130 | The truck results hold the day's tallies for every truck. |
| Engine.ResultsFlagStockouts | ftsim/simulation/engine.py:122-130 | The truck results' stockout flags are the replayed stock checks'. |
| Engine.TruckResults | ftsim/simulation/engine.py:122-130 | One result per truck name, from the tallies and flags. |
| Engine.DayAccountsForStudents | ftsim/simulation/engine.py:86-119 | Every student of a day is one truck's customer or one loss. |
| Engine.DayRevenueConserved | ftsim/simulation/engine.py:94-97 | The trucks' daily revenues sum to what the day's customers spent. |
| Engine.AggregateTruck | ftsim/simulation/engine.py:160-189 | A truck's run record: totals over the days and daily averages. |
| Engine.AggregateTrucks | ftsim/simulation/engine.py:158-189 | One run record per truck name. |
| Engine.TotalLosses | ftsim/simulation/engine.py:191-195 | The losses merged over the days. |
| Engine.FirstMaxOf | ftsim/simulation/engine.py:198 | The winner is one of the trucks. |
| Engine.FirstMaxIsTopEarner | ftsim/simulation/engine.py:198 | The winner is the first truck with the maximal total revenue. |
| Engine.FirstMaxPosition | ftsim/simulation/engine.py:198 | The winner's position: no truck earned more, and every earlier one earned strictly less. |
| Engine.RunFacts | ftsim/simulation/engine.py:157-195 | Over reported days, every truck has a result daily, and run totals count every student-day. |
| Engine.Aggregate | ftsim/simulation/engine.py:157-209 | The run record: totals, averages, losses, student-days served, and the first top earner as winner. |
| Engine.AggregatedHolds | ftsim/simulation/engine.py:157-209 | The pieces the aggregation builds make up an `Aggregated` run record. |
| Engine.CheckTruck | ftsim/simulation/engine.py:110-116 | The loop over one truck's items is `CheckItems`. |
| Engine.TruckSaleFollows | ftsim/simulation/decision.py:166-191 | A truck sale's export names the winning truck and the chosen food. It names the chosen drink too, exactly when one was chosen and the money left after the food covers it. |
| Engine.SaleFollows | ftsim/simulation/decision.py:146-191 | A student who arrived with nothing bought is exported following the outcome the policy settled, over the truck listings before the sale. |
| Engine.MenuListing | ftsim/models/vendors.py:94-98 | The school lunch's offer: the food and drink entries of its menu, each a sublist of the menu with every entry of its type. |
| Engine.DayDeciders | ftsim/simulation/engine.py:64-91 | One decider per arrival, in arrival order: the profile the id lookup gives for that student's id, and the attributes drawn for them. |
| Engine.OwnProfiles | ftsim/simulation/engine.py:64 | With distinct ids, every arrival decides with their own profile. |
| Engine.DecidedArrival | ftsim/simulation/engine.py:87-91 | The next arrival, decided over the latest snapshot, keeps the day's records decided in turn. |
| Engine.DecidedInArrivalOrder | ftsim/simulation/engine.py:64-91 | With distinct ids, the k-th record follows the decision of the k-th arriving student, made with their own profile and draw over the stock at their turn. |
| Engine.DaysDecidedStep | ftsim/simulation/engine.py:147-151 | One more day decided in turn keeps the run decided day by day. |
| Engine.SimulationEngine.constructor | ftsim/simulation/engine.py:22-42 | Students, trucks and days as given; a fresh school lunch; the default burger joint. |
| Engine.SimulationEngine.Names | ftsim/simulation/engine.py:70 | The trucks' names, in order. |
| Engine.SimulationEngine.ResetTrucks | ftsim/simulation/engine.py:54-55 | Every truck item is back at its daily stock. |
| Engine.SimulationEngine.CheckStock | ftsim/simulation/engine.py:108-116 | The stock check over the current levels is `CheckAll`. |
| Engine.SimulationEngine.AtCounter | ftsim/simulation/engine.py:88-91 | A student who arrives with nothing bought is exported following the decision the policy makes with their profile and drawn attributes, over the trucks' listings and the school lunch's menu at entry. Each sold item loses one unit. The export names the items sold, at most two and distinct, all from the truck it names. |
| Engine.SimulationEngine.ServeStudent | ftsim/simulation/engine.py:88-119 | An undecided student leaves settled. The export carries their attributes and purchases and follows their decision over what was on offer when they reached the counter. Levels step down. With distinguishable trucks, each item's new level is its old level less the units of it the export records from its truck. |
| Engine.SimulationEngine.StartDay | ftsim/simulation/engine.py:53-67 | Trucks restocked, school menu drawn, one fresh undecided state per student, in arrival order. |
| Engine.SimulationEngine.ServeAt | ftsim/simulation/engine.py:87-119 | One arrival served with the profile looked up by their id. The record follows that profile's decision over the listings at the current stock levels. The student is tallied and checked, and the later arrivals are left as they were. With distinguishable trucks, the new levels are the old less what the record took. |
| Engine.SimulationEngine.ServeNext | ftsim/simulation/engine.py:87-119 | From the day after `i` arrivals (`InService`) to the day after `i + 1`: exactly one more record, which follows that student's decision over the latest snapshot. The earlier records stay decided in turn, and the later arrivals still wait. With distinguishable trucks, the records and snapshots stay sold in turn (`SalesInTurn`). The first snapshot is kept. |
| Engine.SimulationEngine.OpenDay | ftsim/simulation/engine.py:70-84 | Before the first arrival: no records, every truck at 0 revenue, 0 customers and nothing sold, nobody lost, and the stock book remembering the current levels. The day is `InService` after 0 arrivals. |
| Engine.SimulationEngine.ServeArrivals | ftsim/simulation/engine.py:86-119 | Every arrival served in order: exported, settled and tallied, with a stock history that steps down. The record at each position follows the decision of the arrival at that position over the stock snapshot taken just before them. With distinguishable trucks, each snapshot is the one before it less the units that record took. |
| Engine.SimulationEngine.ServeDay | ftsim/simulation/engine.py:53-119 | Each record describes its student's profile and draw and is settled. The tallies are the records'. Stock starts at the daily levels and steps down. The stock tables are the day's checks. In arrival order, the records follow the arriving students' decisions (profile by id lookup, drawn attributes) over the stock at their turn and the day's school menu. With distinguishable trucks, each snapshot is the previous one less what that record took. |
| Engine.SimulationEngine.RunDay | ftsim/simulation/engine.py:44-139 | A reported day whose stock starts at the daily levels. With unique names, an item's stockout flag is 1 exactly when it started in stock and ended at 0. The exported states follow, in arrival order, the arriving students' decisions over the stock at their turn and the day's school menu. With distinguishable trucks, each snapshot is the previous one less what that export took. |
| Engine.SimulationEngine.RunDays | ftsim/simulation/engine.py:147-151 | Days numbered 1..numDays, each a reported day whose exported states follow the day's decisions in arrival order. With distinguishable trucks, every day starts at the daily stock and its levels drop by exactly what its exports took (`DaysSold`). |
| Engine.SimulationEngine.Run | ftsim/simulation/engine.py:141-209 | `numDays` reported days, `students * days` served, and the aggregated run record with its winner. Every day's exported states follow that day's decisions in arrival order. With distinguishable trucks, every day's levels drop from the daily stock by exactly what its exports took. |
| Engine.OpenTally | ftsim/simulation/engine.py:70-77 | Every truck starts at 0 revenue, 0 customers and nothing sold, the three tables share their trucks, and nobody is lost. |
| Engine.OpenTallyIsEmpty | ftsim/simulation/engine.py:70-77 | The opening tallies are the tallies of no student records. |
| Engine.SimulationEngine.ServeOne | ftsim/simulation/engine.py:87-116 | One student decides, is exported and settled, and is tallied. The record follows their decision over the listings at the current stock levels. Stock levels step down, and the stock check follows. With distinguishable trucks, the new levels are the old less what the record took. |
| Engine.SimulationEngine.ReportDay | ftsim/simulation/engine.py:122-139 | The day's result: the records as student states, the tallies per truck, the stockout flags kept under each truck's name, and the stock left as it was. |
| Engine.DaysSoldStep | ftsim/simulation/engine.py:147-151 | One more day sold from the daily stock keeps the run sold day by day. |
| Engine.SimulationEngine.DaysRunStep | ftsim/simulation/engine.py:147-151 | A day's result, as `RunDay` promises it, extends the days run so far (`DaysRun`): numbered next, reported, decided in turn and, with distinguishable trucks, sold from the daily stock. |
| Engine.DailyStockLevels | ftsim/simulation/engine.py:54-55 | After the restock, the stock levels are the daily stock levels. |
| Snapshots.SoldOnMenu | ftsim/simulation/decision.py:172-184 | The export counts a menu item's name once when the item was sold and not at all otherwise, when the menu's names are distinct. |
| Snapshots.SaleOnTruck | ftsim/models/vendors.py:41-43 | With distinguishable trucks, one student's sales from one truck lower each item's level by exactly the units of it the export records from its truck. |
| Snapshots.SaleArrival | ftsim/simulation/engine.py:87-91 | One more record whose sale steps the last snapshot down keeps the day's records sold in turn. |
| Snapshots.SalesConserved | ftsim/simulation/engine.py:87-116 | Over a day sold in turn, each item's drop from the first snapshot to the last is the sum of the units the records took of it. |
| Snapshots.SoldWithinStock | ftsim/models/menu_item.py:38-42 | Over a day sold in turn whose levels step down and stay fitted, no item sells more units than it started with. |
| Loader.FirstMatching | ftsim/data/loader.py:21-121 | The first rule whose keyword occurs in the text, or none exactly when no rule from there matches. |
| Loader.NormaliseFirstRuleWins | ftsim/data/loader.py:21-121 | A normaliser returns the first matching rule's output, or the default when none matches. |
| Loader.NormaliseIgnoresCase | ftsim/data/loader.py:23 | The normalisers read the answer lower-cased: lower-casing first changes nothing. |
| Loader.ParseQ4Money | ftsim/data/loader.py:21-29 | Always a money bracket of the money table (for every income level); the empty answer reads "$7-$10". |
| Loader.ParseQ6Healthy | ftsim/data/loader.py:32-40 | Always a key of the healthy-mood table; the empty answer reads "Not really important". |
| Loader.ParseQ7Sweet | ftsim/data/loader.py:43-53 | Always a key of the sweet-preference table; the empty answer reads "No, I prefer savory". |
| Loader.ParseQ5Activity | ftsim/data/loader.py:56-64 | Always an activity level; "high activity" exactly unless "Not very active"; the empty answer reads "Not very active". |
| Loader.ParseQ3Metabolism | ftsim/data/loader.py:67-75 | Always a metabolism value; high exactly when "Fast"; the empty answer reads "Average". |
| Loader.ParseQ2HealthGoal | ftsim/data/loader.py:78-88 | Always a key of the health-goal table; the empty answer reads "Not focused on weight". |
| Loader.ParseQ1Spend | ftsim/data/loader.py:91-101 | Always a key of the drink-spend table; the empty answer reads "Less than $2". |
| Loader.NotVeryActiveReadsAsVeryActive | ftsim/data/loader.py:58-62 | The answer "Not very active" normalises to "Very active (exercise daily)". |
| Loader.SpendLabelShiftsUp | ftsim/data/loader.py:94-99 | The answer "$2-$3" normalises to "$3-$5". |
| Loader.MissingSpendIsTwoToThree | ftsim/data/loader.py:187 | A student without a drink row reads the default "About $2" as "$2-$3". |
| Loader.DrinkToRank | ftsim/data/loader.py:104-121 | Always one of the five survey drink categories; "soda" when no keyword matches. |
| Loader.RankedCategories | ftsim/data/loader.py:176-178 | The category of each of the three rank columns, when filled. |
| Loader.RankKept | ftsim/data/loader.py:177-180 | A missing column or an already-ranked category changes no rank. |
| Loader.RankSet | ftsim/data/loader.py:179-180 | An unranked category takes the column's 1-based position. |
| Loader.DrinkRanks | ftsim/data/loader.py:175-180 | Every category gets its first 1-based position among the filled rank columns, or 5. |
| Loader.FirstPositionsDistinct | ftsim/data/loader.py:175-180 | Ranks lie in 1..5, rank 4 is never given, and no two categories share a rank below 5. |
| Loader.ProfileOf | ftsim/data/loader.py:182-201 | The profile carries the folded drink ranks, each in 1..5; answers are normalised with the `.get` defaults. |
| Loader.Truncate | ftsim/data/loader.py:300 | `int(x)` truncates toward zero: within one unit of `x`, never beyond it. |
| Loader.FirstMissing | ftsim/data/loader.py:264-266 | The first required field absent from the item, or none exactly when all are present. |
| Loader.AllFieldsListed | ftsim/data/loader.py:248-266 | All fields present is the same as no required field missing. |
| Loader.ValidateItem | ftsim/data/loader.py:260-335 | An accepted item satisfies every validation rule. |
| Loader.ValidateItemFirstFailure | ftsim/data/loader.py:260-335 | Accepted exactly when every field is present and every check passes. Otherwise the error is the first missing field, or else the first failing check in source order. |
| Loader.ValidItemRoundTrip | ftsim/data/loader.py:260-335 | Every valid record is accepted back unchanged from its decoded form. |
| Loader.ValidateItems | ftsim/data/loader.py:260-335 | Accepted exactly when every item is valid, in input order; otherwise the first invalid item's error. |
| Loader.LoadMenu | ftsim/data/loader.py:239-340 | A missing or falsy name, then a blank or non-text name, then the first invalid item, then an empty item list are rejected in that order. Otherwise: the stripped name and every item validated, in order. |
| Loader.Normalise | ftsim/data/loader.py:21-121 | The result is the default or the output of one of the rules. |
| Loader.GetOr | ftsim/data/loader.py:186-194 | `dict.get` with a default (no contract of its own; `Loader.ProfileOf` states the defaults it reads). |
| Loader.Truthy | ftsim/data/loader.py:241 | Python truthiness of a decoded value (no contract of its own; `Loader.LoadMenu` states the name check that uses it). |
| Loader.ToInt | ftsim/data/loader.py:300-320 | The model converts only numbers and booleans and refuses text and null. A non-negative number truncates to within one unit below it; a boolean gives 0 or 1. |
| Loader.ToReal | ftsim/data/loader.py:308 | The model converts only numbers and booleans and refuses text and null. A number is kept as it is; a boolean gives 1.0 for true and 0.0 for false. |
| Loader.Label | ftsim/data/loader.py:261 | The item's name when present, otherwise a text starting with "Item ". |
| Loader.Check | ftsim/data/loader.py:270-322 | The k-th field check (no contract of its own; `Loader.ValidateItemFirstFailure` states which error comes first). |
| Strings.Lower | ftsim/data/loader.py:23 | Same length; each character lower-cased, ASCII only (see "Left out"). |
| Strings.LowerIdempotent | ftsim/data/loader.py:23 | Lower-casing twice is lower-casing once. |
| Strings.Strip | ftsim/data/loader.py:243-245 | The input with its leading and trailing whitespace cut off: a slice of the input, with only whitespace before and after it and none at either end of it. It is empty exactly when the input is all whitespace. |
| Strings.Contains | ftsim/data/loader.py:24 | The `in` test on strings (no contract of its own; `Strings.ContainsAt` states it). |
| Strings.ContainsAt | ftsim/data/loader.py:24 | A text contains a substring exactly when the substring occurs at some position. |
| Strings.NatToString | ftsim/data/loader.py:261 | The decimal digits that denote `n`, at least one of them, with no leading zero for a positive number. |
| Seqs.FilterCount | ftsim/models/vendors.py:31-39 | Filtering keeps each passing element as often as it occurs, and drops every other element. |

## Left out

- Random draws (`random.gauss`, `random.random`, `random.sample`, `random.shuffle`, `random.randint`, `random.choice`, the car sample) are parameters; their distributions are not modelled.
- Scorer.ScorePreference: the rapidfuzz similarity (`_fuzzy_match_score`, scorer.py:28-51) is a function parameter; only its comparison with 85 and 70 is modelled.
- File I/O is not modelled: CSV reading, JSON/YAML decoding and `open`. The loader starts from decoded rows and documents.
- The drink-row doubling (loader.py:157-162) and the student-id loop of `load_students` are not modelled. `Loader.DrinkRanks` and `Loader.ProfileOf` model the loop body for one student.
- Loader.ParseQ4Money and the other normalisers: their contracts prove every result is a table key, not that every key is reachable from some answer.
- Loader.ToInt: `int()` on text is not modelled. `int("7")` succeeds in Python, but here text is refused, so `Loader.ValidateItem` rejects an item whose `health_rating`, `inventory_per_day` or `calories` is numeric text with `NotANumber`, where loader.py:300-320 accepts it.
- Loader.ToReal: `float()` on text is not modelled. `float("3.50")` succeeds in Python, but here text is refused, so `Loader.ValidateItem` rejects an item whose `price` is numeric text with `NotANumber`, where loader.py:308 accepts it.
- Loader.LoadMenu: a non-text item name is stored as the empty string, and the result is a list of catalogue records rather than `MenuItem` objects with fresh stock.
- Loader.ValidateItem: the `KeyError`/`TypeError` paths of malformed documents (an item that is not a mapping) are not modelled.
- Strings.Lower: maps only ASCII `A`-`Z`. Python's `str.lower` also lower-cases non-ASCII letters, for example U+212A KELVIN SIGN to `k` and U+0130 to `i` followed by U+0307, so an answer spelled with such letters can read differently.
- Loader.DrinkToRank: inherits the ASCII-only lower-casing of `Strings.Lower`; "MIL" followed by U+212A reads as "soda" here, where the source finds "milk" and answers "coffee_tea".
- Loader.Normalise: inherits the ASCII-only lower-casing of `Strings.Lower`, and so do `Loader.ParseQ4Money` and the other answer normalisers.
- Scorer.ScorePreference: inherits the ASCII-only lower-casing of `Strings.Lower`; a favourite food "COO" followed by U+212A and "IE" misses the sweet keyword "cookie" here and scores 0.40 for an item of category "sweet" with a fuzzy score below 70, where the source gives 0.75.
- Vendors.SchoolLunch.GenerateDailyMenu: vendors.py:9-10 imports `SCHOOL_LUNCH_DAILY_FOOD_COUNT` and `SCHOOL_LUNCH_DAILY_DRINK_COUNT`, which config.py does not define. The daily counts are therefore not constants here; they are the lengths of the food and drink picks, and `Vendors.IsSample` places no bound on them.
- Floating point is exact `real` arithmetic. `round(x, 2)` is round-half-even on exact values; binary representation effects are not modelled.
- `ftsim/output/results.py` declares record types that do not match how `engine.py` uses them (`truck_results`, `TruckDailyResult`, `TruckAggregateResult`, `CompetitionAggregateResult`). The model follows the engine's usage.
- engine.py:91 calls `make_decision` with four arguments, leaving out `fast_food`; the model passes the engine's burger joint. engine.py:58 and 137 use a school-lunch price that `SchoolLunch` does not have; the model records the menu of the day instead.
- Engine.SimulationEngine.Run: requires at least one day and one truck. With none, the source divides by zero (engine.py:187) or calls `max` on an empty sequence (engine.py:198).
- Engine.SimulationEngine.RunDay: the stockout flags are characterised only when truck names and item names are unique. With repeated names the source's dictionaries merge entries.
- Tally.CheckItem: skips an item slot missing from the stock tables. The source raises `KeyError` there instead (engine.py:112). This happens when two trucks share a name and list different item names: `Tally.InitialBook`, like the dictionary at engine.py:81-84, keeps only the last such truck's items, so the first truck's items have no slot.
- Engine.SimulationEngine.RunDay: with two same-named trucks that list different item names, the source stops with `KeyError` at engine.py:112 after the first student's decision. The model skips the missing slots (`Tally.CheckItem`) and finishes and reports the day.
- Engine.SimulationEngine.Run: inherits the `KeyError` of engine.py:112 that `RunDay` does not model; with such trucks the model completes the run where the source stops on the first day.
- Engine.SimulationEngine.ServeStudent: the per-item sales fact holds only for distinguishable trucks (unique truck names, unique item names per truck, no item on two menus). With repeated names an export cannot say which item it took units of.
- Engine.SimulationEngine.ServeOne: the per-item sales fact holds only for distinguishable trucks, as for `ServeStudent`.
- Engine.SimulationEngine.ServeAt: the per-item sales fact holds only for distinguishable trucks, as for `ServeStudent`.
- Engine.SimulationEngine.ServeNext: the per-item sales fact holds only for distinguishable trucks, as for `ServeStudent`.
- Engine.SimulationEngine.ServeArrivals: the per-item sales fact holds only for distinguishable trucks, as for `ServeStudent`.
- Engine.SimulationEngine.ServeDay: the per-item sales fact holds only for distinguishable trucks, as for `ServeStudent`.
- Engine.SimulationEngine.RunDay: the per-item sales fact holds only for distinguishable trucks, as for `ServeStudent`.
- Engine.SimulationEngine.RunDays: the per-item sales fact holds only for distinguishable trucks, as for `ServeStudent`.
- Engine.SimulationEngine.Run: the per-item sales fact holds only for distinguishable trucks, as for `ServeStudent`.
- Verbose printing (engine.py:153-155), the reporter and `main.py` are not modelled.
- `MenuItem.to_dict`, `SchoolLunch.to_dict` and `FastFood.to_dict` (plain name exports) are not modelled.
- The engine's loops are restructured into methods, one per loop body, each proved against a specification function; the order of effects per student is kept.

## Findings

| source | as written | input that shows it | evidently intended | confidence | as-written member | corrected member |
|---|---|---|---|---|---|---|
| ftsim/scoring/scorer.py:157 | `(available_money - price) / available_money` divides by the budget even when it is 0 | a student with 0.00 money scoring the school lunch's free water (price 0.00): `price > money` is false, so the division by zero is reached | a free item is fully affordable to a student with no money (remaining fraction 1) | not executed | Scorer.AffordabilityAsWritten, Scorer.FreeWaterWithNoMoneyDividesByZero | Scorer.ScoreAffordability |
