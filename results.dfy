/**
 * The result records of a simulation day and of a whole run, as the engine
 * (ftsim/simulation/engine.py) fills them in, and the run totals as sums over
 * the days.
 */
module Results {
  import opened MenuItems
  import opened Students
  import opened Tally

  /** One truck's day: its revenue, customers, units sold per item name, and stocked-out flag per item name. */
  datatype TruckDailyResult = TruckDailyResult(
    truckName: string,
    revenue: real,
    customers: nat,
    itemsSold: map<string, nat>,
    stockouts: map<string, nat>)

  /** One simulated day. The school lunch is recorded by its menu of the day. */
  datatype DailyResult = DailyResult(
    day: nat,
    truckResults: map<string, TruckDailyResult>,
    lossesByReason: map<string, nat>,
    totalStudents: nat,
    schoolLunchMenu: seq<CatalogItem>,
    studentStates: seq<StateRecord>)

  /** One truck's run: totals over the days and daily averages. */
  datatype TruckAggregateResult = TruckAggregateResult(
    truckName: string,
    totalRevenue: real,
    totalCustomers: nat,
    totalItemsSold: map<string, nat>,
    totalStockouts: map<string, nat>,
    avgDailyRevenue: real,
    avgDailyCustomers: real)

  /** A whole run. */
  datatype CompetitionAggregateResult = CompetitionAggregateResult(
    totalDays: nat,
    truckResults: map<string, TruckAggregateResult>,
    totalLossesByReason: map<string, nat>,
    totalStudentsServed: nat,
    winner: string,
    dailyResults: seq<DailyResult>)

  /** Two tallies added key by key (`total[k] = total.get(k, 0) + count` over the items of `b`). */
  function MergeCounts(a: map<string, nat>, b: map<string, nat>): (r: map<string, nat>)
    ensures forall x :: Get(r, x) == Get(a, x) + Get(b, x)
    ensures forall x :: x in r <==> x in a || x in b
  {
    map x | x in a.Keys + b.Keys :: Get(a, x) + Get(b, x)
  }

  /** Every day has a result for the truck named `name`. */
  predicate Reports(days: seq<DailyResult>, name: string)
  {
    forall d :: 0 <= d < |days| ==> name in days[d].truckResults
  }

  /** The truck's revenue, added up over the days. */
  function DaysRevenue(days: seq<DailyResult>, name: string): real
    requires Reports(days, name)
  {
    if days == [] then 0.0
    else
      var n := |days| - 1;
      DaysRevenue(days[..n], name) + days[n].truckResults[name].revenue
  }

  /** The truck's customers, added up over the days. */
  function DaysCustomers(days: seq<DailyResult>, name: string): nat
    requires Reports(days, name)
  {
    if days == [] then 0
    else
      var n := |days| - 1;
      DaysCustomers(days[..n], name) + days[n].truckResults[name].customers
  }

  /** The truck's units sold per item name, merged over the days. */
  function DaysItemsSold(days: seq<DailyResult>, name: string): map<string, nat>
    requires Reports(days, name)
  {
    if days == [] then map[]
    else
      var n := |days| - 1;
      MergeCounts(DaysItemsSold(days[..n], name), days[n].truckResults[name].itemsSold)
  }

  /** The truck's stocked-out flags per item name, merged over the days: the number of days each item ran out. */
  function DaysStockouts(days: seq<DailyResult>, name: string): map<string, nat>
    requires Reports(days, name)
  {
    if days == [] then map[]
    else
      var n := |days| - 1;
      MergeCounts(DaysStockouts(days[..n], name), days[n].truckResults[name].stockouts)
  }

  /** The losses per reason, merged over the days. */
  function DaysLosses(days: seq<DailyResult>): map<string, nat>
  {
    if days == [] then map[]
    else
      var n := |days| - 1;
      MergeCounts(DaysLosses(days[..n]), days[n].lossesByReason)
  }

  /** A truck's run record over `days`: the totals, and the totals divided by the number of days. */
  function TruckAggregateOf(days: seq<DailyResult>, name: string, numDays: nat): (r: TruckAggregateResult)
    requires Reports(days, name) && numDays >= 1
    ensures r.truckName == name
    ensures r.avgDailyRevenue * numDays as real == r.totalRevenue
    ensures r.avgDailyCustomers * numDays as real == r.totalCustomers as real
  {
    var revenue := DaysRevenue(days, name);
    var customers := DaysCustomers(days, name);
    TruckAggregateResult(name, revenue, customers, DaysItemsSold(days, name), DaysStockouts(days, name),
                         revenue / numDays as real, customers as real / numDays as real)
  }

  /** The day's result for `name` holds the tallies of the day's student records. */
  ghost predicate DayTallied(day: DailyResult, name: string)
  {
    && name in day.truckResults
    && day.truckResults[name].revenue == Revenue(day.studentStates, name)
    && day.truckResults[name].customers == Customers(day.studentStates, name)
    && (forall x :: Get(day.truckResults[name].itemsSold, x) == Sold(day.studentStates, name, x))
  }

  /** What the students of all days spent at `name`, student by student. */
  function RunRevenue(days: seq<DailyResult>, name: string): real
  {
    if days == [] then 0.0
    else
      var n := |days| - 1;
      RunRevenue(days[..n], name) + Revenue(days[n].studentStates, name)
  }

  /** How many student-days bought from `name`. */
  function RunCustomers(days: seq<DailyResult>, name: string): nat
  {
    if days == [] then 0
    else
      var n := |days| - 1;
      RunCustomers(days[..n], name) + Customers(days[n].studentStates, name)
  }

  /** How many units named `item` the students of all days bought from `name`. */
  function RunSold(days: seq<DailyResult>, name: string, item: string): nat
  {
    if days == [] then 0
    else
      var n := |days| - 1;
      RunSold(days[..n], name, item) + Sold(days[n].studentStates, name, item)
  }

  /** How many student-days were lost for `reason`. */
  function RunLosses(days: seq<DailyResult>, reason: string): nat
  {
    if days == [] then 0
    else
      var n := |days| - 1;
      RunLosses(days[..n], reason) + Losses(days[n].studentStates, reason)
  }

  /**
   * When every day tallies its records, a truck's run totals count every
   * student-day: revenue, customers and units sold of each item.
   */
  lemma {:induction false} RunTotalsCountStudents(days: seq<DailyResult>, name: string)
    requires forall d :: 0 <= d < |days| ==> DayTallied(days[d], name)
    ensures Reports(days, name)
    ensures DaysRevenue(days, name) == RunRevenue(days, name)
    ensures DaysCustomers(days, name) == RunCustomers(days, name)
    ensures forall x :: Get(DaysItemsSold(days, name), x) == RunSold(days, name, x)
    decreases |days|
  {
    if days != [] {
      var n := |days| - 1;
      assert forall d :: 0 <= d < n ==> days[..n][d] == days[d];
      RunTotalsCountStudents(days[..n], name);
    }
  }

  /** When every day tallies its losses, the run's loss totals count every lost student-day. */
  lemma {:induction false} RunLossesCountStudents(days: seq<DailyResult>)
    requires forall d :: 0 <= d < |days| ==> forall r :: Get(days[d].lossesByReason, r) == Losses(days[d].studentStates, r)
    ensures forall r :: Get(DaysLosses(days), r) == RunLosses(days, r)
    decreases |days|
  {
    if days != [] {
      var n := |days| - 1;
      assert forall d :: 0 <= d < n ==> days[..n][d] == days[d];
      RunLossesCountStudents(days[..n]);
    }
  }
}
