/**
 * Student records (ftsim/models/student.py): the frozen survey profile and the
 * mutable per-day state whose decision fields the decision policy fills in.
 */
module Students {
  import opened Wrappers
  import opened MenuItems

  /** A student's survey-derived profile; frozen, so a value. */
  datatype StudentProfile = StudentProfile(
    studentId: int,
    grade: int,
    gender: string,
    incomeLevel: string,
    q1SpendOnDrink: string,
    q2HealthGoal: string,
    q3Metabolism: string,
    q4MoneyForLunch: string,
    q5ActivityLevel: string,
    q6HealthyImportance: string,
    q7WantsSweet: string,
    q8LunchChoice: string,
    waterRank: int,           // drink ranks: 1 is best, 5 is unranked
    sodaRank: int,
    juiceRank: int,
    energyDrinkRank: int,
    coffeeTeaRank: int,
    hasCar: bool)

  /** The five drink ranks lie in 1..5. */
  predicate RanksInRange(p: StudentProfile)
  {
    && 1 <= p.waterRank <= 5 && 1 <= p.sodaRank <= 5 && 1 <= p.juiceRank <= 5
    && 1 <= p.energyDrinkRank <= 5 && 1 <= p.coffeeTeaRank <= 5
  }

  /** The day's drawn attributes of a student: what the scorer reads of the daily state. */
  datatype DailyAttributes = DailyAttributes(availableMoney: real, mood: string, isDrowsy: bool)

  /** The exported form of a daily state (`to_dict`): purchased items by name. */
  datatype StateRecord = StateRecord(
    studentId: int,
    availableMoney: real,
    mood: string,
    isDrowsy: bool,
    purchasedItems: seq<string>,
    totalSpent: real,
    choseSchoolLunch: bool,
    choseFastFood: bool,
    lossReason: Option<string>,
    purchasedFromTruck: Option<string>)

  /** The names of `items`, in order. */
  function ItemNames(items: seq<MenuItem>): (r: seq<string>)
    ensures |r| == |items|
    ensures forall i :: 0 <= i < |items| ==> r[i] == items[i].catalog.name
  {
    if items == [] then [] else [items[0].catalog.name] + ItemNames(items[1..])
  }

  class StudentDailyState {
    // Drawn once per day; the core never assigns them.
    const studentId: int
    const availableMoney: real
    const mood: string
    const isDrowsy: bool

    // Decision outcome, filled in by the decision policy.
    var purchasedItems: seq<MenuItem>
    var totalSpent: real
    var choseSchoolLunch: bool
    var choseFastFood: bool
    var lossReason: Option<string>
    var purchasedFromTruck: Option<string>

    function Attributes(): DailyAttributes
    {
      DailyAttributes(availableMoney, mood, isDrowsy)
    }

    /** No decision recorded yet. */
    ghost predicate Undecided()
      reads this
    {
      && purchasedItems == [] && totalSpent == 0.0
      && !choseSchoolLunch && !choseFastFood
      && lossReason == None && purchasedFromTruck == None
    }

    /** A fresh state: no purchases (the missing list becomes empty), nothing spent, no flags, no loss, no truck. */
    constructor (studentId: int, availableMoney: real, mood: string, isDrowsy: bool)
      ensures this.studentId == studentId && this.availableMoney == availableMoney
      ensures this.mood == mood && this.isDrowsy == isDrowsy
      ensures Undecided()
    {
      this.studentId := studentId;
      this.availableMoney := availableMoney;
      this.mood := mood;
      this.isDrowsy := isDrowsy;
      purchasedItems := [];
      totalSpent := 0.0;
      choseSchoolLunch := false;
      choseFastFood := false;
      lossReason := None;
      purchasedFromTruck := None;
    }

    /** The exported record: item names in purchase order, every other field as it is. */
    function ToDict(): (r: StateRecord)
      reads this
      ensures |r.purchasedItems| == |purchasedItems|
      ensures forall i :: 0 <= i < |purchasedItems| ==> r.purchasedItems[i] == purchasedItems[i].catalog.name
      ensures r.studentId == studentId && r.availableMoney == availableMoney
      ensures r.mood == mood && r.isDrowsy == isDrowsy && r.totalSpent == totalSpent
      ensures r.choseSchoolLunch == choseSchoolLunch && r.choseFastFood == choseFastFood
      ensures r.lossReason == lossReason && r.purchasedFromTruck == purchasedFromTruck
    {
      StateRecord(studentId, availableMoney, mood, isDrowsy, ItemNames(purchasedItems), totalSpent,
                  choseSchoolLunch, choseFastFood, lossReason, purchasedFromTruck)
    }
  }
}
