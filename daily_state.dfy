/**
 * Daily state generation (ftsim/simulation/daily_state.py). The three random
 * draws a student gets each day are parameters: a standard normal deviate for
 * the money and two uniform numbers in [0, 1) for mood and drowsiness.
 */
module DailyStates {
  import opened Config
  import opened Students

  /** One student's draws for one day. */
  datatype DailyDraw = DailyDraw(z: real, moodDraw: real, drowsyDraw: real)

  /** The base lunch money for a profile's bracket and income, 8.50 when the pair has no entry. */
  function BaseMoney(profile: StudentProfile): (r: real)
    ensures 5.0 <= r <= 14.0
    ensures (profile.q4MoneyForLunch, profile.incomeLevel) !in MoneyMapping ==> r == DefaultBaseMoney
  {
    var key := (profile.q4MoneyForLunch, profile.incomeLevel);
    if key in MoneyMapping then MoneyMapping[key] else DefaultBaseMoney
  }

  /** The chance of a healthy mood: the importance table plus the weight-goal modifier, clamped to [0, 1]. */
  function HealthyMoodProbabilityOf(profile: StudentProfile): (r: real)
    ensures 0.0 <= r <= 1.0
    ensures 0.20 <= r <= 0.85
  {
    var baseProb := if profile.q6HealthyImportance in HealthyMoodProbability
      then HealthyMoodProbability[profile.q6HealthyImportance] else DefaultHealthyMoodProbability;
    var modifier := if profile.q2HealthGoal in HealthGoalModifier
      then HealthGoalModifier[profile.q2HealthGoal] else 0.0;
    var p := baseProb + modifier;
    if p > 1.0 then 1.0 else if p < 0.0 then 0.0 else p
  }

  /**
   * Rounding to cents, halves to even: the nearest multiple of 0.01, and of
   * two equally near ones the one with an even number of cents.
   */
  function RoundCents(x: real): (r: real)
    ensures -0.005 <= r - x <= 0.005
    ensures r == (r * 100.0).Floor as real / 100.0
    ensures 0.0 <= x ==> 0.0 <= r
  {
    var k := (x * 100.0).Floor;
    var frac := x * 100.0 - k as real;
    var n := if frac > 0.5 then k + 1
             else if frac < 0.5 then k
             else if k % 2 == 0 then k else k + 1;
    assert (n as real / 100.0) * 100.0 == n as real;
    n as real / 100.0
  }

  /** Rounding to cents never reverses an order. */
  lemma RoundCentsMonotone(x: real, y: real)
    requires x <= y
    ensures RoundCents(x) <= RoundCents(y)
  {
    var kx, ky := (x * 100.0).Floor, (y * 100.0).Floor;
    assert kx <= ky;
    if kx == ky {
      assert x * 100.0 - kx as real <= y * 100.0 - ky as real;
    }
  }

  /** The day's money before rounding: a normal draw around the base with standard deviation a tenth of it, floored at zero. */
  function RawMoney(profile: StudentProfile, z: real): (r: real)
    ensures 0.0 <= r
  {
    var baseMoney := BaseMoney(profile);
    var variance := baseMoney * MoneyVariance;
    var sample := baseMoney + z * (variance / 2.0);
    if sample > 0.0 then sample else 0.0
  }

  /**
   * The drawn attributes of a day: money rounded to cents and never negative,
   * a healthy mood exactly when the mood draw falls below the healthy-mood
   * probability (junk otherwise), drowsy exactly when the drowsiness draw falls
   * below 0.30.
   */
  function DailyAttributesFor(profile: StudentProfile, draw: DailyDraw): (r: DailyAttributes)
    ensures r.availableMoney >= 0.0
    ensures -0.005 <= r.availableMoney - RawMoney(profile, draw.z) <= 0.005
    ensures r.mood in {"healthy", "junk"}
    ensures r.mood == "healthy" <==> draw.moodDraw < HealthyMoodProbabilityOf(profile)
    ensures r.isDrowsy <==> draw.drowsyDraw < DrowsinessChance
  {
    var money := RawMoney(profile, draw.z);
    var mood := if draw.moodDraw < HealthyMoodProbabilityOf(profile) then "healthy" else "junk";
    var isDrowsy := draw.drowsyDraw < DrowsinessChance;
    DailyAttributes(RoundCents(money), mood, isDrowsy)
  }

  /** A deviate ten standard deviations below the base leaves a student with no money at all. */
  lemma NoMoneyFarBelowBase(profile: StudentProfile, draw: DailyDraw)
    requires draw.z <= -10.0
    ensures DailyAttributesFor(profile, draw).availableMoney == 0.0
  {
    var baseMoney := BaseMoney(profile);
    var sample := baseMoney + draw.z * (baseMoney * MoneyVariance / 2.0);
    assert sample == baseMoney * (1.0 + draw.z / 10.0);
    assert 1.0 + draw.z / 10.0 <= 0.0;
    assert sample <= 0.0;
    assert RawMoney(profile, draw.z) == 0.0;
  }

  /** A higher deviate never gives less money. */
  lemma MoneyMonotoneInDraw(profile: StudentProfile, d1: DailyDraw, d2: DailyDraw)
    requires d1.z <= d2.z
    ensures DailyAttributesFor(profile, d1).availableMoney <= DailyAttributesFor(profile, d2).availableMoney
  {
    var baseMoney := BaseMoney(profile);
    var sd := baseMoney * MoneyVariance / 2.0;
    assert d1.z * sd <= d2.z * sd;
    assert RawMoney(profile, d1.z) <= RawMoney(profile, d2.z);
    RoundCentsMonotone(RawMoney(profile, d1.z), RawMoney(profile, d2.z));
  }

  /** A fresh, undecided daily state for `profile`. */
  method GenerateDailyState(profile: StudentProfile, draw: DailyDraw) returns (s: StudentDailyState)
    ensures fresh(s)
    ensures s.studentId == profile.studentId
    ensures s.Attributes() == DailyAttributesFor(profile, draw)
    ensures s.Undecided()
  {
    var attrs := DailyAttributesFor(profile, draw);
    s := new StudentDailyState(profile.studentId, attrs.availableMoney, attrs.mood, attrs.isDrowsy);
  }

  /** One fresh, undecided state per profile, in profile order, no two the same object. */
  method GenerateDailyStates(profiles: seq<StudentProfile>, draws: seq<DailyDraw>) returns (states: seq<StudentDailyState>)
    requires |draws| == |profiles|
    ensures |states| == |profiles|
    ensures forall i :: 0 <= i < |states| ==> fresh(states[i])
    ensures forall i, j :: 0 <= i < j < |states| ==> states[i] != states[j]
    ensures forall i :: 0 <= i < |states| ==>
      && states[i].studentId == profiles[i].studentId
      && states[i].Attributes() == DailyAttributesFor(profiles[i], draws[i])
      && states[i].Undecided()
  {
    states := [];
    for k := 0 to |profiles|
      invariant |states| == k
      invariant forall i :: 0 <= i < k ==> fresh(states[i])
      invariant forall i, j :: 0 <= i < j < k ==> states[i] != states[j]
      invariant forall i :: 0 <= i < k ==>
        && states[i].studentId == profiles[i].studentId
        && states[i].Attributes() == DailyAttributesFor(profiles[i], draws[i])
        && states[i].Undecided()
    {
      var s := GenerateDailyState(profiles[k], draws[k]);
      states := states + [s];
    }
  }
}
