/**
 * utils/machineData.ts: the machine catalog, plan generation, the rest-time
 * policy, session creation, progress accounting and the m:ss time format of
 * the first variant of the app.
 */
module MachineData {
  import opened Wrappers
  import opened Numeric
  import opened Text

  /** A machine of the catalog; `weightRange` is (minimum, maximum) in kg. */
  datatype Machine = Machine(
    id: string,
    name: string,
    part: string,
    weightRange: (int, int),
    defaultSet: int,
    defaultRestTime: int)

  datatype Experience = Beginner | Intermediate | Advanced

  datatype Goal = LoseWeight | MuscleGain | Maintain

  datatype UserProfile = UserProfile(age: int, weight: real, experience: Experience, goal: Goal)

  /** One exercise of a plan; `restTime` is optional in the record type. */
  datatype WorkoutPlan = WorkoutPlan(
    machineId: string,
    machineName: string,
    part: string,
    weight: int,
    reps: int,
    sets: int,
    restTime: Option<int>)

  datatype Status = Active | Paused | Completed

  /**
   * A running workout. `completedSets` maps an exercise index to the set
   * numbers recorded for it, in the order they were completed.
   */
  datatype WorkoutSession = WorkoutSession(
    workoutPlan: seq<WorkoutPlan>,
    currentExerciseIndex: nat,
    currentSet: int,
    completedSets: map<nat, seq<int>>,
    isResting: bool,
    restDuration: int,
    status: Status)

  /** Per-machine rest-time overrides in seconds, keyed by machine id. */
  type RestTimeSettings = map<string, int>

  datatype WorkoutProgress = WorkoutProgress(totalSets: int, completedSets: nat, progressPercentage: int)

  const MACHINES: map<string, Machine> := map[
    "chest_press" := Machine("chest_press", "チェストプレス", "胸", (20, 80), 3, 90),
    "lat_pull" := Machine("lat_pull", "ラットプルダウン", "背中", (15, 60), 3, 90),
    "leg_press" := Machine("leg_press", "レッグプレス", "脚", (40, 120), 3, 120),
    "shoulder_press" := Machine("shoulder_press", "ショルダープレス", "肩", (10, 50), 3, 75),
    "bicep_curl" := Machine("bicep_curl", "バイセップカール", "腕", (5, 30), 3, 60),
    "leg_extension" := Machine("leg_extension", "レッグエクステンション", "脚前", (20, 80), 3, 90)
  ]

  /** The rest-time choices offered by the rest-time picker, in seconds. */
  const REST_TIME_PRESETS: seq<int> := [30, 45, 60, 75, 90, 105, 120, 150, 180]

  /** `REST_TIMES.BETWEEN_SETS` and `REST_TIMES.BETWEEN_EXERCISES`. */
  const BETWEEN_SETS: int := 90
  const BETWEEN_EXERCISES: int := 120

  /** What every catalog entry satisfies: filed under its own id, a non-empty weight range, 3 sets, a positive rest. */
  ghost predicate CatalogValid(catalog: map<string, Machine>) {
    forall id :: id in catalog ==>
      && catalog[id].id == id
      && catalog[id].weightRange.0 <= catalog[id].weightRange.1
      && catalog[id].defaultSet == 3
      && 60 <= catalog[id].defaultRestTime
  }

  lemma MachinesValid()
    ensures CatalogValid(MACHINES)
  {
  }

  /** The `switch` on experience in `generateWorkoutPlan`. */
  function Multiplier(experience: Experience): real {
    match experience
    case Beginner => 0.3
    case Intermediate => 0.5
    case Advanced => 0.7
  }

  /** The `switch` on goal in `generateWorkoutPlan`: (reps, sets). */
  function RepsAndSets(goal: Goal): (int, int) {
    match goal
    case LoseWeight => (12, 3)
    case MuscleGain => (8, 3)
    case Maintain => (10, 2)
  }

  /** The goal as the string the screens pass around. */
  function GoalName(goal: Goal): string {
    match goal
    case LoseWeight => "lose_weight"
    case MuscleGain => "muscle_gain"
    case Maintain => "maintain"
  }

  /** The plan entry `generateWorkoutPlan` builds for one selected id. */
  function PlanEntry(machineId: string, profile: UserProfile, customRestTimes: RestTimeSettings): (e: WorkoutPlan)
    requires machineId in MACHINES
    ensures var machine := MACHINES[machineId];
      && e.machineId == machineId
      && e.machineName == machine.name
      && e.part == machine.part
      && machine.weightRange.0 <= e.weight <= machine.weightRange.1
      && e.weight == Clamp(Round(profile.weight * Multiplier(profile.experience)), machine.weightRange.0, machine.weightRange.1)
      && (e.reps, e.sets) == RepsAndSets(profile.goal)
      && e.restTime.Some?
      && (machineId in customRestTimes && customRestTimes[machineId] != 0 ==> e.restTime.value == customRestTimes[machineId])
      && (machineId !in customRestTimes || customRestTimes[machineId] == 0 ==> e.restTime.value == machine.defaultRestTime)
  {
    MachinesValid();
    var machine := MACHINES[machineId];
    var (reps, sets) := RepsAndSets(profile.goal);
    WorkoutPlan(
      machine.id, machine.name, machine.part,
      Clamp(Round(profile.weight * Multiplier(profile.experience)), machine.weightRange.0, machine.weightRange.1),
      reps, sets,
      Some(OrElse(Lookup(customRestTimes, machineId), machine.defaultRestTime)))
  }

  /**
   * `generateWorkoutPlan`: one entry per selected id, in selection order.
   * Every id must be a catalog key: the source reads the weight range of
   * whatever the lookup returned and fails on a missing machine.
   */
  function GenerateWorkoutPlan(selected: seq<string>, profile: UserProfile, customRestTimes: RestTimeSettings): (plan: seq<WorkoutPlan>)
    requires forall id <- selected :: id in MACHINES
    ensures |plan| == |selected|
    ensures forall i :: 0 <= i < |plan| ==> plan[i] == PlanEntry(selected[i], profile, customRestTimes)
  {
    if selected == [] then []
    else [PlanEntry(selected[0], profile, customRestTimes)] + GenerateWorkoutPlan(selected[1..], profile, customRestTimes)
  }

  /**
   * `getRecommendedRestTime`: an unknown machine gets 90 seconds; otherwise
   * the machine's default, shortened by 15 (never below 30) to lose weight,
   * lengthened by 15 to gain muscle, unchanged for any other goal.
   */
  function GetRecommendedRestTime(machineId: string, goal: string): (r: int)
    ensures machineId !in MACHINES ==> r == 90
    ensures machineId in MACHINES && goal == "lose_weight" ==>
      r == Max(30, MACHINES[machineId].defaultRestTime - 15) && r >= 30
    ensures machineId in MACHINES && goal == "muscle_gain" ==> r == MACHINES[machineId].defaultRestTime + 15
    ensures machineId in MACHINES && goal != "lose_weight" && goal != "muscle_gain" ==> r == MACHINES[machineId].defaultRestTime
  {
    if machineId !in MACHINES then 90
    else
      var baseTime := MACHINES[machineId].defaultRestTime;
      if goal == "lose_weight" then Max(30, baseTime - 15)
      else if goal == "muscle_gain" then baseTime + 15
      else baseTime
  }

  /** Over this catalog, every recommendation, for any id and any goal, is at least 30 seconds. */
  lemma RecommendedRestAtLeast30(machineId: string, goal: string)
    ensures GetRecommendedRestTime(machineId, goal) >= 30
  {
    MachinesValid();
  }

  /** `createWorkoutSession`: the first set of the first exercise, nothing recorded, not resting. */
  function CreateWorkoutSession(workoutPlan: seq<WorkoutPlan>): (s: WorkoutSession)
    ensures s.workoutPlan == workoutPlan
    ensures s.currentExerciseIndex == 0 && s.currentSet == 1
    ensures s.completedSets == map[] && !s.isResting && s.restDuration == 0 && s.status == Active
  {
    WorkoutSession(workoutPlan, 0, 1, map[], false, 0, Active)
  }

  /** `m:ss`: whole minutes, then the seconds left over padded to two digits. */
  function FormatTime(seconds: nat): (r: string)
    ensures |r| >= 4 && r[|r| - 3] == ':'
    ensures AllDigits(r[..|r| - 3]) && AllDigits(r[|r| - 2..])
  {
    var minutes, secs := Decimal(seconds / 60), Pad2(seconds % 60);
    assert |secs| == 2;
    var r := minutes + ":" + secs;
    assert r[..|r| - 3] == minutes && r[|r| - 2..] == secs;
    r
  }

  /** Reads an `m:ss` text back to seconds; the inverse of `FormatTime`. */
  function ParseMinSec(t: string): Option<nat> {
    MinSecValue(Split(t, ':'))
  }

  /** Minutes of at least one digit, then seconds of two digits below 60. */
  function MinSecValue(parts: seq<string>): Option<nat> {
    if |parts| == 2 && parts[0] != [] && AllDigits(parts[0])
       && |parts[1]| == 2 && AllDigits(parts[1]) && ParseDecimal(parts[1]) < 60
    then Some(ParseDecimal(parts[0]) * 60 + ParseDecimal(parts[1]))
    else None
  }

  lemma SplitTwo(m: string, ss: string)
    requires AllDigits(m) && AllDigits(ss)
    ensures Split(m + ":" + ss, ':') == [m, ss]
  {
    assert ':' !in m by { assert forall i :: 0 <= i < |m| ==> IsDigit(m[i]); }
    assert ':' !in ss by { assert forall i :: 0 <= i < |ss| ==> IsDigit(ss[i]); }
    SplitFirst(m, ':', ss);
    SplitNone(ss, ':');
    assert m + ":" + ss == m + [':'] + ss;
  }

  lemma MinSecOfTwo(m: string, ss: string)
    requires m != [] && AllDigits(m)
    requires |ss| == 2 && AllDigits(ss) && ParseDecimal(ss) < 60
    ensures MinSecValue([m, ss]) == Some(ParseDecimal(m) * 60 + ParseDecimal(ss))
  {
  }

  lemma ParseMinSecSplit(m: string, ss: string)
    requires AllDigits(m) && AllDigits(ss)
    ensures ParseMinSec(m + ":" + ss) == MinSecValue([m, ss])
  {
    SplitTwo(m, ss);
  }

  /** An `m:ss` text with digits on both sides reads back as 60 * m + ss. */
  lemma ParseMinSecOf(m: string, ss: string)
    requires m != [] && AllDigits(m)
    requires |ss| == 2 && AllDigits(ss) && ParseDecimal(ss) < 60
    ensures ParseMinSec(m + ":" + ss) == Some(ParseDecimal(m) * 60 + ParseDecimal(ss))
  {
    MinSecOfTwo(m, ss);
    ParseMinSecSplit(m, ss);
  }

  /** Minutes and seconds below 60, written as `FormatTime` writes them, read back as 60 * m + ss. */
  lemma ParseMinSecOfParts(q: nat, r: nat, total: nat)
    requires r < 60 && total == q * 60 + r
    ensures ParseMinSec(Decimal(q) + ":" + Pad2(r)) == Some(total)
  {
    var mm, ss := Decimal(q), Pad2(r);
    ParseDecimalOfDecimal(q);
    assert ParseDecimal(mm) == q && ParseDecimal(ss) == r;
    ParseMinSecOf(mm, ss);
  }

  /** The time shown is exactly the number of seconds: 60 * m + ss, with ss two digits below 60. */
  lemma FormatTimeRoundTrip(seconds: nat)
    ensures ParseMinSec(FormatTime(seconds)) == Some(seconds)
  {
    ParseMinSecOfParts(seconds / 60, seconds % 60, seconds);
  }

  /** Σ sets over the plan (the first `reduce` of `getWorkoutProgress`). */
  function TotalSets(plan: seq<WorkoutPlan>): int {
    if plan == [] then 0 else TotalSets(plan[..|plan| - 1]) + plan[|plan| - 1].sets
  }

  /** With no negative set counts the total is not negative; with at least one set each, it is at least the plan's length. */
  lemma {:induction false} TotalSetsAtLeast(plan: seq<WorkoutPlan>)
    ensures (forall k :: 0 <= k < |plan| ==> plan[k].sets >= 0) ==> TotalSets(plan) >= 0
    ensures (forall k :: 0 <= k < |plan| ==> plan[k].sets >= 1) ==> TotalSets(plan) >= |plan|
  {
    if plan != [] {
      var init := plan[..|plan| - 1];
      TotalSetsAtLeast(init);
      assert forall k :: 0 <= k < |init| ==> init[k] == plan[k];
    }
  }

  /** Some least element, picked by removing an arbitrary one and comparing it with the least of the rest. */
  ghost function Least(keys: set<nat>): (k: nat)
    requires keys != {}
    ensures k in keys && forall j :: j in keys ==> k <= j
  {
    var x :| x in keys;
    if keys == {x} then x
    else
      var rest := keys - {x};
      var k := Least(rest);
      assert forall j :: j in keys && j != x ==> j in rest;
      if x <= k then x else k
  }

  lemma MinKeyExists(keys: set<nat>)
    requires keys != {}
    ensures exists k :: k in keys && forall j :: j in keys ==> k <= j
  {
    var k := Least(keys);
    assert k in keys && forall j :: j in keys ==> k <= j;
  }

  /** The smallest key: `Object.values` visits integer keys in ascending order. */
  function MinKey(keys: set<nat>): (k: nat)
    requires keys != {}
    ensures k in keys && forall j :: j in keys ==> k <= j
  {
    MinKeyExists(keys);
    var k :| k in keys && forall j :: j in keys ==> k <= j; k
  }

  /** Σ of the lengths of the recorded lists (the second `reduce` of `getWorkoutProgress`). */
  function SumLengths(m: map<nat, seq<int>>): nat
    decreases |m.Keys|
  {
    if m.Keys == {} then 0
    else
      var k := MinKey(m.Keys);
      assert (m - {k}).Keys == m.Keys - {k};
      |m[k]| + SumLengths(m - {k})
  }

  /** The sum does not depend on the order the keys are visited in: any key can be taken out first. */
  lemma {:induction false} SumLengthsRemove(m: map<nat, seq<int>>, k: nat)
    requires k in m
    ensures SumLengths(m) == |m[k]| + SumLengths(m - {k})
    decreases |m.Keys|
  {
    var k0 := MinKey(m.Keys);
    if k0 != k {
      var without0, withoutK := m - {k0}, m - {k};
      var both := without0 - {k};
      assert without0.Keys == m.Keys - {k0};
      assert withoutK.Keys == m.Keys - {k};
      assert withoutK - {k0} == both;
      assert without0[k] == m[k] && withoutK[k0] == m[k0];
      assert SumLengths(m) == |m[k0]| + SumLengths(without0);
      SumLengthsRemove(without0, k);
      SumLengthsRemove(withoutK, k0);
    }
  }

  /** The list recorded for an exercise, empty when nothing was recorded yet. */
  function Recorded(m: map<nat, seq<int>>, k: nat): seq<int> {
    if k in m then m[k] else []
  }

  /** Replacing one recorded list changes the sum by the difference of the two lengths. */
  lemma SumLengthsUpdate(m: map<nat, seq<int>>, k: nat, v: seq<int>)
    ensures SumLengths(m[k := v]) + |Recorded(m, k)| == SumLengths(m) + |v|
  {
    SumLengthsRemove(m[k := v], k);
    assert m[k := v] - {k} == m - {k};
    if k in m {
      SumLengthsRemove(m, k);
    } else {
      assert m - {k} == m;
    }
  }

  /** `Math.round((c / t) * 100)`, or 0 for a plan without sets. */
  function Percentage(completed: nat, total: int): (r: int)
    ensures total <= 0 ==> r == 0
  {
    if total > 0 then Round((completed as real / total as real) * 100.0) else 0
  }

  /** A percentage of at most all sets lies in [0, 100], and reaches 100 exactly when all sets are done. */
  lemma PercentageBounds(completed: nat, total: int)
    requires completed <= total
    ensures 0 <= Percentage(completed, total) <= 100
    ensures total > 0 && completed == total ==> Percentage(completed, total) == 100
    ensures completed == 0 ==> Percentage(completed, total) == 0
  {
    if total > 0 {
      var x := (completed as real / total as real) * 100.0;
      assert completed as real / total as real <= 1.0;
      RoundMonotone(0.0, x);
      RoundMonotone(x, 100.0);
      RoundOfInt(0);
      RoundOfInt(100);
      if completed == total {
        assert completed as real == total as real;
        assert total as real / total as real == 1.0;
      }
    }
  }

  /** More completed sets never show a smaller percentage. */
  lemma PercentageMonotone(c1: nat, c2: nat, total: int)
    requires c1 <= c2
    ensures Percentage(c1, total) <= Percentage(c2, total)
  {
    if total > 0 {
      assert c1 as real / total as real <= c2 as real / total as real;
      RoundMonotone((c1 as real / total as real) * 100.0, (c2 as real / total as real) * 100.0);
    }
  }

  /** `getWorkoutProgress`. */
  function GetWorkoutProgress(session: WorkoutSession): (p: WorkoutProgress)
    ensures p.totalSets == TotalSets(session.workoutPlan)
    ensures p.completedSets == SumLengths(session.completedSets)
    ensures p.progressPercentage == Percentage(p.completedSets, p.totalSets)
  {
    var totalSets := TotalSets(session.workoutPlan);
    var completedSets := SumLengths(session.completedSets);
    WorkoutProgress(totalSets, completedSets, Percentage(completedSets, totalSets))
  }

  /** A new session has nothing done: 0 completed sets, 0 percent, all sets still to do. */
  lemma NewSessionProgress(workoutPlan: seq<WorkoutPlan>)
    ensures GetWorkoutProgress(CreateWorkoutSession(workoutPlan)) == WorkoutProgress(TotalSets(workoutPlan), 0, 0)
  {
  }
}
