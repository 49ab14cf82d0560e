/**
 * my-app/lib/workout-calculator.ts: the second variant's plan generator.
 * The weight is rounded to the nearest 5 kg before clamping, and the rest
 * time comes from the goal alone.
 */
module WorkoutCalculator {
  import opened Numeric
  import opened WorkoutTypes
  import MachineCatalog

  /** `getWeightMultiplier`: a fraction of body weight, larger with more experience. */
  function GetWeightMultiplier(experience: ExperienceLevel): (r: real)
    ensures 0.0 < r < 1.0
    ensures experience == Beginner <==> r < 0.5
    ensures experience == Advanced <==> r > 0.5
  {
    match experience
    case Beginner => 0.3
    case Intermediate => 0.5
    case Advanced => 0.7
  }

  datatype GoalParameters = GoalParameters(reps: int, sets: int)

  /**
   * `getGoalParameters`: 8 to 12 reps; three sets, except two to maintain;
   * muscle gain has the fewest reps and weight loss the most.
   */
  function GetGoalParameters(goal: GoalType): (r: GoalParameters)
    ensures 8 <= r.reps <= 12
    ensures r.sets == (if goal == Maintain then 2 else 3)
    ensures goal == MuscleGain <==> r.reps < 10
    ensures goal == LoseWeight <==> r.reps > 10
  {
    match goal
    case LoseWeight => GoalParameters(12, 3)
    case MuscleGain => GoalParameters(8, 3)
    case Maintain => GoalParameters(10, 2)
  }

  /** `getRestTime`: 30 to 90 seconds, shortest to lose weight and longest to gain muscle. */
  function GetRestTime(goal: GoalType): (r: int)
    ensures 30 <= r <= 90
    ensures goal == LoseWeight <==> r < 60
    ensures goal == MuscleGain <==> r > 60
  {
    match goal
    case LoseWeight => 30
    case MuscleGain => 90
    case Maintain => 60
  }

  /** `Math.round(baseWeight / 5) * 5`: the nearest multiple of 5, halves rounded up. */
  function RoundToFive(baseWeight: real): (w: int)
    ensures w % 5 == 0
    ensures w as real - 2.5 <= baseWeight < w as real + 2.5
  {
    Round(baseWeight / 5.0) * 5
  }

  /** The weight of one entry: rounded to 5, then clamped into [minWeight, maxWeight]. */
  function EntryWeight(profile: UserProfile, machine: Machine): int {
    Clamp(RoundToFive(profile.weight * GetWeightMultiplier(profile.experience)), machine.minWeight, machine.maxWeight)
  }

  /** `calculateWorkoutPlan`: the `map` over the selected machines. */
  function CalculateWorkoutPlan(profile: UserProfile, selectedMachines: seq<Machine>): (plan: seq<WorkoutPlan>)
    ensures |plan| == |selectedMachines|
    ensures forall i :: 0 <= i < |plan| ==>
      var machine := selectedMachines[i];
      && plan[i].machineId == machine.id
      && plan[i].machineName == machine.name
      && plan[i].part == machine.part
      && plan[i].weight == EntryWeight(profile, machine)
      && (machine.minWeight <= machine.maxWeight ==> machine.minWeight <= plan[i].weight <= machine.maxWeight)
      && (machine.minWeight % 5 == 0 && machine.maxWeight % 5 == 0 ==> plan[i].weight % 5 == 0)
      && GoalParameters(plan[i].reps, plan[i].sets) == GetGoalParameters(profile.goal)
      && plan[i].restTime == GetRestTime(profile.goal)
  {
    if selectedMachines == [] then []
    else
      var machine := selectedMachines[0];
      var parameters := GetGoalParameters(profile.goal);
      [WorkoutPlan(machine.id, machine.name, machine.part, EntryWeight(profile, machine),
                   parameters.reps, parameters.sets, GetRestTime(profile.goal))]
      + CalculateWorkoutPlan(profile, selectedMachines[1..])
  }

  /**
   * Over machines taken from the catalog, every weight is a multiple of 5
   * inside its machine's range, and every entry rests for the same,
   * goal-given time (the machine's own default rest is never used).
   */
  lemma {:induction false} CatalogPlanOnGrid(profile: UserProfile, selectedMachines: seq<Machine>)
    requires forall m <- selectedMachines :: m in MachineCatalog.Machines
    ensures forall i :: 0 <= i < |selectedMachines| ==>
      var w := CalculateWorkoutPlan(profile, selectedMachines)[i].weight;
      && w % 5 == 0
      && selectedMachines[i].minWeight <= w <= selectedMachines[i].maxWeight
    ensures forall i, j :: 0 <= i < j < |selectedMachines| ==>
      CalculateWorkoutPlan(profile, selectedMachines)[i].restTime == CalculateWorkoutPlan(profile, selectedMachines)[j].restTime
  {
    MachineCatalog.CatalogEntriesValid();
    var plan := CalculateWorkoutPlan(profile, selectedMachines);
    forall i | 0 <= i < |selectedMachines|
      ensures plan[i].weight % 5 == 0
      ensures selectedMachines[i].minWeight <= plan[i].weight <= selectedMachines[i].maxWeight
    {
      assert selectedMachines[i] in MachineCatalog.Machines;
      assert MachineCatalog.RangeOnGrid(selectedMachines[i]);
    }
  }
}
