/** my-app/lib/types.ts: the record shapes of the second variant of the app. */
module WorkoutTypes {

  datatype ExperienceLevel = Beginner | Intermediate | Advanced

  datatype GoalType = LoseWeight | MuscleGain | Maintain

  datatype UserProfile = UserProfile(age: int, weight: real, experience: ExperienceLevel, goal: GoalType)

  datatype Machine = Machine(
    id: string,
    name: string,
    part: string,
    minWeight: int,
    maxWeight: int,
    defaultSets: int,
    defaultRestTime: int)

  /** One exercise of a plan; here `restTime` is always present. */
  datatype WorkoutPlan = WorkoutPlan(
    machineId: string,
    machineName: string,
    part: string,
    weight: int,
    reps: int,
    sets: int,
    restTime: int)
}
