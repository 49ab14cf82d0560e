/**
 * components/MenuProposal.tsx: the first variant's menu. It applies the
 * saved per-machine rest overrides to the generated plan, lets the user
 * change one machine's rest time (saving the overrides again), estimates
 * the workout's length and hands the plan to the session. The store
 * behind `loadRestTimeSettings`/`saveRestTimeSettings` is a field holding
 * the override map; its JSON encoding is not modelled.
 */
module MenuProposalComponent {
  import opened Wrappers
  import opened Numeric
  import opened MachineData

  /** The rest time an entry shows once the saved overrides are applied: `saved[id] || restTime || 90`. */
  function LoadedRestTime(entry: WorkoutPlan, saved: RestTimeSettings): (r: int)
    ensures r != 0
    ensures entry.machineId in saved && saved[entry.machineId] != 0 ==> r == saved[entry.machineId]
    ensures (entry.machineId !in saved || saved[entry.machineId] == 0) && entry.restTime.Some? && entry.restTime.value != 0 ==>
      r == entry.restTime.value
    ensures (entry.machineId !in saved || saved[entry.machineId] == 0) && (entry.restTime.None? || entry.restTime.value == 0) ==>
      r == 90
  {
    OrElse(Lookup(saved, entry.machineId), OrElse(entry.restTime, 90))
  }

  /** The loading effect's `map`: every entry keeps all its fields but the rest time. */
  function ApplySaved(plan: seq<WorkoutPlan>, saved: RestTimeSettings): (r: seq<WorkoutPlan>)
    ensures |r| == |plan|
    ensures forall i :: 0 <= i < |r| ==> r[i] == plan[i].(restTime := Some(LoadedRestTime(plan[i], saved)))
  {
    if plan == [] then []
    else [plan[0].(restTime := Some(LoadedRestTime(plan[0], saved)))] + ApplySaved(plan[1..], saved)
  }

  /** `handleRestTimeChange`'s `map`: the entries of that machine take the new rest time, the others are untouched. */
  function ChangeRestTime(plan: seq<WorkoutPlan>, machineId: string, restTime: int): (r: seq<WorkoutPlan>)
    ensures |r| == |plan|
    ensures forall i :: 0 <= i < |r| ==>
      r[i] == if plan[i].machineId == machineId then plan[i].(restTime := Some(restTime)) else plan[i]
  {
    if plan == [] then []
    else
      [if plan[0].machineId == machineId then plan[0].(restTime := Some(restTime)) else plan[0]]
      + ChangeRestTime(plan[1..], machineId, restTime)
  }

  /** Applying the overrides twice is applying them once: every loaded rest time is already non-zero. */
  lemma ApplySavedIdempotent(plan: seq<WorkoutPlan>, saved: RestTimeSettings)
    ensures ApplySaved(ApplySaved(plan, saved), saved) == ApplySaved(plan, saved)
  {
    var once := ApplySaved(plan, saved);
    var twice := ApplySaved(once, saved);
    forall i | 0 <= i < |plan|
      ensures twice[i] == once[i]
    {
      assert LoadedRestTime(once[i], saved) == LoadedRestTime(plan[i], saved);
    }
  }

  /**
   * Changing a machine's rest time to a non-zero value gives the same plan
   * as loading the original plan again with the updated overrides: what the
   * menu shows after an edit is what it will show when it is reopened.
   */
  lemma ChangeAgreesWithReload(plan: seq<WorkoutPlan>, saved: RestTimeSettings, machineId: string, restTime: int)
    requires restTime != 0
    ensures ChangeRestTime(ApplySaved(plan, saved), machineId, restTime) == ApplySaved(plan, saved[machineId := restTime])
  {
    var changed := ChangeRestTime(ApplySaved(plan, saved), machineId, restTime);
    var reloaded := ApplySaved(plan, saved[machineId := restTime]);
    forall i | 0 <= i < |plan|
      ensures changed[i] == reloaded[i]
    {
      if plan[i].machineId != machineId {
        assert LoadedRestTime(plan[i], saved[machineId := restTime]) == LoadedRestTime(plan[i], saved);
      }
    }
  }

  /** Σ sets depends on the set counts alone. */
  lemma {:induction false} TotalSetsSameSets(p: seq<WorkoutPlan>, q: seq<WorkoutPlan>)
    requires |p| == |q| && forall i :: 0 <= i < |p| ==> p[i].sets == q[i].sets
    ensures TotalSets(p) == TotalSets(q)
  {
    if p != [] {
      TotalSetsSameSets(p[..|p| - 1], q[..|q| - 1]);
    }
  }

  /** The displayed set total is not changed by loading overrides or by editing a rest time. */
  lemma TotalSetsUnchangedByRestEdits(plan: seq<WorkoutPlan>, saved: RestTimeSettings, machineId: string, restTime: int)
    ensures TotalSets(ApplySaved(plan, saved)) == TotalSets(plan)
    ensures TotalSets(ChangeRestTime(plan, machineId, restTime)) == TotalSets(plan)
  {
    TotalSetsSameSets(ApplySaved(plan, saved), plan);
    TotalSetsSameSets(ChangeRestTime(plan, machineId, restTime), plan);
  }

  /** One entry's minutes: 30 seconds per set, and its rest (90 when none) between consecutive sets. */
  function EntryMinutes(entry: WorkoutPlan): real {
    entry.sets as real * 0.5 + (entry.sets - 1) as real * OrElse(entry.restTime, 90) as real / 60.0
  }

  /** The `reduce` of `calculateEstimatedTime`, summed from the left. */
  function ExecutionMinutes(plan: seq<WorkoutPlan>): real {
    if plan == [] then 0.0 else ExecutionMinutes(plan[..|plan| - 1]) + EntryMinutes(plan[|plan| - 1])
  }

  /** `calculateEstimatedTime`: execution plus one minute between consecutive exercises, rounded. */
  function EstimatedTime(plan: seq<WorkoutPlan>): (r: int)
    ensures plan == [] ==> r == 0
  {
    RoundOfInt(0);
    Round(ExecutionMinutes(plan) + Max(0, |plan| - 1) as real)
  }

  /** Longer entries never make a shorter total. */
  lemma {:induction false} ExecutionMinutesMonotone(p: seq<WorkoutPlan>, q: seq<WorkoutPlan>)
    requires |p| == |q| && forall i :: 0 <= i < |p| ==> EntryMinutes(p[i]) <= EntryMinutes(q[i])
    ensures ExecutionMinutes(p) <= ExecutionMinutes(q)
  {
    if p != [] {
      ExecutionMinutesMonotone(p[..|p| - 1], q[..|q| - 1]);
    }
  }

  /** With at least one set per entry and no negative rest, the execution time is not negative. */
  lemma {:induction false} ExecutionMinutesNonNegative(plan: seq<WorkoutPlan>)
    requires forall i :: 0 <= i < |plan| ==> plan[i].sets >= 1 && OrElse(plan[i].restTime, 90) >= 0
    ensures ExecutionMinutes(plan) >= 0.0
  {
    if plan != [] {
      ExecutionMinutesNonNegative(plan[..|plan| - 1]);
      var e := plan[|plan| - 1];
      assert (e.sets - 1) as real * OrElse(e.restTime, 90) as real >= 0.0;
    }
  }

  /** Such a plan is estimated at no less than its transitions: one minute between consecutive exercises. */
  lemma EstimateCoversTransitions(plan: seq<WorkoutPlan>)
    requires forall i :: 0 <= i < |plan| ==> plan[i].sets >= 1 && OrElse(plan[i].restTime, 90) >= 0
    ensures EstimatedTime(plan) >= Max(0, |plan| - 1)
  {
    ExecutionMinutesNonNegative(plan);
    RoundMonotone(Max(0, |plan| - 1) as real, ExecutionMinutes(plan) + Max(0, |plan| - 1) as real);
    RoundOfInt(Max(0, |plan| - 1));
  }

  /** Lengthening a machine's rest (on entries with at least one set) never shortens the estimate. */
  lemma LongerRestLongerEstimate(plan: seq<WorkoutPlan>, machineId: string, restTime: int)
    requires restTime != 0
    requires forall i :: 0 <= i < |plan| && plan[i].machineId == machineId ==>
      plan[i].sets >= 1 && OrElse(plan[i].restTime, 90) <= restTime
    ensures EstimatedTime(plan) <= EstimatedTime(ChangeRestTime(plan, machineId, restTime))
  {
    var changed := ChangeRestTime(plan, machineId, restTime);
    forall i | 0 <= i < |plan|
      ensures EntryMinutes(plan[i]) <= EntryMinutes(changed[i])
    {
      if plan[i].machineId == machineId {
        var e := plan[i];
        assert OrElse(changed[i].restTime, 90) == restTime;
        assert (e.sets - 1) as real * OrElse(e.restTime, 90) as real <= (e.sets - 1) as real * restTime as real;
      }
    }
    ExecutionMinutesMonotone(plan, changed);
    RoundMonotone(ExecutionMinutes(plan) + Max(0, |plan| - 1) as real, ExecutionMinutes(changed) + Max(0, |changed| - 1) as real);
  }

  /** Two plans that differ only in rest times. */
  ghost predicate SameExceptRest(p: seq<WorkoutPlan>, q: seq<WorkoutPlan>) {
    |p| == |q| && forall i :: 0 <= i < |p| ==> p[i].(restTime := None) == q[i].(restTime := None)
  }

  class MenuProposal {
    const workoutPlan: seq<WorkoutPlan>
    var customRestTimes: RestTimeSettings
    var updatedPlan: seq<WorkoutPlan>
    /** The override map kept under the store's rest-time key. */
    var storedRestTimes: RestTimeSettings

    /** The shown plan is the generated plan with rest times changed, nothing else. */
    ghost predicate Valid()
      reads this
    {
      SameExceptRest(updatedPlan, workoutPlan)
    }

    /** The shown plan is the generated plan with the current overrides applied, and those are what is stored. */
    ghost predicate Consistent()
      reads this
    {
      updatedPlan == ApplySaved(workoutPlan, customRestTimes) && storedRestTimes == customRestTimes
    }

    /** The first render, before the loading effect has run. */
    constructor (plan: seq<WorkoutPlan>, stored: RestTimeSettings)
      ensures Valid()
      ensures workoutPlan == plan && updatedPlan == plan && customRestTimes == map[] && storedRestTimes == stored
    {
      workoutPlan := plan;
      updatedPlan := plan;
      customRestTimes := map[];
      storedRestTimes := stored;
    }

    /** The loading effect: reads the stored overrides and applies them to every entry. */
    method LoadSaved()
      requires Valid()
      modifies this
      ensures Valid() && Consistent()
      ensures customRestTimes == old(storedRestTimes) && storedRestTimes == old(storedRestTimes)
      ensures updatedPlan == ApplySaved(workoutPlan, storedRestTimes)
    {
      customRestTimes := storedRestTimes;
      updatedPlan := ApplySaved(workoutPlan, storedRestTimes);
    }

    /**
     * `handleRestTimeChange`: sets the machine's override, saves the whole
     * override map, and changes the rest time of that machine's entries only.
     */
    method HandleRestTimeChange(machineId: string, restTime: int)
      requires Valid()
      modifies this
      ensures Valid()
      ensures customRestTimes == old(customRestTimes)[machineId := restTime]
      ensures storedRestTimes == customRestTimes
      ensures updatedPlan == ChangeRestTime(old(updatedPlan), machineId, restTime)
      ensures old(Consistent()) && restTime != 0 ==> Consistent()
    {
      if Consistent() && restTime != 0 {
        ChangeAgreesWithReload(workoutPlan, customRestTimes, machineId, restTime);
      }
      var newRestTimes := customRestTimes[machineId := restTime];
      customRestTimes := newRestTimes;
      storedRestTimes := newRestTimes;
      updatedPlan := ChangeRestTime(updatedPlan, machineId, restTime);
    }

    /** `handleStartWorkout`: hands on the shown plan, which differs from the generated one in rest times only. */
    method HandleStartWorkout() returns (plan: seq<WorkoutPlan>)
      requires Valid()
      ensures plan == updatedPlan
      ensures SameExceptRest(plan, workoutPlan)
      ensures forall k :: 0 <= k < |plan| ==> plan[k].sets == workoutPlan[k].sets
    {
      plan := updatedPlan;
      forall k | 0 <= k < |plan|
        ensures plan[k].sets == workoutPlan[k].sets
      {
        assert plan[k].(restTime := None).sets == plan[k].sets;
        assert workoutPlan[k].(restTime := None).sets == workoutPlan[k].sets;
      }
    }
  }
}
