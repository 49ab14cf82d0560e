/**
 * components/RestTimeSelector.tsx: the dialog that picks one machine's rest
 * time. The dialog's open flag and the picked time are the component's
 * state; applying reports the picked time to the menu.
 */
module RestTimeSelector {
  import opened Wrappers
  import opened Numeric
  import opened MachineData

  datatype TimeCategory = Short | Standard | Long

  /** `getTimeCategory`: up to 45 seconds is short, up to 90 standard, anything longer long. */
  function GetTimeCategory(seconds: int): (c: TimeCategory)
    ensures c == Short <==> seconds <= 45
    ensures c == Standard <==> 45 < seconds <= 90
    ensures c == Long <==> 90 < seconds
  {
    if seconds <= 45 then Short
    else if seconds <= 90 then Standard
    else Long
  }

  function CategoryRank(c: TimeCategory): nat {
    match c
    case Short => 0
    case Standard => 1
    case Long => 2
  }

  /** A longer rest never falls in a shorter category. */
  lemma TimeCategoryMonotone(a: int, b: int)
    requires a <= b
    ensures CategoryRank(GetTimeCategory(a)) <= CategoryRank(GetTimeCategory(b))
  {
  }

  /** Of the nine presets the first two are short, the next three standard, the last four long. */
  lemma PresetCategories()
    ensures forall i :: 0 <= i < |REST_TIME_PRESETS| ==>
      GetTimeCategory(REST_TIME_PRESETS[i]) == if i < 2 then Short else if i < 5 then Standard else Long
  {
  }

  /** `defaultTime`: the machine's default rest (`|| 90` for an unknown machine). */
  function DefaultTime(machineId: string): (r: int)
    ensures machineId in MACHINES ==> r == MACHINES[machineId].defaultRestTime
    ensures machineId !in MACHINES ==> r == 90
    ensures r >= 60
  {
    MachinesValid();
    OrElse(if machineId in MACHINES then Some(MACHINES[machineId].defaultRestTime) else None, 90)
  }

  /** `recommendedTime`: the recommendation for the user's goal, `'maintain'` when none is given. */
  function RecommendedTime(machineId: string, goal: Option<string>): (r: int)
    ensures r >= 30
  {
    RecommendedRestAtLeast30(machineId, goal.GetOr("maintain"));
    GetRecommendedRestTime(machineId, goal.GetOr("maintain"))
  }

  /**
   * Without a goal, "recommended" and "reset" pick the same time, for a
   * catalog machine (its default) and for an unknown one (90).
   */
  lemma DefaultGoalRecommendsDefault(machineId: string)
    ensures RecommendedTime(machineId, None) == DefaultTime(machineId)
  {
  }

  /** Losing weight is recommended a rest no longer, and gaining muscle one no shorter, than the default. */
  lemma RecommendationAroundDefault(machineId: string)
    ensures RecommendedTime(machineId, Some("lose_weight")) <= DefaultTime(machineId)
    ensures RecommendedTime(machineId, Some("muscle_gain")) >= DefaultTime(machineId)
  {
    MachinesValid();
  }

  class RestTimeSelectorDialog {
    const machineId: string
    const currentRestTime: int
    const goal: Option<string>
    var open: bool
    var selectedTime: int

    /** Every time the dialog can pick is non-zero, so applying it never falls back in the menu. */
    ghost predicate Valid()
      reads this
    {
      selectedTime != 0
    }

    /** The menu passes `restTime || 90`, never 0. */
    constructor (machine: string, restTime: int, userGoal: Option<string>)
      requires restTime != 0
      ensures Valid()
      ensures machineId == machine && currentRestTime == restTime && goal == userGoal
      ensures !open && selectedTime == restTime
    {
      machineId := machine;
      currentRestTime := restTime;
      goal := userGoal;
      open := false;
      selectedTime := restTime;
    }

    /** `onOpenChange` (the trigger opens, the overlay and the cancel button close); the picked time is kept. */
    method SetOpen(value: bool)
      requires Valid()
      modifies this
      ensures Valid()
      ensures open == value && selectedTime == old(selectedTime)
    {
      open := value;
    }

    /** `handleReset`: picks the machine's default. */
    method HandleReset()
      requires Valid() && open
      modifies this
      ensures Valid()
      ensures selectedTime == DefaultTime(machineId) && open
    {
      selectedTime := DefaultTime(machineId);
    }

    /** `handleRecommended`: picks the recommendation for the goal. */
    method HandleRecommended()
      requires Valid() && open
      modifies this
      ensures Valid()
      ensures selectedTime == RecommendedTime(machineId, goal) && open
    {
      selectedTime := RecommendedTime(machineId, goal);
    }

    /** A preset button: picks that preset's value. */
    method SelectPreset(i: nat)
      requires Valid() && open && i < |REST_TIME_PRESETS|
      modifies this
      ensures Valid()
      ensures selectedTime == REST_TIME_PRESETS[i] && open
    {
      selectedTime := REST_TIME_PRESETS[i];
    }

    /** `handleApply`: reports the machine and the picked time unchanged, and closes the dialog. */
    method HandleApply() returns (changedMachine: string, restTime: int)
      requires Valid() && open
      modifies this
      ensures Valid()
      ensures changedMachine == machineId && restTime == selectedTime && restTime != 0
      ensures !open && selectedTime == old(selectedTime)
    {
      changedMachine, restTime := machineId, selectedTime;
      open := false;
    }
  }
}
