/**
 * App.tsx: `AppContent`, the first variant's screen flow. Four state fields
 * are set by the handlers; each handler is only handed to the screen that
 * calls it, which is what the `requires` on the screen say. The saved rest
 * overrides that `handleProfileSubmitted` loads from storage are a parameter.
 */
module App {
  import opened Wrappers
  import opened Screens
  import opened MachineData

  /** A plan the session screen can run: at least one exercise, every exercise at least one set. */
  ghost predicate Runnable(plan: seq<WorkoutPlan>) {
    |plan| > 0 && forall k :: 0 <= k < |plan| ==> plan[k].sets >= 1
  }

  /** A generated plan has one entry per id and the goal's set count (2 or 3) in every entry. */
  lemma GeneratedPlanRunnable(selected: seq<string>, profile: UserProfile, customRestTimes: RestTimeSettings)
    requires forall id <- selected :: id in MACHINES
    requires |selected| > 0
    ensures Runnable(GenerateWorkoutPlan(selected, profile, customRestTimes))
  {
    var plan := GenerateWorkoutPlan(selected, profile, customRestTimes);
    forall k | 0 <= k < |plan|
      ensures plan[k].sets >= 1
    {
      assert plan[k] == PlanEntry(selected[k], profile, customRestTimes);
    }
  }

  class AppContent {
    var currentScreen: Screen
    var selectedMachines: seq<string>
    var userProfile: Option<UserProfile>
    var workoutPlan: seq<WorkoutPlan>

    /**
     * Selected ids are catalog keys; from the profile screen on there is a
     * selection, and from the menu on the plan is one the session can run.
     */
    ghost predicate Valid()
      reads this
    {
      && (forall id <- selectedMachines :: id in MACHINES)
      && (Rank(currentScreen) >= 2 ==> |selectedMachines| > 0)
      && (Rank(currentScreen) >= 3 ==> Runnable(workoutPlan))
    }

    /** The state the app starts in, and the one `handleWorkoutComplete` and `handleRestart` return to. */
    ghost predicate Initial()
      reads this
    {
      currentScreen == Top && selectedMachines == [] && userProfile == None && workoutPlan == []
    }

    constructor ()
      ensures Valid() && Initial()
    {
      currentScreen := Top;
      selectedMachines := [];
      userProfile := None;
      workoutPlan := [];
    }

    /** `handleStart`: from the top screen to machine selection. */
    method HandleStart()
      requires Valid() && currentScreen == Top
      modifies this
      ensures Valid()
      ensures currentScreen == MachineSelection
      ensures selectedMachines == old(selectedMachines) && userProfile == old(userProfile) && workoutPlan == old(workoutPlan)
    {
      currentScreen := MachineSelection;
    }

    /** `handleMachinesSelected`: keeps the (non-empty, catalog-only) selection and asks for the profile. */
    method HandleMachinesSelected(machines: seq<string>)
      requires Valid() && currentScreen == MachineSelection
      requires |machines| > 0 && forall id <- machines :: id in MACHINES
      modifies this
      ensures Valid()
      ensures currentScreen == ProfileInput && selectedMachines == machines
      ensures userProfile == old(userProfile) && workoutPlan == old(workoutPlan)
    {
      selectedMachines := machines;
      currentScreen := ProfileInput;
    }

    /**
     * `handleProfileSubmitted`: keeps the profile, generates the plan from
     * the selection and the saved overrides, and shows the menu.
     */
    method HandleProfileSubmitted(profile: UserProfile, customRestTimes: RestTimeSettings)
      requires Valid() && currentScreen == ProfileInput
      modifies this
      ensures Valid()
      ensures currentScreen == MenuProposal && userProfile == Some(profile)
      ensures workoutPlan == GenerateWorkoutPlan(selectedMachines, profile, customRestTimes)
      ensures |workoutPlan| == |selectedMachines|
      ensures selectedMachines == old(selectedMachines)
    {
      userProfile := Some(profile);
      GeneratedPlanRunnable(selectedMachines, profile, customRestTimes);
      workoutPlan := GenerateWorkoutPlan(selectedMachines, profile, customRestTimes);
      currentScreen := MenuProposal;
    }

    /** `handleBackToTop`: only the screen changes (declared in App.tsx but handed to no screen). */
    method HandleBackToTop()
      requires Valid()
      modifies this
      ensures Valid()
      ensures currentScreen == Top
      ensures selectedMachines == old(selectedMachines) && userProfile == old(userProfile) && workoutPlan == old(workoutPlan)
    {
      currentScreen := Top;
    }

    /** `handleBackToMachineSelection`, the profile screen's back button: one screen back, nothing else changes. */
    method HandleBackToMachineSelection()
      requires Valid() && currentScreen == ProfileInput
      modifies this
      ensures Valid()
      ensures currentScreen == MachineSelection && Rank(currentScreen) + 1 == Rank(old(currentScreen))
      ensures selectedMachines == old(selectedMachines) && userProfile == old(userProfile) && workoutPlan == old(workoutPlan)
    {
      currentScreen := MachineSelection;
    }

    /** `handleBackToProfileInput`, the menu's back button: one screen back, nothing else changes. */
    method HandleBackToProfileInput()
      requires Valid() && currentScreen == MenuProposal
      modifies this
      ensures Valid()
      ensures currentScreen == ProfileInput && Rank(currentScreen) + 1 == Rank(old(currentScreen))
      ensures selectedMachines == old(selectedMachines) && userProfile == old(userProfile) && workoutPlan == old(workoutPlan)
    {
      currentScreen := ProfileInput;
    }

    /** `handleBackToMenuProposal`, the session's back button: one screen back, nothing else changes. */
    method HandleBackToMenuProposal()
      requires Valid() && currentScreen == Screen.WorkoutSession
      modifies this
      ensures Valid()
      ensures currentScreen == MenuProposal && Rank(currentScreen) + 1 == Rank(old(currentScreen))
      ensures selectedMachines == old(selectedMachines) && userProfile == old(userProfile) && workoutPlan == old(workoutPlan)
    {
      currentScreen := MenuProposal;
    }

    /**
     * `handleStartWorkout`: takes the menu's plan when one is given (the menu
     * only changes rest times, so every entry keeps its set count) and
     * always opens the session.
     */
    method HandleStartWorkout(updatedPlan: Option<seq<WorkoutPlan>>)
      requires Valid() && currentScreen == MenuProposal
      requires updatedPlan.Some? ==>
        |updatedPlan.value| == |workoutPlan| && forall k :: 0 <= k < |workoutPlan| ==> updatedPlan.value[k].sets == workoutPlan[k].sets
      modifies this
      ensures Valid()
      ensures currentScreen == Screen.WorkoutSession
      ensures workoutPlan == (if updatedPlan.Some? then updatedPlan.value else old(workoutPlan))
      ensures selectedMachines == old(selectedMachines) && userProfile == old(userProfile)
    {
      if updatedPlan.Some? {
        workoutPlan := updatedPlan.value;
      }
      currentScreen := Screen.WorkoutSession;
    }

    /** `handleWorkoutComplete`: back to the initial state. */
    method HandleWorkoutComplete()
      requires Valid()
      modifies this
      ensures Valid() && Initial()
    {
      currentScreen := Top;
      selectedMachines := [];
      userProfile := None;
      workoutPlan := [];
    }

    /** `handleRestart` (also the back button of machine selection): the same reset as `handleWorkoutComplete`. */
    method HandleRestart()
      requires Valid()
      modifies this
      ensures Valid() && Initial()
    {
      currentScreen := Top;
      selectedMachines := [];
      userProfile := None;
      workoutPlan := [];
    }
  }
}
