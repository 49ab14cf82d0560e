/**
 * frontend/src/app/page.tsx: `Home`, the second variant's screen flow.
 * One `handleBack` serves every screen through a `switch` on the current
 * screen; each other handler is only handed to the screen that calls it.
 */
module HomePage {
  import opened Wrappers
  import opened Screens
  import opened WorkoutTypes
  import WorkoutCalculator

  class Home {
    var currentScreen: Screen
    var selectedMachines: seq<Machine>
    var userProfile: Option<UserProfile>
    var workoutPlan: seq<WorkoutPlan>

    /** From the profile screen on there is a selection, and from the menu on the plan is not empty. */
    ghost predicate Valid()
      reads this
    {
      && (Rank(currentScreen) >= 2 ==> |selectedMachines| > 0)
      && (Rank(currentScreen) >= 3 ==> |workoutPlan| > 0)
    }

    ghost predicate Initial()
      reads this
    {
      currentScreen == Top && selectedMachines == [] && userProfile == None && workoutPlan == []
    }

    constructor ()
      ensures Valid() && Initial()
    {
      currentScreen := Top;
      selectedMachines := [];
      userProfile := None;
      workoutPlan := [];
    }

    /** `handleStart`: from the top screen to machine selection. */
    method HandleStart()
      requires Valid() && currentScreen == Top
      modifies this
      ensures Valid()
      ensures currentScreen == MachineSelection
      ensures selectedMachines == old(selectedMachines) && userProfile == old(userProfile) && workoutPlan == old(workoutPlan)
    {
      currentScreen := MachineSelection;
    }

    /** `handleMachineSelect`: keeps the (non-empty) selected machines and asks for the profile. */
    method HandleMachineSelect(machines: seq<Machine>)
      requires Valid() && currentScreen == MachineSelection && |machines| > 0
      modifies this
      ensures Valid()
      ensures currentScreen == ProfileInput && selectedMachines == machines
      ensures userProfile == old(userProfile) && workoutPlan == old(workoutPlan)
    {
      selectedMachines := machines;
      currentScreen := ProfileInput;
    }

    /** `handleProfileSubmit`: keeps the profile, computes the plan and shows the menu. */
    method HandleProfileSubmit(profile: UserProfile)
      requires Valid() && currentScreen == ProfileInput
      modifies this
      ensures Valid()
      ensures currentScreen == MenuProposal && userProfile == Some(profile)
      ensures workoutPlan == WorkoutCalculator.CalculateWorkoutPlan(profile, selectedMachines)
      ensures |workoutPlan| == |selectedMachines|
      ensures selectedMachines == old(selectedMachines)
    {
      userProfile := Some(profile);
      workoutPlan := WorkoutCalculator.CalculateWorkoutPlan(profile, selectedMachines);
      currentScreen := MenuProposal;
    }

    /** `handleMenuConfirm`: takes the confirmed plan (the menu keeps its length) and opens the session. */
    method HandleMenuConfirm(plan: seq<WorkoutPlan>)
      requires Valid() && currentScreen == MenuProposal && |plan| == |workoutPlan|
      modifies this
      ensures Valid()
      ensures currentScreen == Screen.WorkoutSession && workoutPlan == plan
      ensures selectedMachines == old(selectedMachines) && userProfile == old(userProfile)
    {
      workoutPlan := plan;
      currentScreen := Screen.WorkoutSession;
    }

    /** `handleWorkoutComplete`: back to the initial state. */
    method HandleWorkoutComplete()
      requires Valid()
      modifies this
      ensures Valid() && Initial()
    {
      currentScreen := Top;
      selectedMachines := [];
      userProfile := None;
      workoutPlan := [];
    }

    /** `handleBack`: one screen back in the flow (nothing on the top screen); only the screen changes. */
    method HandleBack()
      requires Valid()
      modifies this
      ensures Valid()
      ensures currentScreen == Previous(old(currentScreen))
      ensures selectedMachines == old(selectedMachines) && userProfile == old(userProfile) && workoutPlan == old(workoutPlan)
    {
      match currentScreen
      case MachineSelection =>
        currentScreen := Top;
      case ProfileInput =>
        currentScreen := MachineSelection;
      case MenuProposal =>
        currentScreen := ProfileInput;
      case WorkoutSession =>
        currentScreen := MenuProposal;
      case Top =>
    }
  }
}
