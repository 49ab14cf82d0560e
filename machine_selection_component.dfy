/**
 * components/MachineSelection.tsx: the first variant's selection screen.
 * The checkboxes are drawn from the catalog, so every toggled id is a
 * catalog key; the list keeps the order in which machines were ticked.
 */
module MachineSelectionComponent {
  import opened Wrappers
  import opened Toggle
  import MachineData

  class MachineSelection {
    var selectedMachines: seq<string>

    /** Duplicate-free, and only catalog ids: what `generateWorkoutPlan` later needs. */
    ghost predicate Valid()
      reads this
    {
      Distinct(selectedMachines) && forall id <- selectedMachines :: id in MachineData.MACHINES
    }

    constructor ()
      ensures Valid() && selectedMachines == []
    {
      selectedMachines := [];
    }

    /** `handleMachineToggle`: flips membership of one catalog id, every other id keeps its membership. */
    method HandleMachineToggle(machineId: string)
      requires Valid() && machineId in MachineData.MACHINES
      modifies this
      ensures Valid()
      ensures selectedMachines == Toggled(old(selectedMachines), machineId)
    {
      ToggleDistinct(selectedMachines, machineId);
      selectedMachines := Toggled(selectedMachines, machineId);
    }

    /** `handleNext`: hands the list on exactly when it is non-empty. */
    method HandleNext() returns (next: Option<seq<string>>)
      ensures next.Some? <==> |selectedMachines| > 0
      ensures next.Some? ==> next.value == selectedMachines
    {
      if |selectedMachines| > 0 {
        next := Some(selectedMachines);
      } else {
        next := None;
      }
    }
  }
}
