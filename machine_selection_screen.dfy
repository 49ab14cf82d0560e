/**
 * my-app/components/screens/machine-selection.tsx: the second variant's
 * selection screen. It keeps ids, and hands on the catalog machines whose
 * id is ticked, in catalog order.
 */
module MachineSelectionScreen {
  import opened Wrappers
  import opened Toggle
  import opened WorkoutTypes

  /** `machines.filter(m => selectedMachineIds.includes(m.id))`. */
  function SelectedFromCatalog(machines: seq<Machine>, ids: seq<string>): (r: seq<Machine>)
    ensures |r| <= |machines|
    ensures forall m :: m in r <==> m in machines && m.id in ids
  {
    if machines == [] then []
    else (if machines[0].id in ids then [machines[0]] else []) + SelectedFromCatalog(machines[1..], ids)
  }

  /**
   * Only which ids are ticked matters, not the order they were ticked in:
   * the result follows the catalog.
   */
  lemma {:induction false} SelectionOrderIrrelevant(machines: seq<Machine>, a: seq<string>, b: seq<string>)
    requires forall x :: x in a <==> x in b
    ensures SelectedFromCatalog(machines, a) == SelectedFromCatalog(machines, b)
  {
    if machines != [] {
      SelectionOrderIrrelevant(machines[1..], a, b);
    }
  }

  /**
   * The filter works piece by piece along the catalog: machines earlier in
   * the catalog come earlier in the result.
   */
  lemma {:induction false} SelectionAppend(front: seq<Machine>, back: seq<Machine>, ids: seq<string>)
    ensures SelectedFromCatalog(front + back, ids) == SelectedFromCatalog(front, ids) + SelectedFromCatalog(back, ids)
  {
    if front != [] {
      assert (front + back)[1..] == front[1..] + back;
      SelectionAppend(front[1..], back, ids);
    } else {
      assert front + back == back;
    }
  }

  /** Ticking every catalog machine hands on the whole catalog, in its own order. */
  lemma {:induction false} SelectAll(machines: seq<Machine>, ids: seq<string>)
    requires forall m <- machines :: m.id in ids
    ensures SelectedFromCatalog(machines, ids) == machines
  {
    if machines != [] {
      SelectAll(machines[1..], ids);
      assert machines == [machines[0]] + machines[1..];
    }
  }

  class MachineSelection {
    const machines: seq<Machine>
    var selectedMachineIds: seq<string>

    ghost predicate Valid()
      reads this
    {
      Distinct(selectedMachineIds)
    }

    constructor (catalog: seq<Machine>)
      ensures Valid() && machines == catalog && selectedMachineIds == []
    {
      machines := catalog;
      selectedMachineIds := [];
    }

    /** `toggleMachine`: flips membership of one id, every other id keeps its membership. */
    method ToggleMachine(machineId: string)
      requires Valid()
      modifies this
      ensures Valid()
      ensures selectedMachineIds == Toggled(old(selectedMachineIds), machineId)
    {
      ToggleDistinct(selectedMachineIds, machineId);
      selectedMachineIds := Toggled(selectedMachineIds, machineId);
    }

    /**
     * `handleNext`: the ticked catalog machines, handed on only when there is
     * at least one (an id ticked but missing from the catalog hands on nothing).
     */
    method HandleNext() returns (next: Option<seq<Machine>>)
      ensures next.Some? <==> exists m :: m in machines && m.id in selectedMachineIds
      ensures next.Some? ==> next.value == SelectedFromCatalog(machines, selectedMachineIds)
    {
      var selected := SelectedFromCatalog(machines, selectedMachineIds);
      if |selected| > 0 {
        assert selected[0] in selected;
        next := Some(selected);
      } else {
        next := None;
      }
    }
  }
}
