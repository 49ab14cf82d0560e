/**
 * my-app/components/screens/menu-proposal.tsx: the second variant's menu,
 * an edit buffer over one plan entry at a time. The edit inputs' text
 * parsing is not modelled: an input hands over the integer it holds.
 */
module MenuProposalScreen {
  import opened Wrappers
  import opened WorkoutTypes

  /** `Partial<WorkoutPlan>` restricted to the four editable fields. */
  datatype EditValues = EditValues(weight: Option<int>, reps: Option<int>, sets: Option<int>, restTime: Option<int>)

  /** `{}`: no field set. */
  const NoEdits := EditValues(None, None, None, None)

  datatype EditField = Weight | Reps | Sets | RestTime

  /** What `startEdit` loads into the buffer: the entry's four editable fields. */
  function EditsOf(entry: WorkoutPlan): EditValues {
    EditValues(Some(entry.weight), Some(entry.reps), Some(entry.sets), Some(entry.restTime))
  }

  /** An input's `onChange`: one field of the buffer takes a new value, the others stay. */
  function WithField(edits: EditValues, field: EditField, value: int): EditValues {
    match field
    case Weight => edits.(weight := Some(value))
    case Reps => edits.(reps := Some(value))
    case Sets => edits.(sets := Some(value))
    case RestTime => edits.(restTime := Some(value))
  }

  /** `{...entry, ...editValues}`: the fields present in the buffer win; id, name and part are the entry's. */
  function Merge(entry: WorkoutPlan, edits: EditValues): (r: WorkoutPlan)
    ensures r.machineId == entry.machineId && r.machineName == entry.machineName && r.part == entry.part
    ensures r.weight == edits.weight.GetOr(entry.weight) && r.reps == edits.reps.GetOr(entry.reps)
    ensures r.sets == edits.sets.GetOr(entry.sets) && r.restTime == edits.restTime.GetOr(entry.restTime)
  {
    WorkoutPlan(entry.machineId, entry.machineName, entry.part,
                edits.weight.GetOr(entry.weight), edits.reps.GetOr(entry.reps),
                edits.sets.GetOr(entry.sets), edits.restTime.GetOr(entry.restTime))
  }

  /** Merging an entry's own values gives the entry back. */
  lemma MergeOwnValues(entry: WorkoutPlan)
    ensures Merge(entry, EditsOf(entry)) == entry
  {
  }

  /** An entry edited in one field differs from it in that field only. */
  lemma MergeOneField(entry: WorkoutPlan, field: EditField, value: int)
    ensures var r := Merge(entry, WithField(EditsOf(entry), field, value));
      && r.weight == (if field == Weight then value else entry.weight)
      && r.reps == (if field == Reps then value else entry.reps)
      && r.sets == (if field == Sets then value else entry.sets)
      && r.restTime == (if field == RestTime then value else entry.restTime)
      && r.machineId == entry.machineId && r.machineName == entry.machineName && r.part == entry.part
  {
  }

  /** `saveEdit`'s array copy: only the edited index changes. */
  function SavePlan(plan: seq<WorkoutPlan>, index: nat, edits: EditValues): (r: seq<WorkoutPlan>)
    requires index < |plan|
    ensures |r| == |plan|
    ensures r[index] == Merge(plan[index], edits)
    ensures forall k :: 0 <= k < |plan| && k != index ==> r[k] == plan[k]
  {
    plan[index := Merge(plan[index], edits)]
  }

  /** Starting an edit and saving it straight away leaves the plan as it was. */
  lemma StartThenSaveIsIdentity(plan: seq<WorkoutPlan>, index: nat)
    requires index < |plan|
    ensures SavePlan(plan, index, EditsOf(plan[index])) == plan
  {
    MergeOwnValues(plan[index]);
  }

  /** Two plans that list the same machines, in the same order. */
  ghost predicate SameMachines(p: seq<WorkoutPlan>, q: seq<WorkoutPlan>) {
    |p| == |q| && forall k :: 0 <= k < |p| ==>
      p[k].machineId == q[k].machineId && p[k].machineName == q[k].machineName && p[k].part == q[k].part
  }

  class MenuProposal {
    const workoutPlan: seq<WorkoutPlan>
    var editingIndex: Option<nat>
    var editedPlan: seq<WorkoutPlan>
    var editValues: EditValues

    /**
     * The edited plan lists the proposed machines in the proposed order; the
     * index being edited is inside the plan, and with no edit open the buffer is empty.
     */
    ghost predicate Valid()
      reads this
    {
      && SameMachines(editedPlan, workoutPlan)
      && (editingIndex.Some? ==> editingIndex.value < |editedPlan|)
      && (editingIndex.None? ==> editValues == NoEdits)
    }

    constructor (plan: seq<WorkoutPlan>)
      ensures Valid()
      ensures workoutPlan == plan && editedPlan == plan && editingIndex == None && editValues == NoEdits
    {
      workoutPlan := plan;
      editedPlan := plan;
      editingIndex := None;
      editValues := NoEdits;
    }

    /** `startEdit(index)`: opens the entry's four fields for editing; the plan is untouched. */
    method StartEdit(index: nat)
      requires Valid() && index < |editedPlan|
      modifies this
      ensures Valid()
      ensures editingIndex == Some(index) && editValues == EditsOf(editedPlan[index])
      ensures editedPlan == old(editedPlan)
    {
      editingIndex := Some(index);
      editValues := EditsOf(editedPlan[index]);
    }

    /** An edit input's `onChange` (only shown while an entry is open): one buffer field changes. */
    method ChangeEditValue(field: EditField, value: int)
      requires Valid() && editingIndex.Some?
      modifies this
      ensures Valid()
      ensures editValues == WithField(old(editValues), field, value)
      ensures editingIndex == old(editingIndex) && editedPlan == old(editedPlan)
    {
      editValues := WithField(editValues, field, value);
    }

    /**
     * `saveEdit`: merges the buffer into the open entry, leaving every other
     * entry alone, and closes the edit; with no entry open it does nothing.
     */
    method SaveEdit()
      requires Valid()
      modifies this
      ensures Valid()
      ensures old(editingIndex).Some? ==>
        && editedPlan == SavePlan(old(editedPlan), old(editingIndex).value, old(editValues))
        && editingIndex == None && editValues == NoEdits
      ensures old(editingIndex).None? ==>
        editedPlan == old(editedPlan) && editingIndex == None && editValues == old(editValues)
    {
      if editingIndex.Some? {
        var updated := SavePlan(editedPlan, editingIndex.value, editValues);
        editedPlan := updated;
        editingIndex := None;
        editValues := NoEdits;
      }
    }

    /** `cancelEdit`: closes the edit and drops the buffer; the plan is untouched. */
    method CancelEdit()
      requires Valid()
      modifies this
      ensures Valid()
      ensures editingIndex == None && editValues == NoEdits && editedPlan == old(editedPlan)
    {
      editingIndex := None;
      editValues := NoEdits;
    }

    /** `handleConfirm`: hands on the edited plan as it is, one entry per proposed machine. */
    method HandleConfirm() returns (plan: seq<WorkoutPlan>)
      requires Valid()
      ensures plan == editedPlan && |plan| == |workoutPlan|
      ensures SameMachines(plan, workoutPlan)
    {
      plan := editedPlan;
    }
  }
}
