/**
 * components/WorkoutSession.tsx: the first variant's workout screen. The
 * session record is replaced by each handler; the rest countdown is a
 * separate counter that a one-second interval decrements, modelled here as
 * an explicit `Tick`.
 */
module SessionComponent {
  import opened Wrappers
  import opened Numeric
  import opened MachineData

  /** The set numbers 1, 2, ..., n in order. */
  function SetRun(n: nat): (r: seq<int>)
    ensures |r| == n
    ensures forall i :: 0 <= i < n ==> r[i] == i + 1
  {
    if n == 0 then [] else SetRun(n - 1) + [n]
  }

  /** Σ |recorded list| over exercise indices below n, reading a missing entry as empty. */
  function SumRecorded(completedSets: map<nat, seq<int>>, n: nat): nat {
    if n == 0 then 0 else SumRecorded(completedSets, n - 1) + |Recorded(completedSets, n - 1)|
  }

  lemma {:induction false} SumRecordedAgree(a: map<nat, seq<int>>, b: map<nat, seq<int>>, n: nat)
    requires forall k :: 0 <= k < n ==> Recorded(a, k) == Recorded(b, k)
    ensures SumRecorded(a, n) == SumRecorded(b, n)
  {
    if n > 0 {
      SumRecordedAgree(a, b, n - 1);
    }
  }

  /** When every key is below n, the sum over the map's values is the sum over the indices below n. */
  lemma {:induction false} SumLengthsByIndex(completedSets: map<nat, seq<int>>, n: nat)
    requires forall k :: k in completedSets ==> k < n
    ensures SumLengths(completedSets) == SumRecorded(completedSets, n)
  {
    if n == 0 {
      assert completedSets.Keys == {};
    } else if n - 1 in completedSets {
      SumLengthsRemove(completedSets, n - 1);
      var rest := completedSets - {n - 1};
      SumLengthsByIndex(rest, n - 1);
      SumRecordedAgree(rest, completedSets, n - 1);
    } else {
      SumLengthsByIndex(completedSets, n - 1);
    }
  }

  /** The pointer is inside the plan, every exercise has at least one set, completion only on the last exercise. */
  ghost predicate Shaped(s: WorkoutSession) {
    && |s.workoutPlan| > 0
    && (forall k :: 0 <= k < |s.workoutPlan| ==> s.workoutPlan[k].sets >= 1)
    && s.currentExerciseIndex < |s.workoutPlan|
    && 1 <= s.currentSet <= s.workoutPlan[s.currentExerciseIndex].sets
    && (s.status == Completed ==> !s.isResting && s.currentExerciseIndex == |s.workoutPlan| - 1)
  }

  /**
   * The record holds exactly the sets behind the pointer, each once and in
   * order: all sets of earlier exercises, sets 1 .. currentSet-1 of the
   * current one (all of them once completed), nothing for later ones.
   */
  ghost predicate RecordedExactly(s: WorkoutSession)
    requires Shaped(s)
  {
    var plan, cs, idx := s.workoutPlan, s.completedSets, s.currentExerciseIndex;
    && (forall k :: k in cs ==> k < |plan|)
    && (forall k :: 0 <= k < idx ==> Recorded(cs, k) == SetRun(plan[k].sets))
    && (forall k :: idx < k < |plan| ==> Recorded(cs, k) == [])
    && Recorded(cs, idx) == (if s.status == Completed then SetRun(plan[idx].sets) else SetRun(s.currentSet - 1))
  }

  /** The sets done so far, counted from the pointer. */
  function DoneSets(s: WorkoutSession): int
    requires Shaped(s)
  {
    var idx := s.currentExerciseIndex;
    TotalSets(s.workoutPlan[..idx])
      + (if s.status == Completed then s.workoutPlan[idx].sets else s.currentSet - 1)
  }

  lemma {:induction false} SumRecordedPrefix(s: WorkoutSession, n: nat)
    requires Shaped(s) && RecordedExactly(s)
    requires n <= |s.workoutPlan|
    ensures SumRecorded(s.completedSets, n) ==
      if n <= s.currentExerciseIndex then TotalSets(s.workoutPlan[..n]) else DoneSets(s)
  {
    if n > 0 {
      SumRecordedPrefix(s, n - 1);
      assert s.workoutPlan[..n][..n - 1] == s.workoutPlan[..n - 1];
    }
  }

  lemma {:induction false} TotalSetsPrefix(plan: seq<WorkoutPlan>, n: nat)
    requires n <= |plan|
    requires forall k :: 0 <= k < |plan| ==> plan[k].sets >= 0
    ensures TotalSets(plan[..n]) <= TotalSets(plan)
    decreases |plan| - n
  {
    if n < |plan| {
      TotalSetsPrefix(plan, n + 1);
      assert plan[..n + 1][..n] == plan[..n];
    } else {
      assert plan[..n] == plan;
    }
  }

  /**
   * Under the session invariant, the progress count equals the sets behind
   * the pointer: never more than the plan's total, and all of them once the
   * workout is completed.
   */
  lemma RecordedCount(s: WorkoutSession)
    requires Shaped(s) && RecordedExactly(s)
    ensures SumLengths(s.completedSets) == DoneSets(s)
    ensures DoneSets(s) <= TotalSets(s.workoutPlan)
    ensures s.status == Completed ==> DoneSets(s) == TotalSets(s.workoutPlan)
  {
    var plan, idx := s.workoutPlan, s.currentExerciseIndex;
    SumLengthsByIndex(s.completedSets, |plan|);
    SumRecordedPrefix(s, |plan|);
    TotalSetsPrefix(plan, idx + 1);
    assert plan[..idx + 1][..idx] == plan[..idx];
    if s.status == Completed {
      assert plan[..idx + 1] == plan;
    }
  }

  /**
   * Recording the current set and moving the pointer as `completeSet` does
   * keeps the invariant and adds exactly one to the progress count.
   */
  lemma RecordStep(prev: WorkoutSession, next: WorkoutSession)
    requires Shaped(prev) && RecordedExactly(prev)
    requires prev.status == Active && !prev.isResting
    requires next.workoutPlan == prev.workoutPlan
    requires
      var idx, setNo := prev.currentExerciseIndex, prev.currentSet;
      var lastSet, lastExercise := setNo >= prev.workoutPlan[idx].sets, idx >= |prev.workoutPlan| - 1;
      && next.completedSets == prev.completedSets[idx := Recorded(prev.completedSets, idx) + [setNo]]
      && (!lastSet ==> next.currentExerciseIndex == idx && next.currentSet == setNo + 1 && next.status == Active)
      && (lastSet && !lastExercise ==> next.currentExerciseIndex == idx + 1 && next.currentSet == 1 && next.status == Active)
      && (lastSet && lastExercise ==>
            next.currentExerciseIndex == idx && next.currentSet == setNo && next.status == Completed && !next.isResting)
    ensures Shaped(next) && RecordedExactly(next)
    ensures SumLengths(next.completedSets) == SumLengths(prev.completedSets) + 1
    ensures SumLengths(next.completedSets) <= TotalSets(next.workoutPlan)
    ensures next.status == Completed ==> SumLengths(next.completedSets) == TotalSets(next.workoutPlan)
  {
    var plan, cs, cs' := prev.workoutPlan, prev.completedSets, next.completedSets;
    var idx, setNo := prev.currentExerciseIndex, prev.currentSet;
    assert Recorded(cs', idx) == SetRun(setNo) by {
      assert SetRun(setNo - 1) + [setNo] == SetRun(setNo);
    }
    assert Shaped(next);
    forall k | 0 <= k < next.currentExerciseIndex
      ensures Recorded(cs', k) == SetRun(plan[k].sets)
    {
      if k != idx {
        assert Recorded(cs', k) == Recorded(cs, k);
      }
    }
    forall k | next.currentExerciseIndex < k < |plan|
      ensures Recorded(cs', k) == []
    {
      assert k != idx && idx < k;
      assert Recorded(cs', k) == Recorded(cs, k);
    }
    if next.currentExerciseIndex != idx {
      assert Recorded(cs', idx + 1) == Recorded(cs, idx + 1) == [];
    }
    assert RecordedExactly(next);
    SumLengthsUpdate(cs, idx, Recorded(cs, idx) + [setNo]);
    RecordedCount(next);
  }

  class WorkoutSessionView {
    var session: WorkoutSession
    /** The `restTimer` state: seconds left in the current rest. */
    var restTimer: int

    ghost predicate Valid()
      reads this
    {
      Shaped(session) && RecordedExactly(session)
    }

    /** `getWorkoutProgress(session)` as the screen shows it. */
    function Progress(): WorkoutProgress
      reads this
    {
      GetWorkoutProgress(session)
    }

    /** The screen mounts with `createWorkoutSession(workoutPlan)` and a zero rest counter. */
    constructor (workoutPlan: seq<WorkoutPlan>)
      requires |workoutPlan| > 0
      requires forall k :: 0 <= k < |workoutPlan| ==> workoutPlan[k].sets >= 1
      ensures Valid()
      ensures session == CreateWorkoutSession(workoutPlan) && restTimer == 0
    {
      session := CreateWorkoutSession(workoutPlan);
      restTimer := 0;
    }

    /**
     * `completeSet`: records the current set, then moves to the next set
     * (resting for the exercise's own rest time, 90 when it has none), to the
     * next exercise (resting 120 seconds), or ends the workout.
     */
    method CompleteSet()
      requires Valid() && !session.isResting && session.status == Active
      modifies this
      ensures Valid()
      ensures session.workoutPlan == old(session.workoutPlan)
      ensures session.completedSets ==
        old(session.completedSets)[old(session.currentExerciseIndex) :=
          old(Recorded(session.completedSets, session.currentExerciseIndex)) + [old(session.currentSet)]]
      ensures
        var idx, setNo := old(session.currentExerciseIndex), old(session.currentSet);
        var exercise := session.workoutPlan[idx];
        var lastSet, lastExercise := setNo >= exercise.sets, idx >= |session.workoutPlan| - 1;
        && (lastSet && lastExercise ==>
              && session.status == Completed && !session.isResting
              && session.currentExerciseIndex == idx && session.currentSet == setNo
              && session.restDuration == old(session.restDuration) && restTimer == old(restTimer))
        && (lastSet && !lastExercise ==>
              && session.status == Active && session.isResting
              && session.currentExerciseIndex == idx + 1 && session.currentSet == 1
              && session.restDuration == BETWEEN_EXERCISES && restTimer == BETWEEN_EXERCISES)
        && (!lastSet ==>
              && session.status == Active && session.isResting
              && session.currentExerciseIndex == idx && session.currentSet == setNo + 1
              && session.restDuration == OrElse(exercise.restTime, BETWEEN_SETS) && restTimer == session.restDuration)
      ensures Progress().totalSets == old(Progress().totalSets)
      ensures Progress().completedSets == old(Progress().completedSets) + 1
      ensures Progress().progressPercentage >= old(Progress().progressPercentage)
      ensures session.status == Completed ==> Progress().progressPercentage == 100
    {
      var prev := session;
      assert Shaped(prev) && RecordedExactly(prev);
      var completedSets := prev.completedSets;
      var exerciseIndex := prev.currentExerciseIndex;
      if exerciseIndex !in completedSets {
        completedSets := completedSets[exerciseIndex := []];
      }
      completedSets := completedSets[exerciseIndex := completedSets[exerciseIndex] + [prev.currentSet]];
      assert completedSets == prev.completedSets[exerciseIndex := Recorded(prev.completedSets, exerciseIndex) + [prev.currentSet]];

      var currentExercise := prev.workoutPlan[exerciseIndex];
      var isLastSetOfExercise := prev.currentSet >= currentExercise.sets;
      var isLastExercise := prev.currentExerciseIndex >= |prev.workoutPlan| - 1;

      if isLastSetOfExercise && isLastExercise {
        session := prev.(completedSets := completedSets, status := Completed);
      } else if isLastSetOfExercise {
        var restTime := BETWEEN_EXERCISES;
        restTimer := restTime;
        session := prev.(completedSets := completedSets, currentExerciseIndex := exerciseIndex + 1,
                         currentSet := 1, isResting := true, restDuration := restTime);
      } else {
        var restTime := OrElse(currentExercise.restTime, BETWEEN_SETS);
        restTimer := restTime;
        session := prev.(completedSets := completedSets, currentSet := prev.currentSet + 1,
                         isResting := true, restDuration := restTime);
      }

      RecordStep(prev, session);
      PercentageMonotone(SumLengths(prev.completedSets), SumLengths(session.completedSets), TotalSets(prev.workoutPlan));
      if session.status == Completed {
        PercentageBounds(SumLengths(session.completedSets), TotalSets(session.workoutPlan));
      }
    }

    /**
     * One second of the rest interval. The interval runs only while resting
     * and active; a counter of 1 or less drops to 0 and ends the rest on the
     * same tick, a larger one counts down by 1.
     */
    method Tick()
      requires Valid()
      modifies this
      ensures Valid()
      ensures old(session.isResting && session.status == Active) && old(restTimer) <= 1 ==>
        restTimer == 0 && session == old(session).(isResting := false)
      ensures old(session.isResting && session.status == Active) && old(restTimer) > 1 ==>
        restTimer == old(restTimer) - 1 && session == old(session)
      ensures !old(session.isResting && session.status == Active) ==>
        restTimer == old(restTimer) && session == old(session)
    {
      if session.isResting && session.status == Active {
        if restTimer <= 1 {
          session := session.(isResting := false);
          restTimer := 0;
        } else {
          restTimer := restTimer - 1;
        }
      }
    }

    /** `skipRest`: the rest ends now and its counter is cleared; nothing else changes. */
    method SkipRest()
      requires Valid()
      modifies this
      ensures Valid()
      ensures session == old(session).(isResting := false) && restTimer == 0
    {
      session := session.(isResting := false);
      restTimer := 0;
    }

    /**
     * `togglePause`: active and paused swap; nothing else changes. Once the
     * workout is completed the screen shows no pause button.
     */
    method TogglePause()
      requires Valid() && session.status != Completed
      modifies this
      ensures Valid()
      ensures session == old(session).(status := if old(session.status) == Active then Paused else Active)
      ensures restTimer == old(restTimer)
    {
      session := session.(status := if session.status == Active then Paused else Active);
    }
  }
}
