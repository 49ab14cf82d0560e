/**
 * my-app/src/components/screens/workout-session.tsx: the second variant's
 * workout screen. Six state fields are set by the handlers; the rest
 * countdown is an effect that reschedules itself every second, modelled as
 * an explicit `Tick`. Completion is reported to the parent (`onComplete`)
 * rather than recorded in a status.
 */
module SessionScreen {
  import opened Wrappers
  import opened Numeric
  import opened Text
  import opened WorkoutTypes

  /** The fixed rest before the next exercise. */
  const REST_BETWEEN_EXERCISES: int := 90

  /** `overallProgress`: exercises done plus the fraction of the current one, as a percentage. */
  function OverallProgress(index: nat, currentSet: int, sets: int, totalExercises: int): (r: real)
    requires sets != 0 && totalExercises != 0
    ensures sets > 0 && totalExercises > 0 && currentSet >= 1 ==> r >= 0.0
  {
    ((index as real + (currentSet - 1) as real / sets as real) / totalExercises as real) * 100.0
  }

  /** Scaling by a positive total keeps order (the step every progress bound needs). */
  lemma ScaleMonotone(x: real, y: real, total: real)
    requires x <= y && total > 0.0
    ensures (x / total) * 100.0 <= (y / total) * 100.0
    ensures x < y ==> (x / total) * 100.0 < (y / total) * 100.0
  {
    assert x / total <= y / total;
  }

  /** Inside the plan, the progress bar lies in [0, 100). */
  lemma OverallProgressBounds(index: nat, currentSet: int, sets: int, totalExercises: int)
    requires index < totalExercises && 1 <= currentSet <= sets
    ensures 0.0 <= OverallProgress(index, currentSet, sets, totalExercises) < 100.0
  {
    var fraction := (currentSet - 1) as real / sets as real;
    assert 0.0 <= fraction < 1.0;
    ScaleMonotone(0.0, index as real + fraction, totalExercises as real);
    ScaleMonotone(index as real + fraction, totalExercises as real, totalExercises as real);
  }

  /**
   * Each completed set that does not end the workout moves the bar strictly
   * forward: to the next set of the same exercise, or to the first set of the
   * next one.
   */
  lemma OverallProgressAdvances(index: nat, currentSet: int, sets: int, nextSets: int, totalExercises: int)
    requires index < totalExercises && 1 <= currentSet <= sets && nextSets >= 1
    ensures currentSet < sets ==>
      OverallProgress(index, currentSet, sets, totalExercises) < OverallProgress(index, currentSet + 1, sets, totalExercises)
    ensures index + 1 < totalExercises ==>
      OverallProgress(index, currentSet, sets, totalExercises) < OverallProgress(index + 1, 1, nextSets, totalExercises)
  {
    var fraction := (currentSet - 1) as real / sets as real;
    assert fraction < 1.0;
    if currentSet < sets {
      assert fraction < currentSet as real / sets as real;
      ScaleMonotone(index as real + fraction, index as real + currentSet as real / sets as real, totalExercises as real);
    }
    assert (1 - 1) as real / nextSets as real == 0.0;
    ScaleMonotone(index as real + fraction, (index + 1) as real, totalExercises as real);
  }

  /** `formatTime(ms)`: HH:MM:SS of whole seconds, hours padded to at least two digits. */
  function FormatTime(ms: nat): (r: string)
    ensures ClockShape(r)
  {
    var seconds := ms / 1000;
    var minutes := seconds / 60;
    var hours := minutes / 60;
    var h, m, s := Pad2(hours), Pad2(minutes % 60), Pad2(seconds % 60);
    assert |m| == 2 && |s| == 2;
    JoinClock(h, m, s)
  }

  /** Digits, a colon, two digits, a colon and two digits. */
  predicate ClockShape(r: string) {
    && |r| >= 8 && r[|r| - 6] == ':' && r[|r| - 3] == ':'
    && AllDigits(r[..|r| - 6]) && AllDigits(r[|r| - 5..|r| - 3]) && AllDigits(r[|r| - 2..])
  }

  /** `h:m:s` with two-digit minutes and seconds. */
  function JoinClock(h: string, m: string, s: string): (r: string)
    requires |h| >= 2 && |m| == 2 && |s| == 2 && AllDigits(h) && AllDigits(m) && AllDigits(s)
    ensures ClockShape(r)
  {
    var r := h + ":" + m + ":" + s;
    assert r[..|r| - 6] == h && r[|r| - 5..|r| - 3] == m && r[|r| - 2..] == s;
    r
  }

  predicate TwoDigitsBelow60(t: string) {
    |t| == 2 && AllDigits(t) && ParseDecimal(t) < 60
  }

  /** Hours of at least two digits, minutes and seconds of two digits below 60. */
  predicate HmsParts(parts: seq<string>) {
    |parts| == 3 && |parts[0]| >= 2 && AllDigits(parts[0])
    && TwoDigitsBelow60(parts[1]) && TwoDigitsBelow60(parts[2])
  }

  /** Reads an `HH:MM:SS` text back to seconds; the inverse of `FormatTime`. */
  function ParseHms(t: string): Option<nat> {
    HmsValue(Split(t, ':'))
  }

  function HmsValue(parts: seq<string>): Option<nat> {
    if HmsParts(parts)
    then Some(ParseDecimal(parts[0]) * 3600 + ParseDecimal(parts[1]) * 60 + ParseDecimal(parts[2]))
    else None
  }

  lemma SplitThree(h: string, m: string, s: string)
    requires AllDigits(h) && AllDigits(m) && AllDigits(s)
    ensures Split(h + ":" + m + ":" + s, ':') == [h, m, s]
  {
    assert ':' !in h by { assert forall i :: 0 <= i < |h| ==> IsDigit(h[i]); }
    assert ':' !in m by { assert forall i :: 0 <= i < |m| ==> IsDigit(m[i]); }
    assert ':' !in s by { assert forall i :: 0 <= i < |s| ==> IsDigit(s[i]); }
    SplitNone(s, ':');
    SplitFirst(m, ':', s);
    assert m + ":" + s == m + [':'] + s;
    SplitFirst(h, ':', m + ":" + s);
    assert h + ":" + m + ":" + s == h + [':'] + (m + ":" + s);
  }

  lemma HmsOfThree(h: string, m: string, s: string)
    requires |h| >= 2 && AllDigits(h) && TwoDigitsBelow60(m) && TwoDigitsBelow60(s)
    ensures HmsValue([h, m, s]) == Some(ParseDecimal(h) * 3600 + ParseDecimal(m) * 60 + ParseDecimal(s))
  {
    var parts := [h, m, s];
    assert parts[0] == h && parts[1] == m && parts[2] == s;
    assert HmsParts(parts);
  }

  lemma ParseHmsSplit(h: string, m: string, s: string)
    requires AllDigits(h) && AllDigits(m) && AllDigits(s)
    ensures ParseHms(h + ":" + m + ":" + s) == HmsValue([h, m, s])
  {
    SplitThree(h, m, s);
  }

  lemma ParseHmsOf(h: string, m: string, s: string)
    requires |h| >= 2 && AllDigits(h) && TwoDigitsBelow60(m) && TwoDigitsBelow60(s)
    ensures ParseHms(h + ":" + m + ":" + s) == Some(ParseDecimal(h) * 3600 + ParseDecimal(m) * 60 + ParseDecimal(s))
  {
    HmsOfThree(h, m, s);
    ParseHmsSplit(h, m, s);
  }

  lemma ParseHmsOfParts(hours: nat, minutes: nat, seconds: nat, total: nat)
    requires minutes < 60 && seconds < 60 && total == hours * 3600 + minutes * 60 + seconds
    ensures ParseHms(Pad2(hours) + ":" + Pad2(minutes) + ":" + Pad2(seconds)) == Some(total)
  {
    var h, m, s := Pad2(hours), Pad2(minutes), Pad2(seconds);
    assert TwoDigitsBelow60(m) && TwoDigitsBelow60(s);
    ParseHmsOf(h, m, s);
    assert ParseDecimal(h) * 3600 + ParseDecimal(m) * 60 + ParseDecimal(s) == total;
  }

  /** Whole seconds are hours, minutes below 60 and seconds below 60. */
  lemma SecondsAsHms(seconds: nat)
    ensures (seconds / 60 / 60) * 3600 + (seconds / 60 % 60) * 60 + seconds % 60 == seconds
  {
    var minutes := seconds / 60;
    assert minutes * 60 + seconds % 60 == seconds;
    assert (minutes / 60) * 60 + minutes % 60 == minutes;
    calc {
      (minutes / 60) * 3600 + (minutes % 60) * 60;
      ((minutes / 60) * 60 + minutes % 60) * 60;
      minutes * 60;
    }
  }

  /** The clock shows exactly the whole seconds elapsed: hours * 3600 + MM * 60 + SS. */
  lemma FormatTimeRoundTrip(ms: nat)
    ensures ParseHms(FormatTime(ms)) == Some(ms / 1000)
  {
    var seconds := ms / 1000;
    SecondsAsHms(seconds);
    ParseHmsOfParts(seconds / 60 / 60, seconds / 60 % 60, seconds % 60, seconds);
  }

  /** The set slots (0-based) marked done for an exercise. */
  function Marks(completedSets: map<nat, set<nat>>, k: nat): set<nat> {
    if k in completedSets then completedSets[k] else {}
  }

  class WorkoutSessionScreen {
    const workoutPlan: seq<WorkoutPlan>
    var currentExerciseIndex: nat
    var currentSet: int
    var isResting: bool
    var restTimeLeft: int
    var isPaused: bool
    /** `completedSets[i][j] = true` is recorded as j in completedSets[i]; nothing else is ever written. */
    var completedSets: map<nat, set<nat>>

    /**
     * The pointer stays inside the plan (a set count edited to 0 or less is
     * passed after one set), and marks exist only for exercises reached so
     * far, for sets already done.
     */
    ghost predicate Valid()
      reads this
    {
      && |workoutPlan| > 0
      && currentExerciseIndex < |workoutPlan|
      && 1 <= currentSet <= Max(1, workoutPlan[currentExerciseIndex].sets)
      && (forall k :: k in completedSets ==> k <= currentExerciseIndex)
      && (forall j :: j in Marks(completedSets, currentExerciseIndex) ==> j < currentSet)
    }

    constructor (plan: seq<WorkoutPlan>)
      requires |plan| > 0
      ensures Valid()
      ensures workoutPlan == plan
      ensures currentExerciseIndex == 0 && currentSet == 1 && !isResting && restTimeLeft == 0
      ensures !isPaused && completedSets == map[]
    {
      workoutPlan := plan;
      currentExerciseIndex, currentSet := 0, 1;
      isResting, restTimeLeft, isPaused := false, 0, false;
      completedSets := map[];
    }

    /**
     * `completeSet`: marks the current set done, then goes to the next set
     * (resting for the exercise's rest time), to the next exercise (resting
     * 90 seconds), or, after the last set of the last exercise, reports
     * completion (`finished`) and leaves the pointer where it is. Only the
     * rest hides the button: it works while paused.
     */
    method CompleteSet() returns (finished: bool)
      requires Valid() && !isResting
      modifies this
      ensures Valid()
      ensures completedSets ==
        old(completedSets)[old(currentExerciseIndex) := old(Marks(completedSets, currentExerciseIndex)) + {old(currentSet) - 1}]
      ensures isPaused == old(isPaused)
      ensures
        var idx, setNo := old(currentExerciseIndex), old(currentSet);
        var exercise := workoutPlan[idx];
        && finished == (setNo >= exercise.sets && idx >= |workoutPlan| - 1)
        && (setNo < exercise.sets ==>
              currentExerciseIndex == idx && currentSet == setNo + 1 && isResting && restTimeLeft == exercise.restTime)
        && (setNo >= exercise.sets && idx < |workoutPlan| - 1 ==>
              currentExerciseIndex == idx + 1 && currentSet == 1 && isResting && restTimeLeft == REST_BETWEEN_EXERCISES)
        && (finished ==>
              currentExerciseIndex == idx && currentSet == setNo && !isResting && restTimeLeft == old(restTimeLeft))
      ensures !finished && old(workoutPlan[currentExerciseIndex].sets) >= 1 && workoutPlan[currentExerciseIndex].sets >= 1 ==>
        OverallProgress(old(currentExerciseIndex), old(currentSet), old(workoutPlan[currentExerciseIndex].sets), |workoutPlan|)
        < OverallProgress(currentExerciseIndex, currentSet, workoutPlan[currentExerciseIndex].sets, |workoutPlan|)
    {
      ghost var idx, setNo, sets := currentExerciseIndex, currentSet, workoutPlan[currentExerciseIndex].sets;
      var newCompletedSets := completedSets;
      if currentExerciseIndex !in newCompletedSets {
        newCompletedSets := newCompletedSets[currentExerciseIndex := {}];
      }
      newCompletedSets := newCompletedSets[currentExerciseIndex := newCompletedSets[currentExerciseIndex] + {currentSet - 1}];
      completedSets := newCompletedSets;
      assert Marks(completedSets, currentExerciseIndex) == old(Marks(completedSets, currentExerciseIndex)) + {currentSet - 1};

      var currentExercise := workoutPlan[currentExerciseIndex];
      finished := false;
      if currentSet < currentExercise.sets {
        currentSet := currentSet + 1;
        isResting := true;
        restTimeLeft := currentExercise.restTime;
      } else {
        if currentExerciseIndex < |workoutPlan| - 1 {
          assert currentExerciseIndex + 1 !in completedSets;
          currentExerciseIndex := currentExerciseIndex + 1;
          currentSet := 1;
          isResting := true;
          restTimeLeft := REST_BETWEEN_EXERCISES;
        } else {
          finished := true;
        }
      }
      if !finished && sets >= 1 && workoutPlan[currentExerciseIndex].sets >= 1 {
        OverallProgressAdvances(idx, setNo, sets, workoutPlan[currentExerciseIndex].sets, |workoutPlan|);
      }
    }

    /**
     * The rest-countdown effect: while resting, not paused and with time
     * left, one second passes; resting with nothing left ends the rest, as a
     * step of its own after the counter reached 0. Paused, it does nothing.
     */
    method Tick()
      requires Valid()
      modifies this
      ensures Valid()
      ensures currentExerciseIndex == old(currentExerciseIndex) && currentSet == old(currentSet)
      ensures isPaused == old(isPaused) && completedSets == old(completedSets)
      ensures old(isResting && restTimeLeft > 0 && !isPaused) ==>
        restTimeLeft == old(restTimeLeft) - 1 && isResting
      ensures old(isResting && restTimeLeft == 0) ==> restTimeLeft == 0 && !isResting
      ensures !old(isResting && restTimeLeft > 0 && !isPaused) && !old(isResting && restTimeLeft == 0) ==>
        restTimeLeft == old(restTimeLeft) && isResting == old(isResting)
    {
      if isResting && restTimeLeft > 0 && !isPaused {
        restTimeLeft := restTimeLeft - 1;
      } else if isResting && restTimeLeft == 0 {
        isResting := false;
      }
    }

    /** `skipRest`: the rest ends and its counter is cleared; nothing else changes. */
    method SkipRest()
      requires Valid()
      modifies this
      ensures Valid()
      ensures !isResting && restTimeLeft == 0
      ensures currentExerciseIndex == old(currentExerciseIndex) && currentSet == old(currentSet)
      ensures isPaused == old(isPaused) && completedSets == old(completedSets)
    {
      isResting := false;
      restTimeLeft := 0;
    }

    /** `togglePause`: flips only the pause flag. */
    method TogglePause()
      requires Valid()
      modifies this
      ensures Valid()
      ensures isPaused == !old(isPaused)
      ensures currentExerciseIndex == old(currentExerciseIndex) && currentSet == old(currentSet)
      ensures isResting == old(isResting) && restTimeLeft == old(restTimeLeft) && completedSets == old(completedSets)
    {
      isPaused := !isPaused;
    }
  }
}
