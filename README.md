# smartgym-plan in Dafny

A model of the logic of smartgym-plan, a gym workout planner. The user picks
machines, enters a profile (body weight, experience, goal) and gets a menu of
exercises (weight, reps, sets, rest). They can adjust the menu and then run
the session set by set, with rest countdowns in between. The repository holds
two parallel implementations, and they are modelled separately:

- **First variant** (`App.tsx`, `components/`, `utils/`):
  - the machine catalog and plan generator of `utils/machineData.ts`;
  - the screen flow of `AppContent`;
  - machine selection, the menu with its saved rest-time overrides, and the
    rest-time dialog;
  - the session screen, whose progress comes from `getWorkoutProgress`;
  - the colour themes' persistence in `utils/themes.ts`.
- **Second variant** (`my-app/`, `frontend/`):
  - the catalog and `calculateWorkoutPlan`;
  - the page's screen flow, with its `handleBack`;
  - machine selection over a catalog list;
  - the menu's edit buffer;
  - the session screen with its progress bar and `HH:MM:SS` clock.

The models take two shapes:

- Pure code (plan generation, formatting, progress arithmetic, list toggling,
  estimates) becomes datatypes, functions and lemmas.
- Each React component becomes a class. Its state hooks are fields, and each
  handler is a method with `modifies this`, which states the whole new state
  and keeps the component's invariant `Valid()`.
  - A handler is only handed to the screen that calls it. In the flow
    classes, the method's `requires` names that screen.

The modules, one per source file plus shared helpers:

- Shared helpers:
  - `Wrappers` holds `Option`.
  - `Numeric` holds `Math.round`, clamping and JavaScript's `||` on numbers.
  - `Text` holds decimal strings, `padStart`, `split`, and reading digits back for the round trips.
  - `Toggle` holds the list toggle both selection screens share.
  - `Screens` holds the screen union both flows declare.
- First variant:
  - `MachineData` (`utils/machineData.ts`)
  - `App` (`App.tsx`)
  - `MachineSelectionComponent`
  - `MenuProposalComponent`
  - `RestTimeSelector`
  - `SessionComponent`
  - `Themes`
- Second variant:
  - `WorkoutTypes` (`my-app/lib/types.ts`)
  - `MachineCatalog` (`my-app/lib/machine-data.ts`)
  - `WorkoutCalculator`
  - `HomePage` (`frontend/src/app/page.tsx`)
  - `MachineSelectionScreen`
  - `MenuProposalScreen`
  - `SessionScreen`

The code rejects none of the following, and the model does not reject them either:

- `generateWorkoutPlan` and `calculateWorkoutPlan` raise no error for an
  empty selection (the result is an empty plan) or for a non-positive body
  weight. An unknown machine id is not reported either: the code reads a
  field of `undefined`. The model therefore requires catalog ids.
- `getRecommendedRestTime` returns 90 for an unknown machine instead of failing.
- Completing a set while paused, and acting after completion, are not
  rejected by the session logic. The screen hides or disables those controls,
  and the methods' `requires` say so.

## Model

| member | source | states |
|---|---|---|
| Numeric.Round | utils/machineData.ts:151 | `Math.round`: the result is within one half of x, halves go up |
| Numeric.Clamp | utils/machineData.ts:149-152 | the result is x, lo or hi; it lies in [lo, hi] when lo <= hi, and equals x when x already does |
| Numeric.OrElse | utils/machineData.ts:155 | `v \|\| fallback`: a present non-zero v wins, anything else gives the fallback |
| Numeric.Lookup | utils/machineData.ts:147 | an object lookup is present exactly for the keys of the map, with the key's value |
| Numeric.RoundMonotone | utils/machineData.ts:204 | rounding never reverses the order of two numbers |
| Numeric.RoundOfInt | utils/machineData.ts:204 | rounding an integer gives it back |
| Text.Decimal | utils/machineData.ts:192 | `n.toString()` is a non-empty digit string: one digit below 10, at most two below 100 |
| Text.ParseDecimalOfDecimal | utils/machineData.ts:192 | reading back the digits `toString` wrote gives the number |
| Text.PadStart | utils/machineData.ts:192 | `padStart` leaves a string at least `width` long unchanged, and otherwise fills it in front up to exactly `width` |
| Text.Pad2 | my-app/src/components/screens/workout-session.tsx:88 | a number padded to two digits is all digits, at least two of them (exactly two below 100), and reads back as the number; the seconds of `m:ss` (utils/machineData.ts:192) are padded the same way |
| MachineData.MachinesValid | utils/machineData.ts:45-95 | every catalog entry is filed under its own id, has a non-empty weight range, 3 sets and a positive default rest |
| MachineData.PlanEntry | utils/machineData.ts:146-166 | one entry: the machine's id, name and part; the base weight rounded and clamped into the machine's range; the goal's reps and sets; the override rest when present and non-zero, else the machine's default |
| MachineData.GenerateWorkoutPlan | utils/machineData.ts:109-167 | one entry per selected id, in selection order, each built as above |
| MachineData.GetRecommendedRestTime | utils/machineData.ts:220-237 | an unknown machine gets 90; a known one gets its default, less 15 but at least 30 to lose weight, plus 15 to gain muscle, unchanged otherwise |
| MachineData.RecommendedRestAtLeast30 | utils/machineData.ts:220-237 | over this catalog every recommendation is at least 30 seconds |
| MachineData.CreateWorkoutSession | utils/machineData.ts:175-187 | a new session is active, not resting, at set 1 of exercise 0, with nothing recorded and the given plan |
| MachineData.FormatTime | utils/machineData.ts:189 | the text is all-digit minutes, a colon, and exactly two digits of seconds |
| MachineData.FormatTimeRoundTrip | utils/machineData.ts:189-193 | `m:ss` reads back as exactly the number of seconds formatted |
| MachineData.MinKey | utils/machineData.ts:201-203 | the key visited first by `Object.values` is in the set and no larger than any other key |
| MachineData.SumLengthsRemove | utils/machineData.ts:201-203 | the sum of recorded lengths does not depend on the order the keys are visited in |
| MachineData.SumLengthsUpdate | utils/machineData.ts:201-203 | replacing one recorded list changes the sum by the difference in length |
| MachineData.Percentage | utils/machineData.ts:204 | a plan without sets shows 0 percent (its bounds and monotonicity are the two lemmas below) |
| MachineData.PercentageBounds | utils/machineData.ts:204 | for at most the total, the percentage lies in [0, 100] and is 100 when all sets are done |
| MachineData.PercentageMonotone | utils/machineData.ts:204 | more completed sets never show a smaller percentage |
| MachineData.TotalSetsAtLeast | utils/machineData.ts:200 | the total of the plan's sets is never negative when no entry is, and is at least the number of entries when each has a set |
| MachineData.GetWorkoutProgress | utils/machineData.ts:195-207 | the total is the sum of sets, the count the sum of recorded lengths, and the percentage is the rounded share (0 for no sets) |
| MachineData.NewSessionProgress | utils/machineData.ts:195-207 | a new session shows 0 completed sets, 0 percent, and the plan's total |
| App.GeneratedPlanRunnable | App.tsx:27-34 | a plan generated from a non-empty catalog selection is non-empty, with at least one set in every entry |
| App.AppContent.constructor | App.tsx:13-16 | the app starts on the top screen with nothing selected, no profile and no plan |
| App.AppContent.HandleStart | App.tsx:18-20 | top screen to machine selection; nothing else changes |
| App.AppContent.HandleMachinesSelected | App.tsx:22-25 | keeps the selection and shows the profile screen |
| App.AppContent.HandleProfileSubmitted | App.tsx:27-34 | keeps the profile, sets the plan generated from the selection and the saved overrides, shows the menu; the plan is runnable |
| App.AppContent.HandleBackToTop | App.tsx:36-38 | only the screen changes, to the top |
| App.AppContent.HandleBackToMachineSelection | App.tsx:40-42 | one screen back, nothing else changes |
| App.AppContent.HandleBackToProfileInput | App.tsx:44-46 | one screen back, nothing else changes |
| App.AppContent.HandleBackToMenuProposal | App.tsx:48-50 | one screen back, nothing else changes |
| App.AppContent.HandleStartWorkout | App.tsx:52-58 | takes the given plan when there is one, keeps the old plan otherwise, and opens the session |
| App.AppContent.HandleWorkoutComplete | App.tsx:60-65 | back to the initial state |
| App.AppContent.HandleRestart | App.tsx:67-72 | back to the initial state |
| Screens.Rank | App.tsx:10 | each screen has a position 0..4 in the flow |
| Screens.Previous | frontend/src/app/page.tsx:48-63 | going back from any screen but the top lands exactly one position earlier; the top stays |
| Screens.PreviousReachesTop | frontend/src/app/page.tsx:48-63 | four steps back from any screen reach the top screen |
| Toggle.Without | components/MachineSelection.tsx:19 | the filter keeps exactly the other values, and never lengthens the list |
| Toggle.Toggled | components/MachineSelection.tsx:16-22 | the toggled id's membership flips, every other id keeps its membership, and an absent id is appended at the end |
| Toggle.DistinctCons | components/MachineSelection.tsx:16-22 | a list with a value in front is duplicate-free iff the value is new and the rest is duplicate-free |
| Toggle.WithoutDistinct | components/MachineSelection.tsx:19 | filtering keeps a duplicate-free list duplicate-free |
| Toggle.WithoutAbsent | components/MachineSelection.tsx:19 | filtering out an absent value changes nothing |
| Toggle.WithoutAppended | components/MachineSelection.tsx:16-22 | removing the value just appended gives back the list before it |
| Toggle.ToggleDistinct | components/MachineSelection.tsx:16-22 | toggling keeps the selection duplicate-free |
| Toggle.ToggleTwice | components/MachineSelection.tsx:16-22 | toggling an unselected id twice restores the exact list |
| MachineSelectionComponent.MachineSelection.constructor | components/MachineSelection.tsx:14 | nothing is selected at first |
| MachineSelectionComponent.MachineSelection.HandleMachineToggle | components/MachineSelection.tsx:16-22 | the selection becomes the toggled list and stays duplicate-free, with catalog ids only |
| MachineSelectionComponent.MachineSelection.HandleNext | components/MachineSelection.tsx:24-28 | the selection is handed on, unchanged, exactly when it is non-empty |
| MachineSelectionScreen.SelectedFromCatalog | my-app/components/screens/machine-selection.tsx:28 | the result holds exactly the catalog machines whose id is ticked |
| MachineSelectionScreen.SelectionOrderIrrelevant | my-app/components/screens/machine-selection.tsx:27-32 | the order in which ids were ticked does not change what is handed on |
| MachineSelectionScreen.SelectionAppend | my-app/components/screens/machine-selection.tsx:28 | the result follows catalog order: the filter of a concatenation is the concatenation of the filters |
| MachineSelectionScreen.SelectAll | my-app/components/screens/machine-selection.tsx:28 | ticking every machine hands on the whole catalog in its order |
| MachineSelectionScreen.MachineSelection.constructor | my-app/components/screens/machine-selection.tsx:17 | nothing is ticked at first |
| MachineSelectionScreen.MachineSelection.ToggleMachine | my-app/components/screens/machine-selection.tsx:19-25 | the ticked ids become the toggled list and stay duplicate-free |
| MachineSelectionScreen.MachineSelection.HandleNext | my-app/components/screens/machine-selection.tsx:27-32 | the ticked catalog machines are handed on exactly when at least one catalog machine is ticked |
| MenuProposalComponent.LoadedRestTime | components/MenuProposal.tsx:29 | `saved[id] \|\| restTime \|\| 90`: never 0, with each of the three cases |
| MenuProposalComponent.ApplySaved | components/MenuProposal.tsx:27-30 | every entry keeps all its fields except the rest time, which becomes the loaded one |
| MenuProposalComponent.ChangeRestTime | components/MenuProposal.tsx:42-46 | entries of that machine take the new rest time; all others are untouched |
| MenuProposalComponent.ApplySavedIdempotent | components/MenuProposal.tsx:27-30 | loading the overrides twice is loading them once |
| MenuProposalComponent.ChangeAgreesWithReload | components/MenuProposal.tsx:36-48 | a non-zero edit gives the plan that reloading with the updated overrides gives |
| MenuProposalComponent.TotalSetsSameSets | components/MenuProposal.tsx:147 | the displayed set total depends on the set counts alone |
| MenuProposalComponent.TotalSetsUnchangedByRestEdits | components/MenuProposal.tsx:147 | loading overrides or editing a rest time never changes the set total |
| MenuProposalComponent.EstimatedTime | components/MenuProposal.tsx:51-64 | an empty plan is estimated at 0 minutes |
| MenuProposalComponent.ExecutionMinutesMonotone | components/MenuProposal.tsx:52-58 | longer entries never give a shorter total |
| MenuProposalComponent.ExecutionMinutesNonNegative | components/MenuProposal.tsx:52-58 | with at least one set per entry and no negative rest, execution time is not negative |
| MenuProposalComponent.EstimateCoversTransitions | components/MenuProposal.tsx:51-64 | such a plan is estimated at no less than one minute per transition |
| MenuProposalComponent.LongerRestLongerEstimate | components/MenuProposal.tsx:51-64 | lengthening a machine's rest never shortens the estimate |
| MenuProposalComponent.MenuProposal.constructor | components/MenuProposal.tsx:18-19 | the first render shows the generated plan with no overrides |
| MenuProposalComponent.MenuProposal.LoadSaved | components/MenuProposal.tsx:22-33 | the stored overrides become the state and are applied to every entry |
| MenuProposalComponent.MenuProposal.HandleRestTimeChange | components/MenuProposal.tsx:36-48 | sets and saves the override, changes that machine's entries only, and keeps the plan consistent with the saved overrides |
| MenuProposalComponent.MenuProposal.HandleStartWorkout | components/MenuProposal.tsx:68-70 | hands on the shown plan, which differs from the generated one in rest times only |
| RestTimeSelector.GetTimeCategory | components/RestTimeSelector.tsx:44-48 | short iff at most 45 seconds, standard iff in (45, 90], long iff over 90 |
| RestTimeSelector.TimeCategoryMonotone | components/RestTimeSelector.tsx:44-48 | a longer rest never falls in a shorter category |
| RestTimeSelector.DefaultTime | components/RestTimeSelector.tsx:28 | the machine's default, 90 for an unknown machine, and never below 60 |
| RestTimeSelector.RecommendedTime | components/RestTimeSelector.tsx:29 | the recommendation for the goal is at least 30 seconds |
| RestTimeSelector.DefaultGoalRecommendsDefault | components/RestTimeSelector.tsx:20-29 | without a goal, the recommended time and the reset time coincide |
| RestTimeSelector.RecommendationAroundDefault | utils/machineData.ts:226-232 | to lose weight the recommendation is no longer than the default; to gain muscle no shorter |
| RestTimeSelector.RestTimeSelectorDialog.constructor | components/RestTimeSelector.tsx:24-25 | the dialog starts closed, with the current rest time picked |
| RestTimeSelector.RestTimeSelectorDialog.SetOpen | components/RestTimeSelector.tsx:53 | opening or closing keeps the picked time |
| RestTimeSelector.RestTimeSelectorDialog.HandleReset | components/RestTimeSelector.tsx:36-38 | picks the machine's default |
| RestTimeSelector.RestTimeSelectorDialog.HandleRecommended | components/RestTimeSelector.tsx:40-42 | picks the goal's recommendation |
| RestTimeSelector.RestTimeSelectorDialog.SelectPreset | components/RestTimeSelector.tsx:172 | picks that preset's value |
| RestTimeSelector.RestTimeSelectorDialog.HandleApply | components/RestTimeSelector.tsx:31-34 | reports the machine and the picked, non-zero time, and closes |
| SessionComponent.SetRun | components/WorkoutSession.tsx:93 | the sets recorded for a finished exercise are 1, 2, ..., n in order |
| SessionComponent.SumRecordedAgree | utils/machineData.ts:201-203 | the recorded count depends only on the lists recorded below the index |
| SessionComponent.SumLengthsByIndex | utils/machineData.ts:201-203 | with every key below n, the sum over the map's values is the sum over indices below n |
| SessionComponent.SumRecordedPrefix | components/WorkoutSession.tsx:84-133 | under the session invariant, the finished exercises hold all their sets |
| SessionComponent.TotalSetsPrefix | utils/machineData.ts:200 | the sets of a plan's prefix never exceed the plan's total |
| SessionComponent.RecordedCount | components/WorkoutSession.tsx:81 | the progress count equals the sets behind the pointer, never exceeds the total, and equals it once completed |
| SessionComponent.RecordStep | components/WorkoutSession.tsx:84-133 | one completed set keeps the invariant and adds exactly one to the count |
| SessionComponent.WorkoutSessionView.constructor | components/WorkoutSession.tsx:33-36 | the screen starts on a fresh session with the rest counter at 0 |
| SessionComponent.WorkoutSessionView.CompleteSet | components/WorkoutSession.tsx:84-133 | records the set, then goes to the next set (rest `restTime \|\| 90`), the next exercise (rest 120) or completion; the count rises by one, the total stays, the percentage never drops and is 100 at completion |
| SessionComponent.WorkoutSessionView.Tick | components/WorkoutSession.tsx:40-63 | while resting and active, a counter of 1 or less ends the rest at 0, and a larger counter counts down; otherwise nothing changes |
| SessionComponent.WorkoutSessionView.SkipRest | components/WorkoutSession.tsx:136-143 | the rest ends and its counter is 0; nothing else changes |
| SessionComponent.WorkoutSessionView.TogglePause | components/WorkoutSession.tsx:146-151 | active and paused swap; nothing else changes |
| SessionScreen.ScaleMonotone | my-app/src/components/screens/workout-session.tsx:29 | scaling to a percentage keeps order, and strict order |
| SessionScreen.OverallProgress | my-app/src/components/screens/workout-session.tsx:29 | the bar is never negative from set 1 on; its bounds and its advance are the two lemmas below |
| SessionScreen.OverallProgressBounds | my-app/src/components/screens/workout-session.tsx:29 | inside the plan, the progress bar lies in [0, 100) |
| SessionScreen.OverallProgressAdvances | my-app/src/components/screens/workout-session.tsx:29 | each completed set that does not end the workout moves the bar strictly forward |
| SessionScreen.FormatTime | my-app/src/components/screens/workout-session.tsx:84-89 | the text is all-digit hours, a colon, two digits of minutes, a colon and two digits of seconds |
| SessionScreen.FormatTimeRoundTrip | my-app/src/components/screens/workout-session.tsx:84-89 | the `HH:MM:SS` text reads back as exactly the whole seconds elapsed |
| SessionScreen.WorkoutSessionScreen.constructor | my-app/src/components/screens/workout-session.tsx:18-23 | the screen starts at set 1 of exercise 0, not resting, not paused, with nothing marked |
| SessionScreen.WorkoutSessionScreen.CompleteSet | my-app/src/components/screens/workout-session.tsx:51-73 | marks the set slot, then goes to the next set (rest: the exercise's rest time), the next exercise (rest 90) or reports completion; unless it completes, the progress bar moves strictly forward |
| SessionScreen.WorkoutSessionScreen.Tick | my-app/src/components/screens/workout-session.tsx:40-49 | resting, unpaused with time left counts down by one; resting with nothing left ends the rest; otherwise nothing changes |
| SessionScreen.WorkoutSessionScreen.SkipRest | my-app/src/components/screens/workout-session.tsx:75-78 | the rest ends and its counter is 0; nothing else changes |
| SessionScreen.WorkoutSessionScreen.TogglePause | my-app/src/components/screens/workout-session.tsx:80-82 | only the pause flag flips |
| MachineCatalog.CatalogIdsDistinct | my-app/lib/machine-data.ts:3-57 | no two catalog machines share an id |
| MachineCatalog.CatalogEntriesValid | my-app/lib/machine-data.ts:3-57 | every machine has minWeight <= maxWeight, both multiples of 5, 3 sets and a positive rest |
| WorkoutCalculator.GetWeightMultiplier | my-app/lib/workout-calculator.ts:29-40 | the weight is a fraction of body weight strictly between 0 and 1: below one half for a beginner, above it when advanced, one half in between |
| WorkoutCalculator.GetGoalParameters | my-app/lib/workout-calculator.ts:42-53 | 8 to 12 reps; two sets to maintain and three otherwise; fewest reps (8) for muscle gain and most (12) to lose weight |
| WorkoutCalculator.GetRestTime | my-app/lib/workout-calculator.ts:55-66 | 30 to 90 seconds of rest: under 60 exactly to lose weight, over 60 exactly for muscle gain |
| WorkoutCalculator.RoundToFive | my-app/lib/workout-calculator.ts:13 | the nearest multiple of 5, within 2.5 of the base weight |
| WorkoutCalculator.CalculateWorkoutPlan | my-app/lib/workout-calculator.ts:3-27 | one entry per machine, in order, with its id, name and part, the weight clamped into its range, and the goal's reps, sets and rest |
| WorkoutCalculator.CatalogPlanOnGrid | my-app/lib/workout-calculator.ts:11-26 | over catalog machines, every weight is a multiple of 5 inside the machine's range, and every entry rests the goal's time |
| HomePage.Home.constructor | frontend/src/app/page.tsx:15-18 | the page starts on the top screen with nothing selected, no profile and no plan |
| HomePage.Home.HandleStart | frontend/src/app/page.tsx:20-22 | top screen to machine selection; nothing else changes |
| HomePage.Home.HandleMachineSelect | frontend/src/app/page.tsx:24-27 | keeps the selected machines and shows the profile screen |
| HomePage.Home.HandleProfileSubmit | frontend/src/app/page.tsx:29-34 | keeps the profile, sets the calculated plan (one entry per machine) and shows the menu |
| HomePage.Home.HandleMenuConfirm | frontend/src/app/page.tsx:36-39 | takes the confirmed plan and opens the session |
| HomePage.Home.HandleWorkoutComplete | frontend/src/app/page.tsx:41-46 | back to the initial state |
| HomePage.Home.HandleBack | frontend/src/app/page.tsx:48-63 | one screen back in the flow (nothing on the top screen); only the screen changes |
| MenuProposalScreen.Merge | my-app/components/screens/menu-proposal.tsx:35-38 | fields present in the buffer win; id, name and part stay the entry's |
| MenuProposalScreen.MergeOwnValues | my-app/components/screens/menu-proposal.tsx:22-43 | merging an entry's own values gives the entry back |
| MenuProposalScreen.MergeOneField | my-app/components/screens/menu-proposal.tsx:111-141 | an entry edited in one field differs from it in that field only |
| MenuProposalScreen.SavePlan | my-app/components/screens/menu-proposal.tsx:34-39 | the edited index holds the old entry merged with the edits; every other index and the length are kept |
| MenuProposalScreen.StartThenSaveIsIdentity | my-app/components/screens/menu-proposal.tsx:22-43 | starting an edit and saving it at once leaves the plan as it was |
| MenuProposalScreen.MenuProposal.constructor | my-app/components/screens/menu-proposal.tsx:18-20 | no edit is open and the plan is the proposed one |
| MenuProposalScreen.MenuProposal.StartEdit | my-app/components/screens/menu-proposal.tsx:22-30 | opens the entry's four fields for editing; the plan is untouched |
| MenuProposalScreen.MenuProposal.ChangeEditValue | my-app/components/screens/menu-proposal.tsx:111 | one buffer field takes the new value |
| MenuProposalScreen.MenuProposal.SaveEdit | my-app/components/screens/menu-proposal.tsx:32-43 | merges the buffer into the open entry, touches no other entry and closes the edit; with none open it does nothing |
| MenuProposalScreen.MenuProposal.CancelEdit | my-app/components/screens/menu-proposal.tsx:45-48 | closes the edit and drops the buffer; the plan is untouched |
| MenuProposalScreen.MenuProposal.HandleConfirm | my-app/components/screens/menu-proposal.tsx:50-52 | hands on the edited plan, which lists the proposed machines in order |
| Themes.BoolString | utils/themes.ts:935 | `isDark.toString()` is "true" exactly when isDark |
| Themes.PropertiesOverStyle | utils/themes.ts:870-931 | every CSS variable takes its palette field's value; every other property, and its absence, is kept |
| Themes.Saved | utils/themes.ts:934-935 | the two keys hold the theme id and the dark flag; every other key is kept |
| Themes.GetStoredTheme | utils/themes.ts:938-945 | a missing or empty theme gives 'warm-orange', any other stored string is returned unchecked; dark only for exactly "true" |
| Themes.StoredAfterSave | utils/themes.ts:934-945 | what `applyTheme` saves, `getStoredTheme` reads back |
| Themes.StoredIdUnchecked | utils/themes.ts:939-943 | a stored id that names no theme comes back as the theme id |
| Themes.Browser.constructor | utils/themes.ts:140 | the theme table is keyed by theme ids and every palette has every field |
| Themes.Browser.ApplyTheme | utils/themes.ts:862-936 | an unknown id changes nothing; a known one writes the dark or light palette's properties over the style, saves id and flag, and `getStoredTheme` then returns (id, isDark) |

## Left out

- Timers and clocks:
  - The intervals and timeouts are the `Tick` methods, one call per second.
  - `Date.now()`, the elapsed-time counters and `startTime`/`restStartTime` are not modelled.
- `Math.random` ids: the session id is not modelled.
- Storage serialisation:
  - `localStorage` holding JSON for rest overrides is a map parameter (`customRestTimes`, `storedRestTimes`).
  - In `Themes`, storage is a string map.
- Rendering, styling, icons and the text of the labels.
- The colour strings of the six palettes are not modelled: a palette is an arbitrary map.
- `components/ThemeSelector.tsx`, `components/CustomThemeEditor.tsx` and `utils/ThemeContext.tsx`: these are presentation, wrappers around `applyTheme`/`getStoredTheme`, and calls to theme helpers that `utils/themes.ts` does not define.
- `components/ProfileInput.tsx`, `my-app/components/screens/profile-input.tsx`, `components/TopScreen.tsx`, `my-app/components/screens/top-screen.tsx`, `frontend/src/app/not-found.tsx` and `frontend/next.config.ts`: these are forms and static pages. The profile is a parameter of the handlers.
- MenuProposalScreen.MenuProposal.ChangeEditValue: the inputs' `parseInt` is not modelled. An input hands over an integer, so a `NaN` from an empty field is not represented.
- Floating point is exact rational arithmetic (`real`), so IEEE rounding of `0.3 * weight` or of the estimate is not modelled.
- Themes.Browser.ApplyTheme: the 55 `setProperty` calls are one map update. Each variable is set once, so their order is not represented.
- MachineData.GenerateWorkoutPlan: requires every id to be a catalog key. The code has no error path there; it fails reading a field of `undefined`.
- MachineSelectionComponent.MachineSelection.HandleMachineToggle: requires a catalog id, the only ids the screen offers.
- SessionComponent.WorkoutSessionView.constructor: requires a non-empty plan with at least one set per exercise. An empty plan makes the screen read a missing exercise, and zero sets make `getWorkoutProgress` divide by a zero total.
- SessionScreen.WorkoutSessionScreen.constructor: requires a non-empty plan.
  - A plan edited to zero or negative sets is accepted; the set pointer then stays at 1.
- SessionScreen.OverallProgressBounds: assumes at least one set; zero sets divide by zero in the source.
- MenuProposalComponent.EstimatedTime: states only the empty case directly. Its other properties are the lemmas beside it, which assume at least one set and no negative rest.
- App.AppContent.HandleStartWorkout: requires a plan of the same length with the same set counts, which is all the menu can hand on.
- HomePage.Home.HandleMenuConfirm: requires a plan of the same length, which is all the menu can hand on.
- The `default:` branches of the `switch` statements on experience and goal are unreachable for the typed unions, and are left out.
