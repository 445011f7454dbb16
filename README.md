# Workout tracker — a Dafny model of its session core

The workout tracker keeps three training days ("Giorno 1..3"), each a plan of
exercises with sets, reps and a free-text current load ("16", "55-50", "30+",
"Corpo libero"). A user opens a day, checks exercises off, may edit an exercise
for this session only, records new loads, and finishes the session. The backend
then stores it with a report: total volume, counts, and load changes against the
latest earlier session of the same day. It also suggests the next day to train.

This project models that core in Dafny and proves its properties:

- the FastAPI backend: the load parser, the session report, the load-update and
  log endpoints, and the next-workout suggestion;
- the React session screens: the active-workout page, the edit dialog, the
  finish sheet and the exercise-detail sheet, together with the JavaScript
  built-ins they depend on (`parseInt`, `String(n)`, `trim`).

Modules follow the source files:

| module | file | models |
|---|---|---|
| `Wrappers` | wrappers.dfy | `Option` and `Result` |
| `Digits` | digits.dfy | digit runs and their values, the `(\d+)` match, `String(n)` digits |
| `JsBuiltins` | js_builtins.dfy | JavaScript `parseInt`, `String(n)` for integers, white space and `trim` |
| `ServerModel` | server_model.dfy | the backend's records and `parse_load` |
| `SessionReport` | session_report.dfy | `create_workout_session`'s report: volume, counts, load changes |
| `NextWorkout` | next_workout.dfy | `get_next_workout` and "latest session" lookups |
| `Store` | store.dfy | the collections and the three writing endpoints, as a `Database` class |
| `Api` | api.dfy | the frontend's `parseLoad` |
| `WorkingSet` | working_set.dfy | the page's working copy of the plan and its session-only updates |
| `EditExerciseDialog` | edit_dialog.dfy | the edit dialog's form and the patch it saves |
| `ActiveWorkout` | active_workout.dfy | the active-workout page, as an `ActiveWorkoutPage` class |
| `CompleteWorkoutSheet` | complete_sheet.dfy | the finish sheet: estimate, payload, save and close |
| `ExerciseDetailSheet` | detail_sheet.dfy | chart, history list, update-load visibility and the add-load handler |
| `Consistency` | consistency.dfy | how frontend and backend relate: parsers, estimate against report |

Timestamps, generated ids and server answers are parameters. The backend's
ISO-8601 timestamps are integers that order the same way. A request that can
fail is modelled by its outcome: `Option` for a response, `bool` for success.
The handlers return the request they send, the callback they invoke and the
notice they show, instead of performing them.

Behaviour the proofs bring out, where the code differs from what one might expect:

- The next day is round robin: one after the day of the most recent session,
  `(day % 3) + 1`. It is not the day trained longest ago (`NextWorkout.RoundRobinIgnoresAge`).
- Load changes are compared against the latest earlier session of the same day.
  If the baseline is body weight ("Corpo libero"), no change is ever reported.
  If the exercise is body weight now and had a weighted baseline, a drop is
  reported (`SessionReport.BodyweightNowIsReportedAsDrop`).
- The two load parsers differ:
  - the backend reads only a digit run at the very start;
  - the frontend reads the first digit run anywhere.

  So "~20" is 0 for one and 20 for the other, and the finish sheet's estimate
  can then differ from the reported volume (`Consistency.EstimateDiffersOnTilde`).
- The frontend's body-weight marker is "Bodyweight" and the backend's is
  "Corpo libero". So the update-load section is shown for the seeded body-weight
  exercises (`ExerciseDetailSheet.CorpoLiberoStillEditable`).
- The edit dialog keeps the old sets or reps only for an empty, non-numeric or
  zero entry. A negative number is accepted (`EditExerciseDialog.IntOrOfIntString`).
- Which exercise an id selects differs by side:
  - the backend updates the first exercise with the id;
  - the frontend's session updates change every exercise with that id.
- The finish sheet refuses only an empty duration. It does not check that the
  duration is positive or numeric.

## Model

| member | source | states |
|---|---|---|
| `Digits.LeadingDigits` | backend/server.py:28 | the result is the longest prefix of digits of the radix: all digits, a prefix, and the next character (if any) is not a digit |
| `Digits.MaximalDigitPrefixUnique` | backend/server.py:28 | any maximal digit prefix is the one `LeadingDigits` returns, so the match is determined by the string |
| `Digits.LeadingDigitsOfDigits` | backend/server.py:28 | a string made only of digits is its own leading run |
| `Digits.FirstDigitIndex` | frontend/src/lib/api.js:35 | the index of the first decimal digit: no digit before it, a digit at it, or the length when there is none |
| `Digits.DecimalString` | frontend/src/components/EditExerciseDialog.jsx:23-24 | the decimal text of n: non-empty, only digits, no leading zero unless n is 0, and its value is n |
| `JsBuiltins.TrimStart` | frontend/src/components/ExerciseDetailSheet.jsx:32 | the result is a suffix of s, everything dropped is white space, and it does not start with white space |
| `JsBuiltins.TrimStartEmptyIffBlank` | frontend/src/components/ExerciseDetailSheet.jsx:32 | `trim()` gives the empty string exactly when the text is all white space |
| `JsBuiltins.ParseIntWithoutDigits` | frontend/src/components/EditExerciseDialog.jsx:101-102 | `parseInt` of a text with no decimal digit is NaN |
| `JsBuiltins.ParseIntOfDigits` | frontend/src/components/EditExerciseDialog.jsx:101-102 | `parseInt` of a non-empty digit run is its decimal value |
| `JsBuiltins.ParseIntOfNegatedDigits` | frontend/src/components/EditExerciseDialog.jsx:101-102 | `parseInt` of a minus sign and a non-empty digit run is the negated value |
| `JsBuiltins.IntStringRoundTrip` | frontend/src/components/EditExerciseDialog.jsx:23-24 | `parseInt(String(n)) == n` for every integer n |
| `JsBuiltins.ParseInt` | frontend/src/components/EditExerciseDialog.jsx:101-102 | `parseInt` gives a number only for a text that contains a decimal digit |
| `JsBuiltins.IntString` | frontend/src/components/EditExerciseDialog.jsx:23-24 | `String(n)` is non-empty, starts with a minus sign exactly for a negative n, and is all digits otherwise |
| `ServerModel.ParseLoadSpec` | backend/server.py:25-29 | `parse_load` is the value of the leading digit run, and 0 when the load does not start with a digit |
| `ServerModel.ParseLoadExamples` | backend/server.py:25-29 | "55-50" is 55, "30+" is 30, "~20" is 0 and "Corpo libero" is 0 |
| `ServerModel.ParseLoad` | backend/server.py:25-29 | "Corpo libero" is 0, and a positive load is read only from a text that starts with a digit |
| `SessionReport.CompletedCount` | backend/server.py:266 | the completed count never exceeds the number of exercises |
| `SessionReport.TotalVolumeAppend` | backend/server.py:258-261 | the total volume of a concatenation is the sum of the parts' volumes |
| `SessionReport.CompletedCountAppend` | backend/server.py:266 | the completed count of a concatenation is the sum of the parts' counts |
| `SessionReport.NothingCompleted` | backend/server.py:258-266 | with no exercise completed, volume and completed count are 0 |
| `SessionReport.AllCompleted` | backend/server.py:265-266 | with every exercise completed, the completed count equals the total count |
| `SessionReport.IncompleteAddsNothing` | backend/server.py:258-266 | inserting an uncompleted exercise anywhere changes neither volume nor completed count |
| `SessionReport.BaselineMap` | backend/server.py:244 | the baseline map's keys are exactly the ids of the previous session's exercises |
| `SessionReport.BaselineMapLastWins` | backend/server.py:244 | for a repeated id, the last exercise with that id is the baseline |
| `SessionReport.ChangeFor` | backend/server.py:246-256 | a change needs the id in the baseline, a positive previous parse and a different current parse; it carries the name and both raw loads; the trend is up exactly when the load rose |
| `SessionReport.ComputeLoadChanges` | backend/server.py:242-256 | the loop produces the changes for every exercise against the previous session's baseline, in order, and none without a previous session |
| `SessionReport.LoadChangesAppend` | backend/server.py:245-256 | changes of a concatenation are the changes of the parts, in order |
| `SessionReport.LoadChangesMembers` | backend/server.py:245-256 | a change is listed exactly when some exercise of the session produces it |
| `SessionReport.LoadChangesGenuine` | backend/server.py:245-256 | at most one change per exercise, and every listed change is a genuine rise or drop from a positive baseline |
| `SessionReport.LoadChangesIgnoreCompleted` | backend/server.py:245-256 | load changes do not depend on the completed flags |
| `SessionReport.NoChangeFromBodyweightBaseline` | backend/server.py:247-249 | a "Corpo libero" baseline never produces a change |
| `SessionReport.BodyweightNowIsReportedAsDrop` | backend/server.py:247-256 | a weighted baseline followed by "Corpo libero" is reported as a drop |
| `SessionReport.ReportTestScenario` | backend/tests/test_workout_api.py:201-257 | two completed exercises 4 x 4 at 16 and at 90 give volume 1696 and 2 of 2 completed whatever the previous session; with none, no changes |
| `SessionReport.TotalVolume` | backend/server.py:258-261 | with non-negative sets and reps, the total volume is not negative |
| `SessionReport.LoadChanges` | backend/server.py:242-256 | at most one load change per exercise of the session |
| `SessionReport.ReportOf` | backend/server.py:258-268 | the report is the total volume, the number of exercises, the completed count and the changes against the previous session, the functions the volume, count and load-change lemmas are about; so no more completed than exercises, at most one change per exercise, and none without a previous session |
| `SessionReport.Contribution` | backend/server.py:258-261 | one exercise's volume is not negative for non-negative sets and reps, and 0 for a load `parse_load` reads as 0 |
| `SessionReport.ChangesAgainst` | backend/server.py:242-256 | no changes without a previous session and at most one per exercise; the changes themselves are characterised by `LoadChangesMembers` |
| `NextWorkout.Latest` | backend/server.py:237-240 | the latest session is None exactly for no sessions, is one of them, and none is later |
| `NextWorkout.LatestIsFirstMaximum` | backend/server.py:301-303 | the tie-break the model fixes, where the database leaves the order open: the session chosen is a latest one, and every session stored before it is strictly earlier |
| `NextWorkout.OfDay` | backend/server.py:301-302 | a session is selected exactly when it is stored and belongs to that day |
| `NextWorkout.OfDayAppend` | backend/server.py:301-303 | the day's sessions keep stored order: filtering two stretches of the collection gives the first stretch's sessions, then the second's |
| `NextWorkout.LatestOfDay` | backend/server.py:301-303 | the day's latest session, when there is one, is a stored session of that day; `LatestOfDaySpec` adds that it exists exactly when the day has a session and is the latest of them |
| `NextWorkout.LatestOfDaySpec` | backend/server.py:301-308 | the latest session of a day exists exactly when the day has sessions, belongs to that day and is no earlier than any of them |
| `NextWorkout.NextDay` | backend/server.py:310-315 | the suggested day is between 1 and 3, and 1 when nothing was trained |
| `NextWorkout.GetNextWorkout` | backend/server.py:297-317 | the loop's summary has a key exactly for each day 1..3 with a session, with that day's latest session's time and duration, and the next day is the round-robin one |
| `NextWorkout.NextDayAfterNewerSession` | backend/server.py:310-315 | after a session later than all others, the suggestion is the day after that session's day |
| `NextWorkout.FollowingTheSuggestionCycles` | backend/server.py:310-315 | training the suggested day moves the suggestion on by one, cyclically |
| `NextWorkout.RoundRobinIgnoresAge` | backend/server.py:310-315 | after day 1 and then day 2, the suggestion is day 3, whatever their ages |
| `Store.PlanIndex` | backend/server.py:165-167 | the plan found is the first with that day number; none means no plan has it |
| `Store.ExerciseIndex` | backend/server.py:170-176 | the exercise found is the first with that id; none means no exercise has it |
| `Store.WithFirstLoad` | backend/server.py:170-174 | the same list with only the first exercise of that id carrying the new load, or the list unchanged when none has it |
| `Store.SetFirstLoad` | backend/server.py:169-176 | the loop with `break` finds the exercise exactly when one has the id, produces `WithFirstLoad` and returns the match's name |
| `Store.Database.constructor` | backend/server.py:133-146 | the collections start as given; the seed endpoint's state is the case `Database(plans, [], [])`, with its plans and no logs or sessions |
| `Store.Database.UpdateExerciseLoad` | backend/server.py:163-195 | a missing plan or exercise is a 404 that changes nothing; otherwise the first match's load is set, a log with 0 sets and reps is appended, and the new load is returned |
| `Store.Database.CreateExerciseLog` | backend/server.py:198-225 | the log is always appended and returned; the plan's first matching exercise is updated only for a positive day with a plan |
| `Store.Database.CreateWorkoutSession` | backend/server.py:235-281 | the stored session carries the report against the latest earlier session of that day and is appended; plans and logs are untouched |
| `Store.UnknownIdLeavesExercises` | backend/server.py:175-176 | an id no exercise has leaves the exercises as they are |
| `Store.OnlyFirstMatchUpdated` | backend/server.py:170-174 | with a repeated id, the first occurrence gets the load and a later one keeps its own |
| `Api.ParseLoadSpec` | frontend/src/lib/api.js:33-37 | `parseLoad` is the value of the first digit run anywhere in the text |
| `Api.NoDigitsIsZero` | frontend/src/lib/api.js:33-37 | a load with no digit parses to 0 |
| `Api.DigitsParseToTheirValue` | frontend/src/lib/api.js:33-37 | a load of digits only parses to its value |
| `Api.ParseLoadExamples` | frontend/src/lib/api.js:33-37 | "55-50" is 55 and "30+" is 30 |
| `Api.ParseLoadSkipsPrefix` | frontend/src/lib/api.js:35-36 | "~20" is 20 |
| `Api.ParseLoadBodyweight` | frontend/src/lib/api.js:34 | "Bodyweight" is 0, and so is "Corpo libero", which has no digit |
| `Api.ParseLoad` | frontend/src/lib/api.js:33-37 | "Bodyweight" is 0, and a positive load is read only from a text that contains a digit |
| `Consistency.ParsersAgree` | backend/server.py:25-29 | the two parsers agree on a load that starts with a digit and on one without digits |
| `Consistency.ParsersDisagreeOnTilde` | frontend/src/lib/api.js:35-36 | on "~20" the backend reads 0 and the frontend 20 |
| `Consistency.EstimateMatchesReport` | frontend/src/components/CompleteWorkoutSheet.jsx:22-50 | when the parsers agree on the checked loads, the sheet's estimated volume is the total volume the backend computes for the sent payload |
| `Consistency.CountsMatchSheet` | frontend/src/components/CompleteWorkoutSheet.jsx:39-50 | the payload holds every working exercise, and the backend's completed count equals the number of checked exercises listed |
| `Consistency.EstimateDiffersOnTilde` | frontend/src/components/CompleteWorkoutSheet.jsx:24-26 | one checked 1 x 1 at "~20" is estimated at 20 and reported at 0 |
| `Consistency.UneditedPayload` | frontend/src/components/CompleteWorkoutSheet.jsx:39-50 | without edits, the payload lists the plan's exercises in plan order with their ids, names, sets, reps and loads, unmodified, each with its own name as original name |
| `WorkingSet.IdSetSize` | frontend/src/pages/ActiveWorkout.jsx:56 | there are no more distinct ids than exercises |
| `WorkingSet.FromPlan` | frontend/src/pages/ActiveWorkout.jsx:30-36 | one working exercise per plan exercise, with the plan's ids in order |
| `WorkingSet.FromPlanFresh` | frontend/src/pages/ActiveWorkout.jsx:30-36 | entry i of the working copy is plan exercise i, unmodified, with its own name as original name |
| `WorkingSet.Merge` | frontend/src/pages/ActiveWorkout.jsx:52 | the merged exercise takes the patch's name, sets, reps, load and original name, keeps every other field, and is marked modified |
| `WorkingSet.UpdateExercise` | frontend/src/pages/ActiveWorkout.jsx:50-54 | the list keeps its length and its ids in order |
| `WorkingSet.WithCurrentLoad` | frontend/src/pages/ActiveWorkout.jsx:203-207 | the list keeps its length and its ids in order |
| `WorkingSet.UpdateExerciseSpec` | frontend/src/pages/ActiveWorkout.jsx:50-54 | ids keep their order; every exercise with the id takes the patched fields and is marked modified; the others are unchanged |
| `WorkingSet.WithCurrentLoadKeepsFlags` | frontend/src/pages/ActiveWorkout.jsx:203-207 | ids keep their order; every exercise with the id takes the new load, keeps everything else, and is not marked modified |
| `EditExerciseDialog.InitialForm` | frontend/src/components/EditExerciseDialog.jsx:20-27 | the form shows the exercise's name and load, and its sets and reps texts parse back to the exercise's numbers |
| `EditExerciseDialog.SavedPatch` | frontend/src/components/EditExerciseDialog.jsx:98-106 | the patch takes the form's name; sets and reps are `parseInt(text) \|\| old` through `IntOr`; the load is the form's load when it is not empty and the old load when it is; the original name is the existing one, or else the current name |
| `EditExerciseDialog.IntOr` | frontend/src/components/EditExerciseDialog.jsx:101-102 | characterised by `IntOrOfIntString` and `EmptyOrZeroKeepsOld`: a number written by `String(n)` comes back as n unless it is 0, and an empty or "0" entry keeps the old value |
| `EditExerciseDialog.StringOr` | frontend/src/components/EditExerciseDialog.jsx:103-104 | `text \|\| fallback`: the text when it is not empty, the fallback otherwise, and empty only when both are |
| `EditExerciseDialog.SaveUntouchedForm` | frontend/src/components/EditExerciseDialog.jsx:20-27 | saving the form as filled in changes no field; it only marks the exercise modified and fixes its original name |
| `EditExerciseDialog.EmptyOrZeroKeepsOld` | frontend/src/components/EditExerciseDialog.jsx:101-102 | an empty or "0" sets/reps entry keeps the old value |
| `EditExerciseDialog.IntOrOfIntString` | frontend/src/components/EditExerciseDialog.jsx:101-102 | a number written by `String(n)` and read by `parseInt(text) \|\| fallback` comes back as n, negative ones included; only 0 gives the fallback |
| `EditExerciseDialog.OriginalNameKept` | frontend/src/components/EditExerciseDialog.jsx:104 | once set, the original name survives any series of saves, and any save marks the exercise modified |
| `EditExerciseDialog.PlanNameSurvivesEdits` | frontend/src/components/EditExerciseDialog.jsx:104 | a freshly loaded exercise keeps the plan's name as original name through every series of edits |
| `ActiveWorkout.Toggle` | frontend/src/pages/ActiveWorkout.jsx:41-48 | the id is in the result exactly when it was not before; every other id is unaffected |
| `ActiveWorkout.ToggleTwice` | frontend/src/pages/ActiveWorkout.jsx:41-48 | toggling the same id twice restores the set |
| `ActiveWorkout.ProgressOf` | frontend/src/pages/ActiveWorkout.jsx:56 | progress is 0 without exercises, lies in 0..100 when only listed ids are checked, and for a non-empty list is 0 exactly when nothing is checked |
| `ActiveWorkout.ActiveWorkoutPage.constructor` | frontend/src/pages/ActiveWorkout.jsx:17-23 | no plan, no exercises, nothing checked, no dialog, loading |
| `ActiveWorkout.ActiveWorkoutPage.PlanFetched` | frontend/src/pages/ActiveWorkout.jsx:25-39 | a fetched plan becomes the working copy; a failed fetch keeps the state; checks stay and loading ends either way |
| `ActiveWorkout.ActiveWorkoutPage.ToggleComplete` | frontend/src/pages/ActiveWorkout.jsx:41-48 | the checked set is toggled at the id and nothing else changes |
| `ActiveWorkout.ActiveWorkoutPage.UpdateExercise` | frontend/src/pages/ActiveWorkout.jsx:50-54 | the working copy becomes `WorkingSet.UpdateExercise` of it and nothing else changes |
| `ActiveWorkout.ActiveWorkoutPage.OnLoadUpdated` | frontend/src/pages/ActiveWorkout.jsx:203-207 | the working copy becomes `WorkingSet.WithCurrentLoad` of it and nothing else changes |
| `ActiveWorkout.ActiveWorkoutPage.OpenEdit` | frontend/src/pages/ActiveWorkout.jsx:165-168 | the edit button's `setEditingExercise(ex)` opens the dialog (bound at lines 211-213) on the exercise, and nothing else changes |
| `ActiveWorkout.ActiveWorkoutPage.CancelEdit` | frontend/src/pages/ActiveWorkout.jsx:214 | the dialog closes and nothing else changes |
| `ActiveWorkout.ActiveWorkoutPage.SaveEdit` | frontend/src/pages/ActiveWorkout.jsx:215-218 | with the dialog open, the dialog's patch is applied to the id and the dialog closes; otherwise nothing changes |
| `ActiveWorkout.ActiveWorkoutPage.Progress` | frontend/src/pages/ActiveWorkout.jsx:56 | the page's progress lies in 0..100 when only listed ids are checked |
| `ActiveWorkout.ActiveWorkoutPage.CompleteDisabled` | frontend/src/pages/ActiveWorkout.jsx:188 | the finish button is disabled exactly when nothing is checked, which for a non-empty list is when progress is 0 |
| `CompleteWorkoutSheet.CompletedExercises` | frontend/src/components/CompleteWorkoutSheet.jsx:22 | the checked exercises: an exercise is listed exactly when it is in the list and its id is checked, never more than the list |
| `CompleteWorkoutSheet.Estimate` | frontend/src/components/CompleteWorkoutSheet.jsx:25 | one exercise's estimate is not negative for non-negative sets and reps, and 0 for a load the frontend parses as 0 |
| `CompleteWorkoutSheet.SumEstimates` | frontend/src/components/CompleteWorkoutSheet.jsx:24-26 | the sum of the estimates is not negative when every exercise has non-negative sets and reps (and is additive, by `SumEstimatesAppend`) |
| `CompleteWorkoutSheet.EstimatedVolume` | frontend/src/components/CompleteWorkoutSheet.jsx:24-26 | with non-negative sets and reps, the estimated volume is not negative |
| `CompleteWorkoutSheet.CompletedExercisesAppend` | frontend/src/components/CompleteWorkoutSheet.jsx:22 | filtering a concatenation filters the parts, in order |
| `CompleteWorkoutSheet.SumEstimatesAppend` | frontend/src/components/CompleteWorkoutSheet.jsx:24-26 | the sum over a concatenation is the sum of the parts |
| `CompleteWorkoutSheet.NothingCheckedNoVolume` | frontend/src/components/CompleteWorkoutSheet.jsx:22-26 | nothing checked, no estimated volume |
| `CompleteWorkoutSheet.ZeroRepsAddNothing` | frontend/src/components/CompleteWorkoutSheet.jsx:24-26 | an exercise with 0 reps anywhere in the list does not change the estimate |
| `CompleteWorkoutSheet.BodyweightExerciseAddsNothing` | frontend/src/components/CompleteWorkoutSheet.jsx:22-26 | A at 4 x 10 at "20" and B at 3 x 12 at "Bodyweight" are estimated at 800 whether B is checked or not |
| `CompleteWorkoutSheet.PayloadExercises` | frontend/src/components/CompleteWorkoutSheet.jsx:39-50 | one entry per working exercise, with its id, completed exactly for the checked ids |
| `CompleteWorkoutSheet.PayloadEntry` | frontend/src/components/CompleteWorkoutSheet.jsx:40-50 | an entry carries the exercise's id, is completed exactly when the id is checked, and has an empty original name only when both the original name and the name are empty |
| `CompleteWorkoutSheet.BuildPayload` | frontend/src/components/CompleteWorkoutSheet.jsx:35-50 | the payload names the plan's day and name, its duration is `parseInt` of the text (present only for a text with a digit), and its entries are `PayloadExercises`, one per working exercise, field by field as `PayloadSpec` states |
| `CompleteWorkoutSheet.PayloadSpec` | frontend/src/components/CompleteWorkoutSheet.jsx:39-50 | one entry per working exercise, in order: id, name, sets, reps, raw load and muscle fields copied, completed exactly for checked ids, the modified flag kept, and the original name, or the name when there is none |
| `CompleteWorkoutSheet.CompleteWorkoutState.constructor` | frontend/src/components/CompleteWorkoutSheet.jsx:18-20 | empty duration, not saving, no report |
| `CompleteWorkoutSheet.CompleteWorkoutState.EnterDuration` | frontend/src/components/CompleteWorkoutSheet.jsx:18 | the duration text is replaced and nothing else changes |
| `CompleteWorkoutSheet.CompleteWorkoutState.HandleSave` | frontend/src/components/CompleteWorkoutSheet.jsx:28-58 | an empty duration is refused with nothing sent or changed; a missing plan fails with nothing sent; otherwise the payload is sent, a report shown on success and kept on failure; saving ends false |
| `CompleteWorkoutSheet.CompleteWorkoutState.HandleClose` | frontend/src/components/CompleteWorkoutSheet.jsx:60-64 | the report is dropped, the duration cleared, and `onClose` is the callback fired |
| `CompleteWorkoutSheet.CompleteWorkoutState.BackToDashboard` | frontend/src/components/CompleteWorkoutSheet.jsx:182-187 | the same reset, with `onComplete` as the callback fired |
| `ExerciseDetailSheet.ChartDataAppend` | frontend/src/components/ExerciseDetailSheet.jsx:26-29 | the points of a concatenation of logs are the points of the parts, in order |
| `ExerciseDetailSheet.ChartData` | frontend/src/components/ExerciseDetailSheet.jsx:26-29 | characterised by `ChartDataAppend` and `ChartDataChronological`: the points follow the logs piece by piece, in order, and run forward in time for date-ascending logs |
| `ExerciseDetailSheet.ChartDataChronological` | frontend/src/components/ExerciseDetailSheet.jsx:26-29 | with logs in the backend's date order, the chart's points run forward in time |
| `ExerciseDetailSheet.ChartShown` | frontend/src/components/ExerciseDetailSheet.jsx:78 | the chart is drawn exactly when there are at least two logs |
| `ExerciseDetailSheet.Reversed` | frontend/src/components/ExerciseDetailSheet.jsx:104 | the copy has the same length and element i is the original's element n-1-i |
| `ExerciseDetailSheet.HistoryView` | frontend/src/components/ExerciseDetailSheet.jsx:104 | at most ten logs, the last stored first |
| `ExerciseDetailSheet.HistoryNewestFirst` | backend/server.py:229-232 | with logs in the backend's date order, the history runs newest first and nothing left out is newer than anything shown |
| `ExerciseDetailSheet.CorpoLiberoStillEditable` | frontend/src/components/ExerciseDetailSheet.jsx:114 | the update-load section is shown for an exercise at "Corpo libero" |
| `ExerciseDetailSheet.UpdateLoadShown` | frontend/src/components/ExerciseDetailSheet.jsx:114 | characterised by `UpdateLoadHiddenOnlyForBodyweight`: shown for every load except exactly "Bodyweight" |
| `ExerciseDetailSheet.UpdateLoadHiddenOnlyForBodyweight` | frontend/src/components/ExerciseDetailSheet.jsx:114 | the update-load section is hidden exactly for the load "Bodyweight", so every load that parses above 0 can be updated |
| `ExerciseDetailSheet.AddDisabled` | frontend/src/components/ExerciseDetailSheet.jsx:128 | the add button is disabled exactly while saving or when the input trims to the empty string |
| `ExerciseDetailSheet.ExerciseDetailState.constructor` | frontend/src/components/ExerciseDetailSheet.jsx:14-16 | no logs, empty input, not saving |
| `ExerciseDetailSheet.ExerciseDetailState.LogsFetched` | frontend/src/components/ExerciseDetailSheet.jsx:18-22 | fetched logs replace the list; a failed fetch is swallowed and changes nothing |
| `ExerciseDetailSheet.ExerciseDetailState.EnterLoad` | frontend/src/components/ExerciseDetailSheet.jsx:121-122 | the input text is replaced and nothing else changes |
| `ExerciseDetailSheet.ExerciseDetailState.HandleAddLoad` | frontend/src/components/ExerciseDetailSheet.jsx:31-52 | a blank input does nothing; otherwise the log request is sent; only when creation and re-fetch both succeed are the logs replaced, the page told the new load, and the input cleared; saving ends false |

## Left out

- The seed data and the seeding endpoint (backend/server.py:80-147): constant data, not behaviour.
- The read-only endpoints `get_workout_plans`, `get_workout_plan`, `get_exercise_logs`, `get_workout_sessions` and `get_workout_session`. They are modelled only where they feed the core: a fetched plan, fetched logs, and an earlier session.
- The `user_id` query parameter the frontend sends, and the profile pages, Dashboard.jsx, History.jsx, HistoryDetail.jsx, BottomNav.jsx and MuscleIcon.jsx. They are outside this core.
- Generated ids (`uuid4`) and the clock are parameters. Dates are ordered integers, and their display formatting (`formatShortDate`) is not modelled.
- The database, HTTP, React rendering, toasts and async ordering. A handler's awaits are modelled as its given outcomes. Interleaved handlers, such as a double click while saving, are not modelled.
- SessionReport.ChangeFor: `change_pct` is a rounded float. The model keeps only its sign as a trend, so a change that rounds to 0.0 % is still reported as a rise or a drop.
- ServerModel.ParseLoadSpec: it does not model Python's `\d` matching non-ASCII digits, or float precision above 2^53. `parse_load` returns a float, and the model uses unbounded naturals.
- Api.ParseLoadSpec: it does not model JavaScript number precision above 2^53. Only ASCII digits, which is also what `\d` matches in JavaScript.
- JsBuiltins.IntStringRoundTrip: it does not model exponent notation of `String(n)` for very large numbers, or JavaScript's -0, which is treated as 0 (both are falsy).
- The backend's validation of a request body, e.g. NaN sent as `null` for the duration, is not modelled. The finish sheet's payload carries the duration as `Option<int>`, and a rejection reaches the sheet as a failed request.
- `WorkoutPlan.id`, `rest_time`, `rest_seconds` and `notes` are carried along but nothing is stated about them, since no core operation reads them.
- Editing the plan permanently is outside these screens and not modelled.
- NextWorkout.Latest: MongoDB's `find_one` sorted by `completed_at` (backend/server.py:237-240, 301-303) promises no order among sessions with equal timestamps. The model takes the one stored first, which is its own choice: on a tie it decides the report's baseline, `last_sessions` and `next_day`.
- NextWorkout.LatestIsFirstMaximum: it proves the model's tie-break, not a guarantee of the database.
- ExerciseDetailSheet.ExerciseDetailState.LogsFetched: `get_exercise_logs` (backend/server.py:232) returns at most 1000 logs, the oldest ones. The model fetches the whole list, so with more than 1000 logs the real chart and history miss the newest.
- ExerciseDetailSheet.HistoryNewestFirst: it is stated for the whole list of logs; the 1000-log cap is not modelled.
- NextWorkout.GetNextWorkout: `last_sessions` is keyed by the day number as an integer; the backend writes the key as a string, `str(day)` (backend/server.py:306), which the model does not represent.
- ActiveWorkout.ProgressOf: the JavaScript floating-point percentage is an exact `real`; rounding is not modelled.
