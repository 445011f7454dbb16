/** The backend's write endpoints over its three collections, held as in-memory
    sequences in insertion order: `update_exercise_load`, `create_exercise_log` and
    `create_workout_session`. */
module Store {
  import opened Wrappers
  import opened ServerModel
  import SessionReport
  import NextWorkout

  /** The HTTP 404 errors the endpoints raise. */
  datatype ApiError = PlanNotFound | ExerciseNotFound

  /** `find_one({"day_number": day})` on the plans: the first plan of that day. */
  function PlanIndex(plans: seq<WorkoutPlan>, day: int): (r: Option<nat>)
    ensures r.Some? ==> r.value < |plans| && plans[r.value].dayNumber == day
    ensures r.Some? ==> forall j :: 0 <= j < r.value ==> plans[j].dayNumber != day
    ensures r.None? ==> forall j :: 0 <= j < |plans| ==> plans[j].dayNumber != day
  {
    if plans == [] then None
    else if plans[0].dayNumber == day then Some(0)
    else match PlanIndex(plans[1..], day)
      case None => None
      case Some(k) => Some(k + 1)
  }

  /** The position of the first exercise with the id, where the `for ... break` loop stops. */
  function ExerciseIndex(exs: seq<Exercise>, id: string): (r: Option<nat>)
    ensures r.Some? ==> r.value < |exs| && exs[r.value].id == id
    ensures r.Some? ==> forall j :: 0 <= j < r.value ==> exs[j].id != id
    ensures r.None? ==> forall j :: 0 <= j < |exs| ==> exs[j].id != id
  {
    if exs == [] then None
    else if exs[0].id == id then Some(0)
    else match ExerciseIndex(exs[1..], id)
      case None => None
      case Some(k) => Some(k + 1)
  }

  /** The exercises after giving the first one with the id a new current load. */
  function WithFirstLoad(exs: seq<Exercise>, id: string, load: string): (r: seq<Exercise>)
    ensures |r| == |exs|
    ensures ExerciseIndex(exs, id).None? ==> r == exs
    ensures ExerciseIndex(exs, id).Some? ==>
              var k := ExerciseIndex(exs, id).value;
              r == exs[k := exs[k].(currentLoad := load)]
  {
    if exs == [] then []
    else if exs[0].id == id then [exs[0].(currentLoad := load)] + exs[1..]
    else [exs[0]] + WithFirstLoad(exs[1..], id, load)
  }

  /** The loop both endpoints run over a plan's exercises: set `current_load` on the
      first exercise whose id matches and stop, reporting whether one matched and
      its name. */
  method SetFirstLoad(exs: seq<Exercise>, id: string, load: string)
    returns (updated: seq<Exercise>, found: bool, name: string)
    ensures found <==> ExerciseIndex(exs, id).Some?
    ensures updated == WithFirstLoad(exs, id, load)
    ensures found ==> name == exs[ExerciseIndex(exs, id).value].name
  {
    updated, found, name := exs, false, "";
    var i := 0;
    while i < |updated|
      invariant 0 <= i <= |exs|
      invariant updated == exs && !found
      invariant forall j :: 0 <= j < i ==> exs[j].id != id
    {
      if updated[i].id == id {
        updated := updated[i := updated[i].(currentLoad := load)];
        name := exs[i].name;
        found := true;
        break;
      }
      i := i + 1;
    }
  }

  class Database {
    var plans: seq<WorkoutPlan>
    var logs: seq<ExerciseLog>
    var sessions: seq<WorkoutSession>

    constructor(plans: seq<WorkoutPlan>, logs: seq<ExerciseLog>, sessions: seq<WorkoutSession>)
      ensures this.plans == plans && this.logs == logs && this.sessions == sessions
    {
      this.plans := plans;
      this.logs := logs;
      this.sessions := sessions;
    }

    /** `update_exercise_load`: set the load of the first matching exercise of the
        day's plan and log it with sets and reps 0; 404 when the plan or the
        exercise is missing, and then nothing is written. */
    method UpdateExerciseLoad(dayNumber: int, exerciseId: string, load: string, logId: string, now: int)
      returns (r: Result<string, ApiError>)
      modifies this
      ensures sessions == old(sessions)
      ensures PlanIndex(old(plans), dayNumber).None? ==>
                r == Err(PlanNotFound) && plans == old(plans) && logs == old(logs)
      ensures PlanIndex(old(plans), dayNumber).Some? ==>
                var p := PlanIndex(old(plans), dayNumber).value;
                var exs := old(plans)[p].exercises;
                if ExerciseIndex(exs, exerciseId).None? then
                  r == Err(ExerciseNotFound) && plans == old(plans) && logs == old(logs)
                else
                  var k := ExerciseIndex(exs, exerciseId).value;
                  && r == Ok(load)
                  && plans == old(plans)[p := old(plans)[p].(exercises := WithFirstLoad(exs, exerciseId, load))]
                  && logs == old(logs) + [ExerciseLog(logId, exerciseId, exs[k].name, load, 0, 0, now, dayNumber)]
    {
      var p := PlanIndex(plans, dayNumber);
      if p.None? {
        return Err(PlanNotFound);
      }
      var plan := plans[p.value];
      var updated, found, name := SetFirstLoad(plan.exercises, exerciseId, load);
      if !found {
        return Err(ExerciseNotFound);
      }
      plans := plans[p.value := plan.(exercises := updated)];
      logs := logs + [ExerciseLog(logId, exerciseId, name, load, 0, 0, now, dayNumber)];
      r := Ok(load);
    }

    /** `create_exercise_log`: always store the log; when the day number is positive
        and the plan exists, also set the load of the first matching exercise (an
        unknown exercise id changes nothing and is no error). */
    method CreateExerciseLog(req: ExerciseLogCreate, logId: string, now: int) returns (doc: ExerciseLog)
      modifies this
      ensures doc == ExerciseLog(logId, req.exerciseId, req.exerciseName, req.load, req.sets, req.reps, now, req.dayNumber)
      ensures logs == old(logs) + [doc]
      ensures sessions == old(sessions)
      ensures (req.dayNumber <= 0 || PlanIndex(old(plans), req.dayNumber).None?) ==> plans == old(plans)
      ensures req.dayNumber > 0 && PlanIndex(old(plans), req.dayNumber).Some? ==>
                var p := PlanIndex(old(plans), req.dayNumber).value;
                var exs := old(plans)[p].exercises;
                plans == old(plans)[p := old(plans)[p].(exercises := WithFirstLoad(exs, req.exerciseId, req.load))]
    {
      doc := ExerciseLog(logId, req.exerciseId, req.exerciseName, req.load, req.sets, req.reps, now, req.dayNumber);
      logs := logs + [doc];
      if req.dayNumber > 0 {
        var p := PlanIndex(plans, req.dayNumber);
        if p.Some? {
          var plan := plans[p.value];
          var updated, _, _ := SetFirstLoad(plan.exercises, req.exerciseId, req.load);
          plans := plans[p.value := plan.(exercises := updated)];
        }
      }
    }

    /** `create_workout_session`: compute the report against the latest stored
        session of the same day, then store the new session. */
    method CreateWorkoutSession(req: WorkoutSessionCreate, id: string, now: int) returns (doc: WorkoutSession)
      modifies this
      ensures doc == WorkoutSession(id, req.dayNumber, req.dayName, now, req.durationMinutes, req.exercises,
                                    SessionReport.ReportOf(NextWorkout.LatestOfDay(old(sessions), req.dayNumber), req.exercises))
      ensures sessions == old(sessions) + [doc]
      ensures plans == old(plans) && logs == old(logs)
    {
      var prev := NextWorkout.LatestOfDay(sessions, req.dayNumber);
      var loadChanges := SessionReport.ComputeLoadChanges(prev, req.exercises);
      var report := Report(
        SessionReport.TotalVolume(req.exercises),
        |req.exercises|,
        SessionReport.CompletedCount(req.exercises),
        loadChanges);
      doc := WorkoutSession(id, req.dayNumber, req.dayName, now, req.durationMinutes, req.exercises, report);
      sessions := sessions + [doc];
    }
  }

  /** Logging a load for an id the plan does not have leaves the plan's exercises as they were. */
  lemma UnknownIdLeavesExercises(exs: seq<Exercise>, id: string, load: string)
    requires forall j :: 0 <= j < |exs| ==> exs[j].id != id
    ensures WithFirstLoad(exs, id, load) == exs
  {
  }

  /** With two exercises sharing the id, only the first gets the load. */
  lemma OnlyFirstMatchUpdated(exs: seq<Exercise>, id: string, load: string, i: nat, j: nat)
    requires i < j < |exs| && exs[i].id == id && exs[j].id == id
    requires forall k :: 0 <= k < i ==> exs[k].id != id
    ensures WithFirstLoad(exs, id, load)[i] == exs[i].(currentLoad := load)
    ensures WithFirstLoad(exs, id, load)[j] == exs[j]
  {
    var k := ExerciseIndex(exs, id).value;
    assert k == i;
  }
}
