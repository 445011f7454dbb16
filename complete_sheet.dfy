/** The finish-workout sheet: the locally estimated volume, the session payload
    sent to the backend, and the sheet's own state (duration text, saving flag,
    report shown). */
module CompleteWorkoutSheet {
  import opened Wrappers
  import opened ServerModel
  import opened WorkingSet
  import Api
  import JsBuiltins
  import Digits

  /** `completedExercises`: the working exercises whose id is checked, in list order. */
  function CompletedExercises(ws: seq<WorkingExercise>, completed: set<string>): (r: seq<WorkingExercise>)
    ensures |r| <= |ws|
    ensures forall w :: w in r <==> w in ws && w.exercise.id in completed
  {
    if ws == [] then []
    else (if ws[0].exercise.id in completed then [ws[0]] else []) + CompletedExercises(ws[1..], completed)
  }

  /** sets x reps x parseLoad(current_load) for one working exercise. */
  function Estimate(w: WorkingExercise): (v: int)
    ensures w.exercise.sets >= 0 && w.exercise.reps >= 0 ==> v >= 0
    ensures Api.ParseLoad(w.exercise.currentLoad) == 0 ==> v == 0
  {
    w.exercise.sets * w.exercise.reps * Api.ParseLoad(w.exercise.currentLoad)
  }

  /** The `reduce` that sums the estimates of a list. */
  function SumEstimates(ws: seq<WorkingExercise>): (v: int)
    ensures (forall w :: w in ws ==> w.exercise.sets >= 0 && w.exercise.reps >= 0) ==> v >= 0
  {
    if ws == [] then 0 else Estimate(ws[0]) + SumEstimates(ws[1..])
  }

  /** `totalVolume`: the estimated volume of the checked exercises. */
  function EstimatedVolume(ws: seq<WorkingExercise>, completed: set<string>): (v: int)
    ensures (forall w :: w in ws ==> w.exercise.sets >= 0 && w.exercise.reps >= 0) ==> v >= 0
  {
    SumEstimates(CompletedExercises(ws, completed))
  }

  lemma {:induction false} CompletedExercisesAppend(a: seq<WorkingExercise>, b: seq<WorkingExercise>, completed: set<string>)
    ensures CompletedExercises(a + b, completed) == CompletedExercises(a, completed) + CompletedExercises(b, completed)
  {
    if a != [] {
      assert (a + b)[0] == a[0];
      assert (a + b)[1..] == a[1..] + b;
      CompletedExercisesAppend(a[1..], b, completed);
      var head := if a[0].exercise.id in completed then [a[0]] else [];
      calc {
        CompletedExercises(a + b, completed);
        head + CompletedExercises(a[1..] + b, completed);
        head + (CompletedExercises(a[1..], completed) + CompletedExercises(b, completed));
        { assert head + (CompletedExercises(a[1..], completed) + CompletedExercises(b, completed))
              == (head + CompletedExercises(a[1..], completed)) + CompletedExercises(b, completed); }
        CompletedExercises(a, completed) + CompletedExercises(b, completed);
      }
    } else {
      assert a + b == b;
    }
  }

  lemma {:induction false} SumEstimatesAppend(a: seq<WorkingExercise>, b: seq<WorkingExercise>)
    ensures SumEstimates(a + b) == SumEstimates(a) + SumEstimates(b)
  {
    if a != [] {
      assert (a + b)[0] == a[0];
      assert (a + b)[1..] == a[1..] + b;
      SumEstimatesAppend(a[1..], b);
    } else {
      assert a + b == b;
    }
  }

  /** Nothing checked, no estimated volume. */
  lemma {:induction false} NothingCheckedNoVolume(ws: seq<WorkingExercise>)
    ensures EstimatedVolume(ws, {}) == 0
  {
    if ws != [] {
      NothingCheckedNoVolume(ws[1..]);
    }
  }

  /** An exercise with 0 reps (a timed exercise) adds nothing, checked or not. */
  lemma ZeroRepsAddNothing(a: seq<WorkingExercise>, w: WorkingExercise, b: seq<WorkingExercise>, completed: set<string>)
    requires w.exercise.reps == 0
    ensures EstimatedVolume(a + [w] + b, completed) == EstimatedVolume(a + b, completed)
  {
    var ca, cw, cb := CompletedExercises(a, completed), CompletedExercises([w], completed), CompletedExercises(b, completed);
    assert SumEstimates(cw) == 0 by {
      assert [w][1..] == [];
      assert cw == [w] || cw == [];
      if cw == [w] {
        assert cw[1..] == [];
      }
    }
    CompletedExercisesAppend(a + [w], b, completed);
    CompletedExercisesAppend(a, [w], completed);
    CompletedExercisesAppend(a, b, completed);
    SumEstimatesAppend(ca + cw, cb);
    SumEstimatesAppend(ca, cw);
    SumEstimatesAppend(ca, cb);
  }

  /** A is 4 x 10 at "20", B is 3 x 12 at "Bodyweight"; the estimate is 800
      whether B is checked or not. */
  lemma BodyweightExerciseAddsNothing(a: WorkingExercise, b: WorkingExercise)
    requires a.exercise.id == "A" && a.exercise.sets == 4 && a.exercise.reps == 10 && a.exercise.currentLoad == "20"
    requires b.exercise.id == "B" && b.exercise.sets == 3 && b.exercise.reps == 12 && b.exercise.currentLoad == Api.Bodyweight
    ensures EstimatedVolume([a, b], {"A"}) == 800
    ensures EstimatedVolume([a, b], {"A", "B"}) == 800
  {
    assert Api.ParseLoad("20") == 20 by {
      Api.DigitsParseToTheirValue("20");
      assert "20"[..1] == "2";
      assert "2"[..0] == "";
    }
    assert Estimate(a) == 800;
    assert Estimate(b) == 0;
    assert [a, b][1..] == [b];
    assert [b][1..] == [];
    assert CompletedExercises([b], {"A"}) == [];
    assert CompletedExercises([a, b], {"A"}) == [a];
    assert CompletedExercises([b], {"A", "B"}) == [b];
    assert CompletedExercises([a, b], {"A", "B"}) == [a] + [b];
    assert [a][1..] == [];
    assert SumEstimates([b]) == 0;
    assert SumEstimates([a]) == 800;
    assert SumEstimates([a] + [b]) == 800 by {
      SumEstimatesAppend([a], [b]);
    }
  }

  /** One payload entry. `was_modified || false` is the flag itself here, since
      the flag is always a boolean; an empty original name falls back to the name. */
  function PayloadEntry(w: WorkingExercise, completed: set<string>): (e: SessionExercise)
    ensures e.exerciseId == w.exercise.id && (e.completed <==> w.exercise.id in completed)
    ensures e.originalName == "" ==> w.originalName == "" && w.exercise.name == ""
  {
    SessionExercise(
      w.exercise.id,
      w.exercise.name,
      w.exercise.sets,
      w.exercise.reps,
      w.exercise.currentLoad,
      w.exercise.muscleGroup,
      w.exercise.muscleLabel,
      w.exercise.id in completed,
      w.wasModified,
      if w.originalName != "" then w.originalName else w.exercise.name)
  }

  /** The `exercises` of the payload: one entry per working exercise, in order. */
  function PayloadExercises(ws: seq<WorkingExercise>, completed: set<string>): (r: seq<SessionExercise>)
    ensures |r| == |ws|
    ensures forall i :: 0 <= i < |ws| ==> r[i].exerciseId == ws[i].exercise.id
    ensures forall i :: 0 <= i < |ws| ==> (r[i].completed <==> ws[i].exercise.id in completed)
  {
    seq(|ws|, i requires 0 <= i < |ws| => PayloadEntry(ws[i], completed))
  }

  /** The request body of `createWorkoutSession`; the duration is `parseInt` of the
      text, None standing for NaN. */
  datatype SessionPayload = SessionPayload(
    dayNumber: int,
    dayName: string,
    durationMinutes: Option<int>,
    exercises: seq<SessionExercise>)

  function BuildPayload(plan: WorkoutPlan, ws: seq<WorkingExercise>, completed: set<string>, duration: string): (p: SessionPayload)
    ensures p.dayNumber == plan.dayNumber && p.dayName == plan.name
    ensures p.durationMinutes.Some? ==> !Digits.NoDigits(duration)
    ensures |p.exercises| == |ws|
    ensures p.exercises == PayloadExercises(ws, completed)
    ensures p.durationMinutes == JsBuiltins.ParseInt(duration)
  {
    SessionPayload(plan.dayNumber, plan.name, JsBuiltins.ParseInt(duration), PayloadExercises(ws, completed))
  }

  /** The payload mirrors the working list: same order and ids, raw loads, the
      completed flag exactly for checked ids, and the session-edit audit fields. */
  lemma PayloadSpec(ws: seq<WorkingExercise>, completed: set<string>)
    ensures |PayloadExercises(ws, completed)| == |ws|
    ensures forall i :: 0 <= i < |ws| ==>
      var e := PayloadExercises(ws, completed)[i];
      && e.exerciseId == ws[i].exercise.id && e.name == ws[i].exercise.name && e.load == ws[i].exercise.currentLoad
      && e.sets == ws[i].exercise.sets && e.reps == ws[i].exercise.reps
      && (e.completed <==> ws[i].exercise.id in completed)
      && e.wasModified == ws[i].wasModified
      && e.originalName == (if ws[i].originalName != "" then ws[i].originalName else ws[i].exercise.name)
      && e.muscleGroup == ws[i].exercise.muscleGroup && e.muscleLabel == ws[i].exercise.muscleLabel
  {
  }

  /** Messages the sheet shows. */
  datatype Notice = NoNotice | DurationRequired | Saved | SaveFailed

  /** The parent's callbacks the sheet can fire when it is left. */
  datatype Callback = OnClose | OnComplete

  class CompleteWorkoutState {
    var duration: string
    var saving: bool
    var report: Option<Report>

    constructor()
      ensures duration == "" && !saving && report == None
    {
      duration := "";
      saving := false;
      report := None;
    }

    method EnterDuration(text: string)
      modifies this
      ensures duration == text && saving == old(saving) && report == old(report)
    {
      duration := text;
    }

    /** `handleSave`. An empty duration is refused before anything is sent. Otherwise
        the payload is built (a missing plan fails inside the try block) and sent;
        `response` is the backend's report, None when the request fails. */
    method HandleSave(plan: Option<WorkoutPlan>, ws: seq<WorkingExercise>, completed: set<string>, response: Option<Report>)
      returns (sent: Option<SessionPayload>, notice: Notice)
      modifies this
      ensures duration == old(duration)
      ensures old(duration) == "" ==>
                sent == None && notice == DurationRequired && saving == old(saving) && report == old(report)
      ensures old(duration) != "" ==> !saving
      ensures old(duration) != "" && plan.None? ==> sent == None && notice == SaveFailed && report == old(report)
      ensures old(duration) != "" && plan.Some? ==>
                && sent == Some(BuildPayload(plan.value, ws, completed, old(duration)))
                && (response.Some? ==> report == response && notice == Saved)
                && (response.None? ==> report == old(report) && notice == SaveFailed)
    {
      if duration == "" {
        return None, DurationRequired;
      }
      saving := true;
      if plan.None? {
        sent, notice := None, SaveFailed;
      } else {
        sent := Some(BuildPayload(plan.value, ws, completed, duration));
        if response.Some? {
          report := response;
          notice := Saved;
        } else {
          notice := SaveFailed;
        }
      }
      saving := false;
    }

    /** `handleClose`, run when the drawer is dismissed: drop the report, clear the
        duration and fire `onClose`. */
    method HandleClose() returns (callback: Callback)
      modifies this
      ensures report == None && duration == "" && saving == old(saving)
      ensures callback == OnClose
    {
      report := None;
      duration := "";
      callback := OnClose;
    }

    /** The back-to-dashboard button under the report: the same reset, but it fires
        `onComplete` instead. */
    method BackToDashboard() returns (callback: Callback)
      modifies this
      ensures report == None && duration == "" && saving == old(saving)
      ensures callback == OnComplete
    {
      report := None;
      duration := "";
      callback := OnComplete;
    }
  }
}
