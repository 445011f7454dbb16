/** How the frontend and the backend relate: the two load parsers (the backend
    reads only a leading digit run, the frontend the first digit run anywhere),
    and the finish sheet's estimate against the report the backend computes from
    the payload the sheet sends. */
module Consistency {
  import opened Digits
  import ServerModel
  import Api
  import opened WorkingSet
  import opened CompleteWorkoutSheet
  import SessionReport

  /** The parsers agree on a string that starts with a digit and on one with no digit at all. */
  lemma ParsersAgree(load: string)
    requires (load != [] && IsDigit(load[0])) || NoDigits(load)
    ensures ServerModel.ParseLoad(load) == Api.ParseLoad(load)
  {
    if NoDigits(load) {
      Api.NoDigitsIsZero(load);
      if load != [] && load != ServerModel.Bodyweight {
        assert !IsDigit(load[0]);
      }
    } else {
      assert FirstDigitIndex(load) == 0;
      assert load[0..] == load;
    }
  }

  /** They disagree on "~20": the backend reads 0, the frontend 20. */
  lemma ParsersDisagreeOnTilde()
    ensures ServerModel.ParseLoad("~20") == 0 && Api.ParseLoad("~20") == 20
  {
    ServerModel.ParseLoadExamples();
    Api.ParseLoadSkipsPrefix();
  }

  lemma PayloadTail(ws: seq<WorkingExercise>, completed: set<string>)
    requires ws != []
    ensures PayloadExercises(ws, completed)[0] == PayloadEntry(ws[0], completed)
    ensures PayloadExercises(ws, completed)[1..] == PayloadExercises(ws[1..], completed)
  {
  }

  /** When the two parsers agree on every checked load, the volume the sheet shows
      is the total volume the backend reports for the payload it is sent. */
  lemma {:induction false} EstimateMatchesReport(ws: seq<WorkingExercise>, completed: set<string>)
    requires forall i :: 0 <= i < |ws| && ws[i].exercise.id in completed ==>
      ServerModel.ParseLoad(ws[i].exercise.currentLoad) == Api.ParseLoad(ws[i].exercise.currentLoad)
    ensures EstimatedVolume(ws, completed) == SessionReport.TotalVolume(PayloadExercises(ws, completed))
  {
    if ws != [] {
      PayloadTail(ws, completed);
      assert forall i :: 0 <= i < |ws[1..]| ==> ws[1..][i] == ws[i + 1];
      EstimateMatchesReport(ws[1..], completed);
      if ws[0].exercise.id in completed {
        assert CompletedExercises(ws, completed) == [ws[0]] + CompletedExercises(ws[1..], completed);
        assert ([ws[0]] + CompletedExercises(ws[1..], completed))[1..] == CompletedExercises(ws[1..], completed);
      } else {
        assert CompletedExercises(ws, completed) == CompletedExercises(ws[1..], completed);
      }
    }
  }

  /** The report's counts agree with the sheet: every working exercise is sent,
      and the completed count is the number of checked exercises listed. */
  lemma {:induction false} CountsMatchSheet(ws: seq<WorkingExercise>, completed: set<string>)
    ensures |PayloadExercises(ws, completed)| == |ws|
    ensures SessionReport.CompletedCount(PayloadExercises(ws, completed)) == |CompletedExercises(ws, completed)|
  {
    if ws != [] {
      PayloadTail(ws, completed);
      CountsMatchSheet(ws[1..], completed);
    }
  }

  /** A frontend load with a prefix before its digits makes the two disagree: one
      checked set of 1 x 1 at "~20" is estimated at 20 and reported at 0. */
  lemma EstimateDiffersOnTilde(w: WorkingExercise)
    requires w.exercise.sets == 1 && w.exercise.reps == 1 && w.exercise.currentLoad == "~20"
    ensures EstimatedVolume([w], {w.exercise.id}) == 20
    ensures SessionReport.TotalVolume(PayloadExercises([w], {w.exercise.id})) == 0
  {
    ParsersDisagreeOnTilde();
    var p := PayloadExercises([w], {w.exercise.id});
    assert p[0].completed && p[0].load == "~20" && p[1..] == [];
    assert [w][1..] == [];
    assert CompletedExercises([w], {w.exercise.id}) == [w];
    assert Estimate(w) == 20;
    assert SumEstimates([w]) == Estimate(w) + SumEstimates([]);
  }

  /** Saved without edits, a plan's exercises reach the backend unchanged and in
      plan order, flagged as unmodified with their own name as original name. */
  lemma UneditedPayload(exs: seq<ServerModel.Exercise>, completed: set<string>)
    ensures |PayloadExercises(FromPlan(exs), completed)| == |exs|
    ensures forall i :: 0 <= i < |exs| ==>
      var e := PayloadExercises(FromPlan(exs), completed)[i];
      && e.exerciseId == exs[i].id && e.name == exs[i].name && e.load == exs[i].currentLoad
      && e.sets == exs[i].sets && e.reps == exs[i].reps
      && !e.wasModified && e.originalName == exs[i].name
  {
  }
}
