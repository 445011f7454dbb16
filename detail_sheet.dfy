/** The exercise-detail sheet: the progression chart, the recent-history list,
    the update-load visibility rule and the add-load handler. */
module ExerciseDetailSheet {
  import opened Wrappers
  import opened ServerModel
  import Api
  import JsBuiltins

  /** One chart point; the date's display formatting is not modelled. */
  datatype ChartPoint = ChartPoint(date: int, load: nat)

  /** `chartData`: one point per log, in log order, with the frontend's load parse. */
  function ChartData(logs: seq<ExerciseLog>): (points: seq<ChartPoint>)
    ensures |points| == |logs|
    ensures forall i :: 0 <= i < |logs| ==>
      points[i] == ChartPoint(logs[i].date, Api.ParseLoad(logs[i].load))
  {
    seq(|logs|, i requires 0 <= i < |logs| => ChartPoint(logs[i].date, Api.ParseLoad(logs[i].load)))
  }

  /** The points of consecutive stretches of logs are the consecutive stretches
      of points. */
  lemma ChartDataAppend(a: seq<ExerciseLog>, b: seq<ExerciseLog>)
    ensures ChartData(a + b) == ChartData(a) + ChartData(b)
  {
  }

  /** With logs in the backend's order the chart's x axis runs forward in time. */
  lemma ChartDataChronological(logs: seq<ExerciseLog>)
    requires DateAscending(logs)
    ensures forall i, j :: 0 <= i < j < |ChartData(logs)| ==> ChartData(logs)[i].date <= ChartData(logs)[j].date
  {
  }

  /** The chart is drawn only with more than one point, that is with two logs or more. */
  predicate ChartShown(logs: seq<ExerciseLog>): (shown: bool)
    ensures shown <==> |logs| >= 2
  {
    |ChartData(logs)| > 1
  }

  /** A copy of `s` in reverse order. */
  function Reversed<T>(s: seq<T>): (r: seq<T>)
    ensures |r| == |s|
    ensures forall i :: 0 <= i < |s| ==> r[i] == s[|s| - 1 - i]
  {
    if s == [] then [] else [s[|s| - 1]] + Reversed(s[..|s| - 1])
  }

  /** `[...logs].reverse().slice(0, 10)`: at most ten logs, the last stored first. */
  function HistoryView(logs: seq<ExerciseLog>): (view: seq<ExerciseLog>)
    ensures |view| == if |logs| < 10 then |logs| else 10
    ensures forall i :: 0 <= i < |view| ==> view[i] == logs[|logs| - 1 - i]
  {
    var r := Reversed(logs);
    if |r| <= 10 then r else r[..10]
  }

  /** Logs as the backend returns them: ascending by date. */
  predicate DateAscending(logs: seq<ExerciseLog>) {
    forall i, j :: 0 <= i < j < |logs| ==> logs[i].date <= logs[j].date
  }

  /** With logs in the backend's order, the history list runs newest first, and
      it holds the newest logs: nothing left out is newer than anything shown. */
  lemma HistoryNewestFirst(logs: seq<ExerciseLog>)
    requires DateAscending(logs)
    ensures var view := HistoryView(logs);
      forall i, j :: 0 <= i < j < |view| ==> view[i].date >= view[j].date
    ensures var view := HistoryView(logs);
      forall i, k :: 0 <= i < |view| && 0 <= k < |logs| - |view| ==> logs[k].date <= view[i].date
  {
  }

  /** The add button is disabled while saving or while the input trims to nothing. */
  predicate AddDisabled(saving: bool, newLoad: string): (disabled: bool)
    ensures disabled <==> saving || JsBuiltins.TrimStart(newLoad) == []
  {
    JsBuiltins.TrimStartEmptyIffBlank(newLoad);
    saving || JsBuiltins.IsBlank(newLoad)
  }

  /** The update-load section is hidden exactly for the literal "Bodyweight". */
  predicate UpdateLoadShown(w: Exercise) {
    w.currentLoad != Api.Bodyweight
  }

  /** Only the frontend's body-weight sentinel hides the section, and every load
      that the chart would plot above zero can be updated. */
  lemma UpdateLoadHiddenOnlyForBodyweight(w: Exercise)
    ensures !UpdateLoadShown(w) <==> w.currentLoad == "Bodyweight"
    ensures Api.ParseLoad(w.currentLoad) > 0 ==> UpdateLoadShown(w)
  {
  }

  /** The server's own body-weight marker does not hide the section. */
  lemma CorpoLiberoStillEditable(w: Exercise)
    requires w.currentLoad == ServerModel.Bodyweight
    ensures UpdateLoadShown(w)
  {
    assert ServerModel.Bodyweight[0] != Api.Bodyweight[0];
  }

  /** The `onLoadUpdated(exercise.id, newLoad)` callback's arguments. */
  datatype LoadUpdate = LoadUpdate(exerciseId: string, load: string)

  datatype Notice = NoNotice | LoadUpdated | UpdateFailed

  class ExerciseDetailState {
    var logs: seq<ExerciseLog>
    var newLoad: string
    var saving: bool

    constructor()
      ensures logs == [] && newLoad == "" && !saving
    {
      logs := [];
      newLoad := "";
      saving := false;
    }

    /** The fetch on open: a failed fetch (None) is swallowed and the logs stay. */
    method LogsFetched(response: Option<seq<ExerciseLog>>)
      modifies this
      ensures logs == (if response.Some? then response.value else old(logs))
      ensures newLoad == old(newLoad) && saving == old(saving)
    {
      if response.Some? {
        logs := response.value;
      }
    }

    method EnterLoad(text: string)
      modifies this
      ensures newLoad == text && logs == old(logs) && saving == old(saving)
    {
      newLoad := text;
    }

    /** `handleAddLoad`. `created` says whether the log creation succeeded and
        `refetched` is the re-fetch's answer (None when it fails). The request,
        the callback and the notice are returned rather than performed. */
    method HandleAddLoad(w: Exercise, dayNumber: int, created: bool, refetched: Option<seq<ExerciseLog>>)
      returns (request: Option<ExerciseLogCreate>, update: Option<LoadUpdate>, notice: Notice)
      modifies this
      ensures JsBuiltins.IsBlank(old(newLoad)) ==>
                request == None && update == None && notice == NoNotice
                && logs == old(logs) && newLoad == old(newLoad) && saving == old(saving)
      ensures !JsBuiltins.IsBlank(old(newLoad)) ==>
                && request == Some(ExerciseLogCreate(w.id, w.name, old(newLoad), w.sets, w.reps, dayNumber))
                && !saving
                && (created && refetched.Some? ==>
                      logs == refetched.value && update == Some(LoadUpdate(w.id, old(newLoad)))
                      && newLoad == "" && notice == LoadUpdated)
                && (!(created && refetched.Some?) ==>
                      logs == old(logs) && update == None && newLoad == old(newLoad) && notice == UpdateFailed)
    {
      if JsBuiltins.IsBlank(newLoad) {
        return None, None, NoNotice;
      }
      saving := true;
      request := Some(ExerciseLogCreate(w.id, w.name, newLoad, w.sets, w.reps, dayNumber));
      if created && refetched.Some? {
        logs := refetched.value;
        update := Some(LoadUpdate(w.id, newLoad));
        newLoad := "";
        notice := LoadUpdated;
      } else {
        update, notice := None, UpdateFailed;
      }
      saving := false;
    }
  }
}
