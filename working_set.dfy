/** The active session's working list: the plan's exercises as fetched, each with
    `was_modified` and `original_name`, and the two `map` updates the session
    screen applies to it. */
module WorkingSet {
  import opened ServerModel

  datatype WorkingExercise = WorkingExercise(exercise: Exercise, wasModified: bool, originalName: string)

  /** The fields a session-only edit saves. */
  datatype ExercisePatch = ExercisePatch(name: string, sets: int, reps: int, currentLoad: string, originalName: string)

  /** The working list built when the plan arrives: `{...ex, was_modified: false,
      original_name: ex.name}` for each exercise, in plan order. */
  function FromPlan(exs: seq<Exercise>): (r: seq<WorkingExercise>)
    ensures |r| == |exs|
    ensures Ids(r) == seq(|exs|, i requires 0 <= i < |exs| => exs[i].id)
  {
    seq(|exs|, i requires 0 <= i < |exs| => WorkingExercise(exs[i], false, exs[i].name))
  }

  function Ids(ws: seq<WorkingExercise>): seq<string> {
    seq(|ws|, i requires 0 <= i < |ws| => ws[i].exercise.id)
  }

  function IdSet(ws: seq<WorkingExercise>): set<string> {
    set i | 0 <= i < |ws| :: ws[i].exercise.id
  }

  /** A list of n exercises has at most n distinct ids. */
  lemma {:induction false} IdSetSize(ws: seq<WorkingExercise>)
    ensures |IdSet(ws)| <= |ws|
    decreases |ws|
  {
    if ws != [] {
      var init := ws[..|ws| - 1];
      IdSetSize(init);
      assert IdSet(ws) == IdSet(init) + {ws[|ws| - 1].exercise.id} by {
        forall x | x in IdSet(ws) ensures x in IdSet(init) + {ws[|ws| - 1].exercise.id} {
          var i :| 0 <= i < |ws| && ws[i].exercise.id == x;
          if i < |init| { assert init[i] == ws[i]; }
        }
        forall x | x in IdSet(init) ensures x in IdSet(ws) {
          var i :| 0 <= i < |init| && init[i].exercise.id == x;
          assert ws[i] == init[i];
        }
      }
    }
  }

  /** The working list starts unmodified, in plan order, with each original name
      equal to the name. */
  lemma FromPlanFresh(exs: seq<Exercise>)
    ensures Ids(FromPlan(exs)) == seq(|exs|, i requires 0 <= i < |exs| => exs[i].id)
    ensures forall w :: w in FromPlan(exs) ==> !w.wasModified && w.originalName == w.exercise.name && w.exercise in exs
    ensures forall i :: 0 <= i < |exs| ==> FromPlan(exs)[i] == WorkingExercise(exs[i], false, exs[i].name)
  {
  }

  /** `{ ...ex, ...updates, was_modified: true }`. */
  function Merge(w: WorkingExercise, p: ExercisePatch): (r: WorkingExercise)
    ensures r.wasModified && r.originalName == p.originalName
    ensures r.exercise.name == p.name && r.exercise.sets == p.sets && r.exercise.reps == p.reps
    ensures r.exercise.currentLoad == p.currentLoad
    ensures r.exercise.(name := w.exercise.name, sets := w.exercise.sets, reps := w.exercise.reps,
                        currentLoad := w.exercise.currentLoad) == w.exercise
  {
    WorkingExercise(
      w.exercise.(name := p.name, sets := p.sets, reps := p.reps, currentLoad := p.currentLoad),
      true,
      p.originalName)
  }

  /** `updateExercise`: merge the patch into every exercise with the id. */
  function UpdateExercise(ws: seq<WorkingExercise>, id: string, p: ExercisePatch): (r: seq<WorkingExercise>)
    ensures |r| == |ws| && Ids(r) == Ids(ws)
  {
    seq(|ws|, i requires 0 <= i < |ws| => if ws[i].exercise.id == id then Merge(ws[i], p) else ws[i])
  }

  /** `onLoadUpdated`: replace only `current_load` of every exercise with the id. */
  function WithCurrentLoad(ws: seq<WorkingExercise>, id: string, load: string): (r: seq<WorkingExercise>)
    ensures |r| == |ws| && Ids(r) == Ids(ws)
  {
    seq(|ws|, i requires 0 <= i < |ws| =>
      if ws[i].exercise.id == id then ws[i].(exercise := ws[i].exercise.(currentLoad := load)) else ws[i])
  }

  /** A session edit keeps the list's ids and order, marks the edited exercises
      modified with the patched fields, and leaves every other exercise as it was. */
  lemma UpdateExerciseSpec(ws: seq<WorkingExercise>, id: string, p: ExercisePatch)
    ensures Ids(UpdateExercise(ws, id, p)) == Ids(ws)
    ensures forall i :: 0 <= i < |ws| && ws[i].exercise.id == id ==>
      var w := UpdateExercise(ws, id, p)[i];
      && w.wasModified && w.originalName == p.originalName
      && w.exercise.name == p.name && w.exercise.sets == p.sets && w.exercise.reps == p.reps
      && w.exercise.currentLoad == p.currentLoad
      && w.exercise.(name := ws[i].exercise.name, sets := ws[i].exercise.sets, reps := ws[i].exercise.reps,
                     currentLoad := ws[i].exercise.currentLoad) == ws[i].exercise
    ensures forall i :: 0 <= i < |ws| && ws[i].exercise.id != id ==> UpdateExercise(ws, id, p)[i] == ws[i]
  {
  }

  /** A load update keeps every `was_modified` flag, every original name and the ids. */
  lemma WithCurrentLoadKeepsFlags(ws: seq<WorkingExercise>, id: string, load: string)
    ensures Ids(WithCurrentLoad(ws, id, load)) == Ids(ws)
    ensures forall i :: 0 <= i < |ws| ==>
      var w := WithCurrentLoad(ws, id, load)[i];
      && w.wasModified == ws[i].wasModified && w.originalName == ws[i].originalName
      && w.exercise.currentLoad == (if ws[i].exercise.id == id then load else ws[i].exercise.currentLoad)
      && w.exercise.(currentLoad := ws[i].exercise.currentLoad) == ws[i].exercise
  {
  }
}
