/** The active-session screen: the working list, the set of completed exercise
    ids, the exercise open in the edit dialog, and the events that replace them. */
module ActiveWorkout {
  import opened Wrappers
  import opened ServerModel
  import opened WorkingSet
  import EditExerciseDialog

  /** `toggleComplete` on a set value: remove the id if present, add it otherwise. */
  function Toggle(s: set<string>, id: string): (r: set<string>)
    ensures id in r <==> id !in s
    ensures forall x :: x != id ==> (x in r <==> x in s)
  {
    if id in s then s - {id} else s + {id}
  }

  /** Toggling the same id twice restores the set. */
  lemma ToggleTwice(s: set<string>, id: string)
    ensures Toggle(Toggle(s, id), id) == s
  {
  }

  lemma SubsetSize(a: set<string>, b: set<string>)
    ensures a <= b ==> |a| <= |b|
  {
    if a <= b {
      assert b == a + (b - a);
    }
  }

  /** `progress`: 0 for an empty list, otherwise completed / total x 100. */
  function ProgressOf(exercises: seq<WorkingExercise>, completed: set<string>): (p: real)
    ensures exercises == [] ==> p == 0.0
    ensures completed <= IdSet(exercises) ==> 0.0 <= p <= 100.0
    ensures exercises != [] ==> (p == 0.0 <==> completed == {})
  {
    if |exercises| > 0 then
      IdSetSize(exercises);
      SubsetSize(completed, IdSet(exercises));
      (|completed| as real / |exercises| as real) * 100.0
    else 0.0
  }

  class ActiveWorkoutPage {
    var plan: Option<WorkoutPlan>
    var exercises: seq<WorkingExercise>
    var completed: set<string>
    var editing: Option<WorkingExercise>
    var loading: bool

    constructor()
      ensures plan == None && exercises == [] && completed == {} && editing == None && loading
    {
      plan := None;
      exercises := [];
      completed := {};
      editing := None;
      loading := true;
    }

    /** The plan request settled: on success keep the plan and build the working
        list; either way stop loading. The completed set is not reset. */
    method PlanFetched(response: Option<WorkoutPlan>)
      modifies this
      ensures response.Some? ==> plan == response && exercises == FromPlan(response.value.exercises)
      ensures response.None? ==> plan == old(plan) && exercises == old(exercises)
      ensures completed == old(completed) && editing == old(editing) && !loading
    {
      if response.Some? {
        plan := response;
        exercises := FromPlan(response.value.exercises);
      }
      loading := false;
    }

    /** `toggleComplete`: copy the set, then delete the id if present or add it. */
    method ToggleComplete(id: string)
      modifies this
      ensures completed == Toggle(old(completed), id)
      ensures exercises == old(exercises) && plan == old(plan) && editing == old(editing) && loading == old(loading)
    {
      var next := completed;
      if id in next {
        next := next - {id};
      } else {
        next := next + {id};
      }
      completed := next;
    }

    /** `updateExercise`: a session-only edit of the exercises with the id. */
    method UpdateExercise(id: string, updates: ExercisePatch)
      modifies this
      ensures exercises == WorkingSet.UpdateExercise(old(exercises), id, updates)
      ensures completed == old(completed) && plan == old(plan) && editing == old(editing) && loading == old(loading)
    {
      exercises := WorkingSet.UpdateExercise(exercises, id, updates);
    }

    /** `onLoadUpdated` from the detail sheet: only the current load changes. */
    method OnLoadUpdated(id: string, load: string)
      modifies this
      ensures exercises == WithCurrentLoad(old(exercises), id, load)
      ensures completed == old(completed) && plan == old(plan) && editing == old(editing) && loading == old(loading)
    {
      exercises := WithCurrentLoad(exercises, id, load);
    }

    /** The edit button of a card opens the dialog on that exercise as shown. */
    method OpenEdit(w: WorkingExercise)
      modifies this
      ensures editing == Some(w)
      ensures exercises == old(exercises) && completed == old(completed) && plan == old(plan) && loading == old(loading)
    {
      editing := Some(w);
    }

    /** Cancel (or dismissing the dialog) closes it without saving anything. */
    method CancelEdit()
      modifies this
      ensures editing == None
      ensures exercises == old(exercises) && completed == old(completed) && plan == old(plan) && loading == old(loading)
    {
      editing := None;
    }

    /** Save: apply the dialog's patch as a session-only edit and close the dialog.
        Without an exercise the dialog renders nothing, so nothing can be saved. */
    method SaveEdit(form: EditExerciseDialog.EditForm)
      modifies this
      ensures old(editing).Some? ==>
                var w := old(editing).value;
                && exercises == WorkingSet.UpdateExercise(old(exercises), w.exercise.id, EditExerciseDialog.SavedPatch(w, form))
                && editing == None
      ensures old(editing).None? ==> exercises == old(exercises) && editing == old(editing)
      ensures completed == old(completed) && plan == old(plan) && loading == old(loading)
    {
      if editing.Some? {
        var w := editing.value;
        UpdateExercise(w.exercise.id, EditExerciseDialog.SavedPatch(w, form));
        editing := None;
      }
    }

    function Progress(): (p: real)
      reads this
      ensures completed <= IdSet(exercises) ==> 0.0 <= p <= 100.0
    {
      ProgressOf(exercises, completed)
    }

    /** The complete button is disabled exactly while nothing is checked; for a
        non-empty list that is exactly when the progress is 0. */
    predicate CompleteDisabled()
      reads this
      ensures CompleteDisabled() <==> completed == {}
      ensures exercises != [] ==> (CompleteDisabled() <==> Progress() == 0.0)
    {
      |completed| == 0
    }
  }
}
