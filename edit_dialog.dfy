/** The session-only edit dialog: the form it starts with and the patch its save
    button hands to the session screen, with the `||` fallbacks of that patch. */
module EditExerciseDialog {
  import opened Wrappers
  import opened JsBuiltins
  import opened WorkingSet

  /** The four text fields of the dialog. */
  datatype EditForm = EditForm(name: string, sets: string, reps: string, load: string)

  /** The fields as filled in when the dialog receives an exercise. */
  function InitialForm(w: WorkingExercise): (f: EditForm)
    ensures f.name == w.exercise.name && f.load == w.exercise.currentLoad
    ensures ParseInt(f.sets) == Some(w.exercise.sets) && ParseInt(f.reps) == Some(w.exercise.reps)
  {
    IntStringRoundTrip(w.exercise.sets);
    IntStringRoundTrip(w.exercise.reps);
    EditForm(w.exercise.name, IntString(w.exercise.sets), IntString(w.exercise.reps), w.exercise.currentLoad)
  }

  /** `parseInt(text) || fallback`: the parsed number unless it is NaN or 0. */
  function IntOr(text: string, fallback: int): (r: int)
    ensures (ParseInt(text).None? || ParseInt(text) == Some(0)) ==> r == fallback
    ensures (ParseInt(text).Some? && ParseInt(text).value != 0) ==> r == ParseInt(text).value
  {
    match ParseInt(text)
    case None => fallback
    case Some(v) => if v != 0 then v else fallback
  }

  /** `text || fallback`: the text unless it is empty. */
  function StringOr(text: string, fallback: string): (r: string)
    ensures text != "" ==> r == text
    ensures text == "" ==> r == fallback
    ensures r == "" <==> text == "" && fallback == ""
  {
    if text != "" then text else fallback
  }

  /** The patch the save button passes to `onSave`. */
  function SavedPatch(w: WorkingExercise, form: EditForm): (p: ExercisePatch)
    ensures p.name == form.name
    ensures p.sets == IntOr(form.sets, w.exercise.sets) && p.reps == IntOr(form.reps, w.exercise.reps)
    ensures form.load != "" ==> p.currentLoad == form.load
    ensures form.load == "" ==> p.currentLoad == w.exercise.currentLoad
    ensures w.originalName != "" ==> p.originalName == w.originalName
    ensures w.originalName == "" ==> p.originalName == w.exercise.name
  {
    ExercisePatch(
      form.name,
      IntOr(form.sets, w.exercise.sets),
      IntOr(form.reps, w.exercise.reps),
      StringOr(form.load, w.exercise.currentLoad),
      StringOr(w.originalName, w.exercise.name))
  }

  /** Saving the form as it was filled in changes no field of the exercise; it only
      marks it modified and fixes its original name. */
  lemma SaveUntouchedForm(w: WorkingExercise)
    ensures Merge(w, SavedPatch(w, InitialForm(w)))
         == WorkingExercise(w.exercise, true, StringOr(w.originalName, w.exercise.name))
  {
    IntStringRoundTrip(w.exercise.sets);
    IntStringRoundTrip(w.exercise.reps);
  }

  /** An empty or zero sets/reps field keeps the old value: entering 0 reps for a
      timed exercise, or clearing the field, changes nothing. */
  lemma EmptyOrZeroKeepsOld(old_value: int)
    ensures IntOr("", old_value) == old_value
    ensures IntOr("0", old_value) == old_value
  {
    ParseIntWithoutDigits("");
    ParseIntOfDigits("0");
    assert "0"[..0] == "";
  }

  /** A number written back by `String(n)` is taken as it stands, negative ones
      included; only 0 falls back to the old value. */
  lemma IntOrOfIntString(n: int, fallback: int)
    ensures IntOr(IntString(n), fallback) == if n == 0 then fallback else n
  {
    IntStringRoundTrip(n);
  }

  /** The exercise after a series of saves from the dialog, each opened on the
      result of the one before. */
  function AfterSaves(w: WorkingExercise, forms: seq<EditForm>): WorkingExercise
    decreases |forms|
  {
    if forms == [] then w else AfterSaves(Merge(w, SavedPatch(w, forms[0])), forms[1..])
  }

  /** Repeated session edits keep the first original name: once it is non-empty, no
      later save replaces it, whatever names are entered. */
  lemma {:induction false} OriginalNameKept(w: WorkingExercise, forms: seq<EditForm>)
    requires w.originalName != ""
    ensures AfterSaves(w, forms).originalName == w.originalName
    ensures forms != [] ==> AfterSaves(w, forms).wasModified
    decreases |forms|
  {
    if forms != [] {
      var w' := Merge(w, SavedPatch(w, forms[0]));
      assert w'.originalName == w.originalName;
      OriginalNameKept(w', forms[1..]);
      if forms[1..] == [] {
        assert AfterSaves(w, forms) == w';
      }
    }
  }

  /** On a freshly loaded exercise with a name, every series of edits keeps the name
      the plan gave it as the original name. */
  lemma PlanNameSurvivesEdits(exs: seq<ServerModel.Exercise>, i: nat, forms: seq<EditForm>)
    requires i < |exs| && exs[i].name != ""
    ensures AfterSaves(FromPlan(exs)[i], forms).originalName == exs[i].name
  {
    OriginalNameKept(FromPlan(exs)[i], forms);
  }
}
