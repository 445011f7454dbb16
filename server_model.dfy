/** The documents the backend stores (workout plans, exercise logs, workout
    sessions) and the request bodies it accepts, with `parse_load`. Identifiers
    are strings chosen by the caller where the server draws a uuid4, and
    timestamps are integers where the server reads the clock. */
module ServerModel {
  import opened Digits

  /** One exercise of a day's plan. */
  datatype Exercise = Exercise(
    id: string,
    name: string,
    sets: int,
    reps: int,
    restTime: string,
    restSeconds: int,
    currentLoad: string,
    muscleGroup: string,
    muscleLabel: string,
    notes: string)

  /** A stored plan: one training day with its ordered exercises. */
  datatype WorkoutPlan = WorkoutPlan(id: string, dayNumber: int, name: string, exercises: seq<Exercise>)

  /** A stored exercise-log document. */
  datatype ExerciseLog = ExerciseLog(
    id: string,
    exerciseId: string,
    exerciseName: string,
    load: string,
    sets: int,
    reps: int,
    date: int,
    dayNumber: int)

  /** The body of a request that creates an exercise log. */
  datatype ExerciseLogCreate = ExerciseLogCreate(
    exerciseId: string,
    exerciseName: string,
    load: string,
    sets: int,
    reps: int,
    dayNumber: int)

  /** One exercise as performed in a submitted session. */
  datatype SessionExercise = SessionExercise(
    exerciseId: string,
    name: string,
    sets: int,
    reps: int,
    load: string,
    muscleGroup: string,
    muscleLabel: string,
    completed: bool,
    wasModified: bool,
    originalName: string)

  /** The body of a request that records a finished session. */
  datatype WorkoutSessionCreate = WorkoutSessionCreate(
    dayNumber: int,
    dayName: string,
    durationMinutes: int,
    exercises: seq<SessionExercise>)

  /** The sign of `change_pct`: Up when the parsed load went up, Down when it went down. */
  datatype Trend = Up | Down

  /** One entry of a report's `load_changes`, with the raw load strings. */
  datatype LoadChange = LoadChange(exerciseName: string, previousLoad: string, currentLoad: string, trend: Trend)

  datatype Report = Report(
    totalVolume: int,
    totalExercises: nat,
    completedExercises: nat,
    loadChanges: seq<LoadChange>)

  /** A stored session document. */
  datatype WorkoutSession = WorkoutSession(
    id: string,
    dayNumber: int,
    dayName: string,
    completedAt: int,
    durationMinutes: int,
    exercises: seq<SessionExercise>,
    report: Report)

  const Bodyweight: string := "Corpo libero"

  /** `parse_load`: 0 for the empty string and for "Corpo libero", otherwise the
      value of the digits the string starts with (0 when it starts with none). */
  function ParseLoad(load: string): (r: nat)
    ensures load == Bodyweight ==> r == 0
    ensures r > 0 ==> load != [] && IsDigit(load[0])
  {
    if load == "" || load == Bodyweight then 0
    else DecimalValue(LeadingDigits(load, 10))
  }

  /** parse_load, described without LeadingDigits: 0 unless the string starts with
      a digit, and then the value of its maximal leading digit run. */
  lemma ParseLoadSpec(load: string, run: string)
    requires AllDigits(run) && run <= load && (|run| < |load| ==> !IsDigit(load[|run|]))
    ensures (load == [] || !IsDigit(load[0])) ==> ParseLoad(load) == 0
    ensures run != [] ==> ParseLoad(load) == DecimalValue(run)
  {
    MaximalDigitPrefixUnique(run, load, 10);
    if load != [] && load != Bodyweight && !IsDigit(load[0]) {
      assert LeadingDigits(load, 10) == [];
    }
  }

  /** Values the seeded plans rely on: "55-50" is 55 and "30+" is 30; a load
      that starts with anything but a digit, like "~20", is 0. */
  lemma ParseLoadExamples()
    ensures ParseLoad("55-50") == 55
    ensures ParseLoad("30+") == 30
    ensures ParseLoad("~20") == 0
    ensures ParseLoad(Bodyweight) == 0
  {
    ParseLoadSpec("55-50", "55");
    assert DecimalValue("55") == 55 by {
      assert "55"[..1] == "5";
      assert "5"[..0] == "";
    }
    ParseLoadSpec("30+", "30");
    assert DecimalValue("30") == 30 by {
      assert "30"[..1] == "3";
      assert "3"[..0] == "";
    }
    ParseLoadSpec("~20", "");
  }
}
