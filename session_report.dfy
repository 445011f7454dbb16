/** The report the backend attaches to a finished session: total volume over the
    completed exercises, completed and total counts, and load changes against the
    latest earlier session of the same day. */
module SessionReport {
  import opened Wrappers
  import opened ServerModel

  /** sets x reps x parse_load(load) for one exercise. */
  function Contribution(ex: SessionExercise): (v: int)
    ensures ex.sets >= 0 && ex.reps >= 0 ==> v >= 0
    ensures ParseLoad(ex.load) == 0 ==> v == 0
  {
    ex.sets * ex.reps * ParseLoad(ex.load)
  }

  /** `total_volume`: the sum of the contributions of the completed exercises. */
  function TotalVolume(exs: seq<SessionExercise>): (v: int)
    ensures (forall i :: 0 <= i < |exs| ==> exs[i].sets >= 0 && exs[i].reps >= 0) ==> v >= 0
  {
    if exs == [] then 0
    else (if exs[0].completed then Contribution(exs[0]) else 0) + TotalVolume(exs[1..])
  }

  /** `completed_exercises`: how many exercises are marked completed. */
  function CompletedCount(exs: seq<SessionExercise>): (n: nat)
    ensures n <= |exs|
  {
    if exs == [] then 0
    else (if exs[0].completed then 1 else 0) + CompletedCount(exs[1..])
  }

  lemma {:induction false} TotalVolumeAppend(a: seq<SessionExercise>, b: seq<SessionExercise>)
    ensures TotalVolume(a + b) == TotalVolume(a) + TotalVolume(b)
  {
    if a != [] {
      assert (a + b)[0] == a[0];
      assert (a + b)[1..] == a[1..] + b;
      TotalVolumeAppend(a[1..], b);
    } else {
      assert a + b == b;
    }
  }

  /** With nothing completed the volume and the completed count are both 0. */
  lemma {:induction false} NothingCompleted(exs: seq<SessionExercise>)
    requires forall i :: 0 <= i < |exs| ==> !exs[i].completed
    ensures TotalVolume(exs) == 0 && CompletedCount(exs) == 0
  {
    if exs != [] {
      NothingCompleted(exs[1..]);
    }
  }

  /** With everything completed the completed count is the total count. */
  lemma {:induction false} AllCompleted(exs: seq<SessionExercise>)
    requires forall i :: 0 <= i < |exs| ==> exs[i].completed
    ensures CompletedCount(exs) == |exs|
  {
    if exs != [] {
      AllCompleted(exs[1..]);
    }
  }

  /** An exercise that is not completed adds nothing, whatever its sets, reps and load. */
  lemma IncompleteAddsNothing(a: seq<SessionExercise>, ex: SessionExercise, b: seq<SessionExercise>)
    requires !ex.completed
    ensures TotalVolume(a + [ex] + b) == TotalVolume(a + b)
    ensures CompletedCount(a + [ex] + b) == CompletedCount(a + b)
  {
    TotalVolumeAppend(a + [ex], b);
    TotalVolumeAppend(a, [ex]);
    TotalVolumeAppend(a, b);
    CompletedCountAppend(a + [ex], b);
    CompletedCountAppend(a, [ex]);
    CompletedCountAppend(a, b);
  }

  lemma {:induction false} CompletedCountAppend(a: seq<SessionExercise>, b: seq<SessionExercise>)
    ensures CompletedCount(a + b) == CompletedCount(a) + CompletedCount(b)
  {
    if a != [] {
      assert (a + b)[0] == a[0];
      assert (a + b)[1..] == a[1..] + b;
      CompletedCountAppend(a[1..], b);
    } else {
      assert a + b == b;
    }
  }

  /** `prev_map`: the previous session's exercises by id. The dictionary is built in
      order, so when an id repeats the last exercise with that id is kept. */
  function BaselineMap(exs: seq<SessionExercise>): (m: map<string, SessionExercise>)
    ensures m.Keys == set i | 0 <= i < |exs| :: exs[i].exerciseId
  {
    if exs == [] then map[]
    else
      var init := exs[..|exs| - 1];
      var m := BaselineMap(init)[exs[|exs| - 1].exerciseId := exs[|exs| - 1]];
      assert forall i :: 0 <= i < |init| ==> init[i] == exs[i];
      m
  }

  /** The baseline entry for an id is the last previous exercise with that id. */
  lemma {:induction false} BaselineMapLastWins(exs: seq<SessionExercise>, i: nat)
    requires i < |exs|
    requires forall j :: i < j < |exs| ==> exs[j].exerciseId != exs[i].exerciseId
    ensures exs[i].exerciseId in BaselineMap(exs) && BaselineMap(exs)[exs[i].exerciseId] == exs[i]
    decreases |exs|
  {
    if i < |exs| - 1 {
      var init := exs[..|exs| - 1];
      BaselineMapLastWins(init, i);
    }
  }

  /** A load change as the report can contain it: the previous parsed load was
      positive, the current one differs from it, and the trend gives the sign of
      the difference. */
  predicate IsGenuineChange(c: LoadChange) {
    && ParseLoad(c.previousLoad) > 0
    && ParseLoad(c.currentLoad) != ParseLoad(c.previousLoad)
    && (c.trend == Up <==> ParseLoad(c.currentLoad) > ParseLoad(c.previousLoad))
    && (c.trend == Down <==> ParseLoad(c.currentLoad) < ParseLoad(c.previousLoad))
  }

  /** The load change reported for one submitted exercise against the baseline, if any.
      The completed flag plays no part. */
  function ChangeFor(baseline: map<string, SessionExercise>, ex: SessionExercise): (c: Option<LoadChange>)
    ensures c.Some? ==> IsGenuineChange(c.value)
    ensures c.Some? ==> (ex.exerciseId in baseline && c.value.exerciseName == ex.name
      && c.value.previousLoad == baseline[ex.exerciseId].load && c.value.currentLoad == ex.load)
    ensures c.None? ==> (ex.exerciseId !in baseline
      || ParseLoad(baseline[ex.exerciseId].load) == 0
      || ParseLoad(ex.load) == ParseLoad(baseline[ex.exerciseId].load))
  {
    if ex.exerciseId in baseline then
      var previous := baseline[ex.exerciseId];
      var prevLoad := ParseLoad(previous.load);
      var currLoad := ParseLoad(ex.load);
      if prevLoad > 0 && currLoad != prevLoad then
        Some(LoadChange(ex.name, previous.load, ex.load, if currLoad > prevLoad then Up else Down))
      else None
    else None
  }

  function OptionToSeq<T>(o: Option<T>): seq<T> {
    match o
    case None => []
    case Some(x) => [x]
  }

  /** `load_changes` for a baseline: the changes of the submitted exercises, in
      submission order. */
  function LoadChanges(baseline: map<string, SessionExercise>, exs: seq<SessionExercise>): (r: seq<LoadChange>)
    ensures |r| <= |exs|
    decreases |exs|
  {
    if exs == [] then []
    else LoadChanges(baseline, exs[..|exs| - 1]) + OptionToSeq(ChangeFor(baseline, exs[|exs| - 1]))
  }

  /** `load_changes`: empty without an earlier session of the same day, otherwise
      computed against that session's exercises. */
  function ChangesAgainst(prev: Option<WorkoutSession>, exs: seq<SessionExercise>): (r: seq<LoadChange>)
    ensures prev.None? ==> r == []
    ensures |r| <= |exs|
  {
    match prev
    case None => []
    case Some(p) => LoadChanges(BaselineMap(p.exercises), exs)
  }

  /** The report stored with a new session. */
  function ReportOf(prev: Option<WorkoutSession>, exs: seq<SessionExercise>): (r: Report)
    ensures r.totalExercises == |exs| && r.completedExercises <= r.totalExercises
    ensures |r.loadChanges| <= |exs|
    ensures prev.None? ==> r.loadChanges == []
    ensures r == Report(TotalVolume(exs), |exs|, CompletedCount(exs), ChangesAgainst(prev, exs))
  {
    Report(TotalVolume(exs), |exs|, CompletedCount(exs), ChangesAgainst(prev, exs))
  }

  /** The loop that builds `load_changes`. */
  method ComputeLoadChanges(prev: Option<WorkoutSession>, exs: seq<SessionExercise>)
    returns (changes: seq<LoadChange>)
    ensures changes == ChangesAgainst(prev, exs)
  {
    changes := [];
    if prev.Some? {
      var baseline := BaselineMap(prev.value.exercises);
      var i := 0;
      while i < |exs|
        invariant 0 <= i <= |exs|
        invariant changes == LoadChanges(baseline, exs[..i])
      {
        var ex := exs[i];
        assert exs[..i + 1][..i] == exs[..i];
        if ex.exerciseId in baseline {
          var prevLoad := ParseLoad(baseline[ex.exerciseId].load);
          var currLoad := ParseLoad(ex.load);
          if prevLoad > 0 && currLoad != prevLoad {
            var trend := if currLoad > prevLoad then Up else Down;
            changes := changes + [LoadChange(ex.name, baseline[ex.exerciseId].load, ex.load, trend)];
          }
        }
        i := i + 1;
      }
      assert exs[..i] == exs;
    }
  }

  /** Changes follow submission order: the changes for a + b are those for a, then those for b. */
  lemma {:induction false} LoadChangesAppend(baseline: map<string, SessionExercise>, a: seq<SessionExercise>, b: seq<SessionExercise>)
    ensures LoadChanges(baseline, a + b) == LoadChanges(baseline, a) + LoadChanges(baseline, b)
    decreases |b|
  {
    if b != [] {
      var b' := b[..|b| - 1];
      var last := OptionToSeq(ChangeFor(baseline, b[|b| - 1]));
      assert (a + b)[..|a + b| - 1] == a + b';
      assert (a + b)[|a + b| - 1] == b[|b| - 1];
      assert LoadChanges(baseline, a + b) == LoadChanges(baseline, a + b') + last;
      assert LoadChanges(baseline, b) == LoadChanges(baseline, b') + last;
      LoadChangesAppend(baseline, a, b');
    } else {
      assert a + b == a;
    }
  }

  /** A change is in the list exactly when some submitted exercise produces it. */
  lemma {:induction false} LoadChangesMembers(baseline: map<string, SessionExercise>, exs: seq<SessionExercise>, c: LoadChange)
    ensures c in LoadChanges(baseline, exs) <==> exists i :: 0 <= i < |exs| && ChangeFor(baseline, exs[i]) == Some(c)
    decreases |exs|
  {
    if exs != [] {
      var init := exs[..|exs| - 1];
      var last := exs[|exs| - 1];
      LoadChangesMembers(baseline, init, c);
      assert LoadChanges(baseline, exs) == LoadChanges(baseline, init) + OptionToSeq(ChangeFor(baseline, last));
      assert c in OptionToSeq(ChangeFor(baseline, last)) <==> ChangeFor(baseline, last) == Some(c);
      if c in LoadChanges(baseline, init) {
        var i :| 0 <= i < |init| && ChangeFor(baseline, init[i]) == Some(c);
        assert init[i] == exs[i];
      } else if ChangeFor(baseline, last) != Some(c) {
        forall i | 0 <= i < |exs| ensures ChangeFor(baseline, exs[i]) != Some(c) {
          if i < |init| { assert init[i] == exs[i]; }
        }
      }
    }
  }

  /** Every reported change is genuine, and there is at most one per submitted exercise. */
  lemma {:induction false} LoadChangesGenuine(baseline: map<string, SessionExercise>, exs: seq<SessionExercise>)
    ensures |LoadChanges(baseline, exs)| <= |exs|
    ensures forall c :: c in LoadChanges(baseline, exs) ==> IsGenuineChange(c)
    decreases |exs|
  {
    if exs != [] {
      LoadChangesGenuine(baseline, exs[..|exs| - 1]);
    }
  }

  /** Two submissions that differ only in their completed flags get the same changes. */
  lemma {:induction false} LoadChangesIgnoreCompleted(baseline: map<string, SessionExercise>, a: seq<SessionExercise>, b: seq<SessionExercise>)
    requires |a| == |b|
    requires forall i :: 0 <= i < |a| ==> a[i].(completed := b[i].completed) == b[i]
    ensures LoadChanges(baseline, a) == LoadChanges(baseline, b)
    decreases |a|
  {
    if a != [] {
      LoadChangesIgnoreCompleted(baseline, a[..|a| - 1], b[..|b| - 1]);
      assert ChangeFor(baseline, a[|a| - 1]) == ChangeFor(baseline, b[|b| - 1]);
    }
  }

  /** A baseline exercise at body weight ("Corpo libero", parsed as 0) never yields a change. */
  lemma NoChangeFromBodyweightBaseline(baseline: map<string, SessionExercise>, ex: SessionExercise)
    requires ex.exerciseId in baseline && baseline[ex.exerciseId].load == Bodyweight
    ensures ChangeFor(baseline, ex) == None
  {
  }

  /** Switching a weighted exercise to "Corpo libero" is reported as a drop: the
      backend excludes only a body-weight baseline, not a body-weight current load. */
  lemma BodyweightNowIsReportedAsDrop(baseline: map<string, SessionExercise>, ex: SessionExercise)
    requires ex.exerciseId in baseline && ParseLoad(baseline[ex.exerciseId].load) > 0
    requires ex.load == Bodyweight
    ensures ChangeFor(baseline, ex).Some? && ChangeFor(baseline, ex).value.trend == Down
  {
  }

  /** The scenario of the backend's tests: two completed exercises, 4x4 at "16" and
      4x4 at "90", give a volume of 1696 with 2 of 2 completed. */
  lemma ReportTestScenario(prev: Option<WorkoutSession>, a: SessionExercise, b: SessionExercise)
    requires a.sets == 4 && a.reps == 4 && a.load == "16" && a.completed
    requires b.sets == 4 && b.reps == 4 && b.load == "90" && b.completed
    ensures ReportOf(prev, [a, b]).totalVolume == 1696
    ensures ReportOf(prev, [a, b]).totalExercises == 2 && ReportOf(prev, [a, b]).completedExercises == 2
    ensures ReportOf(None, [a, b]) == Report(1696, 2, 2, [])
  {
    assert ParseLoad("16") == 16 by {
      ParseLoadSpec("16", "16");
      assert "16"[..1] == "1";
      assert "1"[..0] == "";
    }
    assert ParseLoad("90") == 90 by {
      ParseLoadSpec("90", "90");
      assert "90"[..1] == "9";
      assert "9"[..0] == "";
    }
    assert Contribution(a) == 256;
    assert Contribution(b) == 1440;
    assert [a, b][1..] == [b];
    assert [b][1..] == [];
    assert TotalVolume([b]) == 1440;
    assert TotalVolume([a, b]) == 1696;
    assert CompletedCount([a, b]) == 2;
  }
}
