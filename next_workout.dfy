/** The backend's session queries and `get_next_workout`: the latest session
    (overall, or of one day) and the round-robin choice of the next day. */
module NextWorkout {
  import opened Wrappers
  import opened ServerModel

  /** A query sorted by `completed_at` descending that keeps the first document:
      a session with the largest timestamp. The database leaves the order among
      equal timestamps open; this model fixes it to the one stored first. */
  function Latest(ss: seq<WorkoutSession>): (r: Option<WorkoutSession>)
    ensures r.None? <==> ss == []
    ensures r.Some? ==> r.value in ss
    ensures r.Some? ==> forall i :: 0 <= i < |ss| ==> ss[i].completedAt <= r.value.completedAt
    decreases |ss|
  {
    if ss == [] then None
    else
      var rest := Latest(ss[..|ss| - 1]);
      var last := ss[|ss| - 1];
      if rest.None? || last.completedAt > rest.value.completedAt then Some(last) else rest
  }

  /** The tie-break this model fixes: among sessions with the largest timestamp,
      Latest picks the earliest stored. */
  lemma {:induction false} LatestIsFirstMaximum(ss: seq<WorkoutSession>)
    requires ss != []
    ensures exists i ::
              && 0 <= i < |ss| && ss[i] == Latest(ss).value
              && forall j :: 0 <= j < i ==> ss[j].completedAt < ss[i].completedAt
    decreases |ss|
  {
    var init := ss[..|ss| - 1];
    var last := ss[|ss| - 1];
    if init == [] || last.completedAt > Latest(init).value.completedAt {
      var i := |ss| - 1;
      forall j | 0 <= j < i ensures ss[j].completedAt < ss[i].completedAt {
        assert ss[j] == init[j];
      }
    } else {
      LatestIsFirstMaximum(init);
      var i :| 0 <= i < |init| && init[i] == Latest(init).value
        && forall j :: 0 <= j < i ==> init[j].completedAt < init[i].completedAt;
      assert ss[i] == init[i];
      forall j | 0 <= j < i ensures ss[j].completedAt < ss[i].completedAt {
        assert ss[j] == init[j];
      }
    }
  }

  /** The sessions of one day, in stored order. */
  function OfDay(ss: seq<WorkoutSession>, day: int): (r: seq<WorkoutSession>)
    ensures forall s :: s in r <==> s in ss && s.dayNumber == day
  {
    if ss == [] then []
    else (if ss[0].dayNumber == day then [ss[0]] else []) + OfDay(ss[1..], day)
  }

  /** Filtering keeps stored order: the sessions of a day from two stretches of the
      collection are those of the first stretch followed by those of the second. */
  lemma {:induction false} OfDayAppend(a: seq<WorkoutSession>, b: seq<WorkoutSession>, day: int)
    ensures OfDay(a + b, day) == OfDay(a, day) + OfDay(b, day)
  {
    if a != [] {
      assert (a + b)[0] == a[0];
      assert (a + b)[1..] == a[1..] + b;
      OfDayAppend(a[1..], b, day);
      var head := if a[0].dayNumber == day then [a[0]] else [];
      calc {
        OfDay(a + b, day);
        head + OfDay(a[1..] + b, day);
        head + (OfDay(a[1..], day) + OfDay(b, day));
        { assert head + (OfDay(a[1..], day) + OfDay(b, day)) == (head + OfDay(a[1..], day)) + OfDay(b, day); }
        OfDay(a, day) + OfDay(b, day);
      }
    } else {
      assert a + b == b;
    }
  }

  ghost predicate HasSessionOn(ss: seq<WorkoutSession>, day: int) {
    exists i :: 0 <= i < |ss| && ss[i].dayNumber == day
  }

  /** `find_one({"day_number": day}, sort=[("completed_at", -1)])`. */
  function LatestOfDay(ss: seq<WorkoutSession>, day: int): (r: Option<WorkoutSession>)
    ensures r.Some? ==> r.value in ss && r.value.dayNumber == day
  {
    Latest(OfDay(ss, day))
  }

  /** The latest session of a day exists exactly when the day has a session, is of
      that day, and is at least as recent as every session of that day. */
  lemma LatestOfDaySpec(ss: seq<WorkoutSession>, day: int)
    ensures LatestOfDay(ss, day).Some? <==> HasSessionOn(ss, day)
    ensures LatestOfDay(ss, day).Some? ==>
      var s := LatestOfDay(ss, day).value;
      s in ss && s.dayNumber == day
      && forall i :: 0 <= i < |ss| && ss[i].dayNumber == day ==> ss[i].completedAt <= s.completedAt
  {
    var r := OfDay(ss, day);
    if HasSessionOn(ss, day) {
      var i :| 0 <= i < |ss| && ss[i].dayNumber == day;
      assert ss[i] in r;
    }
    if r != [] {
      assert r[0] in ss;
      var s := Latest(r).value;
      forall i | 0 <= i < |ss| && ss[i].dayNumber == day ensures ss[i].completedAt <= s.completedAt {
        assert ss[i] in r;
        var k :| 0 <= k < |r| && r[k] == ss[i];
      }
    }
  }

  /** `next_day`: 1 without sessions, otherwise the day after the latest session's
      day, counting 1, 2, 3 round robin (Python's % is never negative for divisor 3). */
  function NextDay(ss: seq<WorkoutSession>): (d: int)
    ensures 1 <= d <= 3
    ensures ss == [] ==> d == 1
  {
    match Latest(ss)
    case None => 1
    case Some(s) => s.dayNumber % 3 + 1
  }

  /** One entry of `last_sessions`. */
  datatype LastSession = LastSession(completedAt: int, durationMinutes: int)

  /** The response of `get_next_workout`; `last_sessions` is keyed by the day number
      (the backend writes the key as a string). */
  datatype NextWorkoutInfo = NextWorkoutInfo(nextDay: int, lastSessions: map<int, LastSession>)

  function Summary(s: WorkoutSession): LastSession {
    LastSession(s.completedAt, s.durationMinutes)
  }

  /** `get_next_workout` over the stored sessions. */
  method GetNextWorkout(ss: seq<WorkoutSession>) returns (info: NextWorkoutInfo)
    ensures info.nextDay == NextDay(ss)
    ensures info.lastSessions.Keys == set d | 1 <= d <= 3 && HasSessionOn(ss, d)
    ensures forall d :: d in info.lastSessions ==>
      LatestOfDay(ss, d).Some? && info.lastSessions[d] == Summary(LatestOfDay(ss, d).value)
  {
    var lastSessions: map<int, LastSession> := map[];
    var day := 1;
    while day <= 3
      invariant 1 <= day <= 4
      invariant lastSessions.Keys == set d | 1 <= d < day && HasSessionOn(ss, d)
      invariant forall d :: d in lastSessions ==>
        LatestOfDay(ss, d).Some? && lastSessions[d] == Summary(LatestOfDay(ss, d).value)
    {
      var s := LatestOfDay(ss, day);
      LatestOfDaySpec(ss, day);
      if s.Some? {
        lastSessions := lastSessions[day := Summary(s.value)];
      }
      day := day + 1;
    }
    var last := Latest(ss);
    var nextDay := 1;
    if last.Some? {
      nextDay := last.value.dayNumber % 3 + 1;
    }
    info := NextWorkoutInfo(nextDay, lastSessions);
  }

  /** A session newer than every stored one decides the next day by itself. */
  lemma NextDayAfterNewerSession(ss: seq<WorkoutSession>, s: WorkoutSession)
    requires forall i :: 0 <= i < |ss| ==> ss[i].completedAt < s.completedAt
    ensures NextDay(ss + [s]) == s.dayNumber % 3 + 1
  {
    assert (ss + [s])[..|ss + [s]| - 1] == ss;
  }

  /** Doing the suggested day moves the suggestion on by one: 1, 2, 3, 1, ... */
  lemma FollowingTheSuggestionCycles(ss: seq<WorkoutSession>, s: WorkoutSession)
    requires forall i :: 0 <= i < |ss| ==> ss[i].completedAt < s.completedAt
    requires s.dayNumber == NextDay(ss)
    ensures NextDay(ss + [s]) == NextDay(ss) % 3 + 1
  {
    NextDayAfterNewerSession(ss, s);
  }

  /** The choice is round robin only: with sessions of day 1 and then day 2, day 3
      is suggested, whether or not the plan has a day 3 and however old day 1's
      session is. */
  lemma RoundRobinIgnoresAge(a: WorkoutSession, b: WorkoutSession)
    requires a.dayNumber == 1 && b.dayNumber == 2 && a.completedAt < b.completedAt
    ensures NextDay([a, b]) == 3
  {
    NextDayAfterNewerSession([a], b);
    assert [a] + [b] == [a, b];
  }
}
