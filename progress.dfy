/**
 * Per-user progress bookkeeping of coach/views.py: the lesson-completion
 * credit and daily streak of `lesson_detail`, the practice-time endpoint
 * `update_practice_time`, and the seven-day chart of `progress_view`.
 */
module Progress {
  import opened Wrappers
  import opened PyJson
  import opened Models
  import opened Responses

  /** Minutes credited for a lesson viewed for the first time. */
  const LessonMinutes: int := 10

  // ---------------------------------------------------------------------
  // lesson_detail
  // ---------------------------------------------------------------------

  /**
   * The stored progress after the user views `lesson` on day `today`: the
   * first view of a lesson completes it and credits LessonMinutes; the
   * streak is kept on a second visit the same day, grows by one on the day
   * after the last activity, and restarts at 1 after a gap or on the first
   * activity ever.
   */
  function AfterLessonView(row: ProgressRow, lesson: int, today: int): (r: ProgressRow)
    ensures r.completed == row.completed + {lesson}
    ensures r.minutes == row.minutes + (if lesson in row.completed then 0 else LessonMinutes)
    ensures r.lastActivity == Some(today)
    ensures row.lastActivity == Some(today) ==> r.streak == row.streak
    ensures row.lastActivity == Some(today - 1) ==> r.streak == row.streak + 1
    ensures row.lastActivity != Some(today) && row.lastActivity != Some(today - 1) ==> r.streak == 1
    ensures r.level == row.level && r.wordsLearned == row.wordsLearned
  {
    var credited := if lesson in row.completed then row
                    else row.(completed := row.completed + {lesson}, minutes := row.minutes + LessonMinutes);
    if row.lastActivity == Some(today) then credited
    else if row.lastActivity == Some(today - 1) then
      credited.(streak := row.streak + 1, lastActivity := Some(today))
    else
      credited.(streak := 1, lastActivity := Some(today))
  }

  /**
   * What lesson_detail as written leaves in the database: the lesson is
   * added to the completed set at once (a many-to-many add is written
   * immediately), but the row itself, minutes included, is saved only in
   * the branch where the day differs from the last activity.
   */
  function AfterLessonViewAsWritten(row: ProgressRow, lesson: int, today: int): (r: ProgressRow)
    ensures r.completed == row.completed + {lesson}
    ensures row.lastActivity != Some(today) ==> r == AfterLessonView(row, lesson, today)
    ensures row.lastActivity == Some(today) ==>
              && r.minutes == row.minutes && r.streak == row.streak
              && r.lastActivity == row.lastActivity
              && r.level == row.level && r.wordsLearned == row.wordsLearned
  {
    if row.lastActivity == Some(today) then row.(completed := row.completed + {lesson})
    else AfterLessonView(row, lesson, today)
  }

  /**
   * The discrepancy: a lesson viewed for the first time on a day that
   * already had activity is marked completed, but its minutes are lost.
   */
  lemma SameDayFirstViewLosesCredit(row: ProgressRow, lesson: int, today: int)
    requires row.lastActivity == Some(today) && lesson !in row.completed
    ensures lesson in AfterLessonViewAsWritten(row, lesson, today).completed
    ensures AfterLessonViewAsWritten(row, lesson, today).minutes == row.minutes
    ensures AfterLessonView(row, lesson, today).minutes == row.minutes + LessonMinutes
  {
  }

  /** An instance: lesson 2 viewed on day 738000 after lesson 1 the same day. */
  lemma SameDayFirstViewLosesCreditExample()
    ensures var row := ProgressRow("A1", {1}, 10, 0, 1, Some(738000));
            && AfterLessonViewAsWritten(row, 2, 738000).minutes == 10
            && AfterLessonView(row, 2, 738000).minutes == 20
  {
  }

  /**
   * lesson_detail on the user's progress, with the row saved on every
   * path. `lessonExists` is whether the lesson id names a stored lesson.
   */
  method LessonDetail(lessonExists: bool, lesson: int, progress: UserProgress, today: int) returns (resp: Response)
    modifies progress
    ensures !lessonExists ==> resp == NotFound && progress.Row() == old(progress.Row())
    ensures lessonExists ==> resp == Page("lesson_detail.html")
    ensures lessonExists ==> progress.Row() == AfterLessonView(old(progress.Row()), lesson, today)
  {
    if !lessonExists {
      return NotFound;
    }
    if lesson !in progress.completedLessons {
      progress.practiceTimeMinutes := progress.practiceTimeMinutes + LessonMinutes;
      progress.completedLessons := progress.completedLessons + {lesson};
    }
    if progress.lastActivityDate != Some(today) {
      if progress.lastActivityDate == Some(today - 1) {
        progress.currentStreak := progress.currentStreak + 1;
      } else {
        progress.currentStreak := 1;
      }
      progress.lastActivityDate := Some(today);
    }
    resp := Page("lesson_detail.html");
  }

  /** One request to lesson_detail: which lesson, on which day. */
  datatype Visit = Visit(lesson: int, day: int)

  /** The stored progress after a series of lesson views, oldest first. */
  function Replay(row: ProgressRow, visits: seq<Visit>): ProgressRow
  {
    if visits == [] then row
    else
      var v := visits[|visits| - 1];
      AfterLessonView(Replay(row, visits[..|visits| - 1]), v.lesson, v.day)
  }

  predicate VisitedOn(visits: seq<Visit>, day: int)
  {
    exists i :: 0 <= i < |visits| && visits[i].day == day
  }

  function LessonsOf(visits: seq<Visit>): set<int>
  {
    set i | 0 <= i < |visits| :: visits[i].lesson
  }

  lemma VisitedOnPrefix(visits: seq<Visit>, day: int)
    requires |visits| > 0 && VisitedOn(visits[..|visits| - 1], day)
    ensures VisitedOn(visits, day)
  {
    var p := visits[..|visits| - 1];
    var i :| 0 <= i < |p| && p[i].day == day;
    assert visits[i].day == day;
  }

  /**
   * With the clock never going back, the streak after a series of views is
   * the length of the run of consecutive activity days ending with the
   * latest: every day of the run had a visit and the day before it did not.
   */
  lemma {:induction false} StreakIsRunOfConsecutiveDays(start: ProgressRow, visits: seq<Visit>)
    requires start.lastActivity == None && |visits| > 0
    requires forall i, j :: 0 <= i < j < |visits| ==> visits[i].day <= visits[j].day
    ensures var r := Replay(start, visits);
            var today := visits[|visits| - 1].day;
            && r.lastActivity == Some(today)
            && r.streak >= 1
            && (forall d :: today - r.streak < d <= today ==> VisitedOn(visits, d))
            && !VisitedOn(visits, today - r.streak)
  {
    var n := |visits|;
    var today := visits[n - 1].day;
    var p := visits[..n - 1];
    var r := Replay(start, visits);
    assert visits[n - 1].day == today;
    if n == 1 {
      assert p == [];
      assert Replay(start, p) == start;
      assert r.streak == 1;
      forall d | today - r.streak < d <= today
        ensures VisitedOn(visits, d)
      {
        assert visits[0].day == d;
      }
    } else {
      StreakIsRunOfConsecutiveDays(start, p);
      var q := Replay(start, p);
      var prev := p[n - 2].day;
      assert q.lastActivity == Some(prev);
      assert prev <= today;
      forall d | today - r.streak < d <= today
        ensures VisitedOn(visits, d)
      {
        if d != today {
          assert VisitedOn(p, d);
          VisitedOnPrefix(visits, d);
        }
      }
    }
  }

  /**
   * Over any series of views, the minutes credited are LessonMinutes for
   * each distinct lesson not completed before, whatever the order and
   * however often a lesson is viewed again.
   */
  lemma {:induction false} PracticeCreditedOncePerLesson(start: ProgressRow, visits: seq<Visit>)
    ensures Replay(start, visits).completed == start.completed + LessonsOf(visits)
    ensures Replay(start, visits).minutes
            == start.minutes + LessonMinutes * |LessonsOf(visits) - start.completed|
  {
    if visits != [] {
      var n := |visits|;
      var p := visits[..n - 1];
      var v := visits[n - 1];
      PracticeCreditedOncePerLesson(start, p);
      var q := Replay(start, p);
      assert Replay(start, visits) == AfterLessonView(q, v.lesson, v.day);
      LessonsOfSnoc(visits);
      var newOnes := LessonsOf(visits) - start.completed;
      var before := LessonsOf(p) - start.completed;
      if v.lesson in q.completed {
        assert newOnes == before;
      } else {
        assert newOnes == before + {v.lesson};
      }
    }
  }

  lemma LessonsOfSnoc(visits: seq<Visit>)
    requires visits != []
    ensures LessonsOf(visits) == LessonsOf(visits[..|visits| - 1]) + {visits[|visits| - 1].lesson}
  {
    var n := |visits|;
    var p := visits[..n - 1];
    forall x | x in LessonsOf(visits) ensures x in LessonsOf(p) + {visits[n - 1].lesson} {
      var i :| 0 <= i < n && visits[i].lesson == x;
      if i < n - 1 { assert p[i].lesson == x; }
    }
    forall x | x in LessonsOf(p) ensures x in LessonsOf(visits) {
      var i :| 0 <= i < n - 1 && p[i].lesson == x;
      assert visits[i].lesson == x;
    }
  }

  // ---------------------------------------------------------------------
  // update_practice_time
  // ---------------------------------------------------------------------

  /**
   * The minutes an update_practice_time body asks for: `int(minutes)`,
   * with `minutes` defaulting to 1; Err where Python raises (a body that
   * is not an object, or a value int() rejects).
   */
  function MinutesToAdd(body: Json): (r: Result<int, string>)
    ensures !body.Obj? ==> r.Err?
    ensures body.Obj? && "minutes" !in body.fields ==> r == Ok(1)
    ensures body.Obj? && "minutes" in body.fields ==> r == PyInt(body.fields["minutes"])
  {
    if !body.Obj? then Err("AttributeError")
    else PyInt(Get(body.fields, "minutes", Int(1)))
  }

  /**
   * update_practice_time. `body` is the decoded request body, None when it
   * is not valid JSON.
   */
  method UpdatePracticeTime(isPost: bool, body: Option<Json>, progress: UserProgress) returns (resp: Response)
    modifies progress
    ensures !isPost ==> resp == ErrorResponse("Invalid request")
    ensures !isPost || body.None? || MinutesToAdd(body.value).Err? ==>
              resp.JsonResponse? && resp.status == 400 && progress.Row() == old(progress.Row())
    ensures isPost && body.Some? && MinutesToAdd(body.value).Ok? ==>
              && progress.Row() == old(progress.Row()).(minutes := old(progress.practiceTimeMinutes) + MinutesToAdd(body.value).value)
              && resp == JsonResponse(200, map["status" := Str("success"), "new_total" := Int(progress.practiceTimeMinutes)])
  {
    if !isPost {
      return ErrorResponse("Invalid request");
    }
    if body.None? {
      return ErrorResponse("JSONDecodeError");
    }
    var minutes := MinutesToAdd(body.value);
    match minutes
    case Err(e) =>
      resp := ErrorResponse(e);
    case Ok(n) =>
      progress.practiceTimeMinutes := progress.practiceTimeMinutes + n;
      resp := JsonResponse(200, map["status" := Str("success"), "new_total" := Int(progress.practiceTimeMinutes)]);
  }

  // ---------------------------------------------------------------------
  // progress_view
  // ---------------------------------------------------------------------

  const WeekdayAbbreviations: seq<string> := ["Mon", "Tue", "Wed", "Thu", "Fri", "Sat", "Sun"]

  /** `strftime('%a')` of the date with ordinal `day` (ordinal 1 is a Monday). */
  function WeekdayLabel(day: int): string
  {
    WeekdayAbbreviations[(day + 6) % 7]
  }

  /** The count shown for `day`: the sessions started that day, 0 if none. */
  function SessionsOn(sessions: map<int, nat>, day: int): nat
  {
    if day in sessions then sessions[day] else 0
  }

  /**
   * The chart of progress_view: one label and one value for each of the
   * seven days ending with `today`, oldest first. `sessions` maps a day to
   * the number of conversations started on it.
   */
  method ProgressChart(today: int, sessions: map<int, nat>) returns (labels: seq<string>, data: seq<nat>)
    ensures |labels| == 7 && |data| == 7
    ensures forall i :: 0 <= i < 7 ==> labels[i] == WeekdayLabel(today - 6 + i)
    ensures forall i :: 0 <= i < 7 ==> data[i] == SessionsOn(sessions, today - 6 + i)
    ensures forall i, j :: 0 <= i < j < 7 ==> labels[i] != labels[j]
    ensures labels[6] == WeekdayLabel(today)
  {
    labels, data := [], [];
    var current := today - 6;
    for i := 0 to 7
      invariant current == today - 6 + i
      invariant |labels| == i && |data| == i
      invariant forall k :: 0 <= k < i ==> labels[k] == WeekdayLabel(today - 6 + k)
      invariant forall k :: 0 <= k < i ==> data[k] == SessionsOn(sessions, today - 6 + k)
    {
      labels := labels + [WeekdayLabel(current)];
      data := data + [SessionsOn(sessions, current)];
      current := current + 1;
    }
    forall i, j | 0 <= i < j < 7
      ensures labels[i] != labels[j]
    {
      if labels[i] == labels[j] {
        SameLabelSameWeekday(today - 6 + i, today - 6 + j);
      }
    }
  }

  /** Two days with the same weekday label are a whole number of weeks apart. */
  lemma SameLabelSameWeekday(d1: int, d2: int)
    requires WeekdayLabel(d1) == WeekdayLabel(d2)
    ensures (d2 - d1) % 7 == 0
  {
    var a, b := (d1 + 6) % 7, (d2 + 6) % 7;
    assert WeekdayAbbreviations[a] == WeekdayAbbreviations[b];
    assert a == b;
    assert d1 + 6 == ((d1 + 6) / 7) * 7 + a;
    assert d2 + 6 == ((d2 + 6) / 7) * 7 + b;
    assert d2 - d1 == ((d2 + 6) / 7 - (d1 + 6) / 7) * 7;
  }
}
