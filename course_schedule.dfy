/**
 * The course schedule screen: the weekday chips, the header label, and
 * the list of the selected day's courses, filtered by day and stably
 * sorted by start time.
 */
module CourseSchedule {
  import opened Wrappers
  import opened Model
  import opened KotlinText
  import opened ListRows
  import NavGraph

  /** `Calendar.SUNDAY`; the calendar numbers the week Sunday = 1 .. Saturday = 7. */
  const CalendarSunday: int := 1

  /** The screen's weekday numbering, Monday = 1 .. Sunday = 7, of a calendar day. */
  function MondayFirst(calendarDay: int): (day: int)
    requires 1 <= calendarDay <= 7
    ensures 1 <= day <= 7
    ensures calendarDay == CalendarSunday ==> day == 7
    ensures calendarDay != CalendarSunday ==> day == calendarDay - 1
  {
    if calendarDay == CalendarSunday then 7 else calendarDay - 1
  }

  /** The calendar's numbering of a Monday-first weekday: the inverse of MondayFirst. */
  function CalendarDay(day: int): (calendarDay: int)
    requires 1 <= day <= 7
    ensures 1 <= calendarDay <= 7
  {
    if day == 7 then CalendarSunday else day + 1
  }

  /** The remapping is a bijection on 1..7. */
  lemma MondayFirstIsBijection()
    ensures forall c :: 1 <= c <= 7 ==> CalendarDay(MondayFirst(c)) == c
    ensures forall d :: 1 <= d <= 7 ==> MondayFirst(CalendarDay(d)) == d
  {
  }

  /**
   * `getCurrentDayOfWeek()`, with the calendar's `DAY_OF_WEEK` reading
   * passed in: the local `day` is read from the calendar, then remapped.
   */
  method GetCurrentDayOfWeek(calendarDayOfWeek: int) returns (day: int)
    requires 1 <= calendarDayOfWeek <= 7
    ensures day == MondayFirst(calendarDayOfWeek)
    ensures CalendarDay(day) == calendarDayOfWeek
  {
    day := calendarDayOfWeek;
    day := if day == CalendarSunday then 7 else day - 1;
  }

  /** The chip and header labels, Monday first. */
  const WeekDays: seq<string> := ["周一", "周二", "周三", "周四", "周五", "周六", "周日"]

  /** The name of each calendar day, as the calendar numbers them (Sunday = 1). */
  function CalendarDayName(calendarDay: int): string
    requires 1 <= calendarDay <= 7
  {
    match calendarDay
    case 1 => "周日"
    case 2 => "周一"
    case 3 => "周二"
    case 4 => "周三"
    case 5 => "周四"
    case 6 => "周五"
    case _ => "周六"
  }

  /** The label shown for the remapped day names the weekday the calendar reported. */
  lemma LabelOfCurrentDay(calendarDay: int)
    requires 1 <= calendarDay <= 7
    ensures WeekDays[MondayFirst(calendarDay) - 1] == CalendarDayName(calendarDay)
  {
  }

  // ---------------------------------------------------------------------
  // The day's course list

  /** `courses.filter { it.dayOfWeek == day }` */
  function CoursesOn(courses: seq<Course>, day: int): (r: seq<Course>)
    ensures forall i :: 0 <= i < |r| ==> r[i].dayOfWeek == day
    ensures forall c :: c in r <==> c in courses && c.dayOfWeek == day
  {
    if courses == [] then []
    else (if courses[0].dayOfWeek == day then [courses[0]] else []) + CoursesOn(courses[1..], day)
  }

  /** The filter keeps each course of the day exactly as often as the input has it, and no other. */
  lemma {:induction false} CoursesOnCounts(courses: seq<Course>, day: int)
    ensures forall c ::
              multiset(CoursesOn(courses, day))[c] == if c.dayOfWeek == day then multiset(courses)[c] else 0
  {
    if courses != [] {
      CoursesOnCounts(courses[1..], day);
      assert courses == [courses[0]] + courses[1..];
    }
  }

  /** The filter's defining step: the first course is kept in front exactly when it is on the day. */
  lemma CoursesOnCons(x: Course, t: seq<Course>, day: int)
    ensures CoursesOn([x] + t, day) == (if x.dayOfWeek == day then [x] else []) + CoursesOn(t, day)
  {
    assert ([x] + t)[1..] == t;
  }

  /** Concatenation regroups freely. */
  lemma ConcatAssoc<T>(p: seq<T>, q: seq<T>, r: seq<T>)
    ensures p + (q + r) == (p + q) + r
  {
  }

  /** The defining step of the filter, when the list goes on with `b` after `[x] + t`. */
  lemma CoursesOnConsAppend(x: Course, t: seq<Course>, b: seq<Course>, day: int)
    ensures CoursesOn([x] + t + b, day) == (if x.dayOfWeek == day then [x] else []) + CoursesOn(t + b, day)
  {
    assert [x] + t + b == [x] + (t + b);
    CoursesOnCons(x, t + b, day);
  }

  /**
   * The filter distributes over concatenation, so it keeps input order:
   * what it keeps from an earlier part comes before what it keeps from a later one.
   */
  lemma {:induction false} CoursesOnAppend(a: seq<Course>, b: seq<Course>, day: int)
    ensures CoursesOn(a + b, day) == CoursesOn(a, day) + CoursesOn(b, day)
  {
    if a == [] {
      assert a + b == b;
    } else {
      var x, t := a[0], a[1..];
      assert a == [x] + t;
      CoursesOnAppend(t, b, day);
      CoursesOnConsAppend(x, t, b, day);
      CoursesOnCons(x, t, day);
      ConcatAssoc(if x.dayOfWeek == day then [x] else [], CoursesOn(t, day), CoursesOn(b, day));
    }
  }

  predicate SortedByStart(s: seq<Course>) {
    forall i, j :: 0 <= i < j < |s| ==> s[i].startTime <= s[j].startTime
  }

  /** The courses of `s` that start at `time`, in their order in `s`. */
  function StartingAt(s: seq<Course>, time: int): (r: seq<Course>)
    ensures forall i :: 0 <= i < |r| ==> r[i].startTime == time && r[i] in s
  {
    if s == [] then []
    else (if s[0].startTime == time then [s[0]] else []) + StartingAt(s[1..], time)
  }

  /** Places `c` before the first course that does not start earlier than it. */
  function InsertByStart(c: Course, s: seq<Course>): (r: seq<Course>)
    ensures multiset(r) == multiset(s) + multiset{c}
  {
    if s == [] || c.startTime <= s[0].startTime then [c] + s
    else
      assert s == [s[0]] + s[1..];
      [s[0]] + InsertByStart(c, s[1..])
  }

  lemma {:induction false} InsertKeepsSorted(c: Course, s: seq<Course>)
    requires SortedByStart(s)
    ensures SortedByStart(InsertByStart(c, s))
  {
    if s != [] && c.startTime > s[0].startTime {
      var rest := InsertByStart(c, s[1..]);
      InsertKeepsSorted(c, s[1..]);
      forall x | x in rest
        ensures s[0].startTime <= x.startTime
      {
        assert x in multiset(s[1..]) + multiset{c};
      }
    }
  }

  lemma StartingAtCons(x: Course, t: seq<Course>, time: int)
    ensures StartingAt([x] + t, time) == (if x.startTime == time then [x] else []) + StartingAt(t, time)
  {
    assert ([x] + t)[1..] == t;
  }

  /** Inserting `c` adds it in front of the courses that start at the same time. */
  lemma {:induction false} InsertStartingAt(c: Course, s: seq<Course>, time: int)
    ensures StartingAt(InsertByStart(c, s), time) ==
      (if c.startTime == time then [c] + StartingAt(s, time) else StartingAt(s, time))
  {
    if s == [] || c.startTime <= s[0].startTime {
      StartingAtCons(c, s, time);
    } else {
      var rest := InsertByStart(c, s[1..]);
      StartingAtCons(s[0], rest, time);
      StartingAtCons(s[0], s[1..], time);
      assert s == [s[0]] + s[1..];
      InsertStartingAt(c, s[1..], time);
      if s[0].startTime == time {
        assert c.startTime != time;
      }
    }
  }

  /**
   * The filter keeps input order: the day's courses that start at `time`
   * are, in order, the input's courses at `time` that fall on the day.
   */
  lemma {:induction false} CoursesOnStartingAt(courses: seq<Course>, day: int, time: int)
    ensures StartingAt(CoursesOn(courses, day), time) == CoursesOn(StartingAt(courses, time), day)
  {
    if courses != [] {
      var x, t := courses[0], courses[1..];
      assert courses == [x] + t;
      CoursesOnStartingAt(t, day, time);
      CoursesOnCons(x, t, day);
      StartingAtCons(x, t, time);
      var kept, started := CoursesOn(t, day), StartingAt(t, time);
      if x.dayOfWeek == day {
        assert CoursesOn(courses, day) == [x] + kept;
        StartingAtCons(x, kept, time);
      } else {
        assert CoursesOn(courses, day) == kept;
      }
      if x.startTime == time {
        assert StartingAt(courses, time) == [x] + started;
        CoursesOnCons(x, started, day);
      } else {
        assert StartingAt(courses, time) == started;
      }
    }
  }

  /** `sortedBy { it.startTime }`: a stable sort by start time. */
  function SortByStart(s: seq<Course>): (r: seq<Course>)
    ensures multiset(r) == multiset(s)
  {
    if s == [] then []
    else
      assert s == [s[0]] + s[1..];
      InsertByStart(s[0], SortByStart(s[1..]))
  }

  lemma {:induction false} SortByStartSorted(s: seq<Course>)
    ensures SortedByStart(SortByStart(s))
  {
    if s != [] {
      SortByStartSorted(s[1..]);
      InsertKeepsSorted(s[0], SortByStart(s[1..]));
    }
  }

  /** Stability: the courses that start at any one time keep their relative order. */
  lemma {:induction false} SortByStartStable(s: seq<Course>, time: int)
    ensures StartingAt(SortByStart(s), time) == StartingAt(s, time)
  {
    if s != [] {
      var tail := SortByStart(s[1..]);
      SortByStartStable(s[1..], time);
      InsertStartingAt(s[0], tail, time);
      calc {
        StartingAt(SortByStart(s), time);
        StartingAt(InsertByStart(s[0], tail), time);
        (if s[0].startTime == time then [s[0]] else []) + StartingAt(tail, time);
        (if s[0].startTime == time then [s[0]] else []) + StartingAt(s[1..], time);
        StartingAt(s, time);
      }
    }
  }

  /**
   * The list under the chips: every course of the selected day, as often
   * as it occurs in the input and no other course, in start-time order.
   */
  function DayCourses(courses: seq<Course>, day: int): (r: seq<Course>)
    ensures SortedByStart(r)
    ensures forall c :: multiset(r)[c] == if c.dayOfWeek == day then multiset(courses)[c] else 0
  {
    SortByStartSorted(CoursesOn(courses, day));
    CoursesOnCounts(courses, day);
    SortByStart(CoursesOn(courses, day))
  }

  /**
   * What the list promises: only the selected day's courses, each of them
   * exactly as often as in the input, in non-decreasing start time, and
   * courses that start together in their order in the input.
   */
  lemma DayCoursesSpec(courses: seq<Course>, day: int)
    ensures forall i :: 0 <= i < |DayCourses(courses, day)| ==> DayCourses(courses, day)[i].dayOfWeek == day
    ensures multiset(DayCourses(courses, day)) == multiset(CoursesOn(courses, day))
    ensures SortedByStart(DayCourses(courses, day))
    ensures forall time :: StartingAt(DayCourses(courses, day), time) == StartingAt(CoursesOn(courses, day), time)
    ensures forall time :: StartingAt(DayCourses(courses, day), time) == CoursesOn(StartingAt(courses, time), day)
  {
    var r := DayCourses(courses, day);
    SortByStartSorted(CoursesOn(courses, day));
    forall time
      ensures StartingAt(r, time) == StartingAt(CoursesOn(courses, day), time)
      ensures StartingAt(r, time) == CoursesOn(StartingAt(courses, time), day)
    {
      SortByStartStable(CoursesOn(courses, day), time);
      CoursesOnStartingAt(courses, day, time);
    }
    forall i | 0 <= i < |r|
      ensures r[i].dayOfWeek == day
    {
      assert r[i] in multiset(CoursesOn(courses, day));
    }
  }

  lemma {:induction false} StartingAtFirst(s: seq<Course>)
    requires s != []
    ensures StartingAt(s, s[0].startTime) == [s[0]] + StartingAt(s[1..], s[0].startTime)
  {
  }

  /** The earliest start time of a sorted list is its first element's. */
  lemma FirstStartsEarliest(s: seq<Course>, x: Course)
    requires SortedByStart(s) && x in s
    ensures s[0].startTime <= x.startTime
  {
  }

  /**
   * A stable sort is unique: two lists sorted by start time in which the
   * courses of every start time come in the same order are the same list.
   */
  lemma {:induction false} SortedUnique(a: seq<Course>, b: seq<Course>)
    requires SortedByStart(a) && SortedByStart(b)
    requires forall time :: StartingAt(a, time) == StartingAt(b, time)
    ensures a == b
    decreases |a|
  {
    if a == [] {
      if b != [] {
        StartingAtFirst(b);
      }
    } else if b == [] {
      StartingAtFirst(a);
    } else {
      var ka, kb := a[0].startTime, b[0].startTime;
      StartingAtFirst(a);
      StartingAtFirst(b);
      assert StartingAt(b, ka)[0] in b;
      FirstStartsEarliest(b, StartingAt(b, ka)[0]);
      assert StartingAt(a, kb)[0] in a;
      FirstStartsEarliest(a, StartingAt(a, kb)[0]);
      assert ka == kb && a[0] == b[0];
      forall time
        ensures StartingAt(a[1..], time) == StartingAt(b[1..], time)
      {
        if time != ka {
          assert StartingAt(a, time) == StartingAt(a[1..], time);
          assert StartingAt(b, time) == StartingAt(b[1..], time);
        } else {
          assert StartingAt(a[1..], time) == StartingAt(a, time)[1..];
          assert StartingAt(b[1..], time) == StartingAt(b, time)[1..];
        }
      }
      SortedUnique(a[1..], b[1..]);
      assert a == [a[0]] + a[1..] && b == [b[0]] + b[1..];
    }
  }

  /**
   * `sortedBy` is pinned down by what it promises: any list that is
   * sorted by start time and keeps the order of the courses starting at
   * each time is the list DayCourses gives.
   */
  lemma DayCoursesIsTheStableSort(courses: seq<Course>, day: int, r: seq<Course>)
    requires SortedByStart(r)
    requires forall time :: StartingAt(r, time) == StartingAt(CoursesOn(courses, day), time)
    ensures r == DayCourses(courses, day)
  {
    DayCoursesSpec(courses, day);
    SortedUnique(r, DayCourses(courses, day));
  }

  /** The day's list is empty exactly when no course falls on that day. */
  lemma DayCoursesEmpty(courses: seq<Course>, day: int)
    ensures DayCourses(courses, day) == [] <==> forall i :: 0 <= i < |courses| ==> courses[i].dayOfWeek != day
  {
  }

  /**
   * Two Wednesday courses at 08:00 and 10:00 and one on Friday: Wednesday
   * lists the two in time order, Friday the one, Monday nothing.
   */
  lemma DayCoursesExample(early: Course, late: Course, friday: Course)
    requires early.dayOfWeek == 3 && early.startTime == 8 * 60
    requires late.dayOfWeek == 3 && late.startTime == 10 * 60
    requires friday.dayOfWeek == 5
    ensures DayCourses([late, friday, early], 3) == [early, late]
    ensures DayCourses([late, friday, early], 5) == [friday]
    ensures DayCourses([late, friday, early], 1) == []
  {
    ExampleFilters(early, late, friday);
    ExampleSorts(early, late, friday);
  }

  /** The sort step of the example above. */
  lemma ExampleSorts(early: Course, late: Course, friday: Course)
    requires early.startTime < late.startTime
    ensures SortByStart([late, early]) == [early, late]
    ensures SortByStart([friday]) == [friday]
    ensures SortByStart([]) == []
  {
    assert [late, early][1..] == [early] && [early][1..] == [] && [friday][1..] == [];
    assert SortByStart([early]) == [early];
    assert InsertByStart(late, []) == [late];
    assert InsertByStart(late, [early]) == [early, late];
  }

  /** The filter step of the example above, one day at a time. */
  lemma ExampleFilters(early: Course, late: Course, friday: Course)
    requires early.dayOfWeek == 3 && late.dayOfWeek == 3 && friday.dayOfWeek == 5
    ensures CoursesOn([late, friday, early], 3) == [late, early]
    ensures CoursesOn([late, friday, early], 5) == [friday]
    ensures CoursesOn([late, friday, early], 1) == []
  {
    assert [late, friday, early][1..] == [friday, early] && [friday, early][1..] == [early] && [early][1..] == [];
    assert CoursesOn([early], 3) == [early] && CoursesOn([early], 5) == [] && CoursesOn([early], 1) == [];
    assert CoursesOn([friday, early], 3) == [early];
    assert CoursesOn([friday, early], 5) == [friday];
    assert CoursesOn([friday, early], 1) == [];
  }

  // ---------------------------------------------------------------------
  // What the list shows

  /**
   * The cards show exactly the day's courses, in order, and the "no
   * courses today" placeholder shows exactly when no course falls on the day.
   */
  lemma ListShowsDayCourses(courses: seq<Course>, day: int)
    ensures CardValues(Rows(DayCourses(courses, day))) == DayCourses(courses, day)
    ensures EmptyPlaceholder in Rows(DayCourses(courses, day)) <==>
      forall i :: 0 <= i < |courses| ==> courses[i].dayOfWeek != day
  {
    DayCoursesEmpty(courses, day);
    RowsShowValues(DayCourses(courses, day));
  }

  /** The card's edit action: `"${Screen.EditCourse.route}/${course.courseId}"`. */
  function EditCourseRoute(course: Course): (route: string)
    requires IsInt(course.courseId)
    ensures NavGraph.Resolve(route) == Some(NavGraph.ShowsWithId(NavGraph.EditCourse, Some(course.courseId)))
  {
    NavGraph.ResolveRouteWithId(NavGraph.EditCourse, course.courseId);
    NavGraph.RouteWithId(NavGraph.EditCourse, course.courseId)
  }

  // ---------------------------------------------------------------------
  // The screen's state

  /** The screen's `selectedDay` state, which the weekday chips reassign. */
  class ScheduleScreen {
    var selectedDay: int

    ghost predicate Valid()
      reads this
    {
      1 <= selectedDay <= 7
    }

    /** `remember { mutableStateOf(getCurrentDayOfWeek()) }` */
    constructor (calendarDayOfWeek: int)
      requires 1 <= calendarDayOfWeek <= 7
      ensures Valid() && selectedDay == MondayFirst(calendarDayOfWeek)
    {
      var day := GetCurrentDayOfWeek(calendarDayOfWeek);
      selectedDay := day;
    }

    /** The header's `weekDays[selectedDay - 1]`: in range, and the selected weekday's name. */
    function Header(): (name: string)
      reads this
      requires Valid()
      ensures name in WeekDays
      ensures name == CalendarDayName(CalendarDay(selectedDay))
    {
      WeekDays[selectedDay - 1]
    }

    /** The chip at `index` is drawn selected. */
    predicate IsSelected(index: int)
      reads this
    {
      selectedDay == index + 1
    }

    /** Exactly one of the seven chips is selected. */
    function SelectedChip(): (index: int)
      reads this
      requires Valid()
      ensures 0 <= index < |WeekDays| && IsSelected(index)
      ensures forall j :: IsSelected(j) ==> j == index
    {
      selectedDay - 1
    }

    /**
     * A click on the chip at `index`: `selectedDay = index + 1`, then the
     * view model is asked for that day's courses (the request returned).
     */
    method ClickChip(index: int) returns (requestedDay: int)
      requires Valid() && 0 <= index < |WeekDays|
      modifies this
      ensures Valid() && selectedDay == index + 1
      ensures requestedDay == selectedDay
    {
      selectedDay := index + 1;
      requestedDay := selectedDay;
    }

    /** What the list under the chips shows for the courses the view model holds. */
    function Items(courses: seq<Course>): (rows: seq<Row<Course>>)
      reads this
      ensures CardValues(rows) == DayCourses(courses, selectedDay)
      ensures EmptyPlaceholder in rows <==>
        forall i :: 0 <= i < |courses| ==> courses[i].dayOfWeek != selectedDay
    {
      ListShowsDayCourses(courses, selectedDay);
      Rows(DayCourses(courses, selectedDay))
    }
  }
}
