# Course companion app: screen logic in Dafny

This project models the rules buried in five Jetpack Compose files of a
student "course companion" Android app:

- **Course schedule** (`CourseScheduleScreen.kt`): the calendar's weekday
  (Sunday = 1 … Saturday = 7) is remapped to the screen's Monday = 1 …
  Sunday = 7. Seven weekday chips set `selectedDay`, and the header shows
  that day's label. The list shows the courses of the selected day,
  filtered by `dayOfWeek` and stably sorted by `startTime`, or a
  placeholder when there are none.
- **Add assignment** (`AddAssignmentScreen.kt`): the form's initial state,
  its edit handlers and the labels of the type and priority chips. The
  save button inserts a new assignment and navigates back, unless the
  title is blank. The new assignment is not started, has a null
  description when the description is blank, and has a reminder one day
  (86 400 000 ms, in `Long` arithmetic) before the due time when the
  reminder is on. Its owner is the session's user id, or 0 when nobody
  is signed in.
- **Assignment list** (`AssignmentsScreen.kt`): the status filter chips,
  which never offer OVERDUE, and the view-model query each filter
  launches ("upcoming" for no filter, "by status" otherwise). Also the
  status→colour and status→emoji tables, the list-or-placeholder
  rendering, and each card's menu (edit, mark complete, delete).
- **Create group** (`CreateGroupScreen.kt`): the form's initial state and
  handlers. The member limit is parsed with `toIntOrNull() ?: 20`. The
  create button inserts a group with creator 1, and null description and
  topic where those are blank, unless the name is blank.
- **Navigation graph** (`NavGraph.kt`): the twelve `Screen` routes, the
  three literal routes and the start destination. Also how a route string
  resolves to a destination, with the id of `edit_course/{courseId}`,
  `edit_assignment/{assignmentId}` and `group_detail/{groupId}` decoded by
  `toIntOrNull()`.

Shared pieces: `Model` holds the records the screens build and read.
`KotlinText` holds the Kotlin library behaviour the screens rely on:
`isBlank`, `ifBlank { null }`, `Int.toString()`, `String.toIntOrNull()`
and `Long` wrap-around. `ListRows` is the placeholder-or-cards shape
shared by both list screens. `Wrappers` holds `Option`, which stands for
Kotlin's nullable types.

Screen state that Compose keeps in `mutableStateOf` becomes a class with
those fields. Each click or edit handler is a method whose postcondition
gives the whole new state. Everything computed from that state (the
built records, the day's course list, the route table, the queries) is a
pure function. Side effects that a handler hands to the view model or the
navigation controller (insert, go back, navigate, update status, delete,
load by day) are returned as values.

The clock and the session are parameters. `Calendar.DAY_OF_WEEK` is an
integer in 1..7, `Date()` is a `Long` millisecond count, and
`CurrentSession.userIdInt` is an optional integer.

No screen derives an OVERDUE status from the clock: the card shows the
stored status. The upcoming and by-status queries live in a view model
and DAO that are not modelled. The group form always writes creator 1.

## Model

| member | source | states |
|---|---|---|
| `KotlinText.BlankToNull` | app/src/main/java/com/example/myapplication/ui/screen/AddAssignmentScreen.kt:301 | `ifBlank { null }` is null exactly when the text is empty or all whitespace; otherwise it is the text unchanged |
| `KotlinText.IsBlank` | app/src/main/java/com/example/myapplication/ui/screen/AddAssignmentScreen.kt:297 | `isBlank`: the text is empty or every character is a JVM whitespace or space character (the whitespace table of `Character.isWhitespace` and `isSpaceChar`) |
| `KotlinText.ParseInt` | app/src/main/java/com/example/myapplication/ui/navigation/NavGraph.kt:37-51 | `toIntOrNull()` in radix 10 (also used at CreateGroupScreen.kt:158). Empty text gives null, and any value it gives is an Int. Text without a sign has a value only when all of it is digits, and then it is their decimal value. Conversely, every all-digit text whose value fits in an Int parses to that value. Text starting with "-" has a value only when the rest is all digits, and then it is minus their decimal value; conversely, "-" followed by digits whose negated value fits in an Int parses to that value |
| `KotlinText.ParseIntPlusSign` | app/src/main/java/com/example/myapplication/ui/screen/CreateGroupScreen.kt:158 | a leading "+" before digits changes nothing: "+7" parses like "7" |
| `KotlinText.ParseIntLeadingZero` | app/src/main/java/com/example/myapplication/ui/screen/CreateGroupScreen.kt:158 | a leading zero before digits changes nothing: "020" parses like "20" |
| `KotlinText.IntText` | app/src/main/java/com/example/myapplication/ui/navigation/NavGraph.kt:43-45 | `Int.toString()` and the `"$id"` templates (AssignmentsScreen.kt:167, CourseScheduleScreen.kt:186, CreateGroupScreen.kt:157): non-empty, starts with "-" exactly for negatives, and is otherwise all digits; `ParseIntTextValue` proves it parses back |
| `KotlinText.LongWrap` | app/src/main/java/com/example/myapplication/ui/screen/AddAssignmentScreen.kt:305 | `Long` arithmetic: the result is a `Long`, differs from the exact value by a multiple of 2^64, and is the exact value whenever that fits in a `Long` |
| `KotlinText.ParseIntTextValue` | app/src/main/java/com/example/myapplication/ui/navigation/NavGraph.kt:37 | parsing the decimal text of any integer gives that integer exactly when it fits in an `Int`, and null otherwise |
| `KotlinText.ParseIntText` | app/src/main/java/com/example/myapplication/ui/navigation/NavGraph.kt:37 | `toIntOrNull` of any Int's decimal text gives that Int back |
| `KotlinText.ParseIntTextOutOfRange` | app/src/main/java/com/example/myapplication/ui/screen/CreateGroupScreen.kt:158 | the decimal text of a number outside `Int` parses to null |
| `KotlinText.IntTextInjective` | app/src/main/java/com/example/myapplication/ui/navigation/NavGraph.kt:43-45 | distinct Int ids give distinct route texts |
| `KotlinText.ParseIntRejectsNonDigit` | app/src/main/java/com/example/myapplication/ui/navigation/NavGraph.kt:44 | text with a character that is neither a digit nor a leading sign parses to null |
| `KotlinText.ParseIntRejectsLoneSign` | app/src/main/java/com/example/myapplication/ui/navigation/NavGraph.kt:51 | a lone "-" or "+" parses to null |
| `NavGraph.RouteInjective` | app/src/main/java/com/example/myapplication/ui/navigation/NavGraph.kt:66-79 | the twelve `Screen` route strings are pairwise distinct |
| `NavGraph.Route` | app/src/main/java/com/example/myapplication/ui/navigation/NavGraph.kt:66-79 | the route table of the twelve `Screen` objects, "login" through "group_detail" (a table; `NavGraph.RouteInjective` and `NavGraph.NoSlashInRoutes` state its properties) |
| `NavGraph.NoSlashInRoutes` | app/src/main/java/com/example/myapplication/ui/navigation/NavGraph.kt:54-79 | no `Screen` route and no literal route contains "/", so a base followed by "/" and a segment splits in only one way |
| `NavGraph.LiteralRoutesDistinct` | app/src/main/java/com/example/myapplication/ui/navigation/NavGraph.kt:54-61 | "ai_note", "assignment_help" and "learning_analytics" differ from each other and from every `Screen` route |
| `NavGraph.Template` | app/src/main/java/com/example/myapplication/ui/navigation/NavGraph.kt:15-61 | a screen without an id is registered under its route; one with an id under route + "/{courseId}", "/{assignmentId}" or "/{groupId}" |
| `NavGraph.Resolve` | app/src/main/java/com/example/myapplication/ui/navigation/NavGraph.kt:15-61 | every destination a route resolves to matches what it was registered under: a literal route is itself, a plain screen has that exact route and takes no id, and a screen with an id has its base + "/" + one segment, with the id decoded from that segment |
| `NavGraph.RouteWithId` | app/src/main/java/com/example/myapplication/ui/screen/AssignmentsScreen.kt:167 | `"${Screen.X.route}/${id}"` (also CourseScheduleScreen.kt:186) is the base + "/" followed by exactly the id's decimal text as its one segment |
| `NavGraph.TemplateInjective` | app/src/main/java/com/example/myapplication/ui/navigation/NavGraph.kt:36-53 | two screens registered under the same template (a plain route, or a base followed by "/{courseId}", "/{assignmentId}" or "/{groupId}") are the same screen |
| `NavGraph.RegisteredRoutesDistinct` | app/src/main/java/com/example/myapplication/ui/navigation/NavGraph.kt:15-61 | no two of the fifteen registered destinations share a route template |
| `NavGraph.StartDestination` | app/src/main/java/com/example/myapplication/ui/navigation/NavGraph.kt:13 | the start destination resolves to the Login screen |
| `NavGraph.DecodeId` | app/src/main/java/com/example/myapplication/ui/navigation/NavGraph.kt:44 | a missing argument decodes to a null id; a decoded id is always an Int |
| `NavGraph.ResolvePlainRoute` | app/src/main/java/com/example/myapplication/ui/navigation/NavGraph.kt:15-35 | every plain `Screen` route resolves to that screen |
| `NavGraph.ResolveLiteralRoute` | app/src/main/java/com/example/myapplication/ui/navigation/NavGraph.kt:54-61 | each literal route resolves to its own destination |
| `NavGraph.ResolveSegment` | app/src/main/java/com/example/myapplication/ui/navigation/NavGraph.kt:36-53 | a parameterised base followed by one segment resolves to that screen, with the segment's `toIntOrNull()` as the id (null when it is not an Int) |
| `NavGraph.ResolveRouteWithId` | app/src/main/java/com/example/myapplication/ui/navigation/NavGraph.kt:43-45 | a route built as base + "/" + id resolves to that screen with the same id (the int → text → int round trip) |
| `NavGraph.ResolveBareBase` | app/src/main/java/com/example/myapplication/ui/navigation/NavGraph.kt:36-53 | a parameterised base without its segment ("edit_course") resolves to no destination |
| `CourseSchedule.MondayFirst` | app/src/main/java/com/example/myapplication/ui/screen/CourseScheduleScreen.kt:339-342 | calendar Sunday (1) becomes 7, every other day d becomes d − 1, always within 1..7 |
| `CourseSchedule.MondayFirstIsBijection` | app/src/main/java/com/example/myapplication/ui/screen/CourseScheduleScreen.kt:337-343 | the remapping and its inverse undo each other on 1..7, so it is a bijection over the whole week |
| `CourseSchedule.GetCurrentDayOfWeek` | app/src/main/java/com/example/myapplication/ui/screen/CourseScheduleScreen.kt:337-343 | the local `day` reassignment computes the remapped day, whose inverse is the calendar's reading |
| `CourseSchedule.LabelOfCurrentDay` | app/src/main/java/com/example/myapplication/ui/screen/CourseScheduleScreen.kt:44-59 | the label `weekDays[day - 1]` for the remapped day is the name of the weekday the calendar reported |
| `CourseSchedule.CoursesOn` | app/src/main/java/com/example/myapplication/ui/screen/CourseScheduleScreen.kt:149 | the filter keeps only courses whose `dayOfWeek` is the selected day, and every such course of the input is in it (how often each is kept is stated in `CourseSchedule.CoursesOnCounts`) |
| `CourseSchedule.CoursesOnCounts` | app/src/main/java/com/example/myapplication/ui/screen/CourseScheduleScreen.kt:149 | the filter keeps each course of the selected day exactly as many times as the input holds it, and no course of another day |
| `CourseSchedule.CoursesOnCons` | app/src/main/java/com/example/myapplication/ui/screen/CourseScheduleScreen.kt:149 | the filter's defining step: the first course is kept, in front of what the filter keeps from the rest, exactly when it falls on the day |
| `CourseSchedule.CoursesOnAppend` | app/src/main/java/com/example/myapplication/ui/screen/CourseScheduleScreen.kt:149 | the filter keeps input order: filtering a list made of two parts gives what it keeps from the first part followed by what it keeps from the second |
| `CourseSchedule.CoursesOnStartingAt` | app/src/main/java/com/example/myapplication/ui/screen/CourseScheduleScreen.kt:149 | the day filter and the start-time filter commute: among the kept courses, those starting at any one time are the input's courses at that time that fall on the day, in the same order |
| `CourseSchedule.InsertByStart` | app/src/main/java/com/example/myapplication/ui/screen/CourseScheduleScreen.kt:150 | one insertion step of the sort adds exactly the one course |
| `CourseSchedule.InsertKeepsSorted` | app/src/main/java/com/example/myapplication/ui/screen/CourseScheduleScreen.kt:150 | inserting into a list sorted by start time keeps it sorted |
| `CourseSchedule.InsertStartingAt` | app/src/main/java/com/example/myapplication/ui/screen/CourseScheduleScreen.kt:150 | an inserted course goes before the courses with the same start time that follow it in the input |
| `CourseSchedule.SortByStart` | app/src/main/java/com/example/myapplication/ui/screen/CourseScheduleScreen.kt:150 | `sortedBy` returns a permutation of its input |
| `CourseSchedule.SortByStartSorted` | app/src/main/java/com/example/myapplication/ui/screen/CourseScheduleScreen.kt:150 | `sortedBy { it.startTime }` is non-decreasing in start time |
| `CourseSchedule.SortByStartStable` | app/src/main/java/com/example/myapplication/ui/screen/CourseScheduleScreen.kt:150 | courses with equal start time keep their input order (the sort is stable) |
| `CourseSchedule.DayCourses` | app/src/main/java/com/example/myapplication/ui/screen/CourseScheduleScreen.kt:149-150 | `dayCourses` is sorted by start time and holds each course of the selected day exactly as often as the input does, and nothing else |
| `CourseSchedule.DayCoursesSpec` | app/src/main/java/com/example/myapplication/ui/screen/CourseScheduleScreen.kt:149-150 | `dayCourses` holds only the selected day's courses and is a permutation of the filtered list, sorted by start time. The courses sharing a start time appear in their order in the screen's course list: the input's courses at that time, filtered by the day |
| `CourseSchedule.SortedUnique` | app/src/main/java/com/example/myapplication/ui/screen/CourseScheduleScreen.kt:150 | two lists that are sorted by start time and agree on the order within every start time are equal |
| `CourseSchedule.DayCoursesIsTheStableSort` | app/src/main/java/com/example/myapplication/ui/screen/CourseScheduleScreen.kt:149-150 | any sorted list that keeps the filtered list's order within each start time is `dayCourses`, so any stable sort gives the same list |
| `CourseSchedule.DayCoursesEmpty` | app/src/main/java/com/example/myapplication/ui/screen/CourseScheduleScreen.kt:152 | `dayCourses` is empty exactly when no course has `dayOfWeek == selectedDay` |
| `CourseSchedule.DayCoursesExample` | app/src/main/java/com/example/myapplication/ui/screen/CourseScheduleScreen.kt:149-150 | Wednesday courses at 08:00 and 10:00 and one Friday course give [08:00, 10:00] on Wednesday, the one course on Friday, and nothing on Monday |
| `CourseSchedule.ListShowsDayCourses` | app/src/main/java/com/example/myapplication/ui/screen/CourseScheduleScreen.kt:152-192 | the cards show exactly the day's courses in order; the placeholder shows exactly when no course falls on the day |
| `CourseSchedule.EditCourseRoute` | app/src/main/java/com/example/myapplication/ui/screen/CourseScheduleScreen.kt:186 | a course card's edit route resolves to the edit-course screen with that course's id |
| `CourseSchedule.ScheduleScreen.constructor` | app/src/main/java/com/example/myapplication/ui/screen/CourseScheduleScreen.kt:44 | `selectedDay` starts at the remapped current day, within 1..7 |
| `CourseSchedule.ScheduleScreen.Header` | app/src/main/java/com/example/myapplication/ui/screen/CourseScheduleScreen.kt:59 | while `selectedDay` is in 1..7, `weekDays[selectedDay - 1]` is in range and names the selected weekday |
| `CourseSchedule.ScheduleScreen.SelectedChip` | app/src/main/java/com/example/myapplication/ui/screen/CourseScheduleScreen.kt:107-110 | exactly one of the seven chips is drawn selected |
| `CourseSchedule.ScheduleScreen.ClickChip` | app/src/main/java/com/example/myapplication/ui/screen/CourseScheduleScreen.kt:111-113 | a click on chip `index` sets `selectedDay = index + 1`, keeps it in 1..7 for any sequence of clicks, and requests that day's courses |
| `CourseSchedule.ScheduleScreen.Items` | app/src/main/java/com/example/myapplication/ui/screen/CourseScheduleScreen.kt:149-192 | the list under the chips shows as cards exactly the selected day's `dayCourses`, in order, and the placeholder exactly when no course falls on the selected day |
| `AddAssignment.TypeNamesInjective` | app/src/main/java/com/example/myapplication/ui/screen/AddAssignmentScreen.kt:163-167 | the type labels (homework, experiment, other) are pairwise distinct |
| `AddAssignment.TypeName` | app/src/main/java/com/example/myapplication/ui/screen/AddAssignmentScreen.kt:163-167 | the type chips' labels: 作业 for HOMEWORK, 实验 for EXPERIMENT, 其他 for OTHER (a label table; `TypeNamesInjective` states its property) |
| `AddAssignment.PriorityNamesInjective` | app/src/main/java/com/example/myapplication/ui/screen/AddAssignmentScreen.kt:212-216 | the priority labels (low, medium, high) are pairwise distinct |
| `AddAssignment.PriorityName` | app/src/main/java/com/example/myapplication/ui/screen/AddAssignmentScreen.kt:212-216 | the priority chips' labels: 低, 中 and 高 for LOW, MEDIUM and HIGH (a label table; `PriorityNamesInjective` states its property) |
| `AddAssignment.ReminderTime` | app/src/main/java/com/example/myapplication/ui/screen/AddAssignmentScreen.kt:305 | a reminder exists exactly when enabled. It is `dueDate − 86 400 000` in `Long` arithmetic, and strictly before the due time exactly when that subtraction does not wrap; when it wraps (a due time within a day of the smallest `Long`) the reminder is `dueDate − 86 400 000 + 2^64` |
| `AddAssignment.ReminderTimeExample` | app/src/main/java/com/example/myapplication/ui/screen/AddAssignmentScreen.kt:305 | due 2024-01-10T00:00Z with the reminder on gives 2024-01-09T00:00Z; with it off, null |
| `AddAssignment.NewAssignment` | app/src/main/java/com/example/myapplication/ui/screen/AddAssignmentScreen.kt:298-308 | the new assignment is NOT_STARTED. Its owner is the session's user id, or 0 without a session. Title, type, priority, due time and reminder flag are copied from the form; the description is null iff blank, else verbatim; the reminder is as in `ReminderTime` |
| `AddAssignment.NewAssignmentIsFresh` | app/src/main/java/com/example/myapplication/ui/screen/AddAssignmentScreen.kt:298-308 | every built assignment is not started, has a reminder exactly when enabled (one day before and strictly earlier than the due time), and has no blank description |
| `AddAssignment.AssignmentForm.constructor` | app/src/main/java/com/example/myapplication/ui/screen/AddAssignmentScreen.kt:40-45 | the form starts with empty title and description, HOMEWORK, MEDIUM, the reminder on, and the due time at the clock reading |
| `AddAssignment.AssignmentForm.EditTitle` | app/src/main/java/com/example/myapplication/ui/screen/AddAssignmentScreen.kt:108 | editing the title changes the title only |
| `AddAssignment.AssignmentForm.EditDescription` | app/src/main/java/com/example/myapplication/ui/screen/AddAssignmentScreen.kt:117 | editing the description changes the description only |
| `AddAssignment.AssignmentForm.SelectType` | app/src/main/java/com/example/myapplication/ui/screen/AddAssignmentScreen.kt:170 | a type chip sets the type only |
| `AddAssignment.AssignmentForm.SelectPriority` | app/src/main/java/com/example/myapplication/ui/screen/AddAssignmentScreen.kt:219 | a priority chip sets the priority only |
| `AddAssignment.AssignmentForm.SetReminderEnabled` | app/src/main/java/com/example/myapplication/ui/screen/AddAssignmentScreen.kt:283 | the switch sets the reminder flag only |
| `AddAssignment.AssignmentForm.Save` | app/src/main/java/com/example/myapplication/ui/screen/AddAssignmentScreen.kt:296-311 | a blank title does nothing; otherwise exactly one insert of the built assignment, then one back-navigation |
| `AssignmentsScreen.ChipFilter` | app/src/main/java/com/example/myapplication/ui/screen/AssignmentsScreen.kt:96-115 | no chip sets the filter to OVERDUE; only the "all" chip clears it |
| `AssignmentsScreen.ChipsCoverFilters` | app/src/main/java/com/example/myapplication/ui/screen/AssignmentsScreen.kt:96-115 | the chips set exactly null, NOT_STARTED, IN_PROGRESS and COMPLETED, one chip each, and never OVERDUE |
| `AssignmentsScreen.QueryFor` | app/src/main/java/com/example/myapplication/ui/screen/AssignmentsScreen.kt:119-125 | a null filter launches the upcoming query; a status s launches the by-status query for exactly s |
| `AssignmentsScreen.QueryForIsInvertible` | app/src/main/java/com/example/myapplication/ui/screen/AssignmentsScreen.kt:119-125 | the launched query determines the filter and vice versa |
| `AssignmentsScreen.ColorOf` | app/src/main/java/com/example/myapplication/ui/screen/AssignmentsScreen.kt:194-199 | the status colour: green 0xFF4CAF50 for COMPLETED, the scheme's error colour for OVERDUE, orange 0xFFFF9800 for IN_PROGRESS, the scheme's primary colour for NOT_STARTED (a table; `StatusBadgesDistinct` states its property) |
| `AssignmentsScreen.EmojiOf` | app/src/main/java/com/example/myapplication/ui/screen/AssignmentsScreen.kt:201-206 | the status emoji: ✅, ⚠️, 🔄 and 📝 for COMPLETED, OVERDUE, IN_PROGRESS and NOT_STARTED (a table; `StatusBadgesDistinct` states its property) |
| `AssignmentsScreen.StatusBadgesDistinct` | app/src/main/java/com/example/myapplication/ui/screen/AssignmentsScreen.kt:194-206 | the four statuses have four distinct emoji and four distinct colour entries |
| `AssignmentsScreen.ListShowsAssignments` | app/src/main/java/com/example/myapplication/ui/screen/AssignmentsScreen.kt:133-176 | an empty list shows only the placeholder; otherwise one card per assignment, in list order (the assignment list's instance of `ListRows.RowsShowValues`) |
| `ListRows.Rows` | app/src/main/java/com/example/myapplication/ui/screen/AssignmentsScreen.kt:133-176 | an empty list gives the one placeholder item; otherwise item i is the card of element i, one per element (the same shape as CourseScheduleScreen.kt:152-192) |
| `ListRows.RowsShowValues` | app/src/main/java/com/example/myapplication/ui/screen/AssignmentsScreen.kt:133-176 | reading the cards back gives the list itself, and the placeholder appears exactly when the list is empty |
| `AssignmentsScreen.AssignmentsScreenState.constructor` | app/src/main/java/com/example/myapplication/ui/screen/AssignmentsScreen.kt:43 | the filter starts as null, so the first query asks for the upcoming assignments |
| `AssignmentsScreen.AssignmentsScreenState.SelectedChip` | app/src/main/java/com/example/myapplication/ui/screen/AssignmentsScreen.kt:96-115 | exactly one filter chip is drawn selected |
| `AssignmentsScreen.AssignmentsScreenState.ClickChip` | app/src/main/java/com/example/myapplication/ui/screen/AssignmentsScreen.kt:96-125 | a chip click sets its filter, never OVERDUE. It launches the matching query only when the filter changes, because the effect is keyed on `selectedStatus` |
| `AssignmentsScreen.AssignmentCard.constructor` | app/src/main/java/com/example/myapplication/ui/screen/AssignmentsScreen.kt:190 | a card's menu starts closed |
| `AssignmentsScreen.AssignmentCard.OpenMenu` | app/src/main/java/com/example/myapplication/ui/screen/AssignmentsScreen.kt:318 | the more button opens the menu |
| `AssignmentsScreen.AssignmentCard.DismissMenu` | app/src/main/java/com/example/myapplication/ui/screen/AssignmentsScreen.kt:327 | dismissing closes the menu |
| `AssignmentsScreen.AssignmentCard.Edit` | app/src/main/java/com/example/myapplication/ui/screen/AssignmentsScreen.kt:330-336 | "edit" closes the menu and navigates to a route that resolves to the edit-assignment screen with this card's id |
| `AssignmentsScreen.AssignmentCard.MarkComplete` | app/src/main/java/com/example/myapplication/ui/screen/AssignmentsScreen.kt:337-343 | "mark complete" closes the menu and requests status COMPLETED for this card's `assignmentId` |
| `AssignmentsScreen.AssignmentCard.DeleteItem` | app/src/main/java/com/example/myapplication/ui/screen/AssignmentsScreen.kt:344-350 | "delete" closes the menu and deletes this card's assignment |
| `CreateGroup.MaxMembersOf` | app/src/main/java/com/example/myapplication/ui/screen/CreateGroupScreen.kt:158 | the limit is the text's Int value when it has one, and 20 otherwise |
| `CreateGroup.MaxMembersOfText` | app/src/main/java/com/example/myapplication/ui/screen/CreateGroupScreen.kt:157-158 | the text of any Int, zero and negatives included, sets exactly that Int, so the field's own text keeps the limit; digit-free text gives 20 |
| `CreateGroup.MaxMembersOfOverflow` | app/src/main/java/com/example/myapplication/ui/screen/CreateGroupScreen.kt:158 | a number too large for `Int` falls back to 20 |
| `CreateGroup.MaxMembersExamples` | app/src/main/java/com/example/myapplication/ui/screen/CreateGroupScreen.kt:158 | "0" gives 0, "-5" gives −5, "020" gives 20, "+7" gives 7, "-020" gives −20, "-0" gives 0, and "" and "abc" give 20 |
| `CreateGroup.NewGroup` | app/src/main/java/com/example/myapplication/ui/screen/CreateGroupScreen.kt:190-197 | the group has creator 1. Name, member limit and public flag are copied from the form; description and topic are each null iff blank, else verbatim |
| `CreateGroup.GroupForm.constructor` | app/src/main/java/com/example/myapplication/ui/screen/CreateGroupScreen.kt:37-41 | the form starts with empty name, description and topic, a limit of 20, and public |
| `CreateGroup.GroupForm.EditGroupName` | app/src/main/java/com/example/myapplication/ui/screen/CreateGroupScreen.kt:104 | editing the name changes the name only |
| `CreateGroup.GroupForm.EditDescription` | app/src/main/java/com/example/myapplication/ui/screen/CreateGroupScreen.kt:113 | editing the description changes the description only |
| `CreateGroup.GroupForm.EditTopic` | app/src/main/java/com/example/myapplication/ui/screen/CreateGroupScreen.kt:124 | editing the topic changes the topic only |
| `CreateGroup.GroupForm.EditMaxMembers` | app/src/main/java/com/example/myapplication/ui/screen/CreateGroupScreen.kt:158 | editing the limit text sets the limit to its parse with fallback 20, with no positivity check, and changes nothing else |
| `CreateGroup.GroupForm.SetPublic` | app/src/main/java/com/example/myapplication/ui/screen/CreateGroupScreen.kt:175 | the switch sets the public flag only |
| `CreateGroup.GroupForm.Save` | app/src/main/java/com/example/myapplication/ui/screen/CreateGroupScreen.kt:188-200 | a blank name does nothing; otherwise exactly one insert of the built group, then one back-navigation |

## Left out

- Rendering: layout, styles, shadows, scrolling, the colours as pixels and the `label` of each `Screen` are not modelled. Colours are kept only as table entries (a fixed ARGB value or a colour-scheme role).
- ProfileScreen.kt, GroupDetailScreen.kt and StudyGroupsScreen.kt are pure UI or placeholders. StudyGroupsScreen.kt:112 builds its group-detail route the same way as the other parameterised routes, which `NavGraph.ResolveRouteWithId` covers.
- AppDatabase.kt (the Room builder and its synchronized singleton), CourseViewModel.kt (coroutines and Flow collectors; each `getCoursesByDay` starts another collector), SecurityConfig.kt and backend/build.gradle.kts are not part of this model.
- The upcoming, by-status and overdue queries live in a view model and DAO that are not part of this model. The list screen's contents are whatever the launched query returns, and no overdue status is derived from the clock.
- The clock (`Date()`, `Calendar.getInstance()`) and the session (`CurrentSession.userIdInt`) are parameters, not reads.
- The add-assignment screen has no control that changes `dueDate`. It stays the clock reading taken when the form is first composed.
- Storage-assigned ids: an assignment built by the form carries no id; the list receives stored assignments that pair an id with an assignment.
- `startTime` is modelled as an integer key. Its Kotlin type is in the unseen `Course` model, and `sortedBy` compares it with that type's own ordering.
- The course card's own menu state (CourseScheduleScreen.kt:205, 305-330) is not modelled; it matches the assignment card's. Only its edit route is modelled, in `CourseSchedule.EditCourseRoute`.
- `LaunchedEffect` cancellation of a running query when the filter changes again is not modelled.
- Ids (`courseId`, `assignmentId`, `groupId`, `userId`) are unbounded integers here. The members that build an id route (`CourseSchedule.EditCourseRoute`, `AssignmentsScreen.AssignmentCard.Edit`) require the id to be a Kotlin `Int`, because the entity classes that declare those fields as `Int` are not part of this model.
- KotlinText.ParseInt: accepts only ASCII digits '0'..'9'. Kotlin's `toIntOrNull` also accepts other Unicode decimal digits (for example Arabic-Indic digits), which this model rejects.
- NavGraph.Resolve: Navigation's URI-pattern matcher is reduced to exact routes and base + "/" + one segment without '/'. Query parameters and percent-decoding are not modelled.
