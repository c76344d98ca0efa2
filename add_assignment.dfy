/**
 * The add-assignment form: its initial state, the handlers that edit
 * it, the display names of the type and priority chips, and the save
 * button that builds the new assignment.
 */
module AddAssignment {
  import opened Wrappers
  import opened Model
  import opened KotlinText

  /** One day in milliseconds: `24 * 60 * 60 * 1000`. */
  const DayMillis: int := 24 * 60 * 60 * 1000

  /** The type chips' labels. */
  function TypeName(t: AssignmentType): string {
    match t
    case Homework => "作业"
    case Experiment => "实验"
    case Other => "其他"
  }

  /** The priority chips' labels. */
  function PriorityName(p: Priority): string {
    match p
    case Low => "低"
    case Medium => "中"
    case High => "高"
  }

  /** No two type chips carry the same label. */
  lemma TypeNamesInjective(s: AssignmentType, t: AssignmentType)
    requires TypeName(s) == TypeName(t)
    ensures s == t
  {
  }

  /** No two priority chips carry the same label. */
  lemma PriorityNamesInjective(p: Priority, q: Priority)
    requires PriorityName(p) == PriorityName(q)
    ensures p == q
  {
  }

  /**
   * `if (reminderEnabled) dueDate.time - 24 * 60 * 60 * 1000 else null`,
   * in `Long` arithmetic: a day before the due time, unless the
   * subtraction wraps below `Long.MIN_VALUE`.
   */
  function ReminderTime(dueDate: int, reminderEnabled: bool): (r: Option<int>)
    requires IsLong(dueDate)
    ensures r.Some? <==> reminderEnabled
    ensures r.Some? ==> IsLong(r.value)
    ensures r.Some? && LongMin + DayMillis <= dueDate ==> r.value == dueDate - DayMillis
    ensures r.Some? && dueDate < LongMin + DayMillis ==> r.value == dueDate - DayMillis + 0x1_0000_0000_0000_0000
    ensures r.Some? ==> (r.value < dueDate <==> LongMin + DayMillis <= dueDate)
  {
    if reminderEnabled then Some(LongWrap(dueDate - DayMillis)) else None
  }

  /** Due 2024-01-10T00:00Z with the reminder on: the reminder is 2024-01-09T00:00Z. */
  lemma ReminderTimeExample()
    ensures ReminderTime(1_704_844_800_000, true) == Some(1_704_758_400_000)
    ensures ReminderTime(1_704_844_800_000, false) == None
  {
  }

  /**
   * The assignment the save button builds from the form. `sessionUserId`
   * is `CurrentSession.userIdInt`, null when nobody is signed in.
   */
  function NewAssignment(
    sessionUserId: Option<int>, title: string, description: string, assignmentType: AssignmentType,
    dueDate: int, reminderEnabled: bool, priority: Priority): (a: Assignment)
    requires IsLong(dueDate)
    ensures a.status == NotStarted
    ensures sessionUserId.Some? ==> a.userId == sessionUserId.value
    ensures sessionUserId.None? ==> a.userId == 0
    ensures a.title == title && a.assignmentType == assignmentType && a.priority == priority
    ensures a.dueDate == dueDate && a.reminderEnabled == reminderEnabled
    ensures a.description == None <==> IsBlank(description)
    ensures a.description.Some? ==> a.description.value == description
    ensures a.reminderTime == ReminderTime(dueDate, reminderEnabled)
  {
    Assignment(
      userId := sessionUserId.GetOr(0),
      title := title,
      description := BlankToNull(description),
      assignmentType := assignmentType,
      dueDate := dueDate,
      reminderEnabled := reminderEnabled,
      reminderTime := ReminderTime(dueDate, reminderEnabled),
      status := NotStarted,
      priority := priority)
  }

  /**
   * What a freshly created assignment satisfies: not started, a
   * reminder exactly when enabled and then one day before the due time,
   * and a description that is either absent or not blank.
   */
  predicate IsFreshAssignment(a: Assignment) {
    && a.status == NotStarted
    && (a.reminderTime.Some? <==> a.reminderEnabled)
    && (a.reminderTime.Some? ==> a.reminderTime.value == a.dueDate - DayMillis < a.dueDate)
    && (a.description.Some? ==> !IsBlank(a.description.value))
  }

  /** Every assignment the form builds is fresh, for any due time a `Long` clock can give past its first day. */
  lemma NewAssignmentIsFresh(
    sessionUserId: Option<int>, title: string, description: string, assignmentType: AssignmentType,
    dueDate: int, reminderEnabled: bool, priority: Priority)
    requires IsLong(dueDate) && LongMin + DayMillis <= dueDate
    ensures IsFreshAssignment(NewAssignment(sessionUserId, title, description, assignmentType, dueDate, reminderEnabled, priority))
  {
  }

  /** The form's fields, as one value. */
  datatype FormState = FormState(
    title: string,
    description: string,
    assignmentType: AssignmentType,
    dueDate: int,
    reminderEnabled: bool,
    priority: Priority)

  /** What the save button does: insert the assignment, then go back. */
  datatype SaveEffect = InsertAssignment(assignment: Assignment) | PopBackStack

  /** The form's `mutableStateOf` fields and their handlers. */
  class AssignmentForm {
    var title: string
    var description: string
    var assignmentType: AssignmentType
    var dueDate: int
    var reminderEnabled: bool
    var priority: Priority

    ghost predicate Valid()
      reads this
    {
      IsLong(dueDate)
    }

    function State(): FormState
      reads this
    {
      FormState(title, description, assignmentType, dueDate, reminderEnabled, priority)
    }

    /**
     * The initial form: empty title and description, homework, medium
     * priority, reminder on, due at `now` (the `Date()` read when the
     * form is first composed; the screen offers no way to change it).
     */
    constructor (now: int)
      requires IsLong(now)
      ensures Valid()
      ensures State() == FormState("", "", Homework, now, true, Medium)
    {
      title := "";
      description := "";
      assignmentType := Homework;
      dueDate := now;
      reminderEnabled := true;
      priority := Medium;
    }

    /** The title field's `onValueChange`. */
    method EditTitle(text: string)
      requires Valid()
      modifies this
      ensures Valid() && State() == old(State()).(title := text)
    {
      title := text;
    }

    /** The description field's `onValueChange`. */
    method EditDescription(text: string)
      requires Valid()
      modifies this
      ensures Valid() && State() == old(State()).(description := text)
    {
      description := text;
    }

    /** A click on a type chip. */
    method SelectType(t: AssignmentType)
      requires Valid()
      modifies this
      ensures Valid() && State() == old(State()).(assignmentType := t)
    {
      assignmentType := t;
    }

    /** A click on a priority chip. */
    method SelectPriority(p: Priority)
      requires Valid()
      modifies this
      ensures Valid() && State() == old(State()).(priority := p)
    {
      priority := p;
    }

    /** The reminder switch's `onCheckedChange`. */
    method SetReminderEnabled(enabled: bool)
      requires Valid()
      modifies this
      ensures Valid() && State() == old(State()).(reminderEnabled := enabled)
    {
      reminderEnabled := enabled;
    }

    /**
     * The save button: nothing at all for a blank title; otherwise one
     * insert of the new assignment, then one back-navigation.
     */
    method Save(sessionUserId: Option<int>) returns (effects: seq<SaveEffect>)
      requires Valid()
      ensures IsBlank(title) ==> effects == []
      ensures !IsBlank(title) ==> |effects| == 2 && effects[1] == PopBackStack
      ensures !IsBlank(title) ==>
                effects[0] == InsertAssignment(
                  NewAssignment(sessionUserId, title, description, assignmentType, dueDate, reminderEnabled, priority))
    {
      effects := [];
      if !IsBlank(title) {
        var assignment := NewAssignment(sessionUserId, title, description, assignmentType, dueDate, reminderEnabled, priority);
        effects := effects + [InsertAssignment(assignment)];
        effects := effects + [PopBackStack];
      }
    }
  }
}
