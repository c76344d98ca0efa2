/**
 * The records the screens build and display. Their Kotlin classes live in
 * the app's data.model package, which is not part of this model; only the
 * fields the screens read or set are kept.
 */
module Model {
  import opened Wrappers

  datatype AssignmentType = Homework | Experiment | Other

  datatype Priority = Low | Medium | High

  datatype AssignmentStatus = NotStarted | InProgress | Completed | Overdue

  /** An assignment as the add-assignment form builds it (before storage gives it an id). */
  datatype Assignment = Assignment(
    userId: int,
    title: string,
    description: Option<string>,
    assignmentType: AssignmentType,
    dueDate: int,
    reminderEnabled: bool,
    reminderTime: Option<int>,
    status: AssignmentStatus,
    priority: Priority)

  /** A stored assignment as the list screen receives it. */
  datatype StoredAssignment = StoredAssignment(assignmentId: int, assignment: Assignment)

  /**
   * A course as the schedule screen reads it. `startTime` is the key the
   * list is sorted by, modelled as an integer (its Kotlin type is unseen).
   */
  datatype Course = Course(courseId: int, courseName: string, dayOfWeek: int, startTime: int)

  /** A study group as the create-group form builds it. */
  datatype StudyGroup = StudyGroup(
    creatorId: int,
    groupName: string,
    description: Option<string>,
    topic: Option<string>,
    maxMembers: int,
    isPublic: bool)
}
