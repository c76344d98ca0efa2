/**
 * The assignment list screen: the status filter chips, the query each
 * filter dispatches to the view model, the status colour and emoji of a
 * card, and the card's menu actions. The queries themselves (which
 * assignments are "upcoming", in what order) belong to the view model
 * and its DAO, which are not part of this model: the list is whatever
 * the dispatched query returned, and each card shows its stored status.
 */
module AssignmentsScreen {
  import opened Wrappers
  import opened Model
  import opened KotlinText
  import opened ListRows
  import NavGraph

  /** The filter chips, left to right: all, not started, in progress, completed. */
  datatype FilterChip = AllChip | NotStartedChip | InProgressChip | CompletedChip

  /** The filter a chip click sets (`selectedStatus = ...`). */
  function ChipFilter(chip: FilterChip): (filter: Option<AssignmentStatus>)
    ensures filter != Some(Overdue)
    ensures filter == None <==> chip == AllChip
  {
    match chip
    case AllChip => None
    case NotStartedChip => Some(NotStarted)
    case InProgressChip => Some(InProgress)
    case CompletedChip => Some(Completed)
  }

  /** The chip that sets a filter; every filter but OVERDUE has one. */
  function ChipFor(filter: Option<AssignmentStatus>): (chip: FilterChip)
    requires filter != Some(Overdue)
  {
    match filter
    case None => AllChip
    case Some(NotStarted) => NotStartedChip
    case Some(InProgress) => InProgressChip
    case Some(Completed) => CompletedChip
  }

  /**
   * The chips set exactly the filters other than OVERDUE, one chip per
   * filter: OVERDUE can never be selected.
   */
  lemma ChipsCoverFilters(chip: FilterChip, filter: Option<AssignmentStatus>)
    ensures ChipFor(ChipFilter(chip)) == chip
    ensures filter != Some(Overdue) ==> ChipFilter(ChipFor(filter)) == filter
    ensures filter == Some(Overdue) ==> ChipFilter(chip) != filter
  {
  }

  /** The view-model query the screen launches. */
  datatype Query = Upcoming | ByStatus(status: AssignmentStatus)

  /** `LaunchedEffect(selectedStatus)`: null asks for the upcoming assignments, a status for that status. */
  function QueryFor(filter: Option<AssignmentStatus>): (q: Query)
    ensures q == Upcoming <==> filter == None
    ensures filter.Some? ==> q.ByStatus? && q.status == filter.value
  {
    match filter
    case None => Upcoming
    case Some(status) => ByStatus(status)
  }

  /** The filter a query was launched for. */
  function FilterOf(q: Query): Option<AssignmentStatus> {
    match q
    case Upcoming => None
    case ByStatus(status) => Some(status)
  }

  /** Dispatch loses nothing: the query determines the filter and back. */
  lemma QueryForIsInvertible(filter: Option<AssignmentStatus>, q: Query)
    ensures FilterOf(QueryFor(filter)) == filter
    ensures QueryFor(FilterOf(q)) == q
  {
  }

  // ---------------------------------------------------------------------
  // Status presentation

  /** A card's colour: a fixed ARGB value or a role of the app's colour scheme. */
  datatype StatusColor = Argb(argb: int) | SchemeError | SchemePrimary

  const Green: int := 0xFF4CAF50
  const Orange: int := 0xFFFF9800

  function ColorOf(status: AssignmentStatus): StatusColor {
    match status
    case Completed => Argb(Green)
    case Overdue => SchemeError
    case InProgress => Argb(Orange)
    case NotStarted => SchemePrimary
  }

  function EmojiOf(status: AssignmentStatus): string {
    match status
    case Completed => "✅"
    case Overdue => "⚠️"
    case InProgress => "🔄"
    case NotStarted => "📝"
  }

  /** Each status has its own emoji and its own colour entry. */
  lemma StatusBadgesDistinct(s: AssignmentStatus, t: AssignmentStatus)
    ensures EmojiOf(s) == EmojiOf(t) ==> s == t
    ensures ColorOf(s) == ColorOf(t) ==> s == t
  {
  }

  /**
   * The list shows one card per assignment the query returned, in order,
   * or only the placeholder: the assignment list's instance of
   * `RowsShowValues`, whose induction carries the proof.
   */
  lemma ListShowsAssignments(assignments: seq<StoredAssignment>)
    ensures CardValues(Rows(assignments)) == assignments
    ensures Rows(assignments) == [EmptyPlaceholder] <==> assignments == []
  {
    RowsShowValues(assignments);
  }

  // ---------------------------------------------------------------------
  // The screen's state

  /** The screen's `selectedStatus` state. */
  class AssignmentsScreenState {
    var selectedStatus: Option<AssignmentStatus>

    ghost predicate Valid()
      reads this
    {
      selectedStatus != Some(Overdue)
    }

    /** The filter starts as null, so the first launched query asks for the upcoming assignments. */
    constructor ()
      ensures Valid() && selectedStatus == None
      ensures QueryFor(selectedStatus) == Upcoming
    {
      selectedStatus := None;
    }

    predicate IsSelected(chip: FilterChip)
      reads this
    {
      selectedStatus == ChipFilter(chip)
    }

    /** Exactly one chip is drawn selected. */
    function SelectedChip(): (chip: FilterChip)
      reads this
      requires Valid()
      ensures IsSelected(chip)
      ensures forall c :: IsSelected(c) ==> c == chip
    {
      ChipsCoverFilters(AllChip, selectedStatus);
      ChipFor(selectedStatus)
    }

    /**
     * A chip click. The effect is keyed on `selectedStatus`, so a new
     * query is launched only when the filter actually changes.
     */
    method ClickChip(chip: FilterChip) returns (launched: Option<Query>)
      requires Valid()
      modifies this
      ensures Valid() && selectedStatus == ChipFilter(chip)
      ensures launched == if selectedStatus == old(selectedStatus) then None else Some(QueryFor(selectedStatus))
    {
      var previous := selectedStatus;
      selectedStatus := ChipFilter(chip);
      if selectedStatus == previous {
        launched := None;
      } else {
        launched := Some(QueryFor(selectedStatus));
      }
    }
  }

  /** What a card's menu items ask the screen to do. */
  datatype CardAction =
    | Navigate(route: string)
    | UpdateStatus(assignmentId: int, status: AssignmentStatus)
    | Delete(item: StoredAssignment)

  /** One card's `showMenu` state and its menu items. */
  class AssignmentCard {
    const item: StoredAssignment
    var showMenu: bool

    constructor (item: StoredAssignment)
      ensures this.item == item && !showMenu
    {
      this.item := item;
      showMenu := false;
    }

    method OpenMenu()
      modifies this
      ensures showMenu
    {
      showMenu := true;
    }

    method DismissMenu()
      modifies this
      ensures !showMenu
    {
      showMenu := false;
    }

    /** "Edit": close the menu, open the edit screen for this assignment's id. */
    method Edit() returns (action: CardAction)
      requires IsInt(item.assignmentId)
      modifies this
      ensures !showMenu && action.Navigate?
      ensures NavGraph.Resolve(action.route) ==
        Some(NavGraph.ShowsWithId(NavGraph.EditAssignment, Some(item.assignmentId)))
    {
      showMenu := false;
      NavGraph.ResolveRouteWithId(NavGraph.EditAssignment, item.assignmentId);
      action := Navigate(NavGraph.RouteWithId(NavGraph.EditAssignment, item.assignmentId));
    }

    /** "Mark complete": close the menu, request status COMPLETED for this card's id. */
    method MarkComplete() returns (action: CardAction)
      modifies this
      ensures !showMenu && action == UpdateStatus(item.assignmentId, Completed)
    {
      showMenu := false;
      action := UpdateStatus(item.assignmentId, Completed);
    }

    /** "Delete": close the menu, delete this card's assignment. */
    method DeleteItem() returns (action: CardAction)
      modifies this
      ensures !showMenu && action == Delete(item)
    {
      showMenu := false;
      action := Delete(item);
    }
  }
}
