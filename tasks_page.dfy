/**
 * The task list (src/pages/projects/TasksPage.tsx): the search with status
 * and priority filters, the tag cell, the four counters, the blocked-tasks
 * alert, and the row actions menu.
 */
module TasksPage {
  import opened Common
  import opened Types
  import opened KanbanPage

  // ---------------------------------------------------------------------
  // Search and filters
  // ---------------------------------------------------------------------

  /** A case-insensitive substring of the title, and the status and priority when set. */
  function MatchesTask(t: Task, query: string, status: Option<TaskStatus>, priority: Option<Priority>): bool
  {
    SearchMatches(t.title, query) &&
    (status.None? || t.status == status.value) &&
    (priority.None? || t.priority == priority.value)
  }

  function FilteredTasks(ts: seq<Task>, query: string, status: Option<TaskStatus>, priority: Option<Priority>): (r: seq<Task>)
    ensures Subsequence(r, ts)
    ensures forall i | 0 <= i < |r| :: SearchMatches(r[i].title, query)
    ensures status.Some? ==> forall i | 0 <= i < |r| :: r[i].status == status.value
    ensures priority.Some? ==> forall i | 0 <= i < |r| :: r[i].priority == priority.value
  {
    KeepIfSatisfies(ts, (t: Task) => MatchesTask(t, query, status, priority));
    KeepIf(ts, (t: Task) => MatchesTask(t, query, status, priority))
  }

  lemma NoFilterKeepsAll(ts: seq<Task>)
    ensures FilteredTasks(ts, "", None, None) == ts
  {
    forall i | 0 <= i < |ts| ensures MatchesTask(ts[i], "", None, None) {
      EmptyQueryMatches(ts[i].title);
    }
  }

  lemma FilteredKeepsMatches(ts: seq<Task>, query: string, status: Option<TaskStatus>, priority: Option<Priority>)
    ensures forall t | t in ts && MatchesTask(t, query, status, priority) :: t in FilteredTasks(ts, query, status, priority)
  {
    KeepIfMembers(ts, (t: Task) => MatchesTask(t, query, status, priority));
  }

  /** Searching for a task's own title, in any letter case, finds it when no filter is set. */
  lemma SearchFindsOwnTitle(ts: seq<Task>, k: nat)
    requires k < |ts|
    ensures ts[k] in FilteredTasks(ts, ts[k].title, None, None)
  {
    FieldMatchesItself(ts[k].title, ts[k].title);
    FilteredKeepsMatches(ts, ts[k].title, None, None);
  }

  // ---------------------------------------------------------------------
  // Tags, counters and the alert
  // ---------------------------------------------------------------------

  const TagLimit := 2

  /** The first two tags, then "+{n - 2}" when there are more. */
  function TagCell(t: Task): (r: Overflow<string>)
    ensures |r.shown| == Min(TagLimit, |t.tags|)
    ensures r.shown + t.tags[|r.shown|..] == t.tags
    ensures r.hidden > 0 <==> |t.tags| > TagLimit
    ensures r.hidden > 0 ==> r.hidden == |t.tags| - 2
  {
    Truncate(t.tags, TagLimit)
  }

  datatype TaskStats = TaskStats(total: nat, inProgress: nat, blocked: nat, completed: nat)

  /** "Total Tasks", "In Progress", "Blocked" and "Completed". */
  function Stats(ts: seq<Task>): (r: TaskStats)
    ensures r.total == |ts|
    ensures r.inProgress == |TasksByStatus(ts, InProgress)| && r.blocked == |TasksByStatus(ts, Blocked)|
    ensures r.completed == |TasksByStatus(ts, Done)|
    ensures r.inProgress + r.blocked + r.completed <= r.total
  {
    ColumnCountsAccountForTasks(ts);
    TaskStats(|ts|, CountIf(ts, HasTaskStatus(InProgress)), CountIf(ts, HasTaskStatus(Blocked)),
      CountIf(ts, HasTaskStatus(Done)))
  }

  /** The banner "{n} tasks are blocked", shown only for a positive count. */
  function BlockedAlert(ts: seq<Task>): (r: Option<nat>)
    ensures r.Some? <==> exists i | 0 <= i < |ts| :: ts[i].status == Blocked
    ensures r.Some? ==> r.value == Stats(ts).blocked && r.value > 0
  {
    CountIfZero(ts, HasTaskStatus(Blocked));
    var n := CountIf(ts, HasTaskStatus(Blocked));
    if n > 0 then Some(n) else None
  }

  // ---------------------------------------------------------------------
  // The row actions menu
  // ---------------------------------------------------------------------

  class TaskListState {
    var showActionsMenu: Option<string>
    var selectedTask: Option<Task>

    constructor ()
      ensures showActionsMenu == None && selectedTask == None
    {
      showActionsMenu := None;
      selectedTask := None;
    }

    /** The "more" button of a row opens its menu, or closes it when already open. */
    method ToggleActions(id: string)
      modifies this`showActionsMenu
      ensures showActionsMenu == ToggleMenu(old(showActionsMenu), id)
      ensures showActionsMenu == Some(id) <==> old(showActionsMenu) != Some(id)
    {
      showActionsMenu := ToggleMenu(showActionsMenu, id);
    }

    /** "Edit" selects the row's task and closes the menu. */
    method Edit(t: Task)
      modifies this
      ensures selectedTask == Some(t) && showActionsMenu == None
    {
      selectedTask := Some(t);
      showActionsMenu := None;
    }
  }
}
