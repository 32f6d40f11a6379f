/**
 * The Kanban board (src/pages/projects/KanbanPage.tsx): five status columns
 * over a page-local task list, and drag and drop between them. Dropping a
 * dragged card on a column sets that task's status, exactly as the project
 * store's `moveTask` does, and forgets the dragged card.
 */
module KanbanPage {
  import opened Common
  import opened Types
  import opened ProjectStore

  /** The board's columns, left to right. "Review" has no column. */
  const Columns: seq<TaskStatus> := [Backlog, Todo, InProgress, Blocked, Done]

  function HasTaskStatus(s: TaskStatus): Task -> bool
  {
    (t: Task) => t.status == s
  }

  /** `getTasksByStatus(status)`: the column's cards, in list order. */
  function TasksByStatus(ts: seq<Task>, s: TaskStatus): (r: seq<Task>)
    ensures Subsequence(r, ts)
    ensures forall i | 0 <= i < |r| :: r[i].status == s
  {
    KeepIfSatisfies(ts, HasTaskStatus(s));
    KeepIf(ts, HasTaskStatus(s))
  }

  /** A card is in a column exactly when the task is on the list with that status. */
  lemma TasksByStatusMembers(ts: seq<Task>, s: TaskStatus, t: Task)
    ensures t in TasksByStatus(ts, s) <==> t in ts && t.status == s
  {
    KeepIfMembers(ts, HasTaskStatus(s));
  }

  /** No card is drawn in two columns, and a task under review is drawn in none. */
  lemma TaskInAtMostOneColumn(ts: seq<Task>, t: Task, c1: TaskStatus, c2: TaskStatus)
    ensures t in TasksByStatus(ts, c1) && t in TasksByStatus(ts, c2) ==> c1 == c2
    ensures t.status == Review ==> forall c | c in Columns :: t !in TasksByStatus(ts, c)
  {
    TasksByStatusMembers(ts, c1, t);
    TasksByStatusMembers(ts, c2, t);
    forall c | c in Columns ensures t.status == Review ==> t !in TasksByStatus(ts, c) {
      TasksByStatusMembers(ts, c, t);
    }
  }

  /** The column badges add up to every task except those under review. */
  lemma {:induction false} ColumnCountsAccountForTasks(ts: seq<Task>)
    ensures |TasksByStatus(ts, Backlog)| + |TasksByStatus(ts, Todo)| + |TasksByStatus(ts, InProgress)| +
            |TasksByStatus(ts, Blocked)| + |TasksByStatus(ts, Done)| + CountIf(ts, HasTaskStatus(Review)) == |ts|
    decreases |ts|
  {
    if |ts| > 0 {
      ColumnCountsAccountForTasks(ts[1..]);
      CountIfFirst(ts, HasTaskStatus(Backlog));
      CountIfFirst(ts, HasTaskStatus(Todo));
      CountIfFirst(ts, HasTaskStatus(InProgress));
      CountIfFirst(ts, HasTaskStatus(Blocked));
      CountIfFirst(ts, HasTaskStatus(Done));
      CountIfFirst(ts, HasTaskStatus(Review));
    }
  }

  /** After a drop on column `s`, the dropped task is drawn in that column. */
  lemma DroppedTaskLandsInColumn(ts: seq<Task>, id: string, s: TaskStatus, k: nat)
    requires k < |ts| && ts[k].id == id
    ensures MoveTask(ts, id, s)[k] in TasksByStatus(MoveTask(ts, id, s), s)
  {
    TasksByStatusMembers(MoveTask(ts, id, s), s, MoveTask(ts, id, s)[k]);
  }

  /** `if (draggedTask)`: a card is held, and its id is not the empty string. */
  predicate Holding(draggedTask: Option<string>)
  {
    draggedTask.Some? && draggedTask.value != ""
  }

  class BoardState {
    var tasks: seq<Task>
    var draggedTask: Option<string>

    constructor (initial: seq<Task>)
      ensures tasks == initial && draggedTask == None
    {
      tasks := initial;
      draggedTask := None;
    }

    /** `handleDragStart(taskId)`. */
    method DragStart(taskId: string)
      modifies this`draggedTask
      ensures draggedTask == Some(taskId)
    {
      draggedTask := Some(taskId);
    }

    /** `handleDrop(status)`: with a card held, move it to `status` and let go of it;
        with none held, nothing happens. Either way the list keeps its length, ids
        and order, and no other task changes. */
    method Drop(status: TaskStatus)
      modifies this
      ensures Holding(old(draggedTask)) ==>
                tasks == MoveTask(old(tasks), old(draggedTask).value, status) && draggedTask == None
      ensures !Holding(old(draggedTask)) ==> tasks == old(tasks) && draggedTask == old(draggedTask)
      ensures |tasks| == |old(tasks)|
      ensures forall i | 0 <= i < |tasks| :: tasks[i].id == old(tasks)[i].id
      ensures forall i | 0 <= i < |tasks| && (!Holding(old(draggedTask)) || tasks[i].id != old(draggedTask).value) ::
                tasks[i] == old(tasks)[i]
    {
      if Holding(draggedTask) {
        tasks := MoveTask(tasks, draggedTask.value, status);
        draggedTask := None;
      }
    }

    /** The cards of one column. */
    function Column(s: TaskStatus): (r: seq<Task>)
      reads this
      ensures forall i | 0 <= i < |r| :: r[i].status == s
    {
      TasksByStatus(tasks, s)
    }
  }
}
