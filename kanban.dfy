/** The Kanban board of `src/app/components/TasksTable.js`: the grouping of
    tasks into four status columns, the decision a drag-end makes, and the
    `activeId` state the drag handlers keep. */
module Kanban {
  import opened Js
  import opened Seqs
  import opened Domain

  /** The column ids, in display order. The third is spelt with a hyphen,
      unlike the API status `in_progress`. */
  const ColumnIds: seq<string> := ["backlog", "todo", "in-progress", "done"]

  const ColumnTitles: seq<string> := ["Бэклог", "К выполнению", "В работе", "Выполнено"]

  datatype Column = Column(id: string, title: string, tasks: seq<Task>)

  /** Which statuses each column collects; a status outside all four collects nowhere. */
  predicate Collects(columnId: string, status: string) {
    match columnId
    case "backlog" => status == "backlog"
    case "todo" => status == "todo" || status == "pending"
    case "in-progress" => status == "in_progress"
    case "done" => status == "done" || status == "completed"
    case _ => false
  }

  /** The `filter` callback of one column. */
  function InColumn(columnId: string): Task -> bool {
    (t: Task) => Collects(columnId, t.status)
  }

  /** The statuses some column collects. */
  predicate OnBoard(status: string) {
    status in {"backlog", "todo", "pending", "in_progress", "done", "completed"}
  }

  function OnBoardTask(t: Task): bool {
    OnBoard(t.status)
  }

  /** `statusColumns`: four columns in fixed order, each the tasks its status
      filter keeps, in the order of `tasks`. */
  function StatusColumns(tasks: seq<Task>): (r: seq<Column>)
    ensures |r| == 4
    ensures forall i :: 0 <= i < 4 ==> r[i].id == ColumnIds[i] && r[i].title == ColumnTitles[i]
    ensures forall i :: 0 <= i < 4 ==> forall t :: t in r[i].tasks <==> t in tasks && Collects(ColumnIds[i], t.status)
  {
    seq(4, i requires 0 <= i < 4 => Column(ColumnIds[i], ColumnTitles[i], Filter(tasks, InColumn(ColumnIds[i]))))
  }

  /** Each column keeps the relative order of `tasks`. */
  lemma ColumnsPreserveOrder(tasks: seq<Task>, i: int)
    requires 0 <= i < 4
    ensures IsSubsequence(StatusColumns(tasks)[i].tasks, tasks)
  {
    FilterIsSubsequence(tasks, InColumn(ColumnIds[i]));
  }

  /** A status is collected by at most one column, so the columns are pairwise disjoint. */
  lemma ColumnsDisjoint(tasks: seq<Task>, i: int, j: int, t: Task)
    requires 0 <= i < j < 4
    ensures !(t in StatusColumns(tasks)[i].tasks && t in StatusColumns(tasks)[j].tasks)
  {
    var columns := StatusColumns(tasks);
    if t in columns[i].tasks && t in columns[j].tasks {
      assert Collects(ColumnIds[i], t.status) && Collects(ColumnIds[j], t.status);
      CollectedOnce(t.status, i, j);
    }
  }

  lemma CollectedOnce(status: string, i: int, j: int)
    requires 0 <= i < j < 4
    ensures !(Collects(ColumnIds[i], status) && Collects(ColumnIds[j], status))
  {
    assert ColumnIds[0] == "backlog" && ColumnIds[1] == "todo";
    assert ColumnIds[2] == "in-progress" && ColumnIds[3] == "done";
  }

  /** A status some column collects lands in exactly that column; any other status in none. */
  lemma ColumnOfStatus(status: string)
    ensures OnBoard(status) <==> exists i :: 0 <= i < 4 && Collects(ColumnIds[i], status)
    ensures !OnBoard(status) ==> forall i :: 0 <= i < 4 ==> !Collects(ColumnIds[i], status)
  {
    if OnBoard(status) {
      var i := if status == "backlog" then 0
               else if status == "todo" || status == "pending" then 1
               else if status == "in_progress" then 2 else 3;
      assert Collects(ColumnIds[i], status);
    }
  }

  /** The four columns together hold exactly the tasks whose status is on the
      board: their sizes add up to the number of such tasks. */
  lemma {:induction false} ColumnSizes(tasks: seq<Task>)
    ensures |Filter(tasks, InColumn("backlog"))| + |Filter(tasks, InColumn("todo"))|
          + |Filter(tasks, InColumn("in-progress"))| + |Filter(tasks, InColumn("done"))|
         == |Filter(tasks, OnBoardTask)|
    decreases |tasks|
  {
    if tasks != [] {
      ColumnSizes(tasks[1..]);
    }
  }

  // ---------------------------------------------------------------------------
  // Drag and drop

  /** A dnd-kit identifier: a task card is identified by its numeric task id,
      a column by its string id. */
  datatype DndId = Key(key: string) | Num(num: int)

  /** JavaScript truthiness of an identifier: `''` and `0` are falsy. */
  predicate TruthyId(d: DndId) {
    match d
    case Key(k) => k != ""
    case Num(n) => n != 0
  }

  /** The `find` callback `task => task.id === d`; a string never equals a number. */
  function HasDndId(d: DndId): Task -> bool {
    (t: Task) => d == Num(t.id)
  }

  /** `tasks.find(task => task.id === d)`. */
  function TaskWithId(tasks: seq<Task>, d: DndId): (r: Option<Task>)
    ensures r.Some? ==> r.value in tasks && d == Num(r.value.id)
    ensures r.None? <==> forall t :: t in tasks ==> d != Num(t.id)
  {
    Find(tasks, HasDndId(d))
  }

  /** The `onStatusChange(active.id, newStatus)` call a drop makes. */
  datatype StatusChange = StatusChange(taskId: DndId, status: string)

  /** The status the dropped task would take: a column id verbatim, else the
      status of the task it was dropped on, else its own status. */
  function CandidateStatus(tasks: seq<Task>, activeTask: Task, over: DndId): (r: string)
    ensures over.Key? && over.key in ColumnIds ==> r == over.key
    ensures !(over.Key? && over.key in ColumnIds) && TaskWithId(tasks, over).Some? ==>
      r == TaskWithId(tasks, over).value.status
    ensures !(over.Key? && over.key in ColumnIds) && TaskWithId(tasks, over).None? ==>
      r == activeTask.status
  {
    if over.Key? && over.key in ColumnIds then over.key
    else match TaskWithId(tasks, over)
      case Some(overTask) => overTask.status
      case None => activeTask.status
  }

  /** The decision `handleDragEnd` makes: no call without a drop target or
      without a task carrying the active id, otherwise a call exactly when the
      candidate status differs from the task's status. */
  function DropChange(tasks: seq<Task>, active: DndId, over: Option<DndId>): (r: Option<StatusChange>)
    ensures over.None? || TaskWithId(tasks, active).None? ==> r.None?
    ensures r.Some? <==> (over.Some? && TaskWithId(tasks, active).Some? &&
      CandidateStatus(tasks, TaskWithId(tasks, active).value, over.value) != TaskWithId(tasks, active).value.status)
    ensures r.Some? ==> (r.value.taskId == active &&
      r.value.status == CandidateStatus(tasks, TaskWithId(tasks, active).value, over.value))
  {
    if over.None? then None
    else match TaskWithId(tasks, active)
      case None => None
      case Some(activeTask) =>
        var status := CandidateStatus(tasks, activeTask, over.value);
        if status != activeTask.status then Some(StatusChange(active, status)) else None
  }

  /** What a drop emits is a column id or the status of a task on the board,
      and never the dropped task's own status. */
  lemma DropChangeOrigin(tasks: seq<Task>, active: DndId, over: Option<DndId>)
    requires DropChange(tasks, active, over).Some?
    ensures DropChange(tasks, active, over).value.status in ColumnIds
      || exists t :: t in tasks && t.status == DropChange(tasks, active, over).value.status
    ensures exists t :: t in tasks && Num(t.id) == active && t.status != DropChange(tasks, active, over).value.status
  {
    var a := TaskWithId(tasks, active).value;
    assert a in tasks && Num(a.id) == active;
    if !(over.value.Key? && over.value.key in ColumnIds) {
      var o := TaskWithId(tasks, over.value).value;
      assert o in tasks;
    }
  }

  /** Dropping a card on itself, or on a task with the same status, changes nothing. */
  lemma DropOnSameStatus(tasks: seq<Task>, active: DndId, over: DndId)
    requires over.Num?
    requires TaskWithId(tasks, active).Some? && TaskWithId(tasks, over).Some?
    requires TaskWithId(tasks, over).value.status == TaskWithId(tasks, active).value.status
    ensures DropChange(tasks, active, Some(over)).None?
  {
  }

  /** Dropping a `backlog`, `todo` or `done` task on its own column changes
      nothing, because those column ids are also statuses. */
  lemma DropOnOwnColumn(tasks: seq<Task>, active: DndId, column: string)
    requires column in {"backlog", "todo", "done"}
    requires TaskWithId(tasks, active).Some? && TaskWithId(tasks, active).value.status == column
    ensures DropChange(tasks, active, Some(Key(column))).None?
  {
  }

  /** The hyphen mismatch: an `in_progress` task dropped on its own column
      emits the column id `in-progress`, a string the API does not use. */
  lemma InProgressColumnMismatch(tasks: seq<Task>, active: DndId)
    requires TaskWithId(tasks, active).Some? && TaskWithId(tasks, active).value.status == InProgress
    ensures DropChange(tasks, active, Some(Key("in-progress"))) == Some(StatusChange(active, "in-progress"))
    ensures !OnBoard("in-progress")
  {
  }

  /** The `activeId` state of the board and its drag handlers. */
  class Board {
    var activeId: Option<DndId>

    /** `useState(null)`. */
    constructor()
      ensures activeId.None?
    {
      activeId := None;
    }

    /** `handleDragStart`: records the dragged id. */
    method DragStart(id: DndId)
      modifies this
      ensures activeId == Some(id)
    {
      activeId := Some(id);
    }

    /** `handleDragEnd`: always clears `activeId`, then reports the status
      change the drop decides, if any. */
    method DragEnd(tasks: seq<Task>, active: DndId, over: Option<DndId>) returns (change: Option<StatusChange>)
      modifies this
      ensures activeId.None?
      ensures change == DropChange(tasks, active, over)
    {
      activeId := None;
      if over.None? {
        return None;
      }
      var activeTask := TaskWithId(tasks, active);
      if activeTask.None? {
        return None;
      }
      var newStatus := activeTask.value.status;
      var overElement := over.value;
      if overElement.Key? && overElement.key in ColumnIds {
        newStatus := overElement.key;
      } else {
        var overTask := TaskWithId(tasks, overElement);
        if overTask.Some? {
          newStatus := overTask.value.status;
        }
      }
      change := None;
      if newStatus != activeTask.value.status {
        change := Some(StatusChange(active, newStatus));
      }
    }

    /** `activeTask`: the task with the active id when that id is truthy, else nothing. */
    function ActiveTask(tasks: seq<Task>): (r: Option<Task>)
      reads this
      ensures r.Some? ==> activeId.Some? && TruthyId(activeId.value) && r.value in tasks && activeId.value == Num(r.value.id)
      ensures r.None? <==> activeId.None? || !TruthyId(activeId.value) || forall t :: t in tasks ==> activeId.value != Num(t.id)
    {
      if activeId.Some? && TruthyId(activeId.value) then TaskWithId(tasks, activeId.value) else None
    }
  }
}
