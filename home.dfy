/** The board page (client/src/pages/home.tsx): the projection of the task list
    onto three status columns with their counts, and the drag-and-drop state
    that turns a drop onto a column into a status update. */
module HomePage {
  import opened Tasks
  import opened Text
  import opened Columns

  /** `tasks.filter((task) => task.status === s)`. */
  function WithStatus(tasks: seq<Task>, s: Status): (r: seq<Task>)
    ensures |r| <= |tasks|
    ensures forall t :: t in r <==> t in tasks && t.status == s
  {
    if tasks == [] then []
    else (if tasks[0].status == s then [tasks[0]] else []) + WithStatus(tasks[1..], s)
  }

  /** Filtering distributes over concatenation: each column keeps the relative
      order its tasks have in the list. */
  lemma {:induction false} WithStatusAppend(xs: seq<Task>, ys: seq<Task>, s: Status)
    ensures WithStatus(xs + ys, s) == WithStatus(xs, s) + WithStatus(ys, s)
  {
    if xs == [] {
      assert xs + ys == ys;
    } else {
      assert (xs + ys)[0] == xs[0];
      assert (xs + ys)[1..] == xs[1..] + ys;
      WithStatusAppend(xs[1..], ys, s);
    }
  }

  /** One step of the filter: the head of the list goes to the column of its
      own status and to no other. */
  lemma WithStatusCons(h: Task, rest: seq<Task>, s: Status)
    ensures multiset(WithStatus([h] + rest, s))
            == (if h.status == s then multiset{h} else multiset{}) + multiset(WithStatus(rest, s))
  {
    assert ([h] + rest)[0] == h;
    assert ([h] + rest)[1..] == rest;
  }

  /** The three columns together hold every task exactly as often as the list
      does. */
  lemma {:induction false} WithStatusPartition(tasks: seq<Task>)
    ensures multiset(WithStatus(tasks, Todo)) + multiset(WithStatus(tasks, InProgress))
            + multiset(WithStatus(tasks, Done)) == multiset(tasks)
  {
    if tasks != [] {
      var h, rest := tasks[0], tasks[1..];
      assert tasks == [h] + rest;
      WithStatusPartition(rest);
      WithStatusCons(h, rest, Todo);
      WithStatusCons(h, rest, InProgress);
      WithStatusCons(h, rest, Done);
      assert multiset(tasks) == multiset{h} + multiset(rest);
    }
  }

  /** What the page derives from the task list: the total, shown in the header
      and on the first statistics card, and the three columns, whose lengths
      are the other three statistics. */
  datatype BoardView = BoardView(
    total: nat,
    todo: seq<Task>,
    inProgress: seq<Task>,
    done: seq<Task>)

  function Project(tasks: seq<Task>): (v: BoardView)
    ensures v.total == |tasks|
    ensures v.total == |v.todo| + |v.inProgress| + |v.done|
    ensures multiset(v.todo) + multiset(v.inProgress) + multiset(v.done) == multiset(tasks)
    ensures forall t :: t in v.todo <==> t in tasks && t.status == Todo
    ensures forall t :: t in v.inProgress <==> t in tasks && t.status == InProgress
    ensures forall t :: t in v.done <==> t in tasks && t.status == Done
  {
    WithStatusPartition(tasks);
    var v := BoardView(|tasks|, WithStatus(tasks, Todo), WithStatus(tasks, InProgress),
                       WithStatus(tasks, Done));
    assert |multiset(tasks)| == |multiset(v.todo) + multiset(v.inProgress) + multiset(v.done)|;
    v
  }

  /** No task stands in two columns. */
  lemma ColumnsDisjoint(tasks: seq<Task>, t: Task)
    ensures !(t in Project(tasks).todo && t in Project(tasks).inProgress)
    ensures !(t in Project(tasks).todo && t in Project(tasks).done)
    ensures !(t in Project(tasks).inProgress && t in Project(tasks).done)
  {
  }

  function ColumnTitle(s: Status): string {
    match s
    case Todo => "Todo"
    case InProgress => "In Progress"
    case Done => "Done"
  }

  /** The properties the page passes to the column for status `s`; only the
      Todo column gets `onAddTask`. */
  function ColumnFor(tasks: seq<Task>, s: Status): (p: ColumnProps)
    ensures p.status == s && p.title == ColumnTitle(s)
    ensures forall t :: t in p.tasks <==> t in tasks && t.status == s
    ensures p.tasks == Project(tasks).todo || p.tasks == Project(tasks).inProgress
            || p.tasks == Project(tasks).done
    ensures p.hasAddTask <==> s == Todo
  {
    ColumnProps(ColumnTitle(s), s, WithStatus(tasks, s), s == Todo)
  }

  /** What the three rendered columns show: their badges add up to the total,
      a column shows its empty state exactly when no task has its status, and
      only the Todo column offers the add button. */
  lemma BoardColumns(tasks: seq<Task>, s: Status)
    ensures CountBadge(ColumnFor(tasks, Todo)) + CountBadge(ColumnFor(tasks, InProgress))
            + CountBadge(ColumnFor(tasks, Done)) == |tasks|
    ensures ShowsEmptyState(ColumnFor(tasks, s)) <==> forall t :: t in tasks ==> t.status != s
    ensures ShowsAddButton(ColumnFor(tasks, s)) <==> s == Todo
  {
    var v := Project(tasks);
    var r := WithStatus(tasks, s);
    if r != [] {
      assert r[0] in r;
    }
  }

  /** The body of the update a drop sends: the new status and nothing else. */
  function MoveTo(s: Status): (u: TaskUpdate)
    ensures u.status == Present(s)
    ensures u.title == Absent && u.description == Absent && u.priority == Absent
  {
    TaskUpdate(Absent, Absent, Absent, Present(s))
  }

  /** "Task moved to in progress": the status name with its dash replaced by a
      space. */
  function MovedMessage(s: Status): (m: string)
    ensures s == Todo ==> m == "Task moved to todo"
    ensures s == InProgress ==> m == "Task moved to in progress"
    ensures s == Done ==> m == "Task moved to done"
  {
    "Task moved to " + ReplaceFirst(StatusName(s), '-', ' ')
  }

  /** What `handleDrop` does for the task being dragged (as it was recorded
      when the drag started) and the column it was dropped on. */
  function DropEffects(dragged: Option<Task>, target: Status, response: Outcome): (effects: seq<Effect>)
    ensures dragged == None || dragged.value.status == target ==> effects == []
    ensures dragged != None && dragged.value.status != target ==>
      Requests(effects) == [Update(dragged.value.id, MoveTo(target))]
  {
    if dragged == None || dragged.value.status == target then []
    else
      [Requested(Update(dragged.value.id, MoveTo(target))),
       Notified(if response == Succeeded then SuccessToast(MovedMessage(target))
                else ErrorToast("Failed to move task"))]
  }

  /** The page's own state: the add-task dialog flag and the task being
      dragged; `log` records the effects of its handlers. */
  class Home {
    var isAddModalOpen: bool
    var draggedTask: Option<Task>
    var log: seq<Effect>

    constructor ()
      ensures !isAddModalOpen && draggedTask == None && log == []
    {
      isAddModalOpen := false;
      draggedTask := None;
      log := [];
    }

    /** `handleDragStart`: remembers the card being dragged. */
    method DragStart(task: Task)
      modifies this`draggedTask
      ensures draggedTask == Some(task)
    {
      draggedTask := Some(task);
    }

    /** `handleDragEnd`: forgets it, whatever was recorded. */
    method DragEnd()
      modifies this`draggedTask
      ensures draggedTask == None
    {
      draggedTask := None;
    }

    /** `handleDrop`: asks for a status change unless nothing is being dragged
        or the task already has the target status; the drag itself is left to
        `DragEnd`. */
    method Drop(target: Status, response: Outcome)
      modifies this`log
      ensures draggedTask == old(draggedTask)
      ensures log == old(log) + DropEffects(draggedTask, target, response)
      ensures Requests(log) == Requests(old(log)) + Requests(DropEffects(draggedTask, target, response))
    {
      var effects := DropEffects(draggedTask, target, response);
      RequestsAppend(log, effects);
      log := log + effects;
    }

    /** A drop onto `column`: the column clears its highlight and forwards its
        status to `Drop`. */
    method DropOnColumn(column: KanbanColumn, response: Outcome)
      modifies this`log, column`isDragOver
      ensures !column.isDragOver
      ensures draggedTask == old(draggedTask)
      ensures log == old(log) + DropEffects(draggedTask, column.props.status, response)
    {
      var target := column.Drop();
      Drop(target, response);
    }

    /** `onAddTask` of the Todo column. */
    method OpenAddModal()
      modifies this`isAddModalOpen
      ensures isAddModalOpen
    {
      isAddModalOpen := true;
    }

    /** `onClose` of the add-task dialog. */
    method CloseAddModal()
      modifies this`isAddModalOpen
      ensures !isAddModalOpen
    {
      isAddModalOpen := false;
    }
  }

  /** A drag of a Done task dropped back on the Done column sends nothing; the
      same drag dropped on In Progress sends one status update. */
  method DragScenario(t: Task)
    requires t.status == Done
  {
    var home := new Home();
    home.DragStart(t);
    var done := new KanbanColumn(ColumnFor([t], Done));
    home.DropOnColumn(done, Succeeded);
    assert Requests(home.log) == [];
    home.Drop(InProgress, Succeeded);
    assert Requests(home.log) == [Update(t.id, MoveTo(InProgress))];
    home.DragEnd();
    home.Drop(Todo, Succeeded);
    assert Requests(home.log) == [Update(t.id, MoveTo(InProgress))];
  }
}
