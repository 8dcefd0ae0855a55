/** One board column (client/src/components/kanban-column.tsx): the drop zone's
    `isDragOver` flag and what the column header and body show. */
module Columns {
  import opened Tasks
  import opened Text

  /** The properties a column is rendered with; `hasAddTask` says whether an
      `onAddTask` handler was passed. The drag callbacks are the board's. */
  datatype ColumnProps = ColumnProps(
    title: string,
    status: Status,
    tasks: seq<Task>,
    hasAddTask: bool)

  /** The number on the header badge: the column's cards, zero exactly when
      the empty state shows. */
  function CountBadge(p: ColumnProps): (n: nat)
    ensures n == |p.tasks|
    ensures n == 0 <==> ShowsEmptyState(p)
  {
    |p.tasks|
  }

  /** "No tasks in ..." is shown below the cards: the column holds no task. */
  predicate ShowsEmptyState(p: ColumnProps)
    ensures ShowsEmptyState(p) <==> forall t :: t !in p.tasks
  {
    assert p.tasks != [] ==> p.tasks[0] in p.tasks;
    |p.tasks| == 0
  }

  /** The "Add New Task" button is shown above the cards: only in the Todo
      column, and only when it was given `onAddTask`. */
  predicate ShowsAddButton(p: ColumnProps)
    ensures ShowsAddButton(p) ==> p.status == Todo && p.hasAddTask
    ensures p.status == Todo && p.hasAddTask ==> ShowsAddButton(p)
  {
    p.status == Todo && p.hasAddTask
  }

  /** The empty-state text: the column title in lower case. */
  function EmptyMessage(p: ColumnProps): (m: string)
    ensures |m| == |"No tasks in "| + |p.title|
    ensures m[..12] == "No tasks in "
    ensures forall i :: 0 <= i < |p.title| ==> m[12 + i] == LowerChar(p.title[i])
  {
    "No tasks in " + ToLower(p.title)
  }

  /** The badge colour classes, one pair per status. */
  function CountColor(s: Status): (c: string)
    ensures c == "bg-gray-100 text-gray-700" <==> s == Todo
    ensures c == "bg-amber-100 text-amber-700" <==> s == InProgress
    ensures c == "bg-emerald-100 text-emerald-700" <==> s == Done
  {
    match s
    case Todo => "bg-gray-100 text-gray-700"
    case InProgress => "bg-amber-100 text-amber-700"
    case Done => "bg-emerald-100 text-emerald-700"
  }

  class KanbanColumn {
    var props: ColumnProps
    var isDragOver: bool

    constructor (props: ColumnProps)
      ensures this.props == props && !isDragOver
    {
      this.props := props;
      isDragOver := false;
    }

    /** A re-render with new properties (a refreshed task list) keeps the
        column's own state. */
    method Receive(refreshed: ColumnProps)
      modifies this`props
      ensures props == refreshed
    {
      props := refreshed;
    }

    /** `handleDragEnter`: a drag entered the drop zone. */
    method DragEnter()
      modifies this`isDragOver
      ensures isDragOver
    {
      isDragOver := true;
    }

    /** `handleDragLeave`: `relatedInside` is whether the element the pointer
        moved to lies inside the drop zone; only leaving the zone altogether
        clears the highlight. */
    method DragLeave(relatedInside: bool)
      modifies this`isDragOver
      ensures isDragOver == (old(isDragOver) && relatedInside)
    {
      if !relatedInside {
        isDragOver := false;
      }
    }

    /** `handleDrop`: clears the highlight and hands the board this column's own
        status, which is returned as `target`. */
    method Drop() returns (target: Status)
      modifies this`isDragOver
      ensures !isDragOver
      ensures target == props.status
    {
      isDragOver := false;
      target := props.status;
    }
  }
}
