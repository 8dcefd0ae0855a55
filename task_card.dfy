/** One task card (client/src/components/task-card.tsx): inline editing of the
    title and description, delete behind a confirmation, and the labels the
    card shows (priority class and label, "time ago"). */
module Cards {
  import opened Tasks
  import opened Text

  /** `getPriorityColor`: the class for a priority name; anything unknown is
      shown as medium. */
  function PriorityColor(name: string): (c: string)
    ensures name in {"high", "medium", "low"} ==> c == "priority-" + name
    ensures name !in {"high", "medium", "low"} ==> c == "priority-medium"
  {
    match name
    case "high" => "priority-high"
    case "medium" => "priority-medium"
    case "low" => "priority-low"
    case _ => "priority-medium"
  }

  /** Every priority the store can hold gets its own class. */
  lemma PriorityColorOf(p: Priority)
    ensures PriorityColor(PriorityName(p)) == "priority-" + PriorityName(p)
  {
  }

  /** The priority badge text: the name with its first letter in upper case,
      then " Priority". */
  function PriorityLabel(p: Priority): (badge: string)
    ensures p == Low ==> badge == "Low Priority"
    ensures p == Medium ==> badge == "Medium Priority"
    ensures p == High ==> badge == "High Priority"
  {
    Capitalize(PriorityName(p)) + " Priority"
  }

  const MsPerHour: nat := 1000 * 60 * 60
  const MsPerDay: nat := 24 * MsPerHour
  const MsPerWeek: nat := 7 * MsPerDay

  /** The bucket `formatTimeAgo` puts an elapsed time in. */
  datatype Elapsed = JustNow | Hours(hours: nat) | Days(days: nat) | Weeks(weeks: nat)

  /** The bucketing of `formatTimeAgo`, on whole milliseconds: whole hours,
      then whole days of those hours, then whole weeks of those days (`/` by
      a positive divisor rounds down, as `Math.floor` of the quotient does).
      A time in the future is "just now". */
  function ElapsedSince(now: int, updatedAt: int): (e: Elapsed)
    ensures e.JustNow? <==> now - updatedAt < MsPerHour
    ensures e.Hours? <==> MsPerHour <= now - updatedAt < MsPerDay
    ensures e.Days? <==> MsPerDay <= now - updatedAt < MsPerWeek
    ensures e.Weeks? <==> MsPerWeek <= now - updatedAt
    ensures e.Hours? ==> 1 <= e.hours < 24 && e.hours == (now - updatedAt) / MsPerHour
    ensures e.Days? ==> 1 <= e.days < 7 && e.days == (now - updatedAt) / MsPerDay
    ensures e.Weeks? ==> 1 <= e.weeks && e.weeks == (now - updatedAt) / MsPerWeek
  {
    var hours := (now - updatedAt) / MsPerHour;
    if hours < 1 then JustNow
    else if hours < 24 then Hours(hours)
    else
      var days := hours / 24;
      if days < 7 then Days(days) else Weeks(days / 7)
  }

  /** "N unit ago": the decimal digits of N, a space, the unit, the plural
      "s" exactly when N is more than one, then " ago". */
  function CountAgo(n: nat, unit: string): (text: string)
    ensures var digits := NatToString(n);
      && |text| == |digits| + 1 + |unit| + (if n > 1 then 1 else 0) + 4
      && text[..|digits|] == digits && text[|digits|] == ' '
      && text[|digits| + 1..|digits| + 1 + |unit|] == unit
      && (n > 1 ==> text[|digits| + 1 + |unit|] == 's')
      && text[|text| - 4..] == " ago"
  {
    NatToString(n) + " " + unit + (if n > 1 then "s" else "") + " ago"
  }

  /** The text for each bucket: "Just now", or the count with the bucket's
      unit. */
  function Describe(e: Elapsed): (text: string)
    ensures |text| >= 8
    ensures text == "Just now" <==> e.JustNow?
    ensures e.Hours? ==> text == CountAgo(e.hours, "hour")
    ensures e.Days? ==> text == CountAgo(e.days, "day")
    ensures e.Weeks? ==> text == CountAgo(e.weeks, "week")
  {
    match e
    case JustNow => "Just now"
    case Hours(n) => CountAgo(n, "hour")
    case Days(n) => CountAgo(n, "day")
    case Weeks(n) => CountAgo(n, "week")
  }

  /** `formatTimeAgo(updatedAt)` at time `now`: "Just now" below one hour,
      otherwise the elapsed time in whole hours, days or weeks, rounded
      down. */
  function FormatTimeAgo(now: int, updatedAt: int): (text: string)
    ensures |text| >= 8
    ensures text == "Just now" <==> now - updatedAt < MsPerHour
    ensures MsPerHour <= now - updatedAt < MsPerDay ==>
      text == CountAgo((now - updatedAt) / MsPerHour, "hour")
    ensures MsPerDay <= now - updatedAt < MsPerWeek ==>
      text == CountAgo((now - updatedAt) / MsPerDay, "day")
    ensures MsPerWeek <= now - updatedAt ==>
      text == CountAgo((now - updatedAt) / MsPerWeek, "week")
  {
    Describe(ElapsedSince(now, updatedAt))
  }

  /** The text names the number it was computed from: its leading digits read
      back as that number, and the unit is plural exactly when the number is
      above one. */
  lemma {:induction false} CountAgoReadsBack(n: nat, unit: string)
    requires unit != [] && unit[|unit| - 1] != 's'
    ensures var text := CountAgo(n, unit);
      var digits := NatToString(n);
      && text[..|digits|] == digits && DigitsValue(digits) == n
      && text[|digits|] == ' '
      && (text[|text| - 5..] == "s ago" <==> n > 1)
  {
    var text := CountAgo(n, unit);
    var digits := NatToString(n);
    NatToStringRoundTrip(n);
    assert text[..|digits|] == digits;
    if n <= 1 {
      assert text[|text| - 5] == unit[|unit| - 1];
    }
  }

  /** The caption under a card: "Completed" for a done task, "Created"
      otherwise, then the time since the task was last changed. */
  function TimeCaption(task: Task, now: int): (c: string)
    ensures task.status == Done ==>
      |c| >= 10 && c[..10] == "Completed " && c[10..] == FormatTimeAgo(now, task.updatedAt)
    ensures task.status != Done ==>
      |c| >= 8 && c[..8] == "Created " && c[8..] == FormatTimeAgo(now, task.updatedAt)
  {
    (if task.status == Done then "Completed" else "Created") + " "
      + FormatTimeAgo(now, task.updatedAt)
  }

  /** `task.description || ""`: what the description box starts with. */
  function DescriptionText(d: Option<string>): (text: string)
    ensures d == None ==> text == ""
    ensures d.Some? ==> text == d.value
  {
    match d
    case None => ""
    case Some(text) => text
  }

  /** The body of the update `handleSave` sends: the trimmed title, and the
      trimmed description or null when that is empty. */
  function EditPayload(editTitle: string, editDescription: string): (u: TaskUpdate)
    ensures u.title == Present(Trim(editTitle))
    ensures !Blank(editTitle) ==> u.title.value != [] && !IsWhitespace(u.title.value[0])
    ensures u.description == Null <==> Blank(editDescription)
    ensures u.description != Absent && u.description != Present([])
    ensures u.description.Present? ==> u.description.value == Trim(editDescription)
    ensures u.status == Absent && u.priority == Absent
  {
    var description := Trim(editDescription);
    TaskUpdate(Present(Trim(editTitle)),
               if description == [] then Null else Present(description),
               Absent, Absent)
  }

  /** What `handleSave` does: refuse a blank title with an error toast, or send
      the update and report how it went. */
  function SaveEffects(id: int, editTitle: string, editDescription: string, response: Outcome): (effects: seq<Effect>)
    ensures Blank(editTitle) ==> effects == [Notified(ErrorToast("Task title cannot be empty"))]
    ensures !Blank(editTitle) ==> Requests(effects) == [Update(id, EditPayload(editTitle, editDescription))]
  {
    if Blank(editTitle) then [Notified(ErrorToast("Task title cannot be empty"))]
    else
      [Requested(Update(id, EditPayload(editTitle, editDescription))),
       Notified(if response == Succeeded then SuccessToast("Task updated successfully")
                else ErrorToast("Failed to update task"))]
  }

  /** Whether the card is still in edit mode after `handleSave`: a blank
      title or a failed update leaves the mode as it was, an update the store
      accepted ends it. */
  function EditingAfterSave(wasEditing: bool, editTitle: string, response: Outcome): (editing: bool)
    ensures Blank(editTitle) || response == Failed ==> editing == wasEditing
    ensures !Blank(editTitle) && response == Succeeded ==> !editing
  {
    wasEditing && (Blank(editTitle) || response == Failed)
  }

  /** What `handleDelete` does with the user's answer to the confirmation. */
  function DeleteEffects(id: int, confirmed: bool, response: Outcome): (effects: seq<Effect>)
    ensures Requests(effects) == if confirmed then [Delete(id)] else []
  {
    if !confirmed then []
    else
      [Requested(Delete(id)),
       Notified(if response == Succeeded then SuccessToast("Task deleted successfully")
                else ErrorToast("Failed to delete task"))]
  }

  class TaskCard {
    var task: Task
    var isEditing: bool
    var editTitle: string
    var editDescription: string
    var log: seq<Effect>

    /** The card can be picked up only while it is not being edited. */
    predicate Draggable()
      reads this
      ensures Draggable() <==> !isEditing
    {
      !isEditing
    }

    /** Not editing, with the edit fields holding the task's own title and
        description: the state a card starts in. */
    predicate Showing()
      reads this
    {
      !isEditing && editTitle == task.title && editDescription == DescriptionText(task.description)
    }

    constructor (task: Task)
      ensures this.task == task && Showing() && log == []
    {
      this.task := task;
      isEditing := false;
      editTitle := task.title;
      editDescription := DescriptionText(task.description);
      log := [];
    }

    /** A re-render with a refreshed task of the same id keeps the card's
        state: the edit fields are not re-initialised. */
    method Receive(refreshed: Task)
      requires refreshed.id == task.id
      modifies this`task
      ensures task == refreshed
    {
      task := refreshed;
    }

    /** The edit button. */
    method BeginEdit()
      modifies this`isEditing
      ensures isEditing && !Draggable()
    {
      isEditing := true;
    }

    method SetEditTitle(text: string)
      modifies this`editTitle
      ensures editTitle == text
    {
      editTitle := text;
    }

    method SetEditDescription(text: string)
      modifies this`editDescription
      ensures editDescription == text
    {
      editDescription := text;
    }

    /** `handleSave`: editing ends only when the store accepted the update. */
    method Save(response: Outcome)
      modifies this`isEditing, this`log
      ensures log == old(log) + SaveEffects(task.id, editTitle, editDescription, response)
      ensures Requests(log) == Requests(old(log)) + Requests(SaveEffects(task.id, editTitle, editDescription, response))
      ensures isEditing == EditingAfterSave(old(isEditing), editTitle, response)
    {
      isEditing := EditingAfterSave(isEditing, editTitle, response);
      var effects := SaveEffects(task.id, editTitle, editDescription, response);
      RequestsAppend(log, effects);
      log := log + effects;
    }

    /** `handleDelete`: `confirmed` is the answer to "Are you sure ...". */
    method Delete(confirmed: bool, response: Outcome)
      modifies this`log
      ensures log == old(log) + DeleteEffects(task.id, confirmed, response)
      ensures Requests(log) == Requests(old(log)) + (if confirmed then [Request.Delete(task.id)] else [])
    {
      var effects := DeleteEffects(task.id, confirmed, response);
      RequestsAppend(log, effects);
      log := log + effects;
    }

    /** `handleCancel`: back to the state the card started in. */
    method Cancel()
      modifies this`isEditing, this`editTitle, this`editDescription
      ensures Showing() && Draggable()
    {
      editTitle := task.title;
      editDescription := DescriptionText(task.description);
      isEditing := false;
    }
  }
}
