/** The board's entity, the request payloads the components hand to the task
    mutations, and the log of effects (requests, notifications, callback calls)
    through which the components' handlers are observed. */
module Tasks {

  datatype Option<T> = None | Some(value: T)

  /** The three board columns. */
  datatype Status = Todo | InProgress | Done

  datatype Priority = Low | Medium | High

  /** A task as the store returns it; `updatedAt` is in milliseconds since the
      epoch and `description` is `None` when the store holds null. */
  datatype Task = Task(
    id: int,
    title: string,
    description: Option<string>,
    priority: Priority,
    status: Status,
    updatedAt: int)

  /** The wire name of a status. */
  function StatusName(s: Status): string {
    match s
    case Todo => "todo"
    case InProgress => "in-progress"
    case Done => "done"
  }

  /** The wire name of a priority. */
  function PriorityName(p: Priority): string {
    match p
    case Low => "low"
    case Medium => "medium"
    case High => "high"
  }

  /** One field of a JSON request body: left out of the object, sent as
      `null`, or sent with a value. */
  datatype Field<T> = Absent | Null | Present(value: T)

  /** The body of a create request. */
  datatype NewTask = NewTask(
    title: string,
    description: Field<string>,
    priority: Priority,
    status: Status)

  /** The body of an update request: any subset of the editable fields. */
  datatype TaskUpdate = TaskUpdate(
    title: Field<string>,
    description: Field<string>,
    priority: Field<Priority>,
    status: Field<Status>)

  /** A mutation handed to the task store. */
  datatype Request =
    | Create(fields: NewTask)
    | Update(id: int, updates: TaskUpdate)
    | Delete(id: int)

  /** A notification; `destructive` is the error variant. */
  datatype Toast = Toast(title: string, description: string, destructive: bool)

  function SuccessToast(message: string): Toast {
    Toast("Success", message, false)
  }

  function ErrorToast(message: string): Toast {
    Toast("Error", message, true)
  }

  /** What a handler does besides changing its component's state. */
  datatype Effect =
    | Requested(request: Request)
    | Notified(toast: Toast)
    | CloseCalled

  /** How the store answered a request: the mutation's `onSuccess` or
      `onError` callback runs accordingly. */
  datatype Outcome = Succeeded | Failed

  /** The requests of an effect log, in the order they were issued. */
  function Requests(effects: seq<Effect>): (rs: seq<Request>)
    ensures |rs| <= |effects|
    ensures forall q :: q in rs <==> Requested(q) in effects
  {
    if effects == [] then []
    else
      (if effects[0].Requested? then [effects[0].request] else [])
      + Requests(effects[1..])
  }

  /** Requests of a log extended by more effects are the old requests followed
      by the new ones. */
  lemma {:induction false} RequestsAppend(a: seq<Effect>, b: seq<Effect>)
    ensures Requests(a + b) == Requests(a) + Requests(b)
  {
    if a == [] {
      assert a + b == b;
    } else {
      assert (a + b)[0] == a[0];
      assert (a + b)[1..] == a[1..] + b;
      RequestsAppend(a[1..], b);
    }
  }
}
