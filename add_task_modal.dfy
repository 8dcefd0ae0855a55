/** The add-task dialog (client/src/components/add-task-modal.tsx): a form of
    title, description and priority that creates a Todo task and resets itself
    when closed. */
module AddTask {
  import opened Tasks
  import opened Text

  /** The body of the create request: the trimmed title, the trimmed
      description only when something is left of it, the chosen priority and
      always the Todo status. */
  function CreatePayload(title: string, description: string, priority: Priority): (t: NewTask)
    ensures t.status == Todo && t.priority == priority
    ensures t.title == Trim(title)
    ensures !Blank(title) ==> t.title != [] && !IsWhitespace(t.title[0])
    ensures t.description != Null && t.description != Present([])
    ensures t.description == Absent <==> Blank(description)
    ensures t.description.Present? ==> t.description.value == Trim(description)
  {
    var d := Trim(description);
    NewTask(Trim(title), if d == [] then Absent else Present(d), priority, Todo)
  }

  /** The request and notification of `handleSubmit`: refuse a blank title
      with an error toast, or send the create request and report how it
      went. */
  function SubmitEffects(title: string, description: string, priority: Priority, response: Outcome): (effects: seq<Effect>)
    ensures Blank(title) ==> effects == [Notified(ErrorToast("Task title is required"))]
    ensures !Blank(title) ==> Requests(effects) == [Create(CreatePayload(title, description, priority))]
  {
    if Blank(title) then [Notified(ErrorToast("Task title is required"))]
    else
      [Requested(Create(CreatePayload(title, description, priority))),
       Notified(if response == Succeeded then SuccessToast("Task created successfully")
                else ErrorToast("Failed to create task"))]
  }

  /** Whether a submit empties the form: only a create the store accepted
      does. */
  function ResetsAfterSubmit(title: string, response: Outcome): (resets: bool)
    ensures resets ==> !Blank(title)
    ensures !Blank(title) ==> (resets <==> response == Succeeded)
  {
    !Blank(title) && response == Succeeded
  }

  /** The `onClose` call that follows a create is no request of its own. */
  lemma CloseAddsNoRequest(before: seq<Effect>, effects: seq<Effect>, closes: bool)
    ensures Requests(before + effects + (if closes then [CloseCalled] else []))
            == Requests(before) + Requests(effects)
  {
    RequestsAppend(before, effects);
    RequestsAppend(before + effects, if closes then [CloseCalled] else []);
    assert Requests([CloseCalled]) == [];
  }

  class AddTaskModal {
    var title: string
    var description: string
    var priority: Priority
    var log: seq<Effect>

    /** The empty form: no title, no description, medium priority. */
    predicate Pristine()
      reads this
    {
      title == [] && description == [] && priority == Medium
    }

    constructor ()
      ensures Pristine() && log == []
    {
      title := "";
      description := "";
      priority := Medium;
      log := [];
    }

    method SetTitle(text: string)
      modifies this`title
      ensures title == text
    {
      title := text;
    }

    method SetDescription(text: string)
      modifies this`description
      ensures description == text
    {
      description := text;
    }

    method SetPriority(p: Priority)
      modifies this`priority
      ensures priority == p
    {
      priority := p;
    }

    /** `handleClose`: empties the form and calls `onClose`. Closing an empty
        form leaves it as it was. */
    method Close()
      modifies this`title, this`description, this`priority, this`log
      ensures Pristine()
      ensures log == old(log) + [CloseCalled]
      ensures old(Pristine()) ==> title == old(title) && description == old(description)
                                  && priority == old(priority)
    {
      title := "";
      description := "";
      priority := Medium;
      log := log + [CloseCalled];
    }

    /** `handleSubmit`: a successful create ends in `handleClose`, which
        empties the form and calls `onClose`; a refused or failed one leaves
        what the user typed. */
    method Submit(response: Outcome)
      modifies this`title, this`description, this`priority, this`log
      ensures var resets := ResetsAfterSubmit(old(title), response);
        log == old(log) + SubmitEffects(old(title), old(description), old(priority), response)
               + (if resets then [CloseCalled] else [])
      ensures ResetsAfterSubmit(old(title), response) ==> Pristine()
      ensures !ResetsAfterSubmit(old(title), response) ==>
        title == old(title) && description == old(description) && priority == old(priority)
      ensures Requests(log) == Requests(old(log))
        + Requests(SubmitEffects(old(title), old(description), old(priority), response))
    {
      var resets := ResetsAfterSubmit(title, response);
      var effects := SubmitEffects(title, description, priority, response);
      CloseAddsNoRequest(log, effects, resets);
      log := log + effects;
      if resets {
        Close();
      }
    }

    /** The dialog's `onOpenChange`: closing it runs `handleClose`, opening it
        changes nothing. */
    method OpenChange(open: bool)
      modifies this`title, this`description, this`priority, this`log
      ensures open ==> title == old(title) && description == old(description)
                       && priority == old(priority) && log == old(log)
      ensures !open ==> Pristine() && log == old(log) + [CloseCalled]
    {
      if !open {
        Close();
      }
    }
  }

  /** Creating "Buy milk" with no description sends a Todo task of medium
      priority with no description field, and empties the form. */
  method CreateScenario()
  {
    TrimKeeps("Buy milk");
    TrimKeeps("");
    var modal := new AddTaskModal();
    modal.SetTitle("Buy milk");
    modal.Submit(Succeeded);
    assert CreatePayload("Buy milk", "", Medium) == NewTask("Buy milk", Absent, Medium, Todo);
    assert Requests(modal.log) == [Create(NewTask("Buy milk", Absent, Medium, Todo))];
    assert modal.Pristine();
  }
}
