/** The task dialog's form: its initial values, the values it takes from the task being
    edited, the single-field update, and the body it submits. */
module TaskForm {
  import opened Common
  import opened Text
  import opened TaskSchema
  import opened TaskService

  /** The form's five inputs, all strings. */
  datatype Form = Form(title: string, description: string, status: string, priority: string, dueDate: string)

  datatype Field = TitleField | DescriptionField | StatusField | PriorityField | DueDateField

  /** `initialFormState`. */
  const INITIAL_FORM: Form := Form("", "", "pending", "low", "")

  /** A task as the dialog receives it; `description`, `priority` and `dueDate` may be
      absent. */
  datatype Record = Record(title: string, description: Option<string>, status: string,
                           priority: Option<string>, dueDate: Option<string>)

  function Get(f: Form, field: Field): string {
    match field
    case TitleField => f.title
    case DescriptionField => f.description
    case StatusField => f.status
    case PriorityField => f.priority
    case DueDateField => f.dueDate
  }

  /** The effect on `activeRecord`: an edited record's values, or a fresh initial form. */
  function FormFor(activeRecord: Option<Record>): (f: Form)
    ensures activeRecord.None? ==> f == INITIAL_FORM
    ensures activeRecord.Some? ==>
      var rc := activeRecord.value;
      && f.title == rc.title && f.status == rc.status
      && f.description == OrElse(rc.description, "")
      && f.priority == OrElse(rc.priority, "low")
      && (Truthy(rc.dueDate) ==> f.dueDate == Prefix(rc.dueDate.value, 10))
      && (!Truthy(rc.dueDate) ==> f.dueDate == "")
  {
    if activeRecord.None? then INITIAL_FORM
    else
      var rc := activeRecord.value;
      Form(rc.title, OrElse(rc.description, ""), rc.status, OrElse(rc.priority, "low"),
           if Truthy(rc.dueDate) then Prefix(rc.dueDate.value, 10) else "")
  }

  /** `onUpdateField(field, val)`: `{ ...prev, [field]: val }`. */
  function UpdateField(f: Form, field: Field, val: string): (g: Form)
    ensures Get(g, field) == val
    ensures forall other: Field :: other != field ==> Get(g, other) == Get(f, other)
  {
    match field
    case TitleField => f.(title := val)
    case DescriptionField => f.(description := val)
    case StatusField => f.(status := val)
    case PriorityField => f.(priority := val)
    case DueDateField => f.(dueDate := val)
  }

  /** `triggerSubmit` hands the form values over unchanged; as the body of a create
      request. */
  function AsNewTask(f: Form): (t: NewTask)
    ensures t.title == Some(f.title) && t.description == Some(f.description)
    ensures t.status == Some(f.status) && t.priority == Some(f.priority) && t.dueDate == Some(f.dueDate)
  {
    NewTask(Some(f.title), Some(f.description), Some(f.status), Some(f.priority), Some(f.dueDate))
  }

  /** The same values as the body of an update request. */
  function AsPatch(f: Form): (p: Patch)
    ensures p.title == Some(f.title) && p.description == Some(f.description)
    ensures p.status == Some(f.status) && p.priority == Some(f.priority) && p.dueDate == Some(f.dueDate)
    ensures p.createdBy.None?
  {
    Patch(Some(f.title), Some(f.description), Some(f.status), Some(f.priority), Some(f.dueDate), None)
  }

  /** The browser's constraint validation: the title input is `required`, so the form is
      submitted only when the title is not the empty string. White space counts as a
      value. */
  predicate Submittable(f: Form) {
    f.title != ""
  }

  /** The untouched new-task form cannot be submitted, and the server refuses its body
      with the empty-title error. */
  lemma UntouchedFormRejected(owner: UserId, id: TaskId)
    ensures !Submittable(FormFor(None))
    ensures CreateOutcome(AsNewTask(FormFor(None)), owner, id) == Err(EMPTY_TITLE)
  {
  }

  /** A title of white space only passes `required`, so the form is submitted, and the
      server refuses it with the empty-title error. */
  lemma BlankTitleSubmittedAndRejected(f: Form, owner: UserId, id: TaskId)
    requires f.title != "" && Blank(f.title)
    ensures Submittable(f)
    ensures CreateOutcome(AsNewTask(f), owner, id) == Err(EMPTY_TITLE)
  {
    TrimEmptyIffBlank(f.title);
  }

  /** A new-task form with only its title filled in creates a pending, low-priority task
      with an empty description, no due date and the trimmed title. */
  lemma TitleOnlyFormDefaults(title: string, owner: UserId, id: TaskId)
    requires Trim(title) != "" && JsLength(Trim(title)) <= TITLE_MAX_LENGTH
    ensures Submittable(UpdateField(INITIAL_FORM, TitleField, title))
    ensures var r := CreateOutcome(AsNewTask(UpdateField(INITIAL_FORM, TitleField, title)), owner, id);
      r == Ok(Task(id, Trim(title), "", Pending, Low, None, owner))
  {
    var r := CreateOutcome(AsNewTask(UpdateField(INITIAL_FORM, TitleField, title)), owner, id);
    assert StatusName(r.value.status) == "pending";
    assert PriorityName(r.value.priority) == "low";
  }

  /** A stored task as the client receives it. */
  function RecordOf(t: Task): (rc: Record)
    ensures rc.title == t.title && rc.description == Some(t.description) && rc.dueDate == t.dueDate
    ensures rc.status == StatusName(t.status) && rc.priority == Some(PriorityName(t.priority))
  {
    Record(t.title, Some(t.description), StatusName(t.status), Some(PriorityName(t.priority)), t.dueDate)
  }

  /** Opening a task for editing and saving it unchanged leaves it as it is, provided its
      due date is absent or a non-empty value no longer than the ten characters the form
      keeps (a stored date is never empty: "" is stored as null). */
  lemma EditResubmitIsIdentity(t: Task)
    requires WellFormed(t)
    requires t.dueDate.None? || (t.dueDate.value != "" && |t.dueDate.value| <= 10)
    ensures ApplyPatch(t, AsPatch(FormFor(Some(RecordOf(t))))) == Ok(t)
  {
    TrimUnpadded(t.title);
    TrimUnpadded(t.description);
    var p := AsPatch(FormFor(Some(RecordOf(t))));
    assert ParseStatus(StatusName(t.status)) == Some(t.status) by { match t.status { case Pending => case Completed => } }
    assert ParsePriority(PriorityName(t.priority)) == Some(t.priority) by {
      match t.priority { case Low => case Medium => case High => case Critical => }
    }
    if t.dueDate.Some? {
      assert Prefix(t.dueDate.value, 10) == t.dueDate.value;
    }
    assert Patched(t, p) == t;
  }
}
