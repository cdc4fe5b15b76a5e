/** The Task schema: the status and priority enumerations, the field constraints and
    defaults, and what the schema's setters and validators do to a document on create and
    on an update query run with validators. */
module TaskSchema {
  import opened Common
  import opened Text

  datatype Status = Pending | Completed
  datatype Priority = Low | Medium | High | Critical

  const TASK_STATUSES: seq<string> := ["pending", "completed"]
  const PRIORITY_LEVELS: seq<string> := ["low", "medium", "high", "critical"]
  const TITLE_MAX_LENGTH: nat := 100
  const DESCRIPTION_MAX_LENGTH: nat := 500
  const DEFAULT_STATUS: Status := Pending
  const DEFAULT_PRIORITY: Priority := Low

  /** The stored spelling of a status. */
  function StatusName(s: Status): (name: string)
    ensures name in TASK_STATUSES
  {
    match s
    case Pending => "pending"
    case Completed => "completed"
  }

  /** The enum validator of `status`: only the listed spellings are accepted. */
  function ParseStatus(name: string): (s: Option<Status>)
    ensures s.Some? <==> name in TASK_STATUSES
    ensures s.Some? ==> StatusName(s.value) == name
  {
    if name == "pending" then Some(Pending)
    else if name == "completed" then Some(Completed)
    else None
  }

  /** The stored spelling of a priority. */
  function PriorityName(p: Priority): (name: string)
    ensures name in PRIORITY_LEVELS
  {
    match p
    case Low => "low"
    case Medium => "medium"
    case High => "high"
    case Critical => "critical"
  }

  /** The enum validator of `priority`. */
  function ParsePriority(name: string): (p: Option<Priority>)
    ensures p.Some? <==> name in PRIORITY_LEVELS
    ensures p.Some? ==> PriorityName(p.value) == name
  {
    if name == "low" then Some(Low)
    else if name == "medium" then Some(Medium)
    else if name == "high" then Some(High)
    else if name == "critical" then Some(Critical)
    else None
  }

  /** A stored task. `dueDate` is an opaque date value (`None` is null); the creation
      timestamp is the task's position in the collection. */
  datatype Task = Task(
    id: TaskId,
    title: string,
    description: string,
    status: Status,
    priority: Priority,
    dueDate: Option<string>,
    createdBy: UserId)

  /** The constraints every stored task meets: title required, trimmed, at most 100
      characters; description trimmed, at most 500 characters. Status and priority are
      restricted to their enumerations by their types, `createdBy` is always present. */
  predicate WellFormed(t: Task) {
    && Unpadded(t.title) && t.title != "" && JsLength(t.title) <= TITLE_MAX_LENGTH
    && Unpadded(t.description) && JsLength(t.description) <= DESCRIPTION_MAX_LENGTH
  }

  /** The validators of `title` on an already-trimmed value; a path reports only its
      first failing validator, and `required` runs first. */
  function TitleViolations(title: string): (vs: seq<Violation>)
    ensures vs == [] <==> title != "" && JsLength(title) <= TITLE_MAX_LENGTH
    ensures |vs| <= 1
  {
    if title == "" then [Violation("title", "Task title is mandatory")]
    else if JsLength(title) > TITLE_MAX_LENGTH then [Violation("title", "Title cannot exceed 100 characters")]
    else []
  }

  /** `maxlength` counts UTF-16 code units: sixty characters outside the Basic Multilingual
      Plane make a title of length 120, which is rejected. */
  lemma AstralTitleTooLong()
    ensures var title := seq(60, _ => '\U{1F600}');
      |title| == 60 && JsLength(title) == 120 && TitleViolations(title) != []
  {
  }

  function DescriptionViolations(description: string): (vs: seq<Violation>)
    ensures vs == [] <==> JsLength(description) <= DESCRIPTION_MAX_LENGTH
  {
    if JsLength(description) > DESCRIPTION_MAX_LENGTH then
      [Violation("description", "Description cannot exceed 500 characters")]
    else []
  }

  function StatusViolations(status: string): (vs: seq<Violation>)
    ensures vs == [] <==> status in TASK_STATUSES
  {
    if ParseStatus(status).None? then [Violation("status", status + " is not a valid status")] else []
  }

  function PriorityViolations(priority: string): (vs: seq<Violation>)
    ensures vs == [] <==> priority in PRIORITY_LEVELS
  {
    if ParsePriority(priority).None? then
      [Violation("priority", priority + " is not a valid priority level")]
    else []
  }

  /** The raw values handed to `Task.create`, after the service's own defaulting. */
  datatype Draft = Draft(
    title: string,
    description: string,
    status: string,
    priority: string,
    dueDate: Option<string>,
    createdBy: UserId)

  /** `Task.create`: the `trim` setters run, then every validator; any violation rejects
      the document with a ValidationError (no status), otherwise the document is built. */
  function CreateDocument(d: Draft, id: TaskId): (r: Result<Task>)
    ensures r.Ok? <==>
      && Trim(d.title) != "" && JsLength(Trim(d.title)) <= TITLE_MAX_LENGTH
      && JsLength(Trim(d.description)) <= DESCRIPTION_MAX_LENGTH
      && d.status in TASK_STATUSES && d.priority in PRIORITY_LEVELS
    ensures r.Err? ==> r.error.status.None?
    ensures r.Ok? ==>
      && WellFormed(r.value) && r.value.id == id
      && r.value.title == Trim(d.title) && r.value.description == Trim(d.description)
      && StatusName(r.value.status) == d.status && PriorityName(r.value.priority) == d.priority
      && r.value.dueDate == d.dueDate && r.value.createdBy == d.createdBy
  {
    var title := Trim(d.title);
    var description := Trim(d.description);
    var titleVs, descriptionVs := TitleViolations(title), DescriptionViolations(description);
    var statusVs, priorityVs := StatusViolations(d.status), PriorityViolations(d.priority);
    if titleVs == [] && descriptionVs == [] && statusVs == [] && priorityVs == [] then
      Ok(Task(id, title, description, ParseStatus(d.status).value,
              ParsePriority(d.priority).value, d.dueDate, d.createdBy))
    else
      Err(ValidationError("Task validation failed: ", titleVs + descriptionVs + statusVs + priorityVs))
  }

  /** An update document (`req.body`, forwarded unchanged): each field absent or given.
      `createdBy` is a path of the schema too, so a patch may carry it. */
  datatype Patch = Patch(
    title: Option<string>,
    description: Option<string>,
    status: Option<string>,
    priority: Option<string>,
    dueDate: Option<string>,
    createdBy: Option<UserId>)

  /** The value a Date path takes from a given string: Mongoose casts "" to null. */
  function CastDate(raw: string): (d: Option<string>)
    ensures d.None? <==> raw == ""
  {
    if raw == "" then None else Some(raw)
  }

  /** What the update validators accept: every given path passes its validators (after
      the `trim` setter). Absent paths are not validated. */
  predicate PatchAdmissible(p: Patch) {
    && (p.title.Some? ==> Trim(p.title.value) != "" && JsLength(Trim(p.title.value)) <= TITLE_MAX_LENGTH)
    && (p.description.Some? ==> JsLength(Trim(p.description.value)) <= DESCRIPTION_MAX_LENGTH)
    && (p.status.Some? ==> p.status.value in TASK_STATUSES)
    && (p.priority.Some? ==> p.priority.value in PRIORITY_LEVELS)
  }

  /** The violations the update validators report, in schema path order. */
  function PatchViolations(p: Patch): (vs: seq<Violation>)
    ensures vs == [] <==> PatchAdmissible(p)
  {
    (if p.title.Some? then TitleViolations(Trim(p.title.value)) else [])
    + (if p.description.Some? then DescriptionViolations(Trim(p.description.value)) else [])
    + (if p.status.Some? then StatusViolations(p.status.value) else [])
    + (if p.priority.Some? then PriorityViolations(p.priority.value) else [])
  }

  /** The stored task with the given paths of an admissible patch written over it. */
  function Patched(t: Task, p: Patch): (u: Task)
    requires WellFormed(t) && PatchAdmissible(p)
    ensures WellFormed(u) && u.id == t.id
    ensures u.title == (if p.title.Some? then Trim(p.title.value) else t.title)
    ensures u.description == (if p.description.Some? then Trim(p.description.value) else t.description)
    ensures StatusName(u.status) == (if p.status.Some? then p.status.value else StatusName(t.status))
    ensures PriorityName(u.priority) == (if p.priority.Some? then p.priority.value else PriorityName(t.priority))
    ensures u.dueDate == (if p.dueDate.Some? then CastDate(p.dueDate.value) else t.dueDate)
    ensures u.createdBy == (if p.createdBy.Some? then p.createdBy.value else t.createdBy)
  {
    t.(
      title := if p.title.Some? then Trim(p.title.value) else t.title,
      description := if p.description.Some? then Trim(p.description.value) else t.description,
      status := if p.status.Some? then ParseStatus(p.status.value).value else t.status,
      priority := if p.priority.Some? then ParsePriority(p.priority.value).value else t.priority,
      dueDate := if p.dueDate.Some? then CastDate(p.dueDate.value) else t.dueDate,
      createdBy := if p.createdBy.Some? then p.createdBy.value else t.createdBy)
  }

  /** `findByIdAndUpdate(id, patch, { new: true, runValidators: true })` on the stored
      task `t`: the setters and the update validators run on the given paths only; a
      violation rejects the update with a ValidationError (no status), otherwise the
      updated document is returned. The patch is not filtered, so `createdBy` can change. */
  function ApplyPatch(t: Task, p: Patch): (r: Result<Task>)
    requires WellFormed(t)
    ensures r.Ok? <==> PatchAdmissible(p)
    ensures r.Err? ==> r.error.status.None?
    ensures r.Ok? ==> r.value == Patched(t, p)
  {
    if PatchAdmissible(p) then Ok(Patched(t, p))
    else Err(ValidationError("Validation failed: ", PatchViolations(p)))
  }

  /** An empty patch leaves the task as it is. */
  lemma EmptyPatchIsIdentity(t: Task)
    requires WellFormed(t)
    ensures ApplyPatch(t, Patch(None, None, None, None, None, None)) == Ok(t)
  {
  }
}
