/** The task controller: each handler forwards the authenticated user's id (and the route
    parameter and body) to the service, answers 201 for a create and 200 otherwise, and
    maps a thrown error to `error.status || 500` with `error.message || "Server Error"`. */
module TaskController {
  import opened Common
  import opened TaskSchema
  import opened TaskService

  /** The JSON bodies the handlers send. */
  datatype Body =
    | TaskJson(task: Task)
    | AckJson(ack: Ack)
    | MessageJson(message: string)

  datatype Response = Response(status: int, body: Body)

  /** The catch block every handler shares. */
  function ErrorResponse(e: Error): (resp: Response)
    ensures resp.body.MessageJson? && resp.body.message != ""
    ensures e.status.Some? && e.status.value != 0 ==> resp.status == e.status.value
    ensures e.status.None? || e.status == Some(0) ==> resp.status == 500
    ensures e.message != "" ==> resp.body.message == e.message
    ensures e.message == "" ==> resp.body.message == SERVER_ERROR_MESSAGE
  {
    Response(HttpStatus(e), MessageJson(HttpMessage(e)))
  }

  /** `GET /api/tasks`: the service is called with the user id only, so its options
      parameter is undefined and destructuring it throws; the answer is always a 500. */
  function GetAllTasks(ts: seq<Task>, user: UserId): (resp: Response)
    ensures resp == Response(500, MessageJson(DESTRUCTURE_MESSAGE))
  {
    var r := ListTasks(ts, user, None);
    // The success branch `res.status(200).json(tasks)` is unreachable.
    assert r.Err?;
    ErrorResponse(r.error)
  }

  /** `GET /api/tasks/:id`. */
  function GetTaskById(ts: seq<Task>, id: TaskId, user: UserId): (resp: Response)
    ensures resp.status == 200 <==> TaskById(ts, id, user).Ok?
    ensures resp.status == 200 ==> resp.body == TaskJson(TaskById(ts, id, user).value)
    ensures Find(ts, id).None? ==> resp == Response(404, MessageJson(NOT_FOUND.message))
    ensures Find(ts, id).Some? && Find(ts, id).value.createdBy != user ==>
      resp == Response(403, MessageJson(FORBIDDEN.message))
  {
    var r := TaskById(ts, id, user);
    if r.Ok? then Response(200, TaskJson(r.value)) else ErrorResponse(r.error)
  }

  /** `POST /api/tasks`: 201 with the stored task; 400 for a missing or blank title; 500
      (the ValidationError's message) when the schema rejects the document. */
  function CreateTask(input: NewTask, user: UserId, freshId: TaskId): (resp: Response)
    ensures resp.status == 201 <==> CreateOutcome(input, user, freshId).Ok?
    ensures resp.status == 201 ==> resp.body == TaskJson(CreateOutcome(input, user, freshId).value)
    ensures TitleMissing(input.title) ==> resp == Response(400, MessageJson(EMPTY_TITLE.message))
    ensures resp.status in {201, 400, 500}
  {
    var r := CreateOutcome(input, user, freshId);
    if r.Ok? then Response(201, TaskJson(r.value)) else ErrorResponse(r.error)
  }

  /** `PUT /api/tasks/:id`: 200 with the updated task, 404, 403, or 500 when the update
      validators reject the patch. */
  function UpdateTask(ts: seq<Task>, id: TaskId, patch: Patch, user: UserId): (resp: Response)
    requires AllWellFormed(ts)
    ensures resp.status == 200 <==> UpdateOutcome(ts, id, patch, user).Ok?
    ensures resp.status == 200 ==> resp.body == TaskJson(UpdateOutcome(ts, id, patch, user).value)
    ensures Find(ts, id).None? ==> resp == Response(404, MessageJson(UPDATE_NOT_FOUND.message))
    ensures Find(ts, id).Some? && Find(ts, id).value.createdBy != user ==>
      resp == Response(403, MessageJson(UPDATE_FORBIDDEN.message))
    ensures Find(ts, id).Some? && Find(ts, id).value.createdBy == user ==>
      (resp.status == 500 <==> !PatchAdmissible(patch))
  {
    var r := UpdateOutcome(ts, id, patch, user);
    if r.Ok? then Response(200, TaskJson(r.value)) else ErrorResponse(r.error)
  }

  /** `DELETE /api/tasks/:id`: 200 with the acknowledgement, 404 or 403. */
  function DeleteTask(ts: seq<Task>, id: TaskId, user: UserId): (resp: Response)
    ensures resp.status in {200, 403, 404}
    ensures resp.status == 200 <==> Find(ts, id).Some? && Find(ts, id).value.createdBy == user
    ensures resp.status == 200 ==> resp.body == AckJson(Ack(true, DELETED_MESSAGE))
    ensures resp.status == 404 <==> Find(ts, id).None?
  {
    var r := DeleteOutcome(ts, id, user);
    if r.Ok? then Response(200, AckJson(r.value)) else ErrorResponse(r.error)
  }
}
