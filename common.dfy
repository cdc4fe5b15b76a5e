/** Values shared by the whole application: optional values, the thrown-error shape,
    identifiers, schema violations and the JavaScript truthiness of optional strings. */
module Common {

  datatype Option<T> = None | Some(value: T)

  /** What the service layer throws. The services throw object literals such as
      `{ status: 404, message: "..." }`; exceptions raised by the runtime, the schema
      validator or the database driver carry a message but no `status` (`None`). */
  datatype Error = Error(status: Option<int>, message: string)

  datatype Result<T> = Ok(value: T) | Err(error: Error)

  /** Opaque document identifiers: the model only ever compares them for equality. */
  datatype UserId = UserId(raw: nat)
  datatype TaskId = TaskId(raw: nat)

  /** One failed schema validator: the document path and the validator's message. */
  datatype Violation = Violation(path: string, message: string)

  /** JavaScript truthiness of an optional string: absent, null and "" are falsy. */
  predicate Truthy(s: Option<string>) {
    s.Some? && s.value != ""
  }

  /** The JavaScript expression `s || fallback` for an optional string. */
  function OrElse(s: Option<string>, fallback: string): (r: string)
    ensures Truthy(s) ==> r == s.value
    ensures !Truthy(s) ==> r == fallback
  {
    if Truthy(s) then s.value else fallback
  }

  /** The "path: message, path: message" list that a Mongoose ValidationError reports. */
  function DescribeViolations(vs: seq<Violation>): string {
    if vs == [] then ""
    else if |vs| == 1 then vs[0].path + ": " + vs[0].message
    else vs[0].path + ": " + vs[0].message + ", " + DescribeViolations(vs[1..])
  }

  /** A Mongoose ValidationError: its message starts with `prefix` ("Task validation
      failed: " on create, "Validation failed: " on an update query) and it has no status. */
  function ValidationError(prefix: string, vs: seq<Violation>): (e: Error)
    requires vs != []
    ensures e.status.None? && e.message != ""
  {
    Error(None, prefix + DescribeViolations(vs))
  }

  /** The status both controllers send for a caught error: `error.status || 500`. */
  function HttpStatus(e: Error): (code: int)
    ensures code == 500 || Some(code) == e.status
    ensures e.status.None? || e.status == Some(0) ==> code == 500
    ensures e.status.Some? && e.status.value != 0 ==> code == e.status.value
  {
    if e.status.Some? && e.status.value != 0 then e.status.value else 500
  }

  const SERVER_ERROR_MESSAGE := "Server Error"

  /** The message both controllers send for a caught error: `error.message || "Server Error"`. */
  function HttpMessage(e: Error): (msg: string)
    ensures msg == e.message || (e.message == "" && msg == SERVER_ERROR_MESSAGE)
    ensures msg != ""
  {
    if e.message != "" then e.message else SERVER_ERROR_MESSAGE
  }
}
