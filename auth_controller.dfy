/** The auth controller: the required-field guards of register and login, the success
    codes, and the shared catch block `error.status || 500`, `error.message || "Server Error"`. */
module AuthController {
  import opened Common
  import opened UserSchema
  import opened AuthService

  const REGISTER_FIELDS_MISSING := "Please provide name, email and password"
  const LOGIN_FIELDS_MISSING := "Please provide email and password"

  /** The JSON bodies the handlers send. */
  datatype Body =
    | PayloadJson(payload: AuthPayload)
    | MessageJson(message: string)

  datatype Response = Response(status: int, body: Body)

  /** `req.body` of the two routes: each field absent or given. */
  datatype RegisterBody = RegisterBody(name: Option<string>, email: Option<string>, password: Option<string>)
  datatype LoginBody = LoginBody(email: Option<string>, password: Option<string>)

  /** The catch block of both handlers. */
  function ErrorResponse(e: Error): (resp: Response)
    ensures resp.body.MessageJson? && resp.body.message != ""
    ensures e.status.Some? && e.status.value != 0 ==> resp.status == e.status.value
    ensures e.status.None? || e.status == Some(0) ==> resp.status == 500
    ensures e.message != "" ==> resp.body.message == e.message
  {
    Response(HttpStatus(e), MessageJson(HttpMessage(e)))
  }

  predicate RegisterFieldsGiven(b: RegisterBody) {
    Truthy(b.name) && Truthy(b.email) && Truthy(b.password)
  }

  predicate LoginFieldsGiven(b: LoginBody) {
    Truthy(b.email) && Truthy(b.password)
  }

  /** `POST /api/auth/register` against the collection `users`; `id` is the id the new
      document receives. */
  function RegisterUser(users: seq<User>, b: RegisterBody, id: UserId, crypto: Crypto, salt: string): (resp: Response)
    ensures !RegisterFieldsGiven(b) ==> resp == Response(400, MessageJson(REGISTER_FIELDS_MISSING))
    ensures RegisterFieldsGiven(b) ==>
      var r := RegisterOutcome(users, Registration(b.name.value, b.email.value, b.password.value), id, crypto, salt);
      && (resp.status == 201 <==> r.Ok?)
      && (r.Ok? ==> resp.body == PayloadJson(PayloadOf(r.value)))
      && (EmailInUse(users, NormalizeEmail(b.email.value)) ==> resp == Response(400, MessageJson(DUPLICATE_EMAIL.message)))
      && (r.Err? && !EmailInUse(users, NormalizeEmail(b.email.value)) ==> resp.status == 500)
  {
    if !RegisterFieldsGiven(b) then Response(400, MessageJson(REGISTER_FIELDS_MISSING))
    else
      var r := RegisterOutcome(users, Registration(b.name.value, b.email.value, b.password.value), id, crypto, salt);
      if r.Ok? then Response(201, PayloadJson(PayloadOf(r.value))) else ErrorResponse(r.error)
  }

  /** `POST /api/auth/login`. */
  function LoginUser(users: seq<User>, b: LoginBody, crypto: Crypto): (resp: Response)
    ensures !LoginFieldsGiven(b) ==> resp == Response(400, MessageJson(LOGIN_FIELDS_MISSING))
    ensures LoginFieldsGiven(b) ==>
      var r := LoginOutcome(users, Credentials(b.email.value, b.password.value), crypto);
      && (resp.status == 200 <==> r.Ok?)
      && (r.Ok? ==> resp.body == PayloadJson(r.value))
      && (r.Err? ==> resp.status == 401 && resp.body.MessageJson?)
      && (!EmailInUse(users, NormalizeEmail(b.email.value)) ==> resp.body == MessageJson(UNKNOWN_EMAIL.message))
  {
    if !LoginFieldsGiven(b) then Response(400, MessageJson(LOGIN_FIELDS_MISSING))
    else
      var r := LoginOutcome(users, Credentials(b.email.value, b.password.value), crypto);
      if r.Ok? then Response(200, PayloadJson(r.value)) else ErrorResponse(r.error)
  }

  /** A 201 registration followed by a login with the same email and password answers
      200 with the same id, name and email. */
  lemma RegisterThenLoginResponses(users: seq<User>, nextId: nat, b: RegisterBody, crypto: Crypto, salt: string)
    requires Consistent(users, nextId) && Sound(crypto)
    requires RegisterUser(users, b, UserId(nextId), crypto, salt).status == 201
    ensures var reg := Registration(b.name.value, b.email.value, b.password.value);
      var u := RegisterOutcome(users, reg, UserId(nextId), crypto, salt).value;
      LoginUser(users + [u], LoginBody(b.email, b.password), crypto) ==
        Response(200, RegisterUser(users, b, UserId(nextId), crypto, salt).body)
  {
    var reg := Registration(b.name.value, b.email.value, b.password.value);
    RegisterThenLogin(users, nextId, reg, reg.email, crypto, salt);
  }
}
