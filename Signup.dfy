/**
 * The signup route of app/api/auth/signup/route.ts: validate the JSON body against the signup
 * schema, create the user, and map what happened to a status and a JSON body.
 */
module Signup {
  import opened Wrappers
  import opened Json
  import Users
  import Bcrypt

  /** `z.string().min(8, ...)` on the password (app/api/auth/signup/route.ts:7). */
  const MinPasswordLength: nat := 8

  const InvalidEmailMessage: string := "Invalid email address"
  const ShortPasswordMessage: string := "Password must be at least 8 characters"
  const InvalidInputMessage: string := "Invalid input"
  const CreateAccountFailedMessage: string := "Failed to create account"

  /** A zod issue: the path of the offending field and its message. */
  datatype Issue = Issue(path: seq<string>, message: string)

  /** The validated request: `validation.data`. */
  datatype SignupData = SignupData(email: string, password: string, name: Option<string>)

  /** `signupSchema.safeParse(body)`. */
  datatype SafeParse = ParseSuccess(data: SignupData) | ParseFailure(issues: seq<Issue>)

  /** JavaScript's `s.length`: UTF-16 code units, two for a character outside the basic plane. */
  function Utf16Length(s: string): (n: nat)
    ensures |s| <= n <= 2 * |s|
  {
    if s == [] then 0 else Utf16Length(s[..|s| - 1]) + (if s[|s| - 1] as int > 0xFFFF then 2 else 1)
  }

  /** The type name zod reports for a value it did not expect. */
  function ZodTypeName(v: Json): string {
    match v
    case JNull => "null"
    case JBool(_) => "boolean"
    case JNumber(_) => "number"
    case JString(_) => "string"
    case JArray(_) => "array"
    case JObject(_) => "object"
  }

  /** The issue zod raises for a value where a string is expected. */
  function NotAString(key: string, v: Json): Issue {
    Issue([key], "Expected string, received " + ZodTypeName(v))
  }

  /** `email: z.string().email(...)`; the format check itself is the parameter `isEmail`. */
  function EmailIssues(fields: map<string, Json>, isEmail: string -> bool): seq<Issue> {
    if "email" !in fields then [Issue(["email"], "Required")]
    else match fields["email"]
      case JString(s) => if isEmail(s) then [] else [Issue(["email"], InvalidEmailMessage)]
      case other => [NotAString("email", other)]
  }

  /** `password: z.string().min(8, ...)`. */
  function PasswordIssues(fields: map<string, Json>): seq<Issue> {
    if "password" !in fields then [Issue(["password"], "Required")]
    else match fields["password"]
      case JString(s) => if Utf16Length(s) < MinPasswordLength then [Issue(["password"], ShortPasswordMessage)] else []
      case other => [NotAString("password", other)]
  }

  /** `name: z.string().optional()`: absent is fine, `null` is not a string. */
  function NameIssues(fields: map<string, Json>): seq<Issue> {
    if "name" !in fields then []
    else match fields["name"]
      case JString(_) => []
      case other => [NotAString("name", other)]
  }

  /** The email field is a string that passes the format check. */
  predicate EmailValid(fields: map<string, Json>, isEmail: string -> bool) {
    "email" in fields && fields["email"].JString? && isEmail(fields["email"].s)
  }

  /** The password field is a string of at least eight UTF-16 code units. */
  predicate PasswordValid(fields: map<string, Json>) {
    "password" in fields && fields["password"].JString? && Utf16Length(fields["password"].s) >= MinPasswordLength
  }

  /** The name field is absent or a string. */
  predicate NameValid(fields: map<string, Json>) {
    "name" !in fields || fields["name"].JString?
  }

  /**
   * `signupSchema.safeParse(body)` (app/api/auth/signup/route.ts:5-9, 16): issues in the order
   * of the schema's keys; success exactly when all three fields pass, with `name` optional.
   */
  function Validate(body: Json, isEmail: string -> bool): (r: SafeParse)
    ensures r.ParseSuccess? <==>
              body.JObject? && EmailValid(body.fields, isEmail) && PasswordValid(body.fields) && NameValid(body.fields)
    ensures r.ParseSuccess? ==>
              && isEmail(r.data.email) && Utf16Length(r.data.password) >= MinPasswordLength
              && r.data.email == body.fields["email"].s && r.data.password == body.fields["password"].s
              && (r.data.name.None? <==> "name" !in body.fields)
              && (r.data.name.Some? ==> body.fields["name"] == JString(r.data.name.value))
    ensures r.ParseFailure? ==> |r.issues| > 0
  {
    match body
    case JObject(fields) =>
      var issues := EmailIssues(fields, isEmail) + PasswordIssues(fields) + NameIssues(fields);
      if issues != [] then ParseFailure(issues)
      else ParseSuccess(SignupData(
        fields["email"].s,
        fields["password"].s,
        if "name" in fields then Some(fields["name"].s) else None))
    case other => ParseFailure([Issue([], "Expected object, received " + ZodTypeName(other))])
  }

  /** `{ error: message }`. */
  function ErrorBody(message: string): Json {
    JObject(map["error" := JString(message)])
  }

  /** The public part of a user: `{ id, email, name }`. */
  function PublicUser(user: Users.User): Json {
    JObject(map[
      "id" := JNumber(user.id),
      "email" := JString(user.email),
      "name" := match user.name case Some(n) => JString(n) case None => JNull])
  }

  /** `firstError?.message || 'Invalid input'`. */
  function FirstIssueMessage(issues: seq<Issue>): (message: string)
    ensures message != ""
    ensures |issues| > 0 && issues[0].message != "" ==> message == issues[0].message
    ensures (|issues| == 0 || issues[0].message == "") ==> message == InvalidInputMessage
  {
    if |issues| > 0 && issues[0].message != "" then issues[0].message else InvalidInputMessage
  }

  /**
   * The early return after validation (app/api/auth/signup/route.ts:18-24): `None` when the
   * body passed and the handler goes on to `createUser`, otherwise 400 with the first issue's
   * message.
   */
  function ValidationResponse(validation: SafeParse): (r: Option<JsonResponse>)
    ensures r.None? <==> validation.ParseSuccess?
    ensures r.Some? ==>
              && r.value.status == 400
              && r.value.body.JObject? && r.value.body.fields.Keys == {"error"}
              && r.value.body.fields["error"] == JString(FirstIssueMessage(validation.issues))
  {
    match validation
    case ParseSuccess(_) => None
    case ParseFailure(issues) => Some(JsonResponse(400, ErrorBody(FirstIssueMessage(issues))))
  }

  /**
   * The response once `createUser` has returned a user or thrown an error with a message
   * (app/api/auth/signup/route.ts:29-52).
   */
  function CreationResponse(created: Result<Users.User, string>): (r: JsonResponse)
    ensures r.status == 409 <==> created == Failure(Users.EmailExistsMessage)
    ensures r.status == 500 <==> created.Failure? && created.error != Users.EmailExistsMessage
    ensures r.status == 200 <==> created.Success?
    ensures r.status == 409 ==> r.body == ErrorBody(Users.EmailExistsMessage)
    ensures r.status == 500 ==> r.body == ErrorBody(CreateAccountFailedMessage)
    ensures r.status == 200 ==>
              && r.body.JObject? && r.body.fields.Keys == {"success", "user"}
              && r.body.fields["success"] == JBool(true)
              && r.body.fields["user"] == PublicUser(created.value)
  {
    match created
    case Success(user) => JsonResponse(200, JObject(map["success" := JBool(true), "user" := PublicUser(user)]))
    case Failure(message) =>
      if message == Users.EmailExistsMessage then JsonResponse(409, ErrorBody(Users.EmailExistsMessage))
      else JsonResponse(500, ErrorBody(CreateAccountFailedMessage))
  }

  /** The success body lists exactly the id, email and name of the user, never its hash. */
  lemma SuccessBodyOmitsHash(user: Users.User)
    ensures PublicUser(user).fields.Keys == {"id", "email", "name"}
    ensures "password_hash" !in PublicUser(user).fields
  {
  }

  /** A password shorter than eight code units is always answered with 400. */
  lemma ShortPasswordRejected(body: Json, isEmail: string -> bool)
    requires body.JObject? && "password" in body.fields && body.fields["password"].JString?
    requires Utf16Length(body.fields["password"].s) < MinPasswordLength
    ensures ValidationResponse(Validate(body, isEmail)).Some?
    ensures ValidationResponse(Validate(body, isEmail)).value.status == 400
  {
  }

  /** With a valid email, a short password is reported with the schema's own message. */
  lemma ShortPasswordMessageReported(body: Json, isEmail: string -> bool)
    requires body.JObject? && EmailValid(body.fields, isEmail)
    requires "password" in body.fields && body.fields["password"].JString?
    requires Utf16Length(body.fields["password"].s) < MinPasswordLength
    ensures ValidationResponse(Validate(body, isEmail)) == Some(JsonResponse(400, ErrorBody(ShortPasswordMessage)))
  {
  }

  /**
   * After a successful signup: the user `id` is new, holds the submitted email, the hash of the
   * password and the stored name, has a default preferences row, and is returned without its hash.
   */
  ghost predicate NewAccount(id: int, data: SignupData, salt: nat, now: Users.Timestamp, preferencesId: int,
                             oldUsers: map<int, Users.User>, oldPreferences: map<int, Users.UserPreferences>,
                             users: map<int, Users.User>, preferences: map<int, Users.UserPreferences>,
                             response: JsonResponse)
  {
    var user := Users.User(id, data.email, Bcrypt.Hash(data.password, salt), Users.StoredName(data.name), now, now);
    && users == oldUsers[id := user]
    && preferences == oldPreferences[id := Users.UserPreferences(preferencesId, id, Users.DefaultAlertThreshold,
                                                                 Users.DefaultEmailAlerts, None, None, now)]
    && response == JsonResponse(200, JObject(map["success" := JBool(true), "user" := PublicUser(user)]))
  }

  /**
   * `POST` (app/api/auth/signup/route.ts:11-54) run against the account store. `request` is
   * what `request.json()` gives: `None` when the body is not JSON, which the catch-all turns
   * into 500. Only a request that validates reaches `createUser`.
   */
  method Post(store: Users.AccountStore, request: Option<Json>, isEmail: string -> bool, salt: nat, now: Users.Timestamp)
    returns (response: JsonResponse)
    requires store.Valid()
    modifies store
    ensures store.Valid()
    ensures request.None? ==> response == JsonResponse(500, ErrorBody(CreateAccountFailedMessage))
    ensures request.Some? && Validate(request.value, isEmail).ParseFailure? ==>
              response == JsonResponse(400, ErrorBody(FirstIssueMessage(Validate(request.value, isEmail).issues)))
    ensures (request.None? || Validate(request.value, isEmail).ParseFailure?) ==>
              store.users == old(store.users) && store.preferences == old(store.preferences)
    ensures request.Some? && Validate(request.value, isEmail).ParseSuccess? ==>
              var data := Validate(request.value, isEmail).data;
              && (response.status == 409 <==> old(store.GetUserByEmail(data.email)).Some?)
              && (response.status == 409 ==>
                    && response == JsonResponse(409, ErrorBody(Users.EmailExistsMessage))
                    && store.users == old(store.users) && store.preferences == old(store.preferences))
              && (response.status != 409 ==>
                    && response.status == 200
                    && (exists id :: id !in old(store.users) && NewAccount(id, data, salt, now, old(store.nextPreferencesId),
                                                                          old(store.users), old(store.preferences),
                                                                          store.users, store.preferences, response))
                    && store.GetUserByEmail(data.email).Some?
                    && store.VerifyPassword(data.email, data.password) == store.GetUserByEmail(data.email))
  {
    if request.None? {
      return JsonResponse(500, ErrorBody(CreateAccountFailedMessage));
    }
    var validation := Validate(request.value, isEmail);
    var rejected := ValidationResponse(validation);
    if rejected.Some? {
      return rejected.value;
    }
    var data := validation.data;
    var created := store.CreateUser(data.email, data.password, data.name, salt, now);
    response := CreationResponse(created);
  }
}
