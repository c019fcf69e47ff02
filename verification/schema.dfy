/**
 * schemas/task.py and schemas/user.py: the pydantic request models that
 * flask_pydantic checks before a route body runs. Each `str` field is required
 * unless it has a default, must hold a JSON string (a number, boolean or null
 * is refused, as pydantic's strict string type does) and must satisfy its
 * length bounds, counted in characters. Every failing field is reported, in
 * declaration order.
 */
module Schema {
  import opened Wrappers
  import opened Json

  datatype Problem = Missing | NotAString | TooShort | TooLong | InvalidFormat

  /** One entry of the 400 response's error list: the field (`loc`) and why. */
  datatype FieldError = FieldError(loc: string, problem: Problem)

  /** A `str` field with `min_length`/`max_length` bounds and an optional default. */
  function StrField(obj: Object, name: string, default: Option<string>, minLen: nat, maxLen: nat): (r: Result<string, Problem>)
    ensures r.Ok? <==>
      (name !in obj && default.Some?)
      || (name in obj && obj[name].Str? && minLen <= |obj[name].s| <= maxLen)
    ensures r.Ok? ==> r.value == if name in obj then obj[name].s else default.value
    ensures r == Err(Missing) <==> name !in obj && default.None?
    ensures r == Err(NotAString) <==> name in obj && !obj[name].Str?
  {
    if name !in obj then
      (if default.Some? then Ok(default.value) else Err(Missing))
    else if !obj[name].Str? then Err(NotAString)
    else if |obj[name].s| < minLen then Err(TooShort)
    else if |obj[name].s| > maxLen then Err(TooLong)
    else Ok(obj[name].s)
  }

  /** A plain required `str` with no bounds. */
  function AnyStr(obj: Object, name: string): (r: Result<string, Problem>)
    ensures r.Ok? <==> name in obj && obj[name].Str?
    ensures r.Ok? ==> r.value == obj[name].s
  {
    if name !in obj then Err(Missing)
    else if !obj[name].Str? then Err(NotAString)
    else Ok(obj[name].s)
  }

  /** The error list entry a field contributes. */
  function Report<T>(name: string, r: Result<T, Problem>): seq<FieldError> {
    if r.Err? then [FieldError(name, r.error)] else []
  }

  // ---------------------------------------------------------------------
  // schemas/task.py

  datatype TaskRequest = TaskRequest(title: string, description: string)

  const TitleMax := 50
  const DescriptionMax := 200

  predicate ValidTitle(t: string) {
    1 <= |t| <= TitleMax
  }

  predicate ValidDescription(d: string) {
    |d| <= DescriptionMax
  }

  /** `TaskRequest`: title required with 1..50 characters, description optional with default "" and at most 200. */
  function ParseTaskRequest(obj: Object): (r: Result<TaskRequest, seq<FieldError>>)
    ensures r.Ok? <==>
      "title" in obj && obj["title"].Str? && ValidTitle(obj["title"].s)
      && ("description" in obj ==> obj["description"].Str? && ValidDescription(obj["description"].s))
    ensures r.Ok? ==> r.value.title == obj["title"].s
    ensures r.Ok? ==> r.value.description == if "description" in obj then obj["description"].s else ""
    ensures r.Err? ==> |r.error| >= 1 && (r.error[0].loc == "title" <==> !("title" in obj && obj["title"].Str? && ValidTitle(obj["title"].s)))
    ensures r == Err([FieldError("title", Missing)]) <==> "title" !in obj && ("description" in obj ==> obj["description"].Str? && ValidDescription(obj["description"].s))
  {
    var title := StrField(obj, "title", None, 1, TitleMax);
    var description := StrField(obj, "description", Some(""), 0, DescriptionMax);
    if title.Ok? && description.Ok? then Ok(TaskRequest(title.value, description.value))
    else
      var errors := Report("title", title) + Report("description", description);
      assert description.Ok? ==> errors == Report("title", title);
      Err(errors)
  }

  /** The JSON body a client sends for a task request. */
  function TaskRequestBody(t: TaskRequest): Object {
    map["title" := Str(t.title), "description" := Str(t.description)]
  }

  /** Every request within bounds survives being sent as JSON and validated. */
  lemma TaskRequestRoundTrip(t: TaskRequest)
    requires ValidTitle(t.title) && ValidDescription(t.description)
    ensures ParseTaskRequest(TaskRequestBody(t)) == Ok(t)
  {
  }

  /** A body without a description is accepted with description "". */
  lemma OmittedDescriptionDefaults(title: string)
    requires ValidTitle(title)
    ensures ParseTaskRequest(map["title" := Str(title)]) == Ok(TaskRequest(title, ""))
  {
  }

  /** Fields other than title and description play no part in validation or in the result. */
  lemma ExtraFieldsIgnored(obj: Object, key: string, v: Value)
    requires key != "title" && key != "description"
    ensures ParseTaskRequest(obj[key := v]) == ParseTaskRequest(obj)
  {
    var obj' := obj[key := v];
    assert StrField(obj', "title", None, 1, TitleMax) == StrField(obj, "title", None, 1, TitleMax);
    assert StrField(obj', "description", Some(""), 0, DescriptionMax) == StrField(obj, "description", Some(""), 0, DescriptionMax);
  }

  // ---------------------------------------------------------------------
  // schemas/user.py

  datatype UserRequest = UserRequest(email: string, username: string, password: string)

  const EmailMax := 120
  const UsernameMin := 3
  const UsernameMax := 15
  const PasswordMin := 8
  const PasswordMax := 100

  /**
   * The `EmailStr` field. `emailValid` is the address syntax check delegated to
   * the email-validator package; the 120-character bound is checked after it.
   */
  function EmailField(obj: Object, emailValid: string -> bool): (r: Result<string, Problem>)
    ensures r.Ok? <==> "email" in obj && obj["email"].Str? && emailValid(obj["email"].s) && |obj["email"].s| <= EmailMax
    ensures r.Ok? ==> r.value == obj["email"].s
    ensures r == Err(InvalidFormat) <==> "email" in obj && obj["email"].Str? && !emailValid(obj["email"].s)
  {
    match AnyStr(obj, "email")
    case Err(p) => Err(p)
    case Ok(e) =>
      if !emailValid(e) then Err(InvalidFormat)
      else if |e| > EmailMax then Err(TooLong)
      else Ok(e)
  }

  predicate ValidUsername(u: string) {
    UsernameMin <= |u| <= UsernameMax
  }

  predicate ValidPassword(p: string) {
    PasswordMin <= |p| <= PasswordMax
  }

  /** `UserRequest`: email, then username (3..15), then password (8..100), all required. */
  function ParseUserRequest(obj: Object, emailValid: string -> bool): (r: Result<UserRequest, seq<FieldError>>)
    ensures r.Ok? <==>
      "email" in obj && obj["email"].Str? && emailValid(obj["email"].s) && |obj["email"].s| <= EmailMax
      && "username" in obj && obj["username"].Str? && ValidUsername(obj["username"].s)
      && "password" in obj && obj["password"].Str? && ValidPassword(obj["password"].s)
    ensures r.Ok? ==> r.value == UserRequest(obj["email"].s, obj["username"].s, obj["password"].s)
    ensures r.Err? ==> 1 <= |r.error| <= 3
    ensures r.Err? && EmailField(obj, emailValid).Err? ==> r.error[0].loc == "email"
  {
    var email := EmailField(obj, emailValid);
    var username := StrField(obj, "username", None, UsernameMin, UsernameMax);
    var password := StrField(obj, "password", None, PasswordMin, PasswordMax);
    if email.Ok? && username.Ok? && password.Ok? then Ok(UserRequest(email.value, username.value, password.value))
    else Err(Report("email", email) + Report("username", username) + Report("password", password))
  }

  datatype LoginRequest = LoginRequest(username: string, password: string)

  /** `LoginRequest`: both fields required strings, with no length bounds. */
  function ParseLoginRequest(obj: Object): (r: Result<LoginRequest, seq<FieldError>>)
    ensures r.Ok? <==> "username" in obj && obj["username"].Str? && "password" in obj && obj["password"].Str?
    ensures r.Ok? ==> r.value == LoginRequest(obj["username"].s, obj["password"].s)
    ensures r.Err? ==> 1 <= |r.error| <= 2
  {
    var username := AnyStr(obj, "username");
    var password := AnyStr(obj, "password");
    if username.Ok? && password.Ok? then Ok(LoginRequest(username.value, password.value))
    else Err(Report("username", username) + Report("password", password))
  }

  /** The JSON body a client sends to /login. */
  function LoginBody(l: LoginRequest): Object {
    map["username" := Str(l.username), "password" := Str(l.password)]
  }

  lemma LoginRequestRoundTrip(l: LoginRequest)
    ensures ParseLoginRequest(LoginBody(l)) == Ok(l)
  {
  }
}
