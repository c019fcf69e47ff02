/**
 * routes/auth.py: registration and login. Password hashing, the hash check
 * and token issuing are library calls outside this model; they are the
 * function parameters `hash`, `checkPassword` and `createToken`, and
 * `emailValid` is the e-mail syntax check behind `EmailStr`.
 */
module AuthRoutes {
  import opened Wrappers
  import opened Json
  import opened Schema
  import opened Flask
  import opened UserModel
  import opened Store
  import Utils
  import Decimal

  /** POST /register: the username check comes before the e-mail check. */
  method RegisterUser(db: Database, body: Object, emailValid: string -> bool, hash: string -> string)
    returns (reply: Reply)
    requires db.Valid()
    modifies db
    ensures db.Valid()
    ensures ParseUserRequest(body, emailValid).Err? ==>
      reply == Invalid(ParseUserRequest(body, emailValid).error) && unchanged(db)
    ensures ParseUserRequest(body, emailValid).Ok? ==>
      var req := ParseUserRequest(body, emailValid).value;
      && (Utils.CheckUsernameExists(old(db.users), req.username) ==>
            reply == Jsonify(400, Message("Username already exists")) && unchanged(db))
      && (!Utils.CheckUsernameExists(old(db.users), req.username) && Utils.CheckEmailExists(old(db.users), req.email) ==>
            reply == Jsonify(400, Message("Email already registered")) && unchanged(db))
      && (!Utils.CheckUsernameExists(old(db.users), req.username) && !Utils.CheckEmailExists(old(db.users), req.email) ==>
            var u := User(old(db.nextUserId), req.username, req.email, hash(req.password));
            && db.users == old(db.users) + [u]
            && db.tasks == old(db.tasks)
            && reply == Jsonify(201, Obj(UserJson(u))))
  {
    var parsed := ParseUserRequest(body, emailValid);
    if parsed.Err? {
      return Invalid(parsed.error);
    }
    var req := parsed.value;
    if Utils.CheckUsernameExists(db.users, req.username) {
      return Jsonify(400, Message("Username already exists"));
    }
    if Utils.CheckEmailExists(db.users, req.email) {
      return Jsonify(400, Message("Email already registered"));
    }
    var u := db.AddUser(req.username, req.email, hash(req.password));
    reply := Jsonify(201, Obj(UserJson(u)));
  }

  /**
   * POST /login: a token for the first user with the given username when the
   * password checks against that user's hash, and 401 otherwise. The token's
   * identity is the user id as a string.
   */
  function Login(users: seq<User>, body: Object, checkPassword: (string, string) -> bool, createToken: string -> string)
    : (reply: Reply)
    ensures ParseLoginRequest(body).Err? ==> reply == Invalid(ParseLoginRequest(body).error)
    ensures reply.Status() == 200 <==>
      ParseLoginRequest(body).Ok? &&
      exists i :: 0 <= i < |users| && users[i].username == ParseLoginRequest(body).value.username
        && (forall k :: 0 <= k < i ==> users[k].username != users[i].username)
        && checkPassword(users[i].passwordHash, ParseLoginRequest(body).value.password)
    ensures reply.Status() == 200 ==> reply.Jsonify? && reply.body.Obj? && reply.body.fields.Keys == {"access_token"}
    ensures ParseLoginRequest(body).Ok? && reply.Status() != 200 ==> reply == Jsonify(401, Message("Invalid credentials"))
  {
    match ParseLoginRequest(body)
    case Err(errors) => Invalid(errors)
    case Ok(req) =>
      match Utils.FindByUsername(users, req.username)
      case Some(i) =>
        if checkPassword(users[i].passwordHash, req.password) then
          Jsonify(200, Obj(map["access_token" := Str(createToken(Decimal.IntToString(users[i].id)))]))
        else Jsonify(401, Message("Invalid credentials"))
      case None => Jsonify(401, Message("Invalid credentials"))
  }

  /**
   * Register then log in: with a hash check that accepts the hash of the
   * same password, the freshly appended user can log in with that password.
   */
  lemma LoginAfterRegistration(users: seq<User>, u: User, password: string,
                               hash: string -> string, checkPassword: (string, string) -> bool,
                               createToken: string -> string)
    requires forall v :: v in users ==> v.username != u.username
    requires u.passwordHash == hash(password)
    requires forall p :: checkPassword(hash(p), p)
    ensures Login(users + [u], LoginBody(LoginRequest(u.username, password)), checkPassword, createToken).Status() == 200
  {
    LoginRequestRoundTrip(LoginRequest(u.username, password));
    Utils.FindAppended(users, u);
    assert (users + [u])[|users|] == u;
  }

  /** A password the check refuses gets 401, even for an existing username. */
  lemma WrongPasswordRefused(users: seq<User>, i: nat, password: string,
                             checkPassword: (string, string) -> bool, createToken: string -> string)
    requires i < |users| && forall k :: 0 <= k < |users| && k != i ==> users[k].username != users[i].username
    requires !checkPassword(users[i].passwordHash, password)
    ensures Login(users, LoginBody(LoginRequest(users[i].username, password)), checkPassword, createToken)
            == Jsonify(401, Message("Invalid credentials"))
  {
    LoginRequestRoundTrip(LoginRequest(users[i].username, password));
  }
}
