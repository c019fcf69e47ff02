/**
 * The user row that registration writes and login reads (models/user.py is
 * not part of this model beyond these fields). `passwordHash` is whatever the
 * hashing function given to registration produced.
 */
module UserModel {
  import opened Json

  datatype User = User(id: int, username: string, email: string, passwordHash: string)

  /** `User.to_json`: id, username and email; never the password hash. */
  function UserJson(u: User): (j: Object)
    ensures j.Keys == {"id", "username", "email"}
    ensures j["id"] == Num(u.id) && j["username"] == Str(u.username) && j["email"] == Str(u.email)
  {
    map["id" := Num(u.id), "username" := Str(u.username), "email" := Str(u.email)]
  }
}
