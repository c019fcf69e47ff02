/**
 * utils.py: the lookups the routes use. Users are kept in insertion order,
 * which is id order, so a query's `.first()` is the earliest matching row.
 */
module Utils {
  import opened Wrappers
  import opened UserModel
  import opened TaskModel

  /** The index of the first element satisfying `p`, if any. */
  function FirstIndex<T>(s: seq<T>, p: T -> bool): (r: Option<nat>)
    ensures r.Some? ==> r.value < |s| && p(s[r.value]) && forall k :: 0 <= k < r.value ==> !p(s[k])
    ensures r.None? ==> forall k :: 0 <= k < |s| ==> !p(s[k])
  {
    if s == [] then None
    else if p(s[0]) then Some(0)
    else
      match FirstIndex(s[1..], p)
      case None => None
      case Some(i) => Some(i + 1)
  }

  /** `get_user_by_id`: the user with primary key `id`, or None. */
  function GetUserById(users: seq<User>, id: int): (r: Option<User>)
    ensures r.Some? ==> r.value in users && r.value.id == id
    ensures r.None? <==> forall u :: u in users ==> u.id != id
  {
    match FirstIndex(users, (u: User) => u.id == id)
    case None => None
    case Some(i) => Some(users[i])
  }

  /** `User.query.filter_by(username=...).first()`. */
  function FindByUsername(users: seq<User>, username: string): (r: Option<nat>)
    ensures r.Some? ==> r.value < |users| && users[r.value].username == username
    ensures r.Some? ==> forall k :: 0 <= k < r.value ==> users[k].username != username
    ensures r.None? <==> forall u :: u in users ==> u.username != username
  {
    FirstIndex(users, (u: User) => u.username == username)
  }

  /** `check_username_exists`. */
  function CheckUsernameExists(users: seq<User>, username: string): (b: bool)
    ensures b <==> exists u :: u in users && u.username == username
  {
    FindByUsername(users, username).Some?
  }

  /** `check_email_exists`. */
  function CheckEmailExists(users: seq<User>, email: string): (b: bool)
    ensures b <==> exists u :: u in users && u.email == email
  {
    FirstIndex(users, (u: User) => u.email == email).Some?
  }

  /** `get_task_by_id_and_user`: the task stored under `taskId`, only when `userId` owns it. */
  function GetTaskByIdAndUser(tasks: map<int, Task>, taskId: int, userId: int): (r: Option<Task>)
    ensures r.Some? <==> taskId in tasks && tasks[taskId].userId == userId
    ensures r.Some? ==> r.value == tasks[taskId] && r.value.userId == userId
  {
    if taskId in tasks && tasks[taskId].userId == userId then Some(tasks[taskId]) else None
  }

  /** Another user's task is never returned, whatever its id. */
  lemma NeverAnotherUsersTask(tasks: map<int, Task>, taskId: int, userId: int)
    requires taskId in tasks && tasks[taskId].userId != userId
    ensures GetTaskByIdAndUser(tasks, taskId, userId) == None
  {
  }

  /** A user appended after every user with another name is the one found by name. */
  lemma {:induction false} FindAppended(users: seq<User>, u: User)
    requires forall v :: v in users ==> v.username != u.username
    ensures FindByUsername(users + [u], u.username) == Some(|users|)
  {
    assert (users + [u])[|users|] == u;
    forall k | 0 <= k < |users|
      ensures (users + [u])[k].username != u.username
    {
      assert (users + [u])[k] == users[k];
    }
  }
}
