/**
 * The database both blueprints share: the task table as a map from id to
 * row, the user table in id order, and the next ids the tables will hand out.
 */
module Store {
  import opened TaskModel
  import opened UserModel
  import Utils

  class Database {
    var tasks: map<int, Task>
    var users: seq<User>
    var nextTaskId: int
    var nextUserId: int

    /**
     * Ids are positive and below the next id; user ids increase along the
     * table; usernames and e-mails are unique (the columns' unique
     * constraints); every task belongs to an existing user (the foreign key).
     */
    predicate Valid()
      reads this
    {
      && 1 <= nextTaskId && 1 <= nextUserId
      && (forall id :: id in tasks ==> 1 <= id < nextTaskId && Utils.GetUserById(users, tasks[id].userId).Some?)
      && (forall i :: 0 <= i < |users| ==> 1 <= users[i].id < nextUserId)
      && (forall i, j :: 0 <= i < j < |users| ==>
            users[i].id < users[j].id && users[i].username != users[j].username && users[i].email != users[j].email)
    }

    constructor ()
      ensures Valid() && tasks == map[] && users == []
    {
      tasks := map[];
      users := [];
      nextTaskId := 1;
      nextUserId := 1;
    }

    /** `db.session.add(task)` and commit: the row gets a fresh id. */
    method AddTask(t: Task) returns (id: int)
      requires Valid() && Utils.GetUserById(users, t.userId).Some?
      modifies this
      ensures Valid()
      ensures id == old(nextTaskId) && id !in old(tasks)
      ensures tasks == old(tasks)[id := t] && nextTaskId == id + 1
      ensures users == old(users) && nextUserId == old(nextUserId)
    {
      id := nextTaskId;
      tasks := tasks[id := t];
      nextTaskId := nextTaskId + 1;
    }

    /** Assigning a row's columns and committing. */
    method SetTask(id: int, t: Task)
      requires Valid() && id in tasks && t.userId == tasks[id].userId
      modifies this`tasks
      ensures Valid()
      ensures tasks == old(tasks)[id := t]
    {
      tasks := tasks[id := t];
    }

    /** `db.session.delete(task)` and commit. */
    method RemoveTask(id: int)
      requires Valid()
      modifies this`tasks
      ensures Valid()
      ensures tasks == old(tasks) - {id}
    {
      tasks := tasks - {id};
    }

    /** `db.session.add(user)` and commit, for a username and e-mail not yet taken. */
    method AddUser(username: string, email: string, passwordHash: string) returns (u: User)
      requires Valid()
      requires !Utils.CheckUsernameExists(users, username) && !Utils.CheckEmailExists(users, email)
      modifies this
      ensures Valid()
      ensures u == User(old(nextUserId), username, email, passwordHash)
      ensures users == old(users) + [u] && nextUserId == old(nextUserId) + 1
      ensures tasks == old(tasks) && nextTaskId == old(nextTaskId)
    {
      u := User(nextUserId, username, email, passwordHash);
      UserStaysFound(users, u, tasks);
      users := users + [u];
      nextUserId := nextUserId + 1;
    }
  }

  /** Appending a user keeps every existing owner findable. */
  lemma UserStaysFound(users: seq<User>, u: User, tasks: map<int, Task>)
    requires forall id :: id in tasks ==> Utils.GetUserById(users, tasks[id].userId).Some?
    ensures forall id :: id in tasks ==> Utils.GetUserById(users + [u], tasks[id].userId).Some?
  {
    forall id | id in tasks
      ensures Utils.GetUserById(users + [u], tasks[id].userId).Some?
    {
      var v := Utils.GetUserById(users, tasks[id].userId).value;
      assert v in users + [u];
    }
  }
}
