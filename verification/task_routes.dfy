/**
 * routes/tasks.py: the task endpoints. The caller's id is the JWT identity
 * (`int(get_jwt_identity())`), given here as `currentUserId`; the request body
 * is validated against `TaskRequest` before the route body runs.
 */
module TaskRoutes {
  import opened Wrappers
  import opened Json
  import opened Schema
  import opened Flask
  import opened TaskModel
  import opened Store
  import Utils

  /** POST /tasks. */
  method CreateTask(db: Database, currentUserId: int, body: Object) returns (reply: Reply)
    requires db.Valid()
    modifies db
    ensures db.Valid()
    ensures ParseTaskRequest(body).Err? ==>
      reply == Invalid(ParseTaskRequest(body).error) && unchanged(db)
    ensures ParseTaskRequest(body).Ok? && Utils.GetUserById(old(db.users), currentUserId).None? ==>
      reply == Aborted(404, "User not found") && unchanged(db)
    ensures ParseTaskRequest(body).Ok? && Utils.GetUserById(old(db.users), currentUserId).Some? ==>
      var req := ParseTaskRequest(body).value;
      var id := old(db.nextTaskId);
      && id !in old(db.tasks)
      && db.tasks == old(db.tasks)[id := NewTask(req.title, currentUserId, req.description)]
      && db.users == old(db.users)
      && reply == Jsonify(201, Obj(ToJson(id, NewTask(req.title, currentUserId, req.description))))
  {
    var parsed := ParseTaskRequest(body);
    if parsed.Err? {
      return Invalid(parsed.error);
    }
    if Utils.GetUserById(db.users, currentUserId).None? {
      return Aborted(404, "User not found");
    }
    var task := NewTask(parsed.value.title, currentUserId, parsed.value.description);
    var id := db.AddTask(task);
    reply := Jsonify(201, Obj(ToJson(id, task)));
  }

  /** The ids in [lo, hi) of tasks owned by `userId`, ascending. */
  function OwnedIds(tasks: map<int, Task>, userId: int, lo: int, hi: int): (ids: seq<int>)
    ensures forall k :: 0 <= k < |ids| ==> lo <= ids[k] < hi && ids[k] in tasks && tasks[ids[k]].userId == userId
    ensures forall id :: lo <= id < hi && id in tasks && tasks[id].userId == userId ==> id in ids
    ensures forall a, b :: 0 <= a < b < |ids| ==> ids[a] < ids[b]
    decreases hi - lo
  {
    if lo >= hi then []
    else (if lo in tasks && tasks[lo].userId == userId then [lo] else []) + OwnedIds(tasks, userId, lo + 1, hi)
  }

  /** The `to_json` forms of the given rows, in order. */
  function TaskList(tasks: map<int, Task>, ids: seq<int>): (items: seq<Value>)
    requires forall k :: 0 <= k < |ids| ==> ids[k] in tasks
    ensures |items| == |ids|
    ensures forall k :: 0 <= k < |ids| ==> items[k] == Obj(ToJson(ids[k], tasks[ids[k]]))
  {
    if ids == [] then [] else [Obj(ToJson(ids[0], tasks[ids[0]]))] + TaskList(tasks, ids[1..])
  }

  /**
   * GET /tasks: `{'tasks': [...]}` holding every task of the caller and no
   * other, in id order (the order the rows were inserted).
   */
  function GetTasks(db: Database, currentUserId: int): (reply: Reply)
    reads db
    requires db.Valid()
    ensures reply.Jsonify? && reply.status == 200 && reply.body.Obj? && reply.body.fields.Keys == {"tasks"}
    ensures var ids := OwnedIds(db.tasks, currentUserId, 1, db.nextTaskId);
      reply.body.fields["tasks"] == Arr(TaskList(db.tasks, ids))
  {
    var ids := OwnedIds(db.tasks, currentUserId, 1, db.nextTaskId);
    Jsonify(200, Obj(map["tasks" := Arr(TaskList(db.tasks, ids))]))
  }

  /** The listing holds exactly the caller's tasks: each one once, and nobody else's. */
  lemma GetTasksExactlyOwned(db: Database, currentUserId: int)
    requires db.Valid()
    ensures var ids := OwnedIds(db.tasks, currentUserId, 1, db.nextTaskId);
      && (forall id :: id in db.tasks && db.tasks[id].userId == currentUserId ==> id in ids)
      && (forall k :: 0 <= k < |ids| ==> ids[k] in db.tasks && db.tasks[ids[k]].userId == currentUserId)
      && (forall a, b :: 0 <= a < b < |ids| ==> ids[a] != ids[b])
  {
  }

  /** With no task of the caller's in the table, the listing is empty. */
  lemma {:induction false} NoTasksEmptyListing(tasks: map<int, Task>, userId: int, lo: int, hi: int)
    requires forall id :: id in tasks ==> tasks[id].userId != userId
    ensures OwnedIds(tasks, userId, lo, hi) == []
    decreases hi - lo
  {
    if lo < hi {
      NoTasksEmptyListing(tasks, userId, lo + 1, hi);
    }
  }

  /** GET /tasks/<task_id>. */
  function GetTask(db: Database, currentUserId: int, taskId: int): (reply: Reply)
    reads db
    ensures reply.Status() == 200 <==> taskId in db.tasks && db.tasks[taskId].userId == currentUserId
    ensures reply.Status() == 200 ==> reply == Jsonify(200, Obj(ToJson(taskId, db.tasks[taskId])))
    ensures reply.Status() != 200 ==> reply == Aborted(404, "Task not found")
  {
    match Utils.GetTaskByIdAndUser(db.tasks, taskId, currentUserId)
    case None => Aborted(404, "Task not found")
    case Some(task) => Jsonify(200, Obj(ToJson(taskId, task)))
  }

  /**
   * PUT /tasks/<task_id>. The body is validated first, so an invalid body is
   * a 400 even for a task the caller does not own. The description is always
   * assigned: the schema's default makes an omitted one "".
   */
  method UpdateTask(db: Database, currentUserId: int, taskId: int, body: Object) returns (reply: Reply)
    requires db.Valid()
    modifies db
    ensures db.Valid()
    ensures ParseTaskRequest(body).Err? ==>
      reply == Invalid(ParseTaskRequest(body).error) && unchanged(db)
    ensures ParseTaskRequest(body).Ok? && Utils.GetTaskByIdAndUser(old(db.tasks), taskId, currentUserId).None? ==>
      reply == Aborted(404, "Task not found") && unchanged(db)
    ensures ParseTaskRequest(body).Ok? && Utils.GetTaskByIdAndUser(old(db.tasks), taskId, currentUserId).Some? ==>
      var req := ParseTaskRequest(body).value;
      var updated := Task(req.title, req.description, currentUserId);
      && db.tasks == old(db.tasks)[taskId := updated]
      && reply == Jsonify(200, Obj(ToJson(taskId, updated)))
    ensures db.users == old(db.users)
    ensures forall id :: id != taskId ==> (id in db.tasks <==> id in old(db.tasks))
    ensures forall id :: id != taskId && id in db.tasks ==> db.tasks[id] == old(db.tasks[id])
  {
    var parsed := ParseTaskRequest(body);
    if parsed.Err? {
      return Invalid(parsed.error);
    }
    var found := Utils.GetTaskByIdAndUser(db.tasks, taskId, currentUserId);
    if found.None? {
      return Aborted(404, "Task not found");
    }
    var updated := found.value.(title := parsed.value.title, description := parsed.value.description);
    db.SetTask(taskId, updated);
    reply := Jsonify(200, Obj(ToJson(taskId, updated)));
  }

  /** DELETE /tasks/<task_id>. Afterwards a GET of that id is a 404. */
  method DeleteTask(db: Database, currentUserId: int, taskId: int) returns (reply: Reply)
    requires db.Valid()
    modifies db
    ensures db.Valid()
    ensures Utils.GetTaskByIdAndUser(old(db.tasks), taskId, currentUserId).None? ==>
      reply == Aborted(404, "Task not found") && unchanged(db)
    ensures Utils.GetTaskByIdAndUser(old(db.tasks), taskId, currentUserId).Some? ==>
      db.tasks == old(db.tasks) - {taskId} && reply == Jsonify(200, Message("Task deleted!"))
    ensures db.users == old(db.users)
    ensures GetTask(db, currentUserId, taskId) == Aborted(404, "Task not found")
  {
    var found := Utils.GetTaskByIdAndUser(db.tasks, taskId, currentUserId);
    if found.None? {
      return Aborted(404, "Task not found");
    }
    db.RemoveTask(taskId);
    reply := Jsonify(200, Message("Task deleted!"));
  }
}
