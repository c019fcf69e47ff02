/** models/task.py: a stored task and its JSON projection. The row id is the key it is stored under. */
module TaskModel {
  import opened Wrappers
  import opened Json

  datatype Task = Task(title: string, description: string, userId: int)

  /** `Task(title, user_id, description='')`. */
  function NewTask(title: string, userId: int, description: string := ""): (t: Task)
    ensures t.title == title && t.userId == userId && t.description == description
  {
    Task(title, description, userId)
  }

  /** Leaving out the description stores "". */
  lemma NewTaskDefaultsDescription(title: string, userId: int)
    ensures NewTask(title, userId).description == ""
  {
  }

  /** `to_json`: exactly the keys id, title, description and user_id. */
  function ToJson(id: int, t: Task): (j: Object)
    ensures j.Keys == {"id", "title", "description", "user_id"}
    ensures j["id"] == Num(id) && j["title"] == Str(t.title)
    ensures j["description"] == Str(t.description) && j["user_id"] == Num(t.userId)
  {
    map["id" := Num(id), "title" := Str(t.title), "description" := Str(t.description), "user_id" := Num(t.userId)]
  }

  /** Reads a task back from its JSON form; anything else is refused. */
  function FromJson(j: Object): (r: Option<(int, Task)>)
    ensures r.Some? ==> j == ToJson(r.value.0, r.value.1)
  {
    if j.Keys == {"id", "title", "description", "user_id"}
       && j["id"].Num? && j["title"].Str? && j["description"].Str? && j["user_id"].Num?
    then
      var r := (j["id"].n, Task(j["title"].s, j["description"].s, j["user_id"].n));
      assert j == ToJson(r.0, r.1);
      Some(r)
    else None
  }

  /** The projection loses nothing: id and every field can be read back. */
  lemma ToJsonRoundTrip(id: int, t: Task)
    ensures FromJson(ToJson(id, t)) == Some((id, t))
  {
  }
}
