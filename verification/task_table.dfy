/**
 * components/TaskTable.tsx: one table row per task, each with an Edit and a
 * Delete button whose `disabled` flags come from the loading props and the
 * optional `editingTaskId`.
 */
module TaskTable {
  import opened Wrappers

  /** A task as the client receives it from the task list endpoint. */
  datatype Task = Task(id: int, title: string, description: string, status: string)

  /** What a rendered row shows and how its two buttons are set up. */
  datatype Row = Row(
    index: nat,
    task: Task,
    editDisabled: bool,
    deleteDisabled: bool,
    editLabel: string,
    deleteLabel: string)

  /** `tasks.map((task, index) => <tr …>)`. */
  function Render(tasks: seq<Task>, editLoading: bool, deleteLoading: bool, editingTaskId: Option<int>): (rows: seq<Row>)
    ensures |rows| == |tasks|
    ensures forall i :: 0 <= i < |rows| ==>
      && rows[i].index == i
      && rows[i].task == tasks[i]
      && (rows[i].editDisabled <==> editLoading || editingTaskId == Some(tasks[i].id))
      && (rows[i].deleteDisabled <==> deleteLoading || editingTaskId == Some(tasks[i].id))
      && rows[i].editLabel == "Edit " + tasks[i].title
      && rows[i].deleteLabel == "Delete " + tasks[i].title
  {
    if tasks == [] then []
    else
      var n := |tasks| - 1;
      var task := tasks[n];
      var isEditing := editingTaskId == Some(task.id);
      Render(tasks[..n], editLoading, deleteLoading, editingTaskId)
        + [Row(n, task, editLoading || isEditing, deleteLoading || isEditing,
               "Edit " + task.title, "Delete " + task.title)]
  }

  datatype Action = EditAction | DeleteAction

  /** The task a click on a row's button hands to `onEdit`/`onDelete`; a disabled button hands nothing. */
  function ClickRow(rows: seq<Row>, i: nat, action: Action): (r: Option<Task>)
    requires i < |rows|
    ensures r.Some? ==> r.value == rows[i].task
    ensures r.None? <==> if action == EditAction then rows[i].editDisabled else rows[i].deleteDisabled
  {
    var disabled := if action == EditAction then rows[i].editDisabled else rows[i].deleteDisabled;
    if disabled then None else Some(rows[i].task)
  }

  /** Clicking Edit on row i passes exactly `tasks[i]`, unless that button is disabled. */
  lemma EditClickPassesRowTask(tasks: seq<Task>, editLoading: bool, deleteLoading: bool, editingTaskId: Option<int>, i: nat)
    requires i < |tasks|
    ensures var rows := Render(tasks, editLoading, deleteLoading, editingTaskId);
      ClickRow(rows, i, EditAction)
        == if editLoading || editingTaskId == Some(tasks[i].id) then None else Some(tasks[i])
  {
  }

  /** Clicking Delete on row i passes exactly `tasks[i]`, unless that button is disabled. */
  lemma DeleteClickPassesRowTask(tasks: seq<Task>, editLoading: bool, deleteLoading: bool, editingTaskId: Option<int>, i: nat)
    requires i < |tasks|
    ensures var rows := Render(tasks, editLoading, deleteLoading, editingTaskId);
      ClickRow(rows, i, DeleteAction)
        == if deleteLoading || editingTaskId == Some(tasks[i].id) then None else Some(tasks[i])
  {
  }
}
