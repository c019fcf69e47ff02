/**
 * Tasks.tsx: the task-list page. The list query is a pure function of the
 * applied filters and the paging fields; the page's React state is the class
 * TaskListController, whose methods are the event handlers.
 */
module TasksView {
  import opened Wrappers
  import Decimal
  import opened TaskTable
  import opened TaskForm
  import opened Session

  /** The filter/sort record; "" means "not set" for the three filters. */
  datatype Filters = Filters(title: string, description: string, status: string, sortBy: string, sortOrder: string)

  const DefaultFilters := Filters("", "", "", "created_at", "desc")

  /** The field names `TaskFilters` reports through `onChange`. */
  datatype FilterField = TitleFilter | DescriptionFilter | StatusFilter | SortByFilter | SortOrderFilter

  function FilterValue(f: Filters, field: FilterField): string {
    match field
    case TitleFilter => f.title
    case DescriptionFilter => f.description
    case StatusFilter => f.status
    case SortByFilter => f.sortBy
    case SortOrderFilter => f.sortOrder
  }

  /** `{ ...f, [field]: value }`. */
  function WithFilter(f: Filters, field: FilterField, value: string): (g: Filters)
    ensures FilterValue(g, field) == value
    ensures forall other :: other != field ==> FilterValue(g, other) == FilterValue(f, other)
  {
    match field
    case TitleFilter => f.(title := value)
    case DescriptionFilter => f.(description := value)
    case StatusFilter => f.(status := value)
    case SortByFilter => f.(sortBy := value)
    case SortOrderFilter => f.(sortOrder := value)
  }

  /** Query parameters in the order they are appended (before percent-encoding). */
  type Query = seq<(string, string)>

  /** `if (value) params.append(key, value)`. */
  function OptionalParam(key: string, value: string): Query {
    if value == "" then [] else [(key, value)]
  }

  /** The optional parameters, in the order `fetchTasks` appends them. */
  function FilterParams(applied: Filters): Query {
    OptionalParam("title", applied.title)
      + (OptionalParam("description", applied.description)
      + (OptionalParam("status", applied.status)
      + (OptionalParam("sort_by", applied.sortBy)
      + OptionalParam("sort_order", applied.sortOrder))))
  }

  /** The parameters of the list request built in `fetchTasks`. */
  function TaskListQuery(pageNo: int, pageSize: int, applied: Filters): (q: Query)
    ensures 2 <= |q| <= 7
    ensures q[0] == ("page_no", Decimal.IntToString(pageNo))
    ensures q[1] == ("limit", Decimal.IntToString(pageSize))
    ensures forall k :: 2 <= k < |q| ==> q[k].1 != ""
  {
    [("page_no", Decimal.IntToString(pageNo)), ("limit", Decimal.IntToString(pageSize))] + FilterParams(applied)
  }

  /** `URLSearchParams.get`: the value of the first parameter named `key`. */
  function QueryGet(q: Query, key: string): Option<string> {
    if q == [] then None
    else if q[0].0 == key then Some(q[0].1)
    else QueryGet(q[1..], key)
  }

  function OrEmpty(o: Option<string>): string {
    if o.Some? then o.value else ""
  }

  /** How a reader of the query recovers page number, page size and filters (an absent filter reads as ""). */
  function DecodeTaskListQuery(q: Query): Option<(int, int, Filters)> {
    match (QueryGet(q, "page_no"), QueryGet(q, "limit"))
    case (Some(p), Some(l)) =>
      (match (Decimal.ParseInt(p), Decimal.ParseInt(l))
       case (Some(page), Some(size)) =>
         Some((page, size, Filters(
           OrEmpty(QueryGet(q, "title")), OrEmpty(QueryGet(q, "description")), OrEmpty(QueryGet(q, "status")),
           OrEmpty(QueryGet(q, "sort_by")), OrEmpty(QueryGet(q, "sort_order")))))
       case _ => None)
    case _ => None
  }

  lemma {:induction false} QueryGetAppend(a: Query, b: Query, key: string)
    ensures QueryGet(a + b, key) == if QueryGet(a, key).Some? then QueryGet(a, key) else QueryGet(b, key)
  {
    if a != [] {
      assert (a + b)[1..] == a[1..] + b;
      QueryGetAppend(a[1..], b, key);
    } else {
      assert a + b == b;
    }
  }

  /** The value `key` has in the query for `f`: the field's value when it is non-empty. */
  function SentValue(key: string, value: string, probe: string): Option<string> {
    if key == probe && value != "" then Some(value) else None
  }

  lemma FilterParamsGet(f: Filters, key: string)
    ensures QueryGet(FilterParams(f), key)
      == if key == "title" then SentValue("title", f.title, key)
         else if key == "description" then SentValue("description", f.description, key)
         else if key == "status" then SentValue("status", f.status, key)
         else if key == "sort_by" then SentValue("sort_by", f.sortBy, key)
         else SentValue("sort_order", f.sortOrder, key)
  {
    var t := OptionalParam("title", f.title);
    var d := OptionalParam("description", f.description);
    var s := OptionalParam("status", f.status);
    var sb := OptionalParam("sort_by", f.sortBy);
    var so := OptionalParam("sort_order", f.sortOrder);
    QueryGetAppend(t, d + (s + (sb + so)), key);
    QueryGetAppend(d, s + (sb + so), key);
    QueryGetAppend(s, sb + so, key);
    QueryGetAppend(sb, so, key);
  }

  lemma TaskListQueryGet(pageNo: int, pageSize: int, f: Filters, key: string)
    ensures key == "page_no" ==> QueryGet(TaskListQuery(pageNo, pageSize, f), key) == Some(Decimal.IntToString(pageNo))
    ensures key == "limit" ==> QueryGet(TaskListQuery(pageNo, pageSize, f), key) == Some(Decimal.IntToString(pageSize))
    ensures key != "page_no" && key != "limit" ==>
      QueryGet(TaskListQuery(pageNo, pageSize, f), key) == QueryGet(FilterParams(f), key)
  {
    var head := [("page_no", Decimal.IntToString(pageNo)), ("limit", Decimal.IntToString(pageSize))];
    QueryGetAppend(head, FilterParams(f), key);
  }

  /** The filters and paging fields a list query is built from can be read back from it. */
  lemma QueryRoundTrip(pageNo: int, pageSize: int, f: Filters)
    ensures DecodeTaskListQuery(TaskListQuery(pageNo, pageSize, f)) == Some((pageNo, pageSize, f))
  {
    var q := TaskListQuery(pageNo, pageSize, f);
    TaskListQueryGet(pageNo, pageSize, f, "page_no");
    TaskListQueryGet(pageNo, pageSize, f, "limit");
    Decimal.IntRoundTrip(pageNo);
    Decimal.IntRoundTrip(pageSize);
    TaskListQueryGet(pageNo, pageSize, f, "title");
    FilterParamsGet(f, "title");
    TaskListQueryGet(pageNo, pageSize, f, "description");
    FilterParamsGet(f, "description");
    TaskListQueryGet(pageNo, pageSize, f, "status");
    FilterParamsGet(f, "status");
    TaskListQueryGet(pageNo, pageSize, f, "sort_by");
    FilterParamsGet(f, "sort_by");
    TaskListQueryGet(pageNo, pageSize, f, "sort_order");
    FilterParamsGet(f, "sort_order");
  }

  /** An optional parameter is sent exactly when its applied value is non-empty, and then with that value. */
  lemma OptionalParamPresence(pageNo: int, pageSize: int, f: Filters, field: FilterField)
    ensures QueryGet(TaskListQuery(pageNo, pageSize, f), ParamName(field))
      == if FilterValue(f, field) == "" then None else Some(FilterValue(f, field))
  {
    TaskListQueryGet(pageNo, pageSize, f, ParamName(field));
    FilterParamsGet(f, ParamName(field));
  }

  /** The query parameter each filter field travels in. */
  function ParamName(field: FilterField): string {
    match field
    case TitleFilter => "title"
    case DescriptionFilter => "description"
    case StatusFilter => "status"
    case SortByFilter => "sort_by"
    case SortOrderFilter => "sort_order"
  }

  /** Position of a parameter name in the order `fetchTasks` appends parameters. */
  function KeyRank(key: string): int {
    if key == "page_no" then 0 else if key == "limit" then 1 else if key == "title" then 2
    else if key == "description" then 3 else if key == "status" then 4 else if key == "sort_by" then 5
    else if key == "sort_order" then 6 else 7
  }

  predicate InKeyOrder(q: Query) {
    forall i, j :: 0 <= i < j < |q| ==> KeyRank(q[i].0) < KeyRank(q[j].0)
  }

  predicate RanksFrom(q: Query, lo: int) {
    forall i :: 0 <= i < |q| ==> lo <= KeyRank(q[i].0)
  }

  predicate RanksBelow(q: Query, hi: int) {
    forall i :: 0 <= i < |q| ==> KeyRank(q[i].0) < hi
  }

  lemma AppendInKeyOrder(a: Query, b: Query, m: int)
    requires InKeyOrder(a) && InKeyOrder(b) && RanksBelow(a, m) && RanksFrom(b, m)
    ensures InKeyOrder(a + b)
  {
  }

  lemma OptionalParamRank(key: string, value: string)
    ensures InKeyOrder(OptionalParam(key, value))
    ensures RanksFrom(OptionalParam(key, value), KeyRank(key))
    ensures RanksBelow(OptionalParam(key, value), KeyRank(key) + 1)
  {
  }

  /**
   * Parameters appear in the fixed order page_no, limit, title, description,
   * status, sort_by, sort_order, so no parameter name is sent twice.
   */
  lemma QueryInKeyOrder(pageNo: int, pageSize: int, f: Filters)
    ensures InKeyOrder(TaskListQuery(pageNo, pageSize, f))
  {
    var t := OptionalParam("title", f.title);
    var d := OptionalParam("description", f.description);
    var s := OptionalParam("status", f.status);
    var sb := OptionalParam("sort_by", f.sortBy);
    var so := OptionalParam("sort_order", f.sortOrder);
    OptionalParamRank("title", f.title);
    OptionalParamRank("description", f.description);
    OptionalParamRank("status", f.status);
    OptionalParamRank("sort_by", f.sortBy);
    OptionalParamRank("sort_order", f.sortOrder);
    var r4 := sb + so;
    AppendInKeyOrder(sb, so, 6);
    assert RanksFrom(r4, 5);
    var r3 := s + r4;
    AppendInKeyOrder(s, r4, 5);
    assert RanksFrom(r3, 4);
    var r2 := d + r3;
    AppendInKeyOrder(d, r3, 4);
    assert RanksFrom(r2, 3);
    var r1 := t + r2;
    AppendInKeyOrder(t, r2, 3);
    assert RanksFrom(r1, 2);
    assert r1 == FilterParams(f);
    var head := [("page_no", Decimal.IntToString(pageNo)), ("limit", Decimal.IntToString(pageSize))];
    assert RanksBelow(head, 2);
    AppendInKeyOrder(head, r1, 2);
  }

  /** The task list response body: `tasks` plus the `pagination` fields the page copies. */
  datatype TaskPage = TaskPage(tasks: seq<Task>, totalPages: int, total: int, hasNext: bool, hasPrev: bool)

  /**
   * How a list request settles: a parsed OK body; an OK body with `tasks` but
   * no `pagination` member, so reading `total_pages` throws after `setTasks`
   * ran; a non-OK response whose body `message` is given ("" when absent or
   * unreadable); or a thrown error with its `message`.
   */
  datatype FetchOutcome =
    | Loaded(page: TaskPage)
    | PaginationMissing(tasks: seq<Task>, errorMessage: string)
    | Rejected(serverMessage: string)
    | Thrown(errorMessage: string)

  /** The `error` text a failed fetch leaves behind. */
  function FetchErrorText(outcome: FetchOutcome): (text: string)
    requires !outcome.Loaded?
    ensures text != ""
    ensures outcome.Rejected? ==> text == if outcome.serverMessage != "" then outcome.serverMessage else "Failed to fetch tasks"
    ensures outcome.Thrown? || outcome.PaginationMissing? ==>
      text == if outcome.errorMessage != "" then outcome.errorMessage else "Unknown error"
  {
    match outcome
    case Rejected(m) => if m != "" then m else "Failed to fetch tasks"
    case Thrown(m) => if m != "" then m else "Unknown error"
    case PaginationMissing(_, m) => if m != "" then m else "Unknown error"
  }

  datatype ToastKind = SuccessToast | ErrorToast

  datatype Toast = Toast(message: string, kind: ToastKind)

  /** The request a create, update or delete handler issues. */
  datatype Mutation = CreateRequest(data: FormData) | UpdateRequest(id: int, data: FormData) | DeleteRequest(id: int)

  /**
   * How a mutation request settles: success, or failure with the message the
   * thrown error carries ("" when the server gave none).
   */
  datatype MutationOutcome = Succeeded | Failed(message: string)

  /** The toast a settled mutation shows. */
  function MutationToast(outcome: MutationOutcome, successText: string, fallback: string): (t: Toast)
    ensures outcome.Succeeded? ==> t == Toast(successText, SuccessToast)
    ensures outcome.Failed? ==> t.kind == ErrorToast
    ensures outcome.Failed? && outcome.message != "" ==> t.message == outcome.message
    ensures outcome.Failed? && outcome.message == "" ==> t.message == fallback
  {
    match outcome
    case Succeeded => Toast(successText, SuccessToast)
    case Failed(m) => Toast(if m != "" then m else fallback, ErrorToast)
  }

  /**
   * The state of the Tasks page. `fetchPending` records that a dependency of
   * the fetch effect (`pageNo`, `pageSize` by value, `appliedFilters` by object
   * identity) changed since the last fetch began, i.e. that React will run the
   * effect after the next render.
   */
  class TaskListController {
    var tasks: seq<Task>
    var loading: bool
    var error: Option<string>
    var pageNo: int
    var totalPages: int
    var total: int
    var hasNext: bool
    var hasPrev: bool
    var filters: Filters
    var appliedFilters: Filters
    var showCreateForm: bool
    var createLoading: bool
    var toast: Option<Toast>
    var editTask: Option<Task>
    var editLoading: bool
    var deleteLoading: bool
    var pageSize: int
    var fetchPending: bool
    /**
     * The applied filters each in-flight mutation handler captured when it
     * started; on success it re-assigns a copy of these, not the current ones.
     */
    var createFilters: Filters
    var updateFilters: Filters
    var deleteFilters: Filters

    /** The create form and the edit form are never open together. */
    predicate Valid()
      reads this
    {
      !(showCreateForm && editTask.Some?)
    }

    /** The query the next fetch sends. */
    function CurrentQuery(): Query
      reads this
    {
      TaskListQuery(pageNo, pageSize, appliedFilters)
    }

    /** The table rows as the page renders them; it passes no `editingTaskId`. */
    function Rows(): seq<Row>
      reads this
    {
      TaskTable.Render(tasks, editLoading, deleteLoading, None)
    }

    constructor ()
      ensures Valid()
      ensures tasks == [] && !loading && error == None
      ensures pageNo == 1 && totalPages == 1 && total == 0 && !hasNext && !hasPrev
      ensures filters == DefaultFilters && appliedFilters == DefaultFilters
      ensures !showCreateForm && !createLoading && toast == None
      ensures editTask == None && !editLoading && !deleteLoading
      ensures pageSize == 10 && fetchPending
      ensures createFilters == DefaultFilters && updateFilters == DefaultFilters && deleteFilters == DefaultFilters
    {
      tasks, loading, error := [], false, None;
      pageNo, totalPages, total, hasNext, hasPrev := 1, 1, 0, false, false;
      filters, appliedFilters := DefaultFilters, DefaultFilters;
      showCreateForm, createLoading, toast := false, false, None;
      editTask, editLoading, deleteLoading := None, false, false;
      pageSize, fetchPending := 10, true;
      createFilters, updateFilters, deleteFilters := DefaultFilters, DefaultFilters, DefaultFilters;
    }

    /** The fetch effect starts: loading on, error cleared, the query built from the applied filters. */
    method BeginFetch() returns (q: Query)
      modifies this`loading, this`error, this`fetchPending
      ensures q == CurrentQuery()
      ensures loading && error == None && !fetchPending
    {
      loading, error, fetchPending := true, None, false;
      q := CurrentQuery();
    }

    /** The fetch effect settles: a success replaces list and pagination wholesale, a failure sets `error`. */
    method CompleteFetch(outcome: FetchOutcome)
      modifies this`tasks, this`totalPages, this`total, this`hasNext, this`hasPrev, this`error, this`loading
      ensures !loading
      ensures outcome.Loaded? ==>
        && tasks == outcome.page.tasks && totalPages == outcome.page.totalPages
        && total == outcome.page.total && hasNext == outcome.page.hasNext && hasPrev == outcome.page.hasPrev
        && error == old(error)
      ensures outcome.PaginationMissing? ==>
        && tasks == outcome.tasks && error == Some(FetchErrorText(outcome))
        && totalPages == old(totalPages) && total == old(total) && hasNext == old(hasNext) && hasPrev == old(hasPrev)
      ensures outcome.Rejected? || outcome.Thrown? ==>
        && error == Some(FetchErrorText(outcome))
        && tasks == old(tasks) && totalPages == old(totalPages) && total == old(total)
        && hasNext == old(hasNext) && hasPrev == old(hasPrev)
    {
      match outcome {
        case Loaded(page) =>
          tasks := page.tasks;
          totalPages := page.totalPages;
          total := page.total;
          hasNext := page.hasNext;
          hasPrev := page.hasPrev;
        case PaginationMissing(list, _) =>
          tasks := list;
          error := Some(FetchErrorText(outcome));
        case _ =>
          error := Some(FetchErrorText(outcome));
      }
      loading := false;
    }

    /** `handlePageChange`: the page becomes exactly the requested one. */
    method PageChange(newPage: int)
      modifies this`pageNo, this`fetchPending
      ensures pageNo == newPage
      ensures fetchPending == (old(fetchPending) || newPage != old(pageNo))
    {
      fetchPending := fetchPending || newPage != pageNo;
      pageNo := newPage;
    }

    /** `handlePageSizeChange`: the new size, back to page 1. */
    method PageSizeChange(newSize: int)
      modifies this`pageSize, this`pageNo, this`fetchPending
      ensures pageSize == newSize && pageNo == 1
      ensures fetchPending == (old(fetchPending) || newSize != old(pageSize) || old(pageNo) != 1)
      ensures CurrentQuery() == TaskListQuery(1, newSize, appliedFilters)
    {
      fetchPending := fetchPending || newSize != pageSize || pageNo != 1;
      pageSize, pageNo := newSize, 1;
    }

    /** `handleFilterChange`: only the named draft field changes; the next query does not. */
    method FilterChange(field: FilterField, value: string)
      modifies this`filters
      ensures filters == WithFilter(old(filters), field, value)
      ensures CurrentQuery() == old(CurrentQuery())
    {
      filters := WithFilter(filters, field, value);
    }

    /** `handleApplyFilters`: the draft becomes the applied filters, back to page 1, always refetching. */
    method ApplyFilters()
      modifies this`appliedFilters, this`pageNo, this`fetchPending
      ensures appliedFilters == filters && pageNo == 1 && fetchPending
      ensures CurrentQuery() == TaskListQuery(1, pageSize, filters)
    {
      appliedFilters := filters;
      pageNo := 1;
      fetchPending := true;
    }

    /**
     * `handleResetFilters`: both copies back to the defaults and page 1. The
     * default sort is non-empty, so the query still carries sort_by and sort_order.
     */
    method ResetFilters()
      modifies this`filters, this`appliedFilters, this`pageNo, this`fetchPending
      ensures filters == DefaultFilters && appliedFilters == DefaultFilters && pageNo == 1 && fetchPending
      ensures CurrentQuery() == [("page_no", "1"), ("limit", Decimal.IntToString(pageSize)),
                                 ("sort_by", "created_at"), ("sort_order", "desc")]
    {
      filters := DefaultFilters;
      appliedFilters := DefaultFilters;
      pageNo := 1;
      fetchPending := true;
    }

    /** `handleShowCreate`: opens the create form unless an edit is open. */
    method ShowCreate()
      requires Valid()
      modifies this`showCreateForm
      ensures Valid()
      ensures showCreateForm == (old(showCreateForm) || editTask.None?)
    {
      if editTask.Some? {
        return;
      }
      showCreateForm := true;
    }

    /** `handleCancelCreate`. */
    method CancelCreate()
      requires Valid()
      modifies this`showCreateForm
      ensures Valid() && !showCreateForm
    {
      showCreateForm := false;
    }

    /** `handleCreateTask` up to the request: loading on, toast cleared, the form data posted. */
    method StartCreate(data: FormData) returns (request: Mutation)
      requires Valid()
      modifies this`createLoading, this`toast, this`createFilters
      ensures Valid()
      ensures request == CreateRequest(data) && createLoading && toast == None
      ensures createFilters == appliedFilters
    {
      createLoading, toast := true, None;
      createFilters := appliedFilters;
      request := CreateRequest(data);
    }

    /**
     * `handleCreateTask` after the request: a success closes the form and
     * re-assigns a copy of the applied filters the handler captured when it
     * started (a refetch, and a revert of any filters applied meanwhile); a
     * failure only shows the error.
     */
    method CompleteCreate(outcome: MutationOutcome)
      requires Valid()
      modifies this`createLoading, this`toast, this`showCreateForm, this`fetchPending, this`appliedFilters
      ensures Valid() && !createLoading
      ensures toast == Some(MutationToast(outcome, "Task created successfully", "Failed to create task"))
      ensures outcome.Succeeded? ==> !showCreateForm && fetchPending && appliedFilters == createFilters
      ensures outcome.Failed? ==>
        showCreateForm == old(showCreateForm) && fetchPending == old(fetchPending) && appliedFilters == old(appliedFilters)
    {
      toast := Some(MutationToast(outcome, "Task created successfully", "Failed to create task"));
      if outcome.Succeeded? {
        showCreateForm := false;
        appliedFilters := createFilters;
        fetchPending := true;
      }
      createLoading := false;
    }

    /** `handleEditTask`: opens the edit form on `task` unless the create form is open. */
    method EditTask(task: Task)
      requires Valid()
      modifies this`editTask
      ensures Valid()
      ensures editTask == if old(showCreateForm) then old(editTask) else Some(task)
    {
      if showCreateForm {
        return;
      }
      editTask := Some(task);
    }

    /** `handleCancelEdit`. */
    method CancelEdit()
      requires Valid()
      modifies this`editTask
      ensures Valid() && editTask == None
    {
      editTask := None;
    }

    /** `handleUpdateTask` up to the request: nothing at all without an open edit. */
    method StartUpdate(data: FormData) returns (request: Option<Mutation>)
      requires Valid()
      modifies this`editLoading, this`toast, this`updateFilters
      ensures Valid()
      ensures old(editTask).None? ==>
        request == None && editLoading == old(editLoading) && toast == old(toast) && updateFilters == old(updateFilters)
      ensures old(editTask).Some? ==>
        request == Some(UpdateRequest(editTask.value.id, data)) && editLoading && toast == None
        && updateFilters == appliedFilters
    {
      if editTask.None? {
        return None;
      }
      editLoading, toast := true, None;
      updateFilters := appliedFilters;
      request := Some(UpdateRequest(editTask.value.id, data));
    }

    /**
     * `handleUpdateTask` after the request: a success closes the edit form and
     * re-assigns the applied filters captured at its start (a refetch).
     */
    method CompleteUpdate(outcome: MutationOutcome)
      requires Valid()
      modifies this`editLoading, this`toast, this`editTask, this`fetchPending, this`appliedFilters
      ensures Valid() && !editLoading
      ensures toast == Some(MutationToast(outcome, "Task updated successfully", "Failed to update task"))
      ensures outcome.Succeeded? ==> editTask == None && fetchPending && appliedFilters == updateFilters
      ensures outcome.Failed? ==>
        editTask == old(editTask) && fetchPending == old(fetchPending) && appliedFilters == old(appliedFilters)
    {
      toast := Some(MutationToast(outcome, "Task updated successfully", "Failed to update task"));
      if outcome.Succeeded? {
        editTask := None;
        appliedFilters := updateFilters;
        fetchPending := true;
      }
      editLoading := false;
    }

    /** `handleDeleteTask` up to the request: a declined confirmation issues nothing and changes nothing. */
    method StartDelete(task: Task, confirmed: bool) returns (request: Option<Mutation>)
      requires Valid()
      modifies this`deleteLoading, this`toast, this`deleteFilters
      ensures Valid()
      ensures !confirmed ==>
        request == None && deleteLoading == old(deleteLoading) && toast == old(toast) && deleteFilters == old(deleteFilters)
      ensures confirmed ==>
        request == Some(DeleteRequest(task.id)) && deleteLoading && toast == None && deleteFilters == appliedFilters
    {
      if !confirmed {
        return None;
      }
      deleteLoading, toast := true, None;
      deleteFilters := appliedFilters;
      request := Some(DeleteRequest(task.id));
    }

    /** `handleDeleteTask` after the request: a success re-assigns the applied filters captured at its start (a refetch). */
    method CompleteDelete(outcome: MutationOutcome)
      requires Valid()
      modifies this`deleteLoading, this`toast, this`fetchPending, this`appliedFilters
      ensures Valid() && !deleteLoading
      ensures toast == Some(MutationToast(outcome, "Task deleted successfully", "Failed to delete task"))
      ensures fetchPending == (old(fetchPending) || outcome.Succeeded?)
      ensures appliedFilters == if outcome.Succeeded? then deleteFilters else old(appliedFilters)
    {
      toast := Some(MutationToast(outcome, "Task deleted successfully", "Failed to delete task"));
      if outcome.Succeeded? {
        appliedFilters := deleteFilters;
        fetchPending := true;
      }
      deleteLoading := false;
    }

    /** The table's `onEdit`: a no-op while either form is open, `handleEditTask` otherwise. */
    method RowEdit(task: Task)
      requires Valid()
      modifies this`editTask
      ensures Valid()
      ensures editTask == if old(editTask).Some? || showCreateForm then old(editTask) else Some(task)
    {
      if editTask.None? && !showCreateForm {
        EditTask(task);
      }
    }

    /** The table's `onDelete`: a no-op while a delete is in flight, `handleDeleteTask` otherwise. */
    method RowDelete(task: Task, confirmed: bool) returns (request: Option<Mutation>)
      requires Valid()
      modifies this`deleteLoading, this`toast, this`deleteFilters
      ensures Valid()
      ensures request.Some? <==> !old(deleteLoading) && confirmed
      ensures request.Some? ==>
        request == Some(DeleteRequest(task.id)) && deleteLoading && toast == None && deleteFilters == appliedFilters
      ensures request.None? ==>
        deleteLoading == old(deleteLoading) && toast == old(toast) && deleteFilters == old(deleteFilters)
    {
      request := None;
      if !deleteLoading {
        request := StartDelete(task, confirmed);
      }
    }

    /** The toast timer firing. */
    method DismissToast()
      modifies this`toast
      ensures toast == None
    {
      toast := None;
    }

    /** `handleLogout`: forget the token and go to the login page. */
    method Logout(browser: BrowserState)
      modifies browser
      ensures browser.storage == old(browser.storage) - {TokenKey}
      ensures browser.location == LoginPath
      ensures !browser.IsAuthenticated()
    {
      browser.RemoveToken();
      browser.Navigate(LoginPath);
    }
  }
}
