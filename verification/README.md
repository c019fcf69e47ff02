# Task manager: a verified model

A Dafny model of the core of a small task-manager application. It covers a
React client (the task list page, its table, form and pagination controls,
and the signup and login pages) and a Flask backend (the task endpoints, their
lookups, the request schemas, registration and login).

The model follows the code's own structure.

- **Task list page** (`TasksView`). The page state is a class whose methods
  are the event handlers. The list query is a pure function of the page
  number, the page size and the *applied* filters, an ordered list of
  key/value pairs. The fetch effect is split into `BeginFetch` and
  `CompleteFetch`. Each create, update and delete handler is split into a
  `Start…` and a `Complete…` step. `fetchPending` records that one of the
  effect's dependencies changed, which is when React runs the fetch again.
- **Table, form and pagination.** `TaskTable.Render` lists one row per task.
  `TaskForm.TaskFormState` holds the edit/create form. `Pagination` holds the
  page buttons and the page text.
- **Signup** (`Signup`). The e-mail pattern `^[^\s@]+@[^\s@]+\.[^\s@]+$` is
  checked by a left-to-right matcher. That matcher is proved to accept exactly
  the strings of the form A@B.C with A, B and C non-empty and free of white
  space and `@`. The per-field rules and the submit outcome are modelled on
  top of it.
- **Login and apiFetch** (`Login`, `ApiFetch`). These pages write
  `localStorage` and the location, modelled as `Session.BrowserState`.
- **Backend.**
  - `Store.Database` holds the task table (a map from id to row), the user
    table (in id order) and the next ids.
  - The route methods in `TaskRoutes` and `AuthRoutes` change it the way the
    Flask views do.
  - `Schema` is the pydantic request validation. It runs before each view.
  - Password hashing, the hash check, token creation and the e-mail syntax
    check are library calls. They are function parameters.

Where the code and what a reader might expect differ, the model follows the
code:

- The client sends `page_no`, `limit` and filter parameters. The backend
  listing in this repository ignores them. It returns all of the caller's
  tasks, with no `pagination` member.
- After Reset, the query still carries `sort_by=created_at` and
  `sort_order=desc`, because those defaults are non-empty.
- The task page never passes `editingTaskId` to the table. It disables editing
  by swapping `onEdit` for a no-op while a form is open (`RowEdit`).
- The task page uses plain `fetch`. A 401 there does not clear the token; only
  the signup page goes through `apiFetch`.

## Model

| member | source | states |
|---|---|---|
| Decimal.IntRoundTrip | task-manager-frontend/src/Tasks.tsx:50-53 | `String(n)` of an integer below 10^21 in magnitude (every page number and size the page produces) parses back to n, so the page number and size are recoverable from the query |
| Pagination.Click | task-manager-frontend/src/components/Pagination.tsx:20-40 | a button yields no page change exactly when it is disabled (Prev iff `!hasPrev`, Next iff `!hasNext`); Prev asks for `pageNo - 1`, Next for `pageNo + 1` |
| Pagination.PageInfoRoundTrip | task-manager-frontend/src/components/Pagination.tsx:29-31 | the text "Page p of t" determines p and t exactly |
| Pagination.PrevFromFirstPage | task-manager-frontend/src/components/Pagination.tsx:21-22 | there is no lower bound: from page 1 with `hasPrev`, Prev asks for page 0 |
| TaskTable.Render | task-manager-frontend/src/components/TaskTable.tsx:40-75 | one row per task in input order, row i showing `tasks[i]`; Edit disabled iff `editLoading` or the row is being edited, Delete iff `deleteLoading` or the same; labels "Edit "/"Delete " + title |
| TaskTable.ClickRow | task-manager-frontend/src/components/TaskTable.tsx:52-75 | a click hands over the row's task, and nothing exactly when that button is disabled |
| TaskTable.EditClickPassesRowTask | task-manager-frontend/src/components/TaskTable.tsx:54-55 | Edit on row i passes exactly `tasks[i]` unless disabled |
| TaskTable.DeleteClickPassesRowTask | task-manager-frontend/src/components/TaskTable.tsx:65-66 | Delete on row i passes exactly `tasks[i]` unless disabled |
| TaskForm.ChromeFor | task-manager-frontend/src/TaskForm.tsx:42-91 | heading and button text are "Add Task"/"Create" in create mode and "Edit Task"/"Update" otherwise; submit and cancel are disabled iff loading |
| TaskForm.HeadingIdentifiesMode | task-manager-frontend/src/TaskForm.tsx:42 | the heading alone determines the mode |
| TaskForm.TaskFormState.constructor | task-manager-frontend/src/TaskForm.tsx:16-29 | the form starts as `initialData` (id included) or as the default task `{'', '', 'todo'}` |
| TaskForm.TaskFormState.InitialDataChanged | task-manager-frontend/src/TaskForm.tsx:26-29 | a new `initialData` replaces the whole form; its absence restores the default task |
| TaskForm.TaskFormState.HandleChange | task-manager-frontend/src/TaskForm.tsx:31-33 | only the named field takes the new value; the other fields and the id are unchanged |
| TaskForm.TaskFormState.Submit | task-manager-frontend/src/TaskForm.tsx:35-38 | `onSubmit` receives the current form unchanged |
| TaskForm.EditSubmission | task-manager-frontend/src/TaskForm.tsx:24-38 | opening the form on a task and retyping the title submits that task with the new title and the original id, description and status |
| TasksView.WithFilter | task-manager-frontend/src/Tasks.tsx:94-96 | a draft filter change sets that field and leaves the other four as they were |
| TasksView.TaskListQuery | task-manager-frontend/src/Tasks.tsx:50-58 | the query starts with `page_no` then `limit`, has 2 to 7 pairs, and every optional pair has a non-empty value |
| TasksView.QueryRoundTrip | task-manager-frontend/src/Tasks.tsx:50-58 | page number, page size and all five applied filters can be read back from the query, so it loses nothing |
| TasksView.OptionalParamPresence | task-manager-frontend/src/Tasks.tsx:54-58 | each optional key is present iff its applied value is non-empty, and then carries that value |
| TasksView.QueryInKeyOrder | task-manager-frontend/src/Tasks.tsx:50-58 | keys appear in the order page_no, limit, title, description, status, sort_by, sort_order, each at most once |
| TasksView.FetchErrorText | task-manager-frontend/src/Tasks.tsx:65-76 | the error text after a failed fetch is the server's or the thrown message, else "Failed to fetch tasks" / "Unknown error" |
| TasksView.MutationToast | task-manager-frontend/src/Tasks.tsx:126-134 | success shows the success text; failure an error toast with the message or the fallback |
| TasksView.TaskListController.constructor | task-manager-frontend/src/Tasks.tsx:21-41 | initial state: page 1, size 10, both filter copies at the defaults, nothing open, a fetch pending; the filter snapshots of the mutation handlers start at the defaults |
| TasksView.TaskListController.BeginFetch | task-manager-frontend/src/Tasks.tsx:45-58 | loading on, error cleared, the query built from the applied filters (never the draft) |
| TasksView.TaskListController.CompleteFetch | task-manager-frontend/src/Tasks.tsx:65-79 | success replaces list and pagination wholesale; a body without `pagination` replaces the list and sets an error; failure sets the error text; loading off in every case |
| TasksView.TaskListController.PageChange | task-manager-frontend/src/Tasks.tsx:84-86 | the page becomes the requested one exactly, without clamping |
| TasksView.TaskListController.PageSizeChange | task-manager-frontend/src/Tasks.tsx:88-91 | the new size and page 1 |
| TasksView.TaskListController.FilterChange | task-manager-frontend/src/Tasks.tsx:94-96 | only the draft changes; the next query is the same as before |
| TasksView.TaskListController.ApplyFilters | task-manager-frontend/src/Tasks.tsx:97-100 | applied filters become the draft, page 1, and a refetch is due |
| TasksView.TaskListController.ResetFilters | task-manager-frontend/src/Tasks.tsx:101-105 | both copies reset to the defaults and page 1; the query is then exactly page_no=1, limit, sort_by=created_at, sort_order=desc |
| TasksView.TaskListController.ShowCreate | task-manager-frontend/src/Tasks.tsx:108-111 | opens the create form unless an edit is open; the two forms are never open together |
| TasksView.TaskListController.CancelCreate | task-manager-frontend/src/Tasks.tsx:112 | closes the create form |
| TasksView.TaskListController.StartCreate | task-manager-frontend/src/Tasks.tsx:113-125 | loading on, toast cleared, the form data posted; the handler captures the applied filters current at this moment |
| TasksView.TaskListController.CompleteCreate | task-manager-frontend/src/Tasks.tsx:126-137 | success: success toast, form closed, refetch by re-assigning the applied filters captured at the start (so filters applied while the request was in flight are reverted); failure: error toast, form and applied filters left as they are |
| TasksView.TaskListController.EditTask | task-manager-frontend/src/Tasks.tsx:141-144 | opens the edit form unless the create form is open |
| TasksView.TaskListController.CancelEdit | task-manager-frontend/src/Tasks.tsx:145 | closes the edit form |
| TasksView.TaskListController.StartUpdate | task-manager-frontend/src/Tasks.tsx:146-159 | without an open edit nothing happens; otherwise a PUT for the edited task's id, capturing the applied filters current at this moment |
| TasksView.TaskListController.CompleteUpdate | task-manager-frontend/src/Tasks.tsx:160-171 | success: success toast, edit closed, refetch by re-assigning the applied filters captured at the start (reverting filters applied meanwhile); failure: error toast, edit and applied filters left as they are |
| TasksView.TaskListController.StartDelete | task-manager-frontend/src/Tasks.tsx:175-186 | a declined confirmation issues no request and changes nothing; otherwise a DELETE for the task's id, capturing the applied filters current at this moment |
| TasksView.TaskListController.CompleteDelete | task-manager-frontend/src/Tasks.tsx:187-197 | toast by outcome; only on success a refetch by re-assigning the applied filters captured at the start (reverting filters applied meanwhile) |
| TasksView.TaskListController.RowEdit | task-manager-frontend/src/Tasks.tsx:305 | the table's Edit does nothing while either form is open |
| TasksView.TaskListController.RowDelete | task-manager-frontend/src/Tasks.tsx:306 | the table's Delete does nothing while a delete is in flight |
| TasksView.TaskListController.DismissToast | task-manager-frontend/src/Tasks.tsx:201-206 | the toast timer clears the toast |
| TasksView.TaskListController.Logout | task-manager-frontend/src/Tasks.tsx:208-211 | the token is removed and the location becomes /login |
| Session.BrowserState.RemoveToken | task-manager-frontend/src/utils/apiFetch.ts:4 | removes the `access_token` key and nothing else |
| Session.BrowserState.StoreToken | task-manager-frontend/src/components/Login.tsx:29 | sets the `access_token` key and nothing else |
| ApiFetch.ApiFetch | task-manager-frontend/src/utils/apiFetch.ts:1-8 | on 401 the token is removed and the location becomes /login; otherwise storage and location are unchanged; the response is returned as it came |
| Signup.IsValidEmailMatchesShape | task-manager-frontend/src/components/Signup.tsx:25-27 | the matcher accepts s iff s = A@B.C with A, B, C non-empty runs free of white space and `@` (B and C may contain dots) |
| Signup.UsernameError | task-manager-frontend/src/components/Signup.tsx:65 | "Username is required" exactly when empty |
| Signup.EmailError | task-manager-frontend/src/components/Signup.tsx:82-85 | no error iff the address has the A@B.C shape; "Email is required" iff empty, else "Email is invalid" |
| Signup.PasswordError | task-manager-frontend/src/components/Signup.tsx:103-106 | no error iff at least 8 characters; "Password is required" iff empty, else the length message |
| Signup.ConfirmError | task-manager-frontend/src/components/Signup.tsx:134-137 | no error iff non-empty and equal to the password; "Please confirm your password" iff empty, else "Passwords do not match" |
| Signup.Validate | task-manager-frontend/src/components/Signup.tsx:65-137 | no field error iff username non-empty, e-mail well-shaped, password of 8+ characters and confirmation equal to it |
| Signup.EmptyFormShowsFourErrors | task-manager-frontend/src/__tests__/Signup.test.tsx:55-67 | the untouched form shows all four "required" messages |
| Signup.SignupErrorText | task-manager-frontend/src/components/Signup.tsx:40-46 | a failed register with a readable body shows the server message when it is non-empty and "Signup failed" otherwise; an unreadable body or a network failure shows "Network error"; the text is never empty |
| Signup.InputType | task-manager-frontend/src/components/Signup.tsx:102 | the input type is exactly "text" when the toggle is on and "password" when it is off |
| Signup.SignupPage.constructor | task-manager-frontend/src/components/Signup.tsx:9-22 | empty fields, no errors, no banner, no API error, passwords hidden |
| Signup.SignupPage.Input | task-manager-frontend/src/components/Signup.tsx:63-65 | typing changes only that field |
| Signup.SignupPage.TogglePassword | task-manager-frontend/src/components/Signup.tsx:114 | flips the password visibility |
| Signup.SignupPage.ToggleConfirmPassword | task-manager-frontend/src/components/Signup.tsx:145 | flips the confirmation visibility |
| Signup.SignupPage.Submit | task-manager-frontend/src/components/Signup.tsx:29-47 | an invalid form only shows its errors and sends nothing; a valid one is sent as it stands; success sets the banner and resets the fields; failure sets the API error text; a 401 clears the token and goes to /login |
| Login.Decide | task-manager-frontend/src/components/Login.tsx:26-43 | logged in iff status 200 with a non-empty token; "Invalid credentials" iff 401 or 200 without a token; "Network error" otherwise |
| Login.OnlyOkLogsIn | task-manager-frontend/src/components/Login.tsx:38-39 | any status other than 200 and 401 is reported as "Network error" |
| Login.LoginPage.constructor | task-manager-frontend/src/components/Login.tsx:8-14 | no error, no banner, `authed` from the stored token |
| Login.LoginPage.Submit | task-manager-frontend/src/components/Login.tsx:17-44 | the previous outcome is cleared; only a login stores the token, sets success and authed and goes to /tasks; otherwise storage and location are unchanged and the message is shown |
| Schema.StrField | task-manager-backend/schemas/task.py:4-5 | a string field is accepted iff present as a JSON string within its bounds, or absent with a default |
| Schema.ParseTaskRequest | task-manager-backend/schemas/task.py:3-5 | accepted iff the title is a string of 1 to 50 characters and any description a string of at most 200; an omitted description becomes "" |
| Schema.TaskRequestRoundTrip | task-manager-backend/schemas/task.py:3-5 | every in-bounds request survives being sent and validated |
| Schema.OmittedDescriptionDefaults | task-manager-backend/schemas/task.py:5 | a body with only a title is accepted with description "" |
| Schema.ExtraFieldsIgnored | task-manager-backend/tests/test_task.py:98-102 | extra body fields change neither acceptance nor the result |
| Schema.EmailField | task-manager-backend/schemas/user.py:4 | accepted iff a string the e-mail check accepts and of at most 120 characters |
| Schema.ParseUserRequest | task-manager-backend/schemas/user.py:3-6 | accepted iff e-mail valid, username of 3 to 15 and password of 8 to 100 characters; an e-mail error is listed first |
| Schema.ParseLoginRequest | task-manager-backend/schemas/user.py:8-10 | accepted iff username and password are both strings |
| Schema.LoginRequestRoundTrip | task-manager-backend/schemas/user.py:8-10 | every login request survives being sent and validated |
| TaskModel.NewTask | task-manager-backend/models/task.py:9-12 | title, owner and description are stored as given |
| TaskModel.NewTaskDefaultsDescription | task-manager-backend/models/task.py:9 | an omitted description is "" |
| TaskModel.ToJson | task-manager-backend/models/task.py:14-20 | exactly the keys id, title, description, user_id, each holding its field |
| TaskModel.FromJson | task-manager-backend/models/task.py:14-20 | reads back only objects that are the projection of some task |
| TaskModel.ToJsonRoundTrip | task-manager-backend/models/task.py:14-20 | the projection loses nothing |
| UserModel.UserJson | task-manager-backend/models/user.py:21-26 | exactly id, username and email; never the password hash |
| Utils.FirstIndex | task-manager-backend/utils.py:15-19 | the first position satisfying the filter, or none anywhere (a query's `.first()`) |
| Utils.GetUserById | task-manager-backend/utils.py:6-7 | a user with that id, and none exactly when no user has it |
| Utils.FindByUsername | task-manager-backend/routes/auth.py:32 | the first user with that username, or none when no user has it |
| Utils.CheckUsernameExists | task-manager-backend/utils.py:15-16 | holds iff some user has the username |
| Utils.CheckEmailExists | task-manager-backend/utils.py:18-19 | holds iff some user has the e-mail |
| Utils.GetTaskByIdAndUser | task-manager-backend/utils.py:9-13 | the task iff the id exists and the user owns it |
| Utils.NeverAnotherUsersTask | task-manager-backend/utils.py:11 | another user's task is never returned |
| Utils.FindAppended | task-manager-backend/routes/auth.py:32 | a newly appended user with an unused username is the one found by that username |
| Store.Database.constructor | task-manager-backend/tests/conftest.py:7-15 | an empty database satisfying the table invariants |
| Store.Database.AddTask | task-manager-backend/routes/tasks.py:29-30 | adds exactly one row under a fresh id; users unchanged; invariants kept |
| Store.Database.SetTask | task-manager-backend/routes/tasks.py:67-70 | replaces that one row, keeping its owner |
| Store.Database.RemoveTask | task-manager-backend/routes/tasks.py:84-85 | removes exactly that row |
| Store.Database.AddUser | task-manager-backend/routes/auth.py:21-25 | appends one user with the next id; usernames and e-mails stay unique |
| TaskRoutes.CreateTask | task-manager-backend/routes/tasks.py:12-32 | invalid body: 400 and no change; unknown user: 404 and no change; otherwise one new task with a fresh id, the body's fields and the caller as owner, returned with 201 |
| TaskRoutes.OwnedIds | task-manager-backend/routes/tasks.py:39 | the ids of exactly the caller's tasks in the range, ascending |
| TaskRoutes.TaskList | task-manager-backend/routes/tasks.py:40 | the `to_json` of each listed task, in order |
| TaskRoutes.GetTasks | task-manager-backend/routes/tasks.py:34-42 | 200 with a body whose only key is `tasks`, listing the caller's tasks |
| TaskRoutes.GetTasksExactlyOwned | task-manager-backend/routes/tasks.py:39-42 | the listing holds every task of the caller, each once, and no other user's |
| TaskRoutes.NoTasksEmptyListing | task-manager-backend/tests/test_task.py:104-108 | with no task of the caller's the listing is empty |
| TaskRoutes.GetTask | task-manager-backend/routes/tasks.py:44-54 | 200 with the task iff it exists and the caller owns it, else 404 |
| TaskRoutes.UpdateTask | task-manager-backend/routes/tasks.py:56-72 | invalid body: 400, no change; missing or foreign task: 404, no change; otherwise title and description replaced, id and owner kept, no other task changed |
| TaskRoutes.DeleteTask | task-manager-backend/routes/tasks.py:74-87 | missing or foreign task: 404, no change; otherwise exactly that task removed, and a later get of it is a 404 |
| AuthRoutes.RegisterUser | task-manager-backend/routes/auth.py:12-27 | invalid body: 400; taken username: 400 "Username already exists" before the e-mail check; taken e-mail: 400 "Email already registered"; these leave the users unchanged; otherwise exactly one user added and 201 with id, username and e-mail |
| AuthRoutes.Login | task-manager-backend/routes/auth.py:29-38 | 200 with only an access token iff the first user with the username passes the password check; otherwise 401 "Invalid credentials" (400 for a malformed body) |
| AuthRoutes.LoginAfterRegistration | task-manager-backend/routes/auth.py:21-38 | a user just registered can log in with the same password when the hash check accepts its own hashes |
| AuthRoutes.WrongPasswordRefused | task-manager-backend/routes/auth.py:34-38 | a password the check refuses is 401 even for an existing username |

## Left out

- Markup, styling, icons, spinners and `Toast.tsx` are not modelled. Only the texts and `disabled` flags the handlers and tests rely on are.
- The network is not modelled. How a request settles is a parameter (`Exchange`, `FetchOutcome`, `MutationOutcome`). This covers the host in each URL, the `Authorization` header and the percent-encoding done by `URLSearchParams.toString()`.
- Decimal.IntToString: models `String(n)` only for integers below 10^21 in magnitude; JavaScript numbers are doubles, so larger values print in exponent form (`1e+21`) and integers beyond 2^53 are not exact. Page numbers and sizes of a task list stay far below these ranges.
- Async timing is abstracted. Overlapping fetches that settle out of order (last response wins) are not modelled.
- React's effect scheduling is abstracted as the `fetchPending` flag. The 3-second toast timer appears only as `DismissToast` firing.
- TasksView.TaskListController.PageSizeChange: takes the new size as an integer; `Number(...)` of the select's value is not modelled.
- react-hook-form's re-validation on change after the first submit is not modelled. Rules are checked on submit only.
- The `storage` event listener in `hooks/useAuth.ts` is not modelled.
- Signup.PasswordError: counts Unicode characters where JavaScript's `length` counts UTF-16 code units. The two differ for characters outside the Basic Multilingual Plane.
- Login.Decide: a truthy non-string `access_token` is not distinguished. The body's token is a string, "" when absent or falsy.
- Authentication of backend requests (a missing, invalid or expired JWT gives 401 or 422) is library behaviour. Routes take the caller's id as a parameter. A non-numeric identity is not modelled.
- Path ids are integers in the model. A non-numeric id such as `abc` ends in the 404 handler, which is not modelled.
- The body of an `abort` reply comes from an error handler that is not part of this model. `Aborted` keeps the status and description only.
- flask_pydantic's error format (`loc` and `msg` strings) is reduced to a field name and a `Problem`.
- Malformed JSON, non-object bodies and wrong content types are not modelled.
- Schema.EmailField: the e-mail syntax check is a parameter. The address is stored as given, without the normalisation email-validator applies. When an address is both malformed and over 120 characters, the format error is the one reported, as tests/test_user.py:281-292 shows.
- Password hashing, `check_password_hash` and `create_access_token` are function parameters (`hash`, `checkPassword`, `createToken`).
- Store.Database.AddTask: ids come from a counter that is never reused. SQLite may reuse the largest id after that row is deleted.
- TaskRoutes.GetTasks: `.all()` has no `ORDER BY`. The model lists tasks in ascending id order, which is SQLite's row order.
- SQLAlchemy sessions, commits and rollbacks are not modelled. Neither is a unique-constraint failure between two concurrent registrations, nor the declared column lengths.
- The backend task `status` is not modelled, because `models/task.py` has no such column.
- `update_task` keeps the old description when the body's description is `None`. That branch cannot be taken: the schema defaults the field to "" and refuses null. The model always assigns.
- The duplicate, superseded components (`src/Signup.tsx`, `src/Login.tsx`, `components/TaskForm.tsx`, `components/TaskFilters.tsx`) and the other applications in the repository are not part of this model.
