# Organizador de Tarefas — a verified model of its task core

Organizador de Tarefas is a to-do application. A Flask/SQLAlchemy backend keeps the
tasks in one table. A React client lists, creates, edits and deletes them. A task may
have a parent, and the client shows each task together with its direct subtasks.

This project models that core in Dafny and proves what each part promises.

- **Backend table** (`TaskModel`). Models a row of `tasks`, its column defaults, and the
  serialiser `to_dict`. The serialiser nests a row's direct subtasks one level deep
  and no deeper.
- **Backend handlers** (`TaskRoutes`). A `TaskStore` class owns the table as a map from
  id to row, plus the autoincrement counter. Its methods are the six handlers: create,
  list roots, get, partial-merge update, delete (the task and its direct subtasks) and
  create-subtask. Each method states its error responses, the new table, and that
  nothing else changes.
- **Client service** (`TaskService`, `Http`). Models the four `fetch` wrappers: the
  request each one sends, and how a settled response becomes a result or an error
  message.
- **Task list page** (`TaskList`). Models `TasksManage` and its copy `App`: the state
  fields, the five handlers (each given what its service call settled to), the
  root-level filter, and the three-way choice of what the list shows.
- **Task card** (`TaskItemView`). Models the edit mode and its four buffers, the status
  and priority colour tables, and the indentation of subtasks by level.
- **Create form** (`CreateTaskForm`). Models the stand-alone form's validation, the
  lookup of the responsible user, and its `loading` and `success` flags.
- **Sidebar** (`Sidebar`). Models the paging arithmetic (seven items a page) and the
  `expanded` and `currentPage` transitions.
- **Wire** (`Wire`). Joins the two sides. It covers:
  - which handler each client request reaches;
  - what the browser makes of each backend response;
  - how each client request body reads on the server;
  - how the client decodes and lays out the JSON that `get_tasks` writes.

Things the code gets from outside become parameters of the model:

- the time of a request (`now`);
- Python's `datetime.fromisoformat` (`parse`);
- the outcome of each awaited call (an `Outcome`);
- the browser's JSON parse-error text (`parseError`).

Source paths below are relative to the repository root.

## Model

| member | source | states |
|---|---|---|
| TaskModel.ToDict | backend/src/models/task.py:25-41 | The output is an object. It has exactly the eleven column keys, plus `subtasks` exactly when `include_subtasks` is set. Without subtasks every value is a scalar. With them, `subtasks` holds one flat entry per child, and no entry has a `subtasks` key. The output is never more than two object levels deep. |
| TaskModel.ToDictColumns | backend/src/models/task.py:26-38 | Each column is written under its own key. `parent_id` is the row's value, and null exactly for a root. `due_date`, `created_at` and `updated_at` are null exactly when unset, and otherwise their ISO text. `description` and `responsible` are null exactly when unset, and otherwise their text. `responsible_id` is null exactly when unset, and otherwise the number. |
| TaskModel.ToDictSubtaskEntries | backend/src/models/task.py:39-40 | The i-th `subtasks` entry is the flat dictionary of the i-th child. It has the child's id and no `subtasks` key of its own. |
| TaskModel.ToDictDefault | backend/src/models/task.py:25 | `to_dict()` with no argument nests the subtasks and stays within two levels. |
| TaskModel.ColumnsDict | backend/src/models/task.py:26-38 | The dictionary literal has exactly the eleven column keys, and every value is a scalar. |
| TaskModel.IsoOrNull | backend/src/models/task.py:30 | The value is null exactly when there is no datetime, and otherwise the datetime's ISO text. |
| TaskRoutes.TaskStore.constructor | backend/src/models/task.py:8 | The table starts empty, and the autoincrement key starts at 1. |
| TaskRoutes.TaskStore.CreateTask | backend/src/routes/task_routes.py:7-33 | A null JSON body, or a falsy title: 400 "Missing title". An unparsable `due_date`: 400 with the ISO message. An empty `due_date`: 500. In all three cases the table and the counter are unchanged. Otherwise the response is 201 and exactly one row is added, under the next id. That row is `NewRow`, with `parent_id` taken from the body unchecked. The response body is that row's nested dictionary. |
| TaskRoutes.NewRow | backend/src/routes/task_routes.py:13-22 | The stored row has the body's title and `parent_id`, and `now` in both timestamps. `status` and `priority` are the body's values, or 'Pendente' and 'Média' when the key is absent or null. The other nullable columns are the body's values, or null. |
| TaskRoutes.CreateStatusDefault | backend/src/models/task.py:12-13 | A created task has the default status (priority) exactly when the body gives none or gives the default itself. |
| TaskRoutes.WithDefault | backend/src/models/task.py:12-13 | A given value wins over the column default. A missing or null value leaves the default. |
| TaskRoutes.Nullable | backend/src/routes/task_routes.py:13-22 | A nullable column is set exactly when the body gives the key a non-null value. |
| TaskRoutes.CreateDueDate | backend/src/routes/task_routes.py:16-29 | An absent or null key gives no date. `""` is left unparsed, so the insert fails. Any other string goes through `parse` after 'Z' is replaced: it is rejected when it does not parse, and otherwise yields the parsed value. |
| TaskRoutes.TitleMissing | backend/src/routes/task_routes.py:10 | The title check passes exactly when there is a body whose `title` is given and truthy, that is, a non-empty string. |
| Text.ReplaceZ | backend/src/routes/task_routes.py:27 | The result has no 'Z'. It is never shorter than the input, and equals the input when the input has no 'Z'. |
| TaskRoutes.TaskStore.GetTasks | backend/src/routes/task_routes.py:35-39 | The response is 200 with an array. For some order that lists every root once, newest `created_at` first, the array holds each root's nested dictionary in that order. |
| TaskRoutes.TaskStore.SerializeAll | backend/src/routes/task_routes.py:39 | The loop yields, position by position, the nested dictionary of each listed row. |
| TaskRoutes.ListNewestFirst | backend/src/routes/task_routes.py:38 | Any finite set of stamped rows can be listed, each once, with `created_at` descending. |
| TaskRoutes.Newest | backend/src/routes/task_routes.py:38 | A non-empty set of stamped rows has a newest member. |
| TaskRoutes.ListRows | backend/src/models/task.py:20 | The rows of any id set can be enumerated, each once. This is what the subtasks relationship yields, in no declared order. |
| TaskRoutes.ChildIds | backend/src/models/task.py:20 | The children of a task are exactly the stored ids whose `parent_id` is that task: every such id is returned, and nothing else. None of them is a root. |
| TaskRoutes.ListedExtend | backend/src/routes/task_routes.py:39 | Appending one more serialised row extends a listing. |
| TaskRoutes.TaskStore.Serialize | backend/src/models/task.py:39-40 | The result is the row's `to_dict`, with the subtasks being exactly its children, each once. |
| TaskRoutes.TaskStore.GetTask | backend/src/routes/task_routes.py:41-44 | An unknown id gives the 404 page. A known id gives 200 and its nested dictionary. |
| TaskRoutes.TaskStore.UpdateTask | backend/src/routes/task_routes.py:46-70 | An unknown id gives 404. A null JSON body gives 500. A bad `due_date` gives 400. A null title, status or priority gives 500. In each of these cases the table is unchanged. Success is 200 exactly when none of them holds. Then only row `id` changes, becoming `Updated`, and the response is its nested dictionary. The id counter never moves. |
| TaskRoutes.Updated | backend/src/routes/task_routes.py:51-57 | Every column the body names takes the body's value, and every other column keeps its value. `id` and `created_at` never change. `parent_id` is taken unchecked. `updated_at` becomes `now` exactly when some column really changed. |
| TaskRoutes.Assign | backend/src/routes/task_routes.py:51-54 | An absent key keeps the current value, an explicit null gives null (which the NOT NULL column refuses), and a value replaces it. |
| TaskRoutes.AssignNullable | backend/src/routes/task_routes.py:52-57 | An absent key keeps the current value, null clears it, and a value replaces it. |
| TaskRoutes.UpdateDueDate | backend/src/routes/task_routes.py:59-67 | An absent key or `""` keeps the date, and an explicit null clears it. Any other string is parsed, and the update is rejected exactly when the string does not parse. |
| TaskRoutes.EmptyUpdateChangesNothing | backend/src/routes/task_routes.py:51-57 | A body that names no column leaves the row identical, including `updated_at`. |
| TaskRoutes.TaskStore.DeleteTask | backend/src/routes/task_routes.py:72-88 | An unknown id gives 404 and leaves the table as it was. Otherwise the response is 200 with the fixed message, and the new table is the old one minus the task and exactly its direct subtasks. Deeper rows stay. |
| TaskRoutes.TaskStore.CreateSubtask | backend/src/routes/task_routes.py:91-117 | An unknown parent gives 404. A null JSON body or a falsy title gives 400 "Missing title for subtask". A bad date gives 400 with the subtask message, and `""` gives 500. In all of these cases the table is unchanged. Otherwise exactly one row is added, whose `parent_id` is always `p`, whatever the body says. The response body is its flat dictionary. |
| TaskService.TaskDataJson | frontend/src/services/task-service.ts:42 | The body sent is a JSON object. |
| TaskService.TaskDataJsonShape | frontend/src/services/task-service.ts:21-30 | The body always carries the title. It carries `parent_id` exactly when a parent is given, and never carries `subtasks`. |
| TaskService.WithStr | frontend/src/services/task-service.ts:42 | A set string field adds its key with its value. An unset field adds no key, and every other key is untouched. |
| TaskService.WithInt | frontend/src/services/task-service.ts:42 | The same for numeric fields. |
| TaskService.GetTasks | frontend/src/services/task-service.ts:6-18 | A failed fetch rethrows its error. A non-2xx status fails with "HTTP error! status: S, message: T". The call resolves exactly on a 2xx status with a JSON body, and then with that body unchanged. |
| TaskService.Mutation | frontend/src/services/task-service.ts:44-48 | A failed fetch rethrows its error. A non-2xx status fails with `MutationErrorMessage`. The call resolves exactly on a 2xx status with a JSON body, and then with that body unchanged. |
| TaskService.MutationErrorMessage | frontend/src/services/task-service.ts:45-46 | A body that is not JSON gives "Failed to parse error JSON". A non-empty string `error` gives that string. A non-null JSON body without one gives "HTTP error! status: S". A JSON `null` body makes reading `.error` throw, and its TypeError text becomes the message. |
| TaskService.MutationMessageSources | frontend/src/services/task-service.ts:44-46 | A non-2xx response always rejects. An `error` string from the server is reported word for word. A non-JSON body gives the parse-failure text. The bare status line appears only when the body was JSON. |
| TaskService.StatusMessageIsNotParseFailure | frontend/src/services/task-service.ts:45-46 | The status line never coincides with the parse-failure text. |
| TaskService.StatusMessage | frontend/src/services/task-service.ts:46 | The text is "HTTP error! status: " followed by the status in decimal. |
| TaskService.StatusMessageInjective | frontend/src/services/task-service.ts:46 | Two status lines are equal exactly when their statuses are. |
| TaskService.ListFailureMessage | frontend/src/services/task-service.ts:9-11 | The text starts with the status line, then ", message: ", and ends with the body text. |
| TaskService.GetTasksRequest | frontend/src/services/task-service.ts:8 | A GET of /tasks with no body. |
| TaskService.ErrorField | frontend/src/services/task-service.ts:46 | The `error` field is used exactly when it is a non-empty string. |
| TaskService.Body | frontend/src/services/task-service.ts:13 | `response.json()` resolves exactly when the body parses, and then to the parsed value. |
| TaskService.CreateTaskRequest | frontend/src/services/task-service.ts:32-43 | Always POST /tasks. The task data is the JSON body. |
| TaskService.UpdateTaskRequest | frontend/src/services/task-service.ts:56-64 | PUT /tasks/{taskId}, with the data as body. |
| TaskService.DeleteTaskRequest | frontend/src/services/task-service.ts:77-81 | DELETE /tasks/{taskId}, with no body. |
| TaskList.RootTasks | frontend/src/pages/tasksManage.tsx:171 | Keeps only tasks whose `parent_id` is falsy, and never adds one. |
| TaskList.IsRoot | frontend/src/pages/tasksManage.tsx:171 | A task is a root exactly when its `parent_id` is absent, null, or falsy as a JavaScript number (0). |
| TaskList.RootTasksMembership | frontend/src/pages/tasksManage.tsx:171 | A task is listed at root level exactly when it was fetched and its `parent_id` is null, absent or 0. |
| TaskList.RootTasksAppend | frontend/src/App.tsx:302 | The filter preserves fetched order: the filter of a concatenation is the concatenation of the filters. |
| TaskList.RootTasksIdempotent | frontend/src/App.tsx:302 | Filtering twice is filtering once. |
| TaskList.RootTasksOfRoots | frontend/src/pages/tasksManage.tsx:171 | A list of roots passes whole and in order. |
| TaskList.ViewOf | frontend/src/pages/tasksManage.tsx:165-181 | The loading text shows exactly while loading. The empty text shows exactly when not loading, with no tasks and no error. Otherwise the view is the filtered root list. |
| TaskList.TasksPage.View | frontend/src/pages/tasksManage.tsx:165-181 | The page shows the loading text exactly while loading, and the empty text exactly when idle with no tasks and no error. Otherwise it shows the filtered list, whose every entry is a root. |
| TaskList.ViewWithError | frontend/src/App.tsx:298-302 | With an error the list is shown, possibly empty, and never the empty text. |
| TaskList.LoadFailure | frontend/src/pages/tasksManage.tsx:35 | The banner is the load-failure prefix, then the error's message, then the backend hint. |
| TaskList.NewTaskData | frontend/src/pages/tasksManage.tsx:49-54 | Create sends the form's title, description and priority, status "Pendente", and no parent. |
| TaskList.SubtaskData | frontend/src/pages/tasksManage.tsx:93-99 | Add-subtask sends the given title, `parent_id`, "Nova subtarefa", "Média" and "Pendente". |
| TaskList.TasksPage.constructor | frontend/src/pages/tasksManage.tsx:20-25 | Initial state: no tasks, no error, loading, an empty form, and priority "Média". |
| TaskList.TasksPage.StartFetch | frontend/src/pages/tasksManage.tsx:27-31 | Loading is set, the banner cleared, and the list and form kept. |
| TaskList.TasksPage.FinishFetch | frontend/src/pages/tasksManage.tsx:31-38 | On success, the list becomes the result, or `[]` when the result is nullish. On failure, the list becomes `[]` and the banner is set. Loading ends either way. |
| TaskList.TasksPage.FetchTasks | frontend/src/App.tsx:164-176 | A whole fetch: on success the banner is clear and the list is the result. On failure the list is empty and the banner is set. |
| TaskList.TasksPage.HandleCreateTask | frontend/src/pages/tasksManage.tsx:45-65 | A title that is blank after trimming makes no call and changes nothing. Otherwise the call sends `NewTaskData`. Success resets the form and starts a refetch. Failure sets the create banner and keeps the list and the form. |
| TaskList.TasksPage.HandleUpdateTask | frontend/src/pages/tasksManage.tsx:67-77 | Success starts a refetch, and failure sets the update banner. Either way the handler's own promise resolves, and the list and form are kept. |
| TaskList.TasksPage.HandleDeleteTask | frontend/src/pages/tasksManage.tsx:79-89 | Success starts a refetch, and failure sets the delete banner. The list and form are kept. |
| TaskList.TasksPage.HandleAddSubtask | frontend/src/pages/tasksManage.tsx:91-105 | Sends `SubtaskData`. Success starts a refetch, and failure sets the add-subtask banner. The list and form are kept. |
| Text.TrimEmptyIffBlank | frontend/src/App.tsx:184 | `trim()` is empty exactly for strings made only of white space. |
| Text.TrimStart | frontend/src/pages/tasksManage.tsx:47 | Removes exactly the leading white space. |
| Text.TrimEnd | frontend/src/pages/tasksManage.tsx:47 | Removes exactly the trailing white space. |
| Text.Trim | frontend/src/pages/tasksManage.tsx:47 | The result is no longer than the input, and neither starts nor ends with white space. |
| TaskItemView.StatusColor | frontend/src/components/complex/taskItem.tsx:40-47 | Green exactly for a status that lowers to "concluída", blue exactly for "em andamento", and yellow exactly for "pendente". Gray exactly for a missing status or any other word. |
| TaskItemView.PriorityClasses | frontend/src/components/complex/taskItem.tsx:49-56 | The red border exactly for a priority that lowers to "alta", yellow exactly for "média", and green exactly for "baixa". The gray border exactly for a missing priority or any other word. |
| TaskItemView.ColoursIgnoreCase | frontend/src/App.tsx:51-67 | Both tables give the same answer for a word and for its lower-case form. |
| Text.ToLower | frontend/src/App.tsx:52 | Lowers each character in place and keeps the length. |
| Text.ToLowerIdempotent | frontend/src/App.tsx:51-67 | Lowering twice is lowering once. |
| TaskItemView.OfferedStatusesAreColoured | frontend/src/components/complex/taskItem.tsx:40-47 | "Pendente", "Em Andamento" and "Concluída" (and the backend default) get yellow, blue and green, not gray. |
| TaskItemView.OfferedPrioritiesAreColoured | frontend/src/components/complex/taskItem.tsx:49-56 | "Baixa", "Média" and "Alta" (and the backend default) get green, yellow and red borders. |
| TaskItemView.OrElse | frontend/src/components/complex/taskItem.tsx:16-18 | `x \|\| fallback`: a missing or empty value falls back, and any other value is kept. |
| TaskItemView.TaskItem.constructor | frontend/src/components/complex/taskItem.tsx:14-18 | Edit mode starts off. The buffers start from the task, with "", "Pendente" and "Média" for a missing description, status and priority. |
| TaskItemView.TaskItem.StartEditing | frontend/src/components/complex/taskItem.tsx:121 | Enters edit mode and keeps the buffers. |
| TaskItemView.TaskItem.Cancel | frontend/src/components/complex/taskItem.tsx:108 | Leaves edit mode without a call, and without resetting the buffers. |
| TaskItemView.TaskItem.EditTitle | frontend/src/components/complex/taskItem.tsx:15 | Only the title buffer changes. |
| TaskItemView.TaskItem.EditDescription | frontend/src/components/complex/taskItem.tsx:16 | Only the description buffer changes. |
| TaskItemView.TaskItem.EditStatus | frontend/src/components/complex/taskItem.tsx:17 | Only the status buffer changes. |
| TaskItemView.TaskItem.EditPriority | frontend/src/components/complex/taskItem.tsx:18 | Only the priority buffer changes. |
| TaskItemView.TaskItem.Save | frontend/src/components/complex/taskItem.tsx:20-38 | Sends this task's id and exactly the four buffers. Edit mode ends only when the call resolved. |
| TaskItemView.UpdatePatch | frontend/src/App.tsx:38-43 | The patch has exactly the keys title, description, status and priority, holding the four buffers. |
| TaskItemView.AddSubtaskArguments | frontend/src/components/complex/taskItem.tsx:123 | "+ Subtarefa" passes the task's id and "Subtarefa de " followed by the task's title. |
| TaskItemView.SubtaskTitleNeverBlank | frontend/src/App.tsx:134 | The proposed subtask title is never empty or blank. |
| TaskItemView.Layout | frontend/src/components/complex/taskItem.tsx:59-140 | A card comes first, at its level with a margin of level×20 px. Every descendant is strictly deeper, and every line is indented by 20 px per level. |
| TaskItemView.LayoutList | frontend/src/App.tsx:138-151 | A non-empty list starts with the first sibling's card at the given level. Every line is at that level or deeper, with the same margin rule, and there are at least as many lines as siblings. |
| TaskItemView.SiblingsInOrder | frontend/src/components/complex/taskItem.tsx:127-138 | The lines at the siblings' own level are exactly the siblings, in list order. |
| TaskItemView.SubtasksOneLevelDown | frontend/src/components/complex/taskItem.tsx:127-138 | Under a card, the lines one level deeper are exactly its direct subtasks, in `subtasks` order. The card itself is the only line at its own level. |
| CreateTaskForm.FindByUsername | frontend/src/pages/create-taks.tsx:35 | Finds the first user with that username, or none exactly when no user has it. |
| CreateTaskForm.ResponsibleIdAsWritten | frontend/src/pages/create-taks.tsx:35 | The lookup as written: the id of the first user whose username equals the selected value, or 0 when no username does. |
| CreateTaskForm.ResponsibleLookupIgnoresOptions | frontend/src/pages/create-taks.tsx:35 | The options carry the user's id as their value (line 97). With no all-digit usernames, choosing any listed user gives `responsible_id` 0. |
| CreateTaskForm.ResponsibleLookupCounterexample | frontend/src/pages/create-taks.tsx:35-41 | With user 1 "ana" chosen, the lookup gives 0 and the form refuses to submit. |
| CreateTaskForm.FindById | frontend/src/pages/create-taks.tsx:97 | Finds a user whose option value is the selected text, or none exactly when no such user exists. |
| CreateTaskForm.ResponsibleIdFindsChosenUser | frontend/src/pages/create-taks.tsx:95-98 | With the corrected lookup, the chosen user's id is submitted, and the placeholder submits 0. |
| CreateTaskForm.ResponsibleId | frontend/src/pages/create-taks.tsx:97 | The corrected lookup: 0 when no option carries the selected value. A non-zero result is the id of a user whose option carries it. |
| CreateTaskForm.TaskDataWith | frontend/src/pages/create-taks.tsx:29-36 | The task data is the form's five fields plus the looked-up id, with no parent and no status. |
| CreateTaskForm.TaskDataAsWritten | frontend/src/pages/create-taks.tsx:29-36 | The data as written carries the name and the deadline. A non-zero `responsible_id` is the id of a user whose username equals the selected value. |
| CreateTaskForm.Submission | frontend/src/pages/create-taks.tsx:29-36 | With the corrected lookup, the data carries the name and the deadline. A non-zero `responsible_id` is the id of a user whose option carries the selected value. |
| CreateTaskForm.Accepted | frontend/src/pages/create-taks.tsx:38 | The data passes exactly when the title, the due date and `responsible_id` are all truthy in JavaScript terms. |
| CreateTaskForm.AcceptedSubmission | frontend/src/pages/create-taks.tsx:38-41 | With the corrected lookup, a form is accepted exactly when it has a name, a deadline, and a chosen user whose id is not 0. |
| CreateTaskForm.AcceptedAsWritten | frontend/src/pages/create-taks.tsx:29-41 | As written, a form is accepted exactly when it has a name and a deadline, some username equals the selected value, and the first user with it has an id other than 0. |
| CreateTaskForm.FormPrioritiesAreUncoloured | frontend/src/App.tsx:60-67 | The form's priorities "low", "medium" and "high" all get the gray border in the list. |
| CreateTaskForm.CreateTaskPage.constructor | frontend/src/pages/create-taks.tsx:8-10 | The page starts with no users, not loading, and no success. |
| CreateTaskForm.CreateTaskPage.UsersFetched | frontend/src/pages/create-taks.tsx:12-22 | Loaded users replace the list. A failure keeps it. |
| CreateTaskForm.CreateTaskPage.HandleSubmit | frontend/src/pages/create-taks.tsx:24-46 | As written, with the username lookup. No form means no call. Otherwise a call is made exactly when the data is accepted, and it sends that data; then `loading` is set. A refused submission changes no flag. |
| CreateTaskForm.CreateTaskPage.HandleSubmitCorrected | frontend/src/pages/create-taks.tsx:24-46 | With the corrected lookup: the same contract, over `Submission`. |
| CreateTaskForm.CreateTaskPage.SubmitDisabled | frontend/src/pages/create-taks.tsx:107 | The button is enabled exactly when neither loading nor done. Once a task was created it stays disabled for as long as the page is not reloaded. |
| CreateTaskForm.CreateTaskPage.Settle | frontend/src/pages/create-taks.tsx:46-66 | `loading` ends false. `success` becomes true on success and is never reset. |
| Sidebar.TotalPages | frontend/src/components/ui/sidebar/sidebar.tsx:23-24 | ceil(n/7): the fewest pages of seven that hold n items. |
| Sidebar.VisibleItems | frontend/src/components/ui/sidebar/sidebar.tsx:25-26 | At most seven items: those at positions page×7 onwards, in order. The page is empty exactly when it lies past the last page. |
| Sidebar.ShowPagination | frontend/src/components/ui/sidebar/sidebar.tsx:27 | The controls show exactly when there are at least two pages. |
| Sidebar.PagesArePrefix | frontend/src/components/ui/sidebar/sidebar.tsx:25-26 | The first k pages, read in order, are the first 7k items. |
| Sidebar.PagesPartitionItems | frontend/src/components/ui/sidebar/sidebar.tsx:24-26 | All the pages together give back every item once, in order. |
| Sidebar.PageDownOverrunsAsWritten | frontend/src/components/ui/sidebar/sidebar.tsx:78-81 | With eight items (two pages), the down control on the last page moves to a page that shows nothing. |
| Sidebar.NextPageAsWritten | frontend/src/components/ui/sidebar/sidebar.tsx:81 | Every click moves forward. From the last page or beyond, it moves past every page. |
| Sidebar.NextPage | frontend/src/components/ui/sidebar/sidebar.tsx:79-81 | The corrected step moves forward by one exactly when a later page exists, and otherwise stays. From a real page it stays on a real page. |
| Sidebar.NextPageStaysOnAPage | frontend/src/components/ui/sidebar/sidebar.tsx:79 | The guarded down step stays on a real page, moves exactly when a later page exists, and never shows an empty menu. |
| Sidebar.SidebarState.constructor | frontend/src/components/ui/sidebar/sidebar.tsx:20-21 | The sidebar starts collapsed, on page 0, which is a real page or the only page of an empty menu. |
| Sidebar.SidebarState.Visible | frontend/src/components/ui/sidebar/sidebar.tsx:25-26 | The current page's items, in order. The menu is empty exactly when the page lies past the last page. On a real page it shows something exactly when there are items. |
| Sidebar.SidebarState.ToggleMenu | frontend/src/components/ui/sidebar/sidebar.tsx:43 | Flips `expanded`. The page is kept. |
| Sidebar.SidebarState.Close | frontend/src/components/ui/sidebar/sidebar.tsx:50 | Sets `expanded` to false. The page is kept. |
| Sidebar.SidebarState.PageUp | frontend/src/components/ui/sidebar/sidebar.tsx:59 | Steps back only from a page after the first, and never goes negative. From the blank page just past the last, it returns to the last page. |
| Sidebar.SidebarState.PageDownAsWritten | frontend/src/components/ui/sidebar/sidebar.tsx:77-81 | The down control as written: one page on, on every click. From the last page it leaves the pages. |
| Sidebar.SidebarState.PageDown | frontend/src/components/ui/sidebar/sidebar.tsx:78-81 | The corrected down step: it moves as `NextPage` says, so a real page stays a real page. |
| Wire.Route | backend/src/routes/task_routes.py:5-91 | POST /tasks reaches create, and GET /tasks reaches the list, in both cases exactly. Get, update, delete and create-subtask are reached only by GET, PUT, DELETE and POST. Anything outside the blueprint is not /tasks. |
| Wire.MemberPath | backend/src/routes/task_routes.py:41 | The path for a non-negative id matches the `int` converter, which reads back the same id. |
| Wire.MemberRoutes | backend/src/routes/task_routes.py:41-73 | For every id, GET, PUT and DELETE of `/tasks/{id}` reach get, update and delete of that id. POST is refused. |
| Wire.SubtaskPathParts | backend/src/routes/task_routes.py:91 | For every id, `/tasks/{id}/subtasks` splits into the member prefix, digits that read back as the id, and the suffix. It is not a member path. |
| Wire.SubtaskRoutes | backend/src/routes/task_routes.py:91 | For every id, POST of `/tasks/{id}/subtasks` reaches create-subtask of that id. Every other verb is refused. |
| Wire.RequestsReachTheirHandlers | frontend/src/services/task-service.ts:8-80 | The four service calls reach list, create, update and delete (the latter two for the same id). Subtasks are created through the collection route. |
| Text.ParseNatToString | backend/src/routes/task_routes.py:41 | Parsing the decimal text of a number gives back the number. |
| Text.IntToStringInjective | frontend/src/services/task-service.ts:58 | Distinct ids give distinct URL texts. |
| Text.IntToString | frontend/src/services/task-service.ts:58 | The text is never empty, and starts with "-" exactly for a negative number. |
| Wire.Deliver | backend/src/routes/task_routes.py:41-44 | Status and text pass through. The body parses exactly when the handler sent JSON, and then to that JSON. |
| Wire.HtmlErrorsOnTheClient | frontend/src/services/task-service.ts:44-46 | A 404 or 500 page makes a mutation report the parse-failure text, and makes the list load report the status and page text. |
| Wire.JsonErrorsOnTheClient | backend/src/routes/task_routes.py:10-11 | A 400 `{"error": m}` reaches the user as m, word for word. |
| Wire.BodyOf | backend/src/routes/task_routes.py:9-10 | A typed body reads its `title` and `parent_id` keys as absent, null or given. |
| Wire.PageCreateBody | frontend/src/pages/tasksManage.tsx:49-54 | The list page's create body reads on the server as title, description, priority and status "Pendente", with no parent. |
| Wire.PageTitlePassesBackend | frontend/src/pages/tasksManage.tsx:47 | Any title the page sends passes the backend's title check. |
| Wire.SubtaskCreateBody | frontend/src/pages/tasksManage.tsx:93-99 | The add-subtask body reads on the server with the given parent id and the fixed defaults. |
| Wire.SaveTouchesFourColumns | frontend/src/components/complex/taskItem.tsx:22-27 | Saving a card changes exactly title, description, status and priority. It can be refused neither for its date nor for a NOT NULL column. |
| Wire.DecodeFlat | backend/src/models/task.py:26-38 | A flat dictionary reads back as the row's task, with no subtasks. |
| Wire.DecodeTask | frontend/src/pages/tasksManage.tsx:6-17 | A non-object reads as an empty root. An integer `id` and a string `title` are read as given. A `subtasks` array gives one child per element, and no array gives none. |
| Wire.DecodeNested | backend/src/models/task.py:39-40 | A nested dictionary reads back with the children, in order, each without subtasks. |
| Wire.LayoutOfLeaves | frontend/src/components/complex/taskItem.tsx:127-138 | Tasks without subtasks give one card each, at the given level. |
| Wire.CardOfLeaves | frontend/src/components/complex/taskItem.tsx:127-138 | A card whose subtasks have none of their own renders as its line, then one line per subtask at the next level, in list order. |
| Wire.ListedCardShowsTwoLevels | frontend/src/App.tsx:138-151 | A listed task renders as its card plus one card per direct child at 20 px. Nothing deeper is ever shown. |
| Wire.DecodeList | frontend/src/services/task-service.ts:13 | Decodes every element of the list body, position by position. |
| Wire.ListedTasksAllShown | frontend/src/pages/tasksManage.tsx:171 | Every task `get_tasks` returns passes the page's root filter, so the list is shown whole, in the backend's newest-first order. |

## Left out

- Time and dates: `func.now()` is the parameter `now`, and `datetime.fromisoformat` is the parameter `parse`. Time zones and the formatting done by `isoformat` and `toLocaleDateString` are not modelled.
- The database engine is whatever `DB_URL` names (`backend/src/main.py:23`). The model leaves out everything that depends on it:
  - whether ids are reused after a delete: the model's counter only grows;
  - whether foreign keys are enforced: the model checks none, and stores `responsible_id` and `parent_id` as given;
  - column length limits (`String(200)` for `title`, `String(50)` for `status` and `priority`, `backend/src/models/task.py:9,12-13`): the model stores text of any length.
- TaskRoutes.TaskStore.DeleteTask: keeps the stored `parent_id` of the deleted subtasks' own children, as the handler's code reads. During the flush, SQLAlchemy's default one-to-many behaviour (no delete cascade) would set it to null.
- SQLAlchemy session internals (identity map, autoflush, rollback at teardown) are reduced to this: a handler that fails before its commit leaves the table unchanged.
- Request bodies whose keys have types the handlers do not expect (a number as title, say) are outside the model. `Wire.BodyOf` requires such keys to be typed, and `Wire.DecodeTask` reads a mistyped field as missing.
- TaskService.MutationErrorMessage: a truthy `error` that is not a string (a number, an object) would become the message through `String()`. The model treats it as absent.
- Async interleaving:
  - The refetch the handlers start without awaiting is modelled as `StartFetch`, with `FinishFetch` applied separately.
  - Interleavings of several requests in flight are not modelled.
- CreateTaskForm.CreateTaskPage: the "Criar" button is a `type="submit"` button inside a `<form>` with no `onSubmit` (`frontend/src/pages/create-taks.tsx:71,105-107`), and `handleSubmit` never calls `preventDefault`. After `handleSubmit` returns, the browser's own form submission and the page reload that follows are not modelled: the contracts of `HandleSubmit`, `Settle` and `SubmitDisabled` assume the page survives the click. With a reload, `.then`/`.finally` do not run on that page, and `loading` and `success` start again at false.
- Toasts, console logging, JSX/CSS rendering, `form.reset()`, and the invalid `useToast` hook call inside the card's `catch` are not modelled.
- `toLowerCase` is modelled only for ASCII and Latin-1 capitals (`Text.LowerChar`), which covers every status and priority word in the code.
- `frontend/src/pages/tasksManage.tsx:1` imports its card from `@/components/ui/taskItem`, which is not part of this model. It is taken to behave like `frontend/src/components/complex/taskItem.tsx` (the card `TaskItemView` models, as App.tsx's copy does).
- App.tsx imports `./services/taskService`, which is not part of this model. It is taken to behave like `frontend/src/services/task-service.ts`.
- The body of `getTasks` is taken to be an array of task dictionaries, or nullish (`None`). Other JSON values are outside the model.
- The browser's JSON parse-error text is the parameter `parseError`.
- `getUsers` (`frontend/src/services/user-service.ts`) is not part of this model. Its outcome is the input of `UsersFetched`.
- The sidebar's items are a fixed count (`itemCount`). Their rendering, and the sidebar item components, are not modelled.
- Flask's app wiring, CORS, static file serving and the user routes (`backend/src/main.py`) are not modelled.
- Nothing in the code builds a tree from a flat list, reports orphans or detects cycles, so the model has none of these. `update_task` can set any `parent_id`, including a task's own id.

## Findings

| source | as written | input that shows it | evidently intended | confidence | as-written member | corrected member |
|---|---|---|---|---|---|---|
| frontend/src/pages/create-taks.tsx:35 | The lookup compares `user.username` with the selected value. The options carry `user.id` as their value (line 97). | One user, id 1 and username "ana". Choosing her submits option value "1", no username equals "1", `responsible_id` becomes 0, and the form refuses to submit. | Look the chosen user up by the id its option carries. | not executed | CreateTaskForm.ResponsibleLookupCounterexample | CreateTaskForm.ResponsibleIdFindsChosenUser |
| frontend/src/components/ui/sidebar/sidebar.tsx:81 | The down control increments `currentPage` on every click. The "disabled" class at line 79 only changes its look. | Eight items make two pages. On page 1, a click moves to page 2, whose slice is empty, so the menu goes blank. | Move down only while a later page exists. | not executed | Sidebar.PageDownOverrunsAsWritten | Sidebar.NextPageStaysOnAPage |
