# Task dashboard: ownership-scoped task store and its client cache

This project models the task service of a small task dashboard and proves
properties of the model:

- **The server's task controller** over the task schema. Each task belongs
  to the user who created it. Listing returns only the caller's tasks.
  Create stamps the caller as owner and lets the schema fill defaults and
  validate. Update and delete check that the task exists (404) and then
  that the caller owns it (401) before touching anything. Update
  overwrites a field only when the supplied value is truthy.
- **The client hook** that mirrors the list. It keeps `tasks`, `loading` and
  `error`, and changes its list only after the server has answered with
  success. It appends on create, replaces by id on update, and filters by
  id on delete.
- **The dashboard's pure helpers**: the search and status filter, the four
  statistics cards, the priority badge colour and the blank form.

Modules, one per file:

- `Wrappers` (`wrappers.dfy`): `Option` and `Result`.
- `Sequences` (`sequences.dfy`): JavaScript's `filter` and `map` on
  sequences, with lemmas about them.
- `TaskModel` (`task_model.dfy`): the schema. It has the document before
  saving, the saved task, the enums with their defaults, the validators,
  and `Save` (defaults, then validation).
- `TaskController` (`task_controller.dfy`): the controller as a class
  `TaskStore`. It holds a map from task id to task, the next fresh id and
  a save clock. Its four handlers are methods returning a `Reply`: a status
  and a body, or the schema's validation error escaping the handler.
- `UseTasks` (`use_tasks.dfy`): the hook as a class `TaskCache`. Each
  operation takes the settled API result as a parameter.
- `Dashboard` (`dashboard.dfy`): the dashboard helpers.
- `Sync` (`sync.dfy`): the two sides composed. Every round trip (refresh,
  create, edit, remove) keeps the cache equal to what listing the store
  would return for that user, in the same order.

Two behaviours of the code are worth stating outright:

- **Invalid enum values on update are not ignored.** The controller assigns
  any truthy value (`status || task.status`), and `save()` then fails schema
  validation. So `TaskStore.UpdateTask` lets the validation error escape and
  leaves the store unchanged.
- **`updatedAt` is refreshed only when some path was modified.** That is
  how the schema's `timestamps` option behaves. An update with an empty body
  therefore returns the task exactly as stored, `updatedAt` included
  (`CreateThenEmptyUpdate`). An update that changes a field advances
  `updatedAt`.

## Model

| member | source | states |
|---|---|---|
| TaskModel.Save | dashboard-backend/models/Task.js:3-34 | saving succeeds exactly when the owner is present, the title is a non-empty string and a supplied status/priority is in its enum; a failure names at least one path; a saved task is valid, keeps the given owner, title and description, takes `pending`/`medium` for an omitted status/priority, and has `createdAt == updatedAt == now` |
| TaskModel.MissingTitleRejected | dashboard-backend/models/Task.js:10-13 | a missing or empty title is rejected and the title path is named |
| TaskModel.MissingOwnerRejected | dashboard-backend/models/Task.js:5-9 | a document without an owner is rejected and the user path is named |
| TaskModel.UnknownEnumRejected | dashboard-backend/models/Task.js:18-29 | a supplied status or priority outside its enum is rejected, naming each offending path |
| TaskModel.OmittedFieldsDefault | dashboard-backend/models/Task.js:14-29 | with only an owner and a title, the task is saved with status `pending`, priority `medium` and no description |
| TaskModel.SavedTaskRevalidates | dashboard-backend/models/Task.js:3-34 | a task the schema let through passes validation again, so re-saving it never fails |
| TaskController.OwnedBy | dashboard-backend/controllers/taskController.js:7 | the `find({ user })` query over the store, scanning ids upward; what it returns is stated by `OwnedMembers` and `OwnedSorted` |
| TaskController.OwnedMembers | dashboard-backend/controllers/taskController.js:6-9 | the listing holds exactly the stored tasks owned by the caller, each under its own id |
| TaskController.OwnedSorted | dashboard-backend/controllers/taskController.js:6-9 | the listing is in strictly increasing id order, which is insertion order |
| TaskController.Patch | dashboard-backend/controllers/taskController.js:42-45 | the four assignments that keep a field unless the supplied value is truthy; its properties are stated by `PatchKeepsIdentity`, `EmptyPatchIsIdentity`, `PatchIdempotent` and `PatchValidation` |
| TaskController.NewDoc | dashboard-backend/controllers/taskController.js:15-23 | the document `createTask` builds: the caller as owner, and the four body fields as given; what saving it does is stated by `TaskStore.CreateTask` and `TaskModel.Save` |
| TaskController.PatchKeepsIdentity | dashboard-backend/controllers/taskController.js:42-45 | an update keeps id, owner and both timestamps, and each of the four fields is either kept or becomes the supplied value |
| TaskController.EmptyPatchIsIdentity | dashboard-backend/controllers/taskController.js:42-45 | a body whose four fields are all absent or empty changes nothing |
| TaskController.PatchIdempotent | dashboard-backend/controllers/taskController.js:42-45 | applying the same body twice equals applying it once |
| TaskController.PatchValidation | dashboard-backend/controllers/taskController.js:42-47 | on a valid task an update can fail validation only on status or priority, and each fails exactly when a truthy supplied value is outside its enum |
| TaskController.ReplaceConsistent | dashboard-backend/models/Task.js:31-33 | overwriting a stored task with a valid task under the same id, saved no later than the clock, keeps every stored task valid and under its id |
| TaskController.ReplaceOwnTask | dashboard-backend/controllers/taskController.js:35-47 | overwriting one of the caller's tasks with one of the same id, owner and creation time leaves other users' tasks untouched and changes no owner |
| TaskController.TaskStore.constructor | dashboard-backend/models/Task.js:36 | a new store is empty and consistent |
| TaskController.TaskStore.GetTasks | dashboard-backend/controllers/taskController.js:6-9 | replies 200 with exactly the caller's stored tasks, in id order, and no task of another user |
| TaskController.TaskStore.CreateTask | dashboard-backend/controllers/taskController.js:14-27 | succeeds exactly when the schema accepts the body with the caller as owner; on success replies 201 with the saved task, owned by the caller whatever the body says, stored under a fresh id; on failure the validation error escapes and nothing changes; other users' tasks are untouched |
| TaskController.TaskStore.UpdateTask | dashboard-backend/controllers/taskController.js:32-52 | 404 and no change for an unknown id; 401 and no change for another user's task; otherwise the truthy fields are patched, a validation failure escapes with the store unchanged, an unchanged task is returned as it was, and a changed one is stored and returned with `updatedAt` advanced; owner, id and `createdAt` never change; no other task is touched |
| TaskController.TaskStore.SaveExisting | dashboard-backend/controllers/taskController.js:47 | re-saving a stored task: validation errors leave the store unchanged; an unmodified task is kept as it was; a modified one is stored with a new `updatedAt` |
| TaskController.TaskStore.DeleteTask | dashboard-backend/controllers/taskController.js:57-70 | 404 and no change for an unknown id; 401 and no change for another user's task; otherwise replies `Task removed` and removes exactly that id; the clock and the other tasks stay as they were |
| TaskController.DeleteTwice | dashboard-backend/controllers/taskController.js:57-70 | after a successful delete the id is gone, and deleting it again replies 404 `Task not found` |
| TaskController.CreateThenEmptyUpdate | dashboard-backend/controllers/taskController.js:14-52 | after a successful create, an update with an empty body replies 200 with the created task unchanged, `updatedAt` included |
| UseTasks.ErrorMessage | dashboard-frontend/src/hooks/useTasks.js:16 | the message is the server's message when it is present and non-empty, and the fallback otherwise, so it is never empty |
| UseTasks.ReplaceById | dashboard-frontend/src/hooks/useTasks.js:35 | same length; every entry with the id becomes the new task; every other entry is kept at its position |
| UseTasks.RemoveById | dashboard-frontend/src/hooks/useTasks.js:45 | keeps exactly the entries with another id, every occurrence of each, as a subsequence in their original order; every entry with the id is dropped |
| UseTasks.ReplaceAbsentId | dashboard-frontend/src/hooks/useTasks.js:35 | replacing an id that no entry carries leaves the list as it was |
| UseTasks.RemoveAbsentId | dashboard-frontend/src/hooks/useTasks.js:45 | removing an id that no entry carries leaves the list as it was |
| UseTasks.TaskCache.constructor | dashboard-frontend/src/hooks/useTasks.js:5-7 | the initial state is an empty list, not loading, no error |
| UseTasks.TaskCache.BeginFetch | dashboard-frontend/src/hooks/useTasks.js:10 | starting a fetch sets `loading` and nothing else |
| UseTasks.TaskCache.SettleFetch | dashboard-frontend/src/hooks/useTasks.js:11-19 | on success the list becomes the server's list and the error is cleared; on failure the list is kept and the error is the server's message or `Error fetching tasks`; `loading` ends false either way |
| UseTasks.TaskCache.FetchTasks | dashboard-frontend/src/hooks/useTasks.js:9-20 | the whole fetch: the same outcome as settling, with `loading` false at the end |
| UseTasks.TaskCache.CreateTask | dashboard-frontend/src/hooks/useTasks.js:22-30 | on success the server's task is appended and returned; on failure the error is thrown with the server's message or `Error creating task` and the list is unchanged |
| UseTasks.TaskCache.UpdateTask | dashboard-frontend/src/hooks/useTasks.js:32-40 | on success the entries with the id are replaced by the server's task and that task is returned; on failure the error is thrown with the server's message or `Error updating task` and the list is unchanged |
| UseTasks.TaskCache.DeleteTask | dashboard-frontend/src/hooks/useTasks.js:42-49 | on success the entries with the id are filtered out; on failure the error is thrown with the server's message or `Error deleting task` and the list is unchanged |
| Dashboard.Lower | dashboard-frontend/src/pages/Dashboard.jsx:38 | lower-casing keeps the length, maps each character and leaves no upper-case ASCII letter |
| Dashboard.LowerIdempotent | dashboard-frontend/src/pages/Dashboard.jsx:38 | lower-casing twice equals lower-casing once |
| Dashboard.IncludesIffOccurs | dashboard-frontend/src/pages/Dashboard.jsx:38-39 | `includes` holds exactly when the substring occurs at some index |
| Dashboard.MatchesSearch | dashboard-frontend/src/pages/Dashboard.jsx:38-39 | the search test on one task; its meaning is stated by `SearchMeansOccurrence`, `SearchIgnoresCase` and `EmptyTermMatches` |
| Dashboard.MatchesStatus | dashboard-frontend/src/pages/Dashboard.jsx:40 | the status test on one task: `all`, or exactly the task's status; used by `FilteredTasks`, whose contract states it |
| Dashboard.FilteredTasks | dashboard-frontend/src/pages/Dashboard.jsx:37-42 | the shown tasks are a subsequence of the list holding every occurrence of each task that matches both the search and the status filter, and no other task; with a filter other than `all`, every shown task has that status |
| Dashboard.EmptyTermMatches | dashboard-frontend/src/pages/Dashboard.jsx:38-39 | the empty search term matches every task |
| Dashboard.ShowAll | dashboard-frontend/src/pages/Dashboard.jsx:37-42 | with an empty term and the `all` filter the whole list is shown, in order |
| Dashboard.SearchIgnoresCase | dashboard-frontend/src/pages/Dashboard.jsx:38-39 | a term and its lower-cased form match the same tasks |
| Dashboard.SearchMeansOccurrence | dashboard-frontend/src/pages/Dashboard.jsx:38-39 | a task matches exactly when the lower-cased term occurs in the lower-cased title or in the lower-cased description, if there is one |
| Dashboard.Statistics | dashboard-frontend/src/pages/Dashboard.jsx:30-35 | Total is the list length; Completed, Pending and High Priority are the numbers of positions holding a task with status `completed`, status `pending` and priority `high`; so Completed + Pending is at most Total and High Priority is at most Total |
| Dashboard.CountByStatus | dashboard-frontend/src/pages/Dashboard.jsx:32-33 | filtering by a status keeps as many tasks as there are positions in the list holding that status |
| Dashboard.CountByPriority | dashboard-frontend/src/pages/Dashboard.jsx:34 | filtering by a priority keeps as many tasks as there are positions in the list holding that priority |
| Dashboard.StatsAgreeWithFilter | dashboard-frontend/src/pages/Dashboard.jsx:30-42 | the Completed and Pending counts equal the number of tasks the status filter shows with an empty search |
| Dashboard.PriorityColor | dashboard-frontend/src/pages/Dashboard.jsx:77-84 | red exactly for `high`, blue exactly for `medium`, slate exactly for `low` and every unrecognised value |
| Dashboard.BlankFormMatchesSchema | dashboard-frontend/src/pages/Dashboard.jsx:24 | the blank form's status and priority are the schema defaults, and its empty title is refused with only the title path named |
| Sync.Received | dashboard-frontend/src/hooks/useTasks.js:12 | the client resolves exactly on a 2xx reply, with the reply's data |
| Sync.Acknowledged | dashboard-frontend/src/hooks/useTasks.js:44 | the delete call resolves exactly on a 2xx reply |
| Sync.OwnedFrame | dashboard-backend/controllers/taskController.js:7 | the listing depends only on the stored tasks below the bound |
| Sync.OwnedInsert | dashboard-backend/controllers/taskController.js:25 | a task saved under a fresh id for the caller lands at the end of the caller's listing |
| Sync.OwnedEmpty | dashboard-backend/controllers/taskController.js:7 | an empty store lists nothing |
| Sync.OwnedReplace | dashboard-backend/controllers/taskController.js:47 | overwriting one of the caller's tasks in the store is replacing it by id in the listing |
| Sync.OwnedRemove | dashboard-backend/controllers/taskController.js:65 | removing an id from the store is filtering it out of the listing |
| Sync.Refresh | dashboard-frontend/src/hooks/useTasks.js:9-20 | a fetch against the store brings the cache in line with the caller's listing from any state, with no error and not loading |
| Sync.Create | dashboard-frontend/src/hooks/useTasks.js:22-30 | a create round trip keeps the cache equal to the caller's listing; it returns exactly when the schema accepts the body, appends the saved task, and otherwise changes neither side; `error` and `loading` are untouched |
| Sync.Edit | dashboard-frontend/src/hooks/useTasks.js:32-40 | an update round trip keeps the cache equal to the caller's listing; it returns exactly when the caller owns the task and the patched task validates; the returned task is the patched one, and the cache entry is replaced by it; `error` and `loading` are untouched |
| Sync.Remove | dashboard-frontend/src/hooks/useTasks.js:42-49 | a delete round trip keeps the cache equal to the caller's listing; it returns exactly when the caller owns the task; afterwards neither the store nor the cache holds that id; `error` and `loading` are untouched |
| Sync.PayBillsScenario | dashboard-frontend/src/hooks/useTasks.js:9-49 | create "Pay bills": status `pending`, priority `medium`, no description; mark it completed: only the status changes; the cache then shows just that task; delete and refresh: the id is gone |

## Left out

- HTTP transport, Express's request and response objects and the `api` client are not modelled. A reply is a status and a body. The client sees a settled result: the data, or a rejection carrying the server's `message` if there is one.
- What the framework sends when a validation error escapes a handler is not modelled, since the error handler is not part of this model. `Sync` passes such a failure to the client with no message, so the hook uses its fallback text.
- MongoDB and mongoose internals are not modelled: storage, `find`, `findById`, `deleteOne` and ObjectId generation. The store is a map with a fresh-id counter, and comparing ids as strings is plain equality.
- Mongoose casting of non-string values, and JSON `null` in a request body, are not modelled. A body field is a string or absent.
- Wall-clock time is not modelled. `createdAt` and `updatedAt` come from a counter that advances once per modifying save.
- Async interleaving of overlapping requests and React's batching of state updates are not modelled. Each operation is atomic and sequential.
- TaskController.TaskStore.GetTasks: lists in increasing id order, standing in for the database's natural order. Ids are handed out in increasing order, so this is insertion order.
- Dashboard.Lower: ASCII only, because the model has no Unicode case mapping.
- The edit form's pre-filling, the submit and delete handlers, `window.confirm`, `alert` and the animation in the dashboard page are not modelled. They are UI plumbing around the calls the hook makes.
- The login, profile and layout pages and the authentication context are not part of this model.
