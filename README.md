# Virtual Workflow Management System: the workflow engine

This is a Dafny model of the workflow engine of a Gin/MongoDB HTTP API. A workflow has a
name, an owner and an embedded, ordered array of tasks. A task has a name, a description, a
status and an integer `order`.

The model covers five layers:

- **Access check.** `CheckWorkflowAccess` decides whether the authenticated caller may act on
  a workflow.
- **Transaction wrapper.** `WithTransaction` starts a session and a transaction, runs a unit of
  work once, and then aborts or commits.
- **Repository.** The twelve methods of `workflowEntity` run against the `workflows`
  collection.
- **Service.** It builds the stored models from request payloads and gives each new task the
  order one past the current maximum.
- **Controller.** Every mutating handler runs the same pipeline: look the workflow up, check
  access, bind the JSON body, call the service, and answer with the first error it meets.

The users collection is modelled only as far as the transfer handler needs it. That is the
check-then-insert in `CreateOne` and the lookup in `FindOneByUsername`.

Modules follow the Go packages:

| module | file | models |
|---|---|---|
| `Results` | `results.dfy` | `Option`, `Result` and `Outcome`. `Outcome` stands for a Go `error` that may be `nil`. |
| `ObjectIds` | `object_ids.dfy` | 12-byte object ids, their 24-digit hex form and `ObjectIDFromHex` |
| `Models` | `models.dfy` | `Task`, `Workflow`, `User`, `JWTUser`, the role, action and status constants, and `CheckWorkflowAccess` |
| `Transaction` | `transaction.dfy` | `common.WithTransaction` |
| `Requests` | `requests.dfy` | the workflow request payloads and their `binding` rules, and the registration payload |
| `WorkflowRepository` | `workflow_repository.dfy` | the `workflows` collection: the class `WorkflowEntity` plus one pure effect function per operation |
| `UserRepository` | `user_repository.dfy` | the `users` collection: the class `UserEntity` |
| `Services` | `workflow_service.dfy` | `WorkflowService` |
| `Controllers` | `workflow_controller.dfy` | `WorkflowController` |

Each state-changing component is a class:

- `WorkflowEntity` holds the collection as a map from object id to workflow.
- `UserEntity` holds a map from username to user.
- The service holds the repository, and the controller holds the service and the user
  repository.

Each operation that writes is a `method` with `modifies`. Its `ensures` ties the new map and
the result to a pure function of the old map, such as `UpdateWorkflowEffect` or
`EditWorkflowFlow`. The properties the code promises are proved about those functions:

- error codes and messages;
- that "nothing else changes";
- re-reads;
- task order and id uniqueness.

The linear scans of the Go code become `while` loops with invariants. These are the searches
for a task id in `FindTaskByID` and `UpdateTaskByID`. `FindWorkflowsByUsername` has no scan in
the Go code: it is a `Find` with an `owner` filter followed by `cursor.All`. The model stands in
for that with a loop over the map's keys that collects the matching workflows.

The MongoDB update operators are modelled as follows:

- `$set` is a record update.
- `$push` is an append.
- `$pull` is a filter.
- The positional `tasks.$` writes the first task whose id matches.
- The `$sort` aggregation is a stable insertion sort by `order`.
- The `$max` aggregation is a maximum that is absent for an empty task array.

Matched and modified counts become conditions on the map:

- "modified" means the `$set` produces a different document.
- "matched" means the filter finds the workflow, and for task updates, the task inside it.

Generated ids and `time.Now()` are parameters of the operations: a fresh `ObjectId` and a
`Time`.

Request binding is a predicate on `Option<Request>`. `None` is a body that does not decode.
The handler answers "Invalid input" when the predicate fails, as the Go code does.

Some behaviour of the code is easy to misread:

- **Task fields.** A task's `status` is any string the request supplies, and nothing forces
  `order` to be positive or unique.
- **`updated_at` on the workflow.** It is written only by `UpdateWorkflow`. Transfer and all
  task operations leave it alone.
- **Gates.** The edit, delete and task handlers all gate on the action `"delete"`.
- **Unit of work.** The transactional closures issue their store calls on a fresh context, not
  on the session. Each repository and service method is therefore one sequential step, and no
  atomicity across steps is claimed.

## Model

| member | source | states |
|---|---|---|
| Models.CheckWorkflowAccess | models/workflow.model.go:30-46 | Access is allowed exactly when the caller owns the workflow, or when the action is `"delete"` and the role is `"admin"`. This is the closed form of the owner test and the switch. |
| Models.NonOwnerAccess | models/workflow.model.go:35-45 | A non-owner is refused `"transfer"` and `"edit"`, because `"edit"` does not fall through to `"delete"`. A non-owner is allowed `"delete"` iff the role is `"admin"`, and is refused every other action string. |
| Models.DeclaredConstantsDoNotQualify | models/user.model.go:7-19 | The role constant `Admin` (`"Admin"`) does not pass the lower-case `"admin"` test. The capitalised action constants `Edit`, `Delete` and `Transfer` are refused to a non-owner. |
| Models.AccessDependsOnlyOnOwner | models/workflow.model.go:30-46 | The decision reads only the workflow's owner: two workflows with the same owner get the same answer. |
| Transaction.WithTransaction | common/transaction.go:13-41 | <ul><li>A failed session start returns its error and calls nothing else.</li><li>A started session is ended, as the last driver call and only there.</li><li>The unit of work runs at most once, and only when both starts succeed.</li><li>A failed unit of work is aborted and its own error is returned, whatever the abort answers.</li><li>A successful unit of work is committed and the commit's answer is returned.</li><li>The whole trace is fixed for each case. A failed transaction start gives `StartSession, StartTransaction, EndSession`. Otherwise the trace is `StartSession, StartTransaction, RunUnitOfWork`, then `AbortTransaction` or `CommitTransaction`, then `EndSession`.</li></ul> |
| ObjectIds.ObjectIdFromHex | repositories/workflow.respository.go:71-75 | Parsing succeeds iff the string has 24 characters, all hex digits. |
| ObjectIds.ParseHex | repositories/workflow.respository.go:107 | Parsing the printed form of an id gives the id back. |
| ObjectIds.HexParse | repositories/workflow.respository.go:71-75 | Printing a parsed id gives the input in lower case. |
| ObjectIds.SameObjectId | repositories/workflow.respository.go:71-75 | Two parseable strings name the same id iff they agree up to letter case. |
| ObjectIds.DecodeEncode | repositories/workflow.respository.go:107 | Hex decoding undoes hex encoding. |
| ObjectIds.EncodeDecode | repositories/workflow.respository.go:71-75 | Hex encoding of a decoded string reproduces it in lower case. |
| ObjectIds.DecodeHexAccepts | repositories/workflow.respository.go:71-75 | An even-length string decodes iff every character is a hex digit. |
| WorkflowRepository.FirstIndexOf | repositories/workflow.respository.go:293-297 | Returns the first index holding a task with the id, or none iff no task has it. |
| WorkflowRepository.ScanForTask | repositories/workflow.respository.go:293-297 | The `for` loop over the tasks finds exactly that first index. |
| WorkflowRepository.PullTask | repositories/workflow.respository.go:483-490 | `$pull` keeps exactly the tasks whose id differs, each as many times as before, and drops every task with the id. It never lengthens the array. |
| WorkflowRepository.PullTaskKeepsOrder | repositories/workflow.respository.go:483-490 | The remaining tasks are a subsequence of the old ones, with their `order` values and relative order intact. Deletion does not renumber. |
| WorkflowRepository.PullTaskKeepsIdsUnique | repositories/workflow.respository.go:483-490 | Pulling keeps task ids unique. |
| WorkflowRepository.PullUnknownId | repositories/workflow.respository.go:483-490 | Pulling an id no task has leaves the array as it was. |
| WorkflowRepository.InsertByOrder | repositories/workflow.respository.go:247-251 | Inserting into the sorted list adds exactly the one task, as a multiset. |
| WorkflowRepository.InsertByOrderSorted | repositories/workflow.respository.go:247-251 | Inserting into a list sorted by `order` keeps it sorted. |
| WorkflowRepository.SortByOrder | repositories/workflow.respository.go:247-251 | The `$sort` stage returns a permutation of the tasks sorted ascending by `order`. |
| WorkflowRepository.MaxOrder | repositories/workflow.respository.go:312-337 | The `$max` of the task orders: none iff there are no tasks, otherwise an order some task has that no task exceeds. |
| WorkflowRepository.FetchByPrintedId | repositories/workflow.respository.go:67-86 | A lookup succeeds iff some stored id prints as the lower-cased argument, and then it returns that workflow. The workflow returned is the stored document `ws[k]`. It fails with "invalid ObjectID format" iff the id does not parse, and otherwise with "workflow does not exist"; a parseable id that fails always fails with "workflow does not exist". |
| WorkflowRepository.CreateWorkflowEffect | repositories/workflow.respository.go:88-110 | <ul><li>An id already in use fails with "failed to create workflow" and changes nothing.</li><li>Otherwise the workflow is stored under the new id, with that id and both timestamps set.</li><li>The printed id is returned and looks the workflow up again.</li><li>Exactly one key is added and other workflows are unchanged.</li></ul> |
| WorkflowRepository.UpdateWorkflowEffect | repositories/workflow.respository.go:112-158 | <ul><li>When the id parses, success iff the workflow exists and its name or `updated_at` actually changes.</li><li>On success only `name` and `updated_at` are written.</li><li>The returned workflow is what a re-read gives.</li><li>Errors are "invalid ObjectID format" or "no workflow was updated" and change nothing.</li><li>Other workflows are unchanged.</li></ul> |
| WorkflowRepository.DeleteWorkflowEffect | repositories/workflow.respository.go:160-187 | A parseable id always succeeds and removes exactly that key, so a later lookup says "workflow does not exist". An unparseable id fails and changes nothing. |
| WorkflowRepository.DeleteWorkflowIdempotent | repositories/workflow.respository.go:171-179 | Deleting twice is the same as deleting once, and the second delete also succeeds. |
| WorkflowRepository.TransferWorkflowEffect | repositories/workflow.respository.go:189-234 | Success iff the workflow exists and the new owner differs from the current one, so a transfer to the current owner fails. Only `owner` is written, not `updated_at`. The error cases change nothing. |
| WorkflowRepository.SortedTasks | repositories/workflow.respository.go:236-274 | Returns a permutation of the workflow's tasks sorted by `order`. "no tasks found" covers both a missing workflow and an empty task array. |
| WorkflowRepository.TaskLookup | repositories/workflow.respository.go:276-300 | <ul><li>The task id format is checked before the workflow is loaded.</li><li>Any lookup failure becomes "workflow does not exist".</li><li>Returns the first task with the id, or "task does not exist" iff none has it.</li></ul> |
| WorkflowRepository.MaxTaskOrder | repositories/workflow.respository.go:302-338 | Fails only on an unparseable id. It is none, with no error, iff the workflow is missing or has no tasks, and otherwise the maximum order. |
| WorkflowRepository.CreateTaskEffect | repositories/workflow.respository.go:340-398 | The task is appended with the new id and both timestamps, and its printed id is returned. The earlier tasks and the other workflows are unchanged. A missing workflow fails with "workflow not found" and changes nothing. |
| WorkflowRepository.UpdateTaskEffect | repositories/workflow.respository.go:400-464 | <ul><li>Success iff the workflow holds a task with the id.</li><li>In the first such task only name, description, status, order and `updated_at` are written.</li><li>The task id and all other tasks are unchanged.</li><li>Otherwise the error is "no task was updated" or "invalid ObjectID format", and nothing changes.</li></ul> |
| WorkflowRepository.DeleteTaskEffect | repositories/workflow.respository.go:466-510 | When both ids parse, success iff the workflow exists, and then every task with the id is pulled. A missing workflow fails with "no task was deleted". |
| WorkflowRepository.DeleteUnknownTaskSucceeds | repositories/workflow.respository.go:483-502 | Deleting a task id the workflow does not hold succeeds and leaves the store as it was. |
| WorkflowRepository.CreateTaskKeepsIdsUnique | repositories/workflow.respository.go:352-362 | Appending a task under an id no task already has keeps task ids unique in every workflow. |
| WorkflowRepository.UpdateTaskKeepsIdsUnique | repositories/workflow.respository.go:420-430 | The positional update keeps task ids unique. |
| WorkflowRepository.DeleteTaskKeepsIdsUnique | repositories/workflow.respository.go:483-490 | The pull keeps task ids unique. |
| WorkflowRepository.WorkflowEntity.FindWorkflowsByUsername | repositories/workflow.respository.go:45-65 | Lists exactly the stored workflows with that owner, each once. |
| WorkflowRepository.WorkflowEntity.FindWorkflowByID | repositories/workflow.respository.go:67-86 | Answers the lookup `Fetch`, whose meaning `FetchByPrintedId` states. |
| WorkflowRepository.WorkflowEntity.CreateWorkflow | repositories/workflow.respository.go:88-110 | The new map and result are those of `CreateWorkflowEffect`, and the key-equals-id invariant holds. |
| WorkflowRepository.WorkflowEntity.UpdateWorkflow | repositories/workflow.respository.go:112-158 | The new map and result are those of `UpdateWorkflowEffect`. |
| WorkflowRepository.WorkflowEntity.DeleteWorkflow | repositories/workflow.respository.go:160-187 | The new map and result are those of `DeleteWorkflowEffect`. |
| WorkflowRepository.WorkflowEntity.TransferWorkflowByID | repositories/workflow.respository.go:189-234 | The new map and result are those of `TransferWorkflowEffect`. |
| WorkflowRepository.WorkflowEntity.FindTasksByWorkflowID | repositories/workflow.respository.go:236-274 | Answers `SortedTasks`. |
| WorkflowRepository.WorkflowEntity.FindTaskByID | repositories/workflow.respository.go:276-300 | Answers `TaskLookup`, with the scan done by a loop. |
| WorkflowRepository.WorkflowEntity.FindMaxTaskOrderByWorkflowID | repositories/workflow.respository.go:302-338 | Answers `MaxTaskOrder`. |
| WorkflowRepository.WorkflowEntity.CreateTaskByWorkflowID | repositories/workflow.respository.go:340-398 | The new map and result are those of `CreateTaskEffect`. |
| WorkflowRepository.WorkflowEntity.UpdateTaskByID | repositories/workflow.respository.go:400-464 | The new map and result are those of `UpdateTaskEffect`. The returned task is found by the scan over the re-read tasks. |
| WorkflowRepository.WorkflowEntity.DeleteTaskByID | repositories/workflow.respository.go:466-510 | The new map and result are those of `DeleteTaskEffect`. |
| UserRepository.UserNamed | repositories/user.repository.go:61-74 | Finds the stored user iff the username is present, and then returns exactly that user. Otherwise it fails with "username does not exist". |
| UserRepository.CreateOneEffect | repositories/user.repository.go:32-59 | <ul><li>A taken username fails with "username already exists" and changes nothing.</li><li>Otherwise the user is stored with that username and password and an empty role, whatever role was requested.</li><li>A later lookup finds them.</li><li>Existing users are unchanged.</li></ul> |
| UserRepository.SecondRegistrationFails | repositories/user.repository.go:41-50 | Registering the same username again fails and leaves the first user in place. |
| UserRepository.UserEntity.FindOneByUsername | repositories/user.repository.go:61-74 | Answers `UserNamed`. |
| UserRepository.UserEntity.CreateOne | repositories/user.repository.go:32-59 | The new map and result are those of `CreateOneEffect`, and the key-equals-username invariant holds. |
| Services.CreateTaskInWorkflow | services/workflow.service.go:119-152 | <ul><li>A failed max-order lookup is returned and nothing is appended.</li><li>Otherwise, success iff the workflow exists.</li><li>The new task is appended last, with the new id, the request's name and description, status "Pending" and timestamps `now`.</li><li>Its order is 1 on an empty workflow, exceeds every existing order, and is one past some existing order.</li></ul> |
| Services.CreationsNumberConsecutively | services/workflow.service.go:127-130 | With no other writer, N creations on a workflow numbered 1..n leave it numbered 1..n+N in creation order. From no tasks that is exactly 1..N. |
| Services.EditTaskCanDuplicateOrders | services/workflow.service.go:154-169 | The edit copies the requested order verbatim. Giving the second task the first task's order succeeds and leaves two tasks with equal order. |
| Services.WorkflowService.GetWorkflows | services/workflow.service.go:27-35 | Lists exactly the caller's workflows, each once. |
| Services.WorkflowService.GetWorkflowByID | services/workflow.service.go:37-45 | Passes the repository lookup on unchanged. |
| Services.WorkflowService.CreateWorkflow | services/workflow.service.go:47-61 | Stores a workflow with the request's name, the caller as owner and no tasks, with the effect of `CreateWorkflowEffect`. |
| Services.WorkflowService.EditWorkflowByID | services/workflow.service.go:63-75 | Forwards only the name, with the effect of `UpdateWorkflowEffect`. |
| Services.WorkflowService.DeleteWorkflowByID | services/workflow.service.go:77-83 | Has the effect of `DeleteWorkflowEffect`, and its result is passed on unchanged. |
| Services.WorkflowService.TransferWorkflowByID | services/workflow.service.go:85-97 | Forwards only the new owner, with the effect of `TransferWorkflowEffect`. |
| Services.WorkflowService.GetTasksByWorkflowID | services/workflow.service.go:99-107 | Passes `SortedTasks` on unchanged. |
| Services.WorkflowService.GetTaskByID | services/workflow.service.go:109-117 | Passes `TaskLookup` on unchanged. |
| Services.WorkflowService.CreateTaskByWorkflowID | services/workflow.service.go:119-152 | Reads the maximum, computes the next order and appends. The effect is `CreateTaskInWorkflow`. |
| Services.WorkflowService.EditTaskByID | services/workflow.service.go:154-169 | Forwards name, description, status and order verbatim, with the effect of `UpdateTaskEffect`. |
| Services.WorkflowService.DeleteTaskByID | services/workflow.service.go:171-177 | Has the effect of `DeleteTaskEffect`, and its result is passed on unchanged. |
| Controllers.GateDecides | controllers/workflow.controller.go:120-129 | <ul><li>A failed lookup of any kind answers "failed to get workflow".</li><li>A refused access check answers "unauthorized".</li><li>The gate passes iff the workflow exists and the caller is its owner, or is an `"admin"` asking for `"delete"`.</li></ul> |
| Controllers.ReadWorkflow | controllers/workflow.controller.go:57-69 | Answers the stored workflow or the service's error verbatim. The caller is not consulted. |
| Controllers.ReadTasks | controllers/workflow.controller.go:239-251 | Answers the sorted tasks or the service's error verbatim, with no access check. |
| Controllers.ReadTask | controllers/workflow.controller.go:264-277 | Answers the task or the service's error verbatim, with no access check. |
| Controllers.ReadsIgnoreOwnership | controllers/workflow.controller.go:57-69 | Any caller reads any stored workflow by its printed id, and likewise its non-empty task list and each of its tasks. |
| Controllers.CreateWorkflowFlow | controllers/workflow.controller.go:82-101 | <ul><li>A body that does not bind answers "Invalid input" and changes nothing.</li><li>Otherwise the caller becomes the owner of a new, empty workflow and gets its id.</li><li>A service error comes back verbatim.</li></ul> |
| Controllers.EditWorkflowFlow | controllers/workflow.controller.go:115-145 | <ul><li>The gate comes first, then binding, then the update.</li><li>Success iff admitted, bound, and the name or timestamp changes. It answers the renamed workflow as stored.</li><li>Every failure leaves the store unchanged, and a failed update answers "no workflow was updated".</li></ul> |
| Controllers.DeleteWorkflowFlow | controllers/workflow.controller.go:158-181 | Success iff the gate admits the caller, and then the workflow is gone. Otherwise the gate's message is returned and nothing changes. |
| Controllers.TransferWorkflowFlow | controllers/workflow.controller.go:195-227 | <ul><li>Gated on `"transfer"`.</li><li>An unknown new owner answers "user does not exist" and changes nothing.</li><li>Success iff the caller owns the workflow and the new owner is another registered user, and then the workflow has the new owner.</li><li>A transfer to oneself answers "no workflow was updated".</li></ul> |
| Controllers.CreateTaskFlow | controllers/workflow.controller.go:291-321 | Success iff the gate admits the caller and the body binds, with the effect of the service's task creation. Otherwise the store is unchanged. |
| Controllers.EditTaskFlow | controllers/workflow.controller.go:336-367 | Gate, then binding. Once both pass, the repository's task update decides, and its error comes back verbatim. |
| Controllers.DeleteTaskFlow | controllers/workflow.controller.go:381-405 | Success iff admitted and the task id parses, and then the tasks with that id are pulled. An unknown task id also succeeds. |
| Controllers.MissingWorkflowStopsEveryMutation | controllers/workflow.controller.go:120-124 | A workflow that cannot be fetched stops all six mutating handlers with "failed to get workflow" and no change, whatever the caller or body. |
| Controllers.StrangerIsTurnedAway | controllers/workflow.controller.go:126-135 | A non-owner who is not `"admin"` gets "unauthorized" from all six mutating handlers and changes nothing. The body is never examined, so an invalid body gets the same answer. |
| Controllers.AdminMayEditButNotTransfer | controllers/workflow.controller.go:126-129 | A non-owner `"admin"` passes the `"delete"` gate: editing is never refused as unauthorised, whatever the body and time, and deleting succeeds (lines 169-172); the transfer gate (lines 207-210) refuses them. |
| Controllers.TransferHandsOverOwnership | controllers/workflow.controller.go:207-226 | The owner can hand the workflow to another registered user. Afterwards the former owner is refused. |
| Controllers.ServiceErrorReachesCaller | controllers/workflow.controller.go:136-140 | An edit that modifies nothing answers the repository's "no workflow was updated" verbatim. |
| Controllers.OwnerAppendsTask | controllers/workflow.controller.go:291-321 | When the owner posts a task with a binding body, it is appended with the next order (one past the maximum, or 1) and status "Pending", and its id is answered. |
| Controllers.LaunchScenario | controllers/workflow.controller.go:82-101 | Through the handlers, "Launch" is created, then "Design" and "Build" are added. The tasks are numbered 1 and 2 and listed in that order. |
| Controllers.WorkflowController.GetWorkflows | controllers/workflow.controller.go:33-45 | Always succeeds, with exactly the caller's own workflows, each once. |
| Controllers.WorkflowController.GetWorkflow | controllers/workflow.controller.go:57-69 | Answers `ReadWorkflow`. |
| Controllers.WorkflowController.CreateWorkflow | controllers/workflow.controller.go:82-101 | The new map and response are those of `CreateWorkflowFlow`. |
| Controllers.WorkflowController.EditWorkflow | controllers/workflow.controller.go:115-145 | The new map and response are those of `EditWorkflowFlow`. |
| Controllers.WorkflowController.DeleteWorkflow | controllers/workflow.controller.go:158-181 | The new map and response are those of `DeleteWorkflowFlow`. |
| Controllers.WorkflowController.TransferWorkflow | controllers/workflow.controller.go:195-227 | The new map and response are those of `TransferWorkflowFlow`, checked against the users collection. |
| Controllers.WorkflowController.GetTasks | controllers/workflow.controller.go:239-251 | Answers `ReadTasks`. |
| Controllers.WorkflowController.GetTask | controllers/workflow.controller.go:264-277 | Answers `ReadTask`. |
| Controllers.WorkflowController.CreateTask | controllers/workflow.controller.go:291-321 | The new map and response are those of `CreateTaskFlow`. |
| Controllers.WorkflowController.EditTask | controllers/workflow.controller.go:336-367 | The new map and response are those of `EditTaskFlow`. |
| Controllers.WorkflowController.DeleteTask | controllers/workflow.controller.go:381-405 | The new map and response are those of `DeleteTaskFlow`. |

## Left out

- Store and driver failures are not modelled. That covers cursor, decode, insert and update errors ("failed to retrieve workflows", "failed to update workflow", "internal Server Error", "failed to create user" and the like), I/O that cannot fail in a sequential in-memory map.
- Failed re-reads after a write ("failed to retrieve updated workflow", "no task was created") are unreachable in a sequential model, so they are not modelled.
- A task missing from the re-read after `UpdateTaskByID` cannot happen either.
- `int32` conversion of the `$max` result: the type assertion at repositories/workflow.respository.go:335 panics when the maximum is not stored as a 32-bit integer. The model assumes it is, so `MaxTaskOrder` never fails after the format check.
- `int` overflow of `order` and of `max + 1`: the model uses unbounded integers.
- Services.WorkflowService.CreateTaskByWorkflowID: runs its unit of work directly rather than through `WithTransaction`. Session, start and commit failures of the driver are therefore not modelled here, and neither is the rollback they would not perform anyway. `WithTransaction` is modelled separately.
- Concurrency between requests, and the race between reading the maximum order and appending, are not modelled. Each request is one sequential step.
- `common.BaseModel` is not part of this model. The timestamps are a `Time` value the caller passes in. `SetCreatedAt`/`SetUpdatedAt` are taken to write exactly that value.
- JSON decoding, the Gin context, `MustGet("user")` and the JSON envelope of `responses` are not modelled. The handlers take the decoded principal and an `Option` of the decoded body, and return the message or the data.
- Route registration: the router registers no `DELETE` route for tasks, so `WorkflowController.DeleteTask` is modelled but not reachable over HTTP.
- `services/user.service.go`: `GetUsersByUsername` replaces the lookup error with "failed to get user". The transfer handler in turn replaces that with "user does not exist", so the model calls `FindOneByUsername` directly. Password hashing, JWT and Redis are foreign calls and are left out.
- `ObjectIDFromHex` is modelled as 24 hex digits of either case. `primitive.NewObjectID` is a fresh-id parameter.
- Logging is left out.
