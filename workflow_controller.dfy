/** `WorkflowController`: the HTTP handlers of the workflow routes. Each mutating handler is an
    early-return pipeline: look the workflow up, check the caller's access, bind the JSON body,
    call the service, and answer with the first error met or with the service's data. */
module Controllers {
  import opened Results
  import opened ObjectIds
  import opened Models
  import opened Requests
  import opened WorkflowRepository
  import opened UserRepository
  import opened Services

  const FailedToGetWorkflow: string := "failed to get workflow"
  const Unauthorized: string := "unauthorized"
  const InvalidInput: string := "Invalid input"
  const UserDoesNotExist: string := "user does not exist"

  /** What an `OK` response carries under its data key. */
  datatype Payload =
    | NoData
    | WorkflowsData(workflows: seq<Workflow>)
    | WorkflowData(workflow: Workflow)
    | WorkflowIdData(workflowId: string)
    | TasksData(tasks: seq<Task>)
    | TaskData(task: Task)
    | TaskIdData(taskId: string)

  /** `responses.OkWithData` / `responses.Ok`, or `responses.Error` with its message. */
  datatype Response = Success(data: Payload) | Failure(message: string)

  /** The first two steps of every mutating handler: a lookup that fails for any reason answers
      "failed to get workflow" (the service's own message is dropped), and a workflow the caller
      may not act on answers "unauthorized". */
  function Gate(ws: Store, user: JWTUser, workflowId: string, action: UserAction): Option<string> {
    match Fetch(ws, workflowId)
    case Err(_) => Some(FailedToGetWorkflow)
    case Ok(w) => if CheckWorkflowAccess(w, user, action) then None else Some(Unauthorized)
  }

  /** The caller passes the gate: the workflow exists and the access check admits them. */
  ghost predicate Admitted(ws: Store, user: JWTUser, workflowId: string, action: UserAction) {
    Fetch(ws, workflowId).Ok? && CheckWorkflowAccess(Fetch(ws, workflowId).value, user, action)
  }

  /** The gate answers exactly as its definition says, and lets through exactly the owner, or an
      "admin" for "delete". */
  lemma GateDecides(ws: Store, user: JWTUser, workflowId: string, action: UserAction)
    ensures Gate(ws, user, workflowId, action).None? <==> Admitted(ws, user, workflowId, action)
    ensures Fetch(ws, workflowId).Err? ==> Gate(ws, user, workflowId, action) == Some(FailedToGetWorkflow)
    ensures Fetch(ws, workflowId).Ok? && !Admitted(ws, user, workflowId, action) ==>
      Gate(ws, user, workflowId, action) == Some(Unauthorized)
    ensures Admitted(ws, user, workflowId, action) <==>
      Fetch(ws, workflowId).Ok? &&
      (Fetch(ws, workflowId).value.owner == user.username || (action == "delete" && user.role == "admin"))
  {
  }

  /** `GetWorkflow`: no access check; the service's error is the answer. */
  function ReadWorkflow(ws: Store, workflowId: string): (r: Response)
    ensures r.Success? <==> Fetch(ws, workflowId).Ok?
    ensures r.Success? ==> r.data == WorkflowData(Fetch(ws, workflowId).value)
    ensures r.Failure? ==> r.message == Fetch(ws, workflowId).error
  {
    match Fetch(ws, workflowId)
    case Err(e) => Failure(e)
    case Ok(w) => Success(WorkflowData(w))
  }

  /** `GetTasks`: no access check; the tasks come sorted by order. */
  function ReadTasks(ws: Store, workflowId: string): (r: Response)
    ensures r.Success? <==> SortedTasks(ws, workflowId).Ok?
    ensures r.Success? ==> r.data == TasksData(SortedTasks(ws, workflowId).value)
    ensures r.Failure? ==> r.message == SortedTasks(ws, workflowId).error
  {
    match SortedTasks(ws, workflowId)
    case Err(e) => Failure(e)
    case Ok(tasks) => Success(TasksData(tasks))
  }

  /** `GetTask`: no access check. */
  function ReadTask(ws: Store, workflowId: string, taskId: string): (r: Response)
    ensures r.Success? <==> TaskLookup(ws, workflowId, taskId).Ok?
    ensures r.Success? ==> r.data == TaskData(TaskLookup(ws, workflowId, taskId).value)
    ensures r.Failure? ==> r.message == TaskLookup(ws, workflowId, taskId).error
  {
    match TaskLookup(ws, workflowId, taskId)
    case Err(e) => Failure(e)
    case Ok(t) => Success(TaskData(t))
  }

  /** Any authenticated caller reads any stored workflow, and its tasks when it has some, by the
      printed id: the read handlers look at neither the owner nor the role. */
  lemma ReadsIgnoreOwnership(ws: Store, k: ObjectId)
    requires WellFormed(ws) && k in ws
    ensures ReadWorkflow(ws, Hex(k)) == Success(WorkflowData(ws[k]))
    ensures ws[k].tasks != [] ==> ReadTasks(ws, Hex(k)).Success?
    ensures forall t :: t in ws[k].tasks ==> ReadTask(ws, Hex(k), Hex(t.id)).Success?
  {
    ParseHex(k);
    forall t | t in ws[k].tasks
      ensures ReadTask(ws, Hex(k), Hex(t.id)).Success?
    {
      ParseHex(t.id);
      var i :| 0 <= i < |ws[k].tasks| && ws[k].tasks[i] == t;
      assert ws[k].tasks[i].id == t.id;
    }
  }

  /** `CreateWorkflow`: no workflow to check; the caller becomes the owner. */
  function CreateWorkflowFlow(ws: Store, user: JWTUser, body: Option<CreateWorkflowRequest>, newId: ObjectId, now: Time): (r: (Store, Response))
    ensures r.1.Failure? ==> r.0 == ws
    ensures !CreateWorkflowBinds(body) ==> r.1 == Failure(InvalidInput)
    ensures r.1.Success? <==> CreateWorkflowBinds(body) && newId !in ws
    ensures CreateWorkflowBinds(body) && newId in ws ==> r.1 == Failure(FailedToCreateWorkflow)
    ensures r.1.Success? ==>
      && r.1.data == WorkflowIdData(Hex(newId))
      && Fetch(r.0, Hex(newId)) == Ok(Workflow(newId, body.value.name, [], user.username, now, now))
      && r.0.Keys == ws.Keys + {newId}
    ensures OthersUnchanged(ws, r.0, None)
  {
    if !CreateWorkflowBinds(body) then (ws, Failure(InvalidInput))
    else
      var (ws', res) := CreateWorkflowEffect(ws, NewWorkflow(user.username, body.value), newId, now);
      match res
      case Err(e) => (ws', Failure(e))
      case Ok(id) => (ws', Success(WorkflowIdData(id)))
  }

  /** `EditWorkflow`: gated on "delete"; only the name is taken from the body. */
  function EditWorkflowFlow(ws: Store, user: JWTUser, workflowId: string, body: Option<EditWorkflowRequest>, now: Time): (r: (Store, Response))
    ensures r.1.Failure? ==> r.0 == ws
    ensures !Admitted(ws, user, workflowId, "delete") ==> r.1 == Failure(Gate(ws, user, workflowId, "delete").value)
    ensures Admitted(ws, user, workflowId, "delete") && !EditWorkflowBinds(body) ==> r.1 == Failure(InvalidInput)
    ensures r.1.Success? <==>
      Admitted(ws, user, workflowId, "delete") && EditWorkflowBinds(body) &&
      (Fetch(ws, workflowId).value.name != body.value.name || Fetch(ws, workflowId).value.updatedAt != now)
    ensures Admitted(ws, user, workflowId, "delete") && EditWorkflowBinds(body) && r.1.Failure? ==>
      r.1.message == NoWorkflowUpdated
    ensures r.1.Success? ==>
      var renamed := Fetch(ws, workflowId).value.(name := body.value.name, updatedAt := now);
      r.1.data == WorkflowData(renamed) && Fetch(r.0, workflowId) == Ok(renamed)
    ensures r.0.Keys == ws.Keys
    ensures OthersUnchanged(ws, r.0, ObjectIdFromHex(workflowId))
  {
    match Gate(ws, user, workflowId, "delete")
    case Some(e) => (ws, Failure(e))
    case None =>
      if !EditWorkflowBinds(body) then (ws, Failure(InvalidInput))
      else
        var (ws', res) := UpdateWorkflowEffect(ws, workflowId, body.value.name, now);
        match res
        case Err(e) => (ws', Failure(e))
        case Ok(w) => (ws', Success(WorkflowData(w)))
  }

  /** `DeleteWorkflow`: gated on "delete"; once admitted it always succeeds. */
  function DeleteWorkflowFlow(ws: Store, user: JWTUser, workflowId: string): (r: (Store, Response))
    ensures r.1.Failure? ==> r.0 == ws
    ensures !Admitted(ws, user, workflowId, "delete") ==> r.1 == Failure(Gate(ws, user, workflowId, "delete").value)
    ensures r.1.Success? <==> Admitted(ws, user, workflowId, "delete")
    ensures r.1.Success? ==>
      && r.1.data == NoData
      && Fetch(r.0, workflowId) == Err(WorkflowDoesNotExist)
      && r.0.Keys == ws.Keys - {ObjectIdFromHex(workflowId).value}
    ensures OthersUnchanged(ws, r.0, ObjectIdFromHex(workflowId))
  {
    match Gate(ws, user, workflowId, "delete")
    case Some(e) => (ws, Failure(e))
    case None =>
      var (ws', res) := DeleteWorkflowEffect(ws, workflowId);
      match res
      case Fail(e) => (ws', Failure(e))
      case Pass => (ws', Success(NoData))
  }

  /** `TransferWorkflow`: gated on "transfer", then the new owner must be a registered user. */
  function TransferWorkflowFlow(ws: Store, users: Users, user: JWTUser, workflowId: string, newOwner: string): (r: (Store, Response))
    ensures r.1.Failure? ==> r.0 == ws
    ensures !Admitted(ws, user, workflowId, "transfer") ==> r.1 == Failure(Gate(ws, user, workflowId, "transfer").value)
    ensures Admitted(ws, user, workflowId, "transfer") && newOwner !in users ==> r.1 == Failure(UserDoesNotExist)
    ensures r.1.Success? <==>
      Admitted(ws, user, workflowId, "transfer") && newOwner in users && newOwner != user.username
    ensures Admitted(ws, user, workflowId, "transfer") && newOwner in users && newOwner == user.username ==>
      r.1 == Failure(NoWorkflowUpdated)
    ensures r.1.Success? ==>
      var moved := Fetch(ws, workflowId).value.(owner := newOwner);
      r.1.data == WorkflowData(moved) && Fetch(r.0, workflowId) == Ok(moved)
    ensures r.0.Keys == ws.Keys
    ensures OthersUnchanged(ws, r.0, ObjectIdFromHex(workflowId))
  {
    match Gate(ws, user, workflowId, "transfer")
    case Some(e) => (ws, Failure(e))
    case None =>
      if UserNamed(users, newOwner).Err? then (ws, Failure(UserDoesNotExist))
      else
        var (ws', res) := TransferWorkflowEffect(ws, workflowId, newOwner);
        match res
        case Err(e) => (ws', Failure(e))
        case Ok(w) => (ws', Success(WorkflowData(w)))
  }

  /** `CreateTask`: gated on "delete"; the service numbers the task. */
  function CreateTaskFlow(ws: Store, user: JWTUser, workflowId: string, body: Option<CreateTaskRequest>, newId: ObjectId, now: Time): (r: (Store, Response))
    ensures r.1.Failure? ==> r.0 == ws
    ensures !Admitted(ws, user, workflowId, "delete") ==> r.1 == Failure(Gate(ws, user, workflowId, "delete").value)
    ensures Admitted(ws, user, workflowId, "delete") && !CreateTaskBinds(body) ==> r.1 == Failure(InvalidInput)
    ensures r.1.Success? <==> Admitted(ws, user, workflowId, "delete") && CreateTaskBinds(body)
    ensures r.1.Success? ==>
      && r.1.data == TaskIdData(Hex(newId))
      && (r.0, Ok(Hex(newId))) == CreateTaskInWorkflow(ws, workflowId, body.value, newId, now)
    ensures r.0.Keys == ws.Keys
    ensures OthersUnchanged(ws, r.0, ObjectIdFromHex(workflowId))
  {
    match Gate(ws, user, workflowId, "delete")
    case Some(e) => (ws, Failure(e))
    case None =>
      if !CreateTaskBinds(body) then (ws, Failure(InvalidInput))
      else
        var (ws', res) := CreateTaskInWorkflow(ws, workflowId, body.value, newId, now);
        match res
        case Err(e) => (ws', Failure(e))
        case Ok(id) => (ws', Success(TaskIdData(id)))
  }

  /** `EditTask`: gated on "delete"; the four fields of the body are written verbatim. */
  function EditTaskFlow(ws: Store, user: JWTUser, workflowId: string, taskId: string, body: Option<EditTaskRequest>, now: Time): (r: (Store, Response))
    ensures r.1.Failure? ==> r.0 == ws
    ensures !Admitted(ws, user, workflowId, "delete") ==> r.1 == Failure(Gate(ws, user, workflowId, "delete").value)
    ensures Admitted(ws, user, workflowId, "delete") && !EditTaskBinds(body) ==> r.1 == Failure(InvalidInput)
    ensures Admitted(ws, user, workflowId, "delete") && EditTaskBinds(body) ==>
      var res := UpdateTaskEffect(ws, workflowId, taskId, TaskPatch(body.value), now);
      && r.0 == res.0
      && (r.1.Success? <==> res.1.Ok?)
      && (r.1.Success? ==> r.1.data == TaskData(res.1.value))
      && (r.1.Failure? ==> r.1.message == res.1.error)
    ensures r.1.Success? ==> Admitted(ws, user, workflowId, "delete") && EditTaskBinds(body)
    ensures r.0.Keys == ws.Keys
    ensures OthersUnchanged(ws, r.0, ObjectIdFromHex(workflowId))
  {
    match Gate(ws, user, workflowId, "delete")
    case Some(e) => (ws, Failure(e))
    case None =>
      if !EditTaskBinds(body) then (ws, Failure(InvalidInput))
      else
        var (ws', res) := UpdateTaskEffect(ws, workflowId, taskId, TaskPatch(body.value), now);
        match res
        case Err(e) => (ws', Failure(e))
        case Ok(t) => (ws', Success(TaskData(t)))
  }

  /** `DeleteTask`: gated on "delete"; a task id that names no task still succeeds. */
  function DeleteTaskFlow(ws: Store, user: JWTUser, workflowId: string, taskId: string): (r: (Store, Response))
    ensures r.1.Failure? ==> r.0 == ws
    ensures !Admitted(ws, user, workflowId, "delete") ==> r.1 == Failure(Gate(ws, user, workflowId, "delete").value)
    ensures r.1.Success? <==> Admitted(ws, user, workflowId, "delete") && ObjectIdFromHex(taskId).Some?
    ensures Admitted(ws, user, workflowId, "delete") && ObjectIdFromHex(taskId).None? ==>
      r.1 == Failure(InvalidObjectIdFormat)
    ensures r.1.Success? ==>
      var w := Fetch(ws, workflowId).value;
      r.1.data == NoData && Fetch(r.0, workflowId) == Ok(w.(tasks := PullTask(w.tasks, ObjectIdFromHex(taskId).value)))
    ensures r.0.Keys == ws.Keys
    ensures OthersUnchanged(ws, r.0, ObjectIdFromHex(workflowId))
  {
    match Gate(ws, user, workflowId, "delete")
    case Some(e) => (ws, Failure(e))
    case None =>
      var (ws', res) := DeleteTaskEffect(ws, workflowId, taskId);
      match res
      case Fail(e) => (ws', Failure(e))
      case Pass => (ws', Success(NoData))
  }

  /** A missing workflow, or an id that does not parse, stops every mutating handler at its first
      step with "failed to get workflow", whatever the caller and the body. */
  lemma MissingWorkflowStopsEveryMutation(ws: Store, users: Users, user: JWTUser, workflowId: string, taskId: string,
                                          editWorkflow: Option<EditWorkflowRequest>, createTask: Option<CreateTaskRequest>,
                                          editTask: Option<EditTaskRequest>, newOwner: string, newId: ObjectId, now: Time)
    requires Fetch(ws, workflowId).Err?
    ensures EditWorkflowFlow(ws, user, workflowId, editWorkflow, now) == (ws, Failure(FailedToGetWorkflow))
    ensures DeleteWorkflowFlow(ws, user, workflowId) == (ws, Failure(FailedToGetWorkflow))
    ensures TransferWorkflowFlow(ws, users, user, workflowId, newOwner) == (ws, Failure(FailedToGetWorkflow))
    ensures CreateTaskFlow(ws, user, workflowId, createTask, newId, now) == (ws, Failure(FailedToGetWorkflow))
    ensures EditTaskFlow(ws, user, workflowId, taskId, editTask, now) == (ws, Failure(FailedToGetWorkflow))
    ensures DeleteTaskFlow(ws, user, workflowId, taskId) == (ws, Failure(FailedToGetWorkflow))
  {
  }

  /** A caller who neither owns the workflow nor has the "admin" role gets "unauthorized" from
      every mutating handler and changes nothing; the body is not looked at, so an invalid one
      gets the same answer. */
  lemma StrangerIsTurnedAway(ws: Store, users: Users, user: JWTUser, workflowId: string, taskId: string,
                             editWorkflow: Option<EditWorkflowRequest>, createTask: Option<CreateTaskRequest>,
                             editTask: Option<EditTaskRequest>, newOwner: string, newId: ObjectId, now: Time)
    requires Fetch(ws, workflowId).Ok?
    requires Fetch(ws, workflowId).value.owner != user.username && user.role != "admin"
    ensures EditWorkflowFlow(ws, user, workflowId, editWorkflow, now) == (ws, Failure(Unauthorized))
    ensures DeleteWorkflowFlow(ws, user, workflowId) == (ws, Failure(Unauthorized))
    ensures TransferWorkflowFlow(ws, users, user, workflowId, newOwner) == (ws, Failure(Unauthorized))
    ensures CreateTaskFlow(ws, user, workflowId, createTask, newId, now) == (ws, Failure(Unauthorized))
    ensures EditTaskFlow(ws, user, workflowId, taskId, editTask, now) == (ws, Failure(Unauthorized))
    ensures DeleteTaskFlow(ws, user, workflowId, taskId) == (ws, Failure(Unauthorized))
  {
    NonOwnerAccess(Fetch(ws, workflowId).value, user);
  }

  /** An "admin" who is not the owner passes the gate of the edit, delete and task handlers but
      is refused the transfer. */
  lemma AdminMayEditButNotTransfer(ws: Store, users: Users, user: JWTUser, workflowId: string, newOwner: string)
    requires Fetch(ws, workflowId).Ok?
    requires Fetch(ws, workflowId).value.owner != user.username && user.role == "admin"
    ensures Admitted(ws, user, workflowId, "delete")
    ensures forall body, now :: EditWorkflowFlow(ws, user, workflowId, body, now).1 != Failure(Unauthorized)
    ensures DeleteWorkflowFlow(ws, user, workflowId).1 == Success(NoData)
    ensures TransferWorkflowFlow(ws, users, user, workflowId, newOwner) == (ws, Failure(Unauthorized))
  {
  }

  /** The owner can hand a workflow to any other registered user, who then owns it; the former
      owner, no longer the owner, is refused a second transfer. */
  lemma TransferHandsOverOwnership(ws: Store, users: Users, user: JWTUser, workflowId: string, newOwner: string, again: string)
    requires Fetch(ws, workflowId).Ok? && Fetch(ws, workflowId).value.owner == user.username
    requires newOwner in users && newOwner != user.username
    ensures var (ws', resp) := TransferWorkflowFlow(ws, users, user, workflowId, newOwner);
      && resp.Success?
      && Fetch(ws', workflowId).value.owner == newOwner
      && TransferWorkflowFlow(ws', users, user, workflowId, again) == (ws', Failure(Unauthorized))
  {
  }

  /** A service error reaches the caller verbatim: an owner who renames a workflow to its current
      name at the instant of its last update is told "no workflow updated". */
  lemma ServiceErrorReachesCaller(ws: Store, user: JWTUser, workflowId: string, body: Option<EditWorkflowRequest>)
    requires Fetch(ws, workflowId).Ok? && Fetch(ws, workflowId).value.owner == user.username
    requires body == Some(EditWorkflowRequest(Fetch(ws, workflowId).value.name))
    requires NameBinds(Fetch(ws, workflowId).value.name)
    ensures EditWorkflowFlow(ws, user, workflowId, body, Fetch(ws, workflowId).value.updatedAt) ==
      (ws, Failure(NoWorkflowUpdated))
  {
  }

  /** Through the handler, the owner of a workflow appends a task with a binding body: it is
      numbered one past the current maximum, or 1 on an empty workflow. */
  lemma OwnerAppendsTask(ws: Store, owner: JWTUser, workflowId: string, req: CreateTaskRequest, newId: ObjectId, now: Time)
    requires Fetch(ws, workflowId).Ok? && Fetch(ws, workflowId).value.owner == owner.username
    requires NameBinds(req.name)
    ensures var w := Fetch(ws, workflowId).value;
      var (ws', resp) := CreateTaskFlow(ws, owner, workflowId, Some(req), newId, now);
      && resp == Success(TaskIdData(Hex(newId)))
      && Fetch(ws', workflowId) ==
         Ok(w.(tasks := w.tasks + [Task(newId, req.name, req.description, Pending, NextOrder(MaxOrder(w.tasks)), now, now)]))
  {
    var w := Fetch(ws, workflowId).value;
    var (ws', resp) := CreateTaskFlow(ws, owner, workflowId, Some(req), newId, now);
    assert MaxTaskOrder(ws, workflowId) == Ok(MaxOrder(w.tasks));
  }

  /** Through the handlers: "alice" creates workflow "Launch", then tasks "Design" and "Build" on
      it; they are numbered 1 and 2 and listed in that order. */
  lemma LaunchScenario(ws: Store, alice: JWTUser, w: ObjectId, t1: ObjectId, t2: ObjectId, now: Time)
    requires w !in ws
    ensures var (ws1, r1) := CreateWorkflowFlow(ws, alice, Some(CreateWorkflowRequest("Launch")), w, now);
      var (ws2, r2) := CreateTaskFlow(ws1, alice, Hex(w), Some(CreateTaskRequest("Design", "spec")), t1, now);
      var (ws3, r3) := CreateTaskFlow(ws2, alice, Hex(w), Some(CreateTaskRequest("Build", "")), t2, now);
      && r1 == Success(WorkflowIdData(Hex(w)))
      && r2 == Success(TaskIdData(Hex(t1)))
      && r3 == Success(TaskIdData(Hex(t2)))
      && ReadTasks(ws3, Hex(w)) == Success(TasksData([
           Task(t1, "Design", "spec", Pending, 1, now, now),
           Task(t2, "Build", "", Pending, 2, now, now)]))
  {
    ParseHex(w);
    var launch := Workflow(w, "Launch", [], alice.username, now, now);
    var design := Task(t1, "Design", "spec", Pending, 1, now, now);
    var build := Task(t2, "Build", "", Pending, 2, now, now);
    var (ws1, r1) := CreateWorkflowFlow(ws, alice, Some(CreateWorkflowRequest("Launch")), w, now);
    assert Fetch(ws1, Hex(w)) == Ok(launch);
    var (ws2, r2) := CreateTaskFlow(ws1, alice, Hex(w), Some(CreateTaskRequest("Design", "spec")), t1, now);
    OwnerAppendsTask(ws1, alice, Hex(w), CreateTaskRequest("Design", "spec"), t1, now);
    assert Fetch(ws2, Hex(w)) == Ok(launch.(tasks := [design]));
    var (ws3, r3) := CreateTaskFlow(ws2, alice, Hex(w), Some(CreateTaskRequest("Build", "")), t2, now);
    OwnerAppendsTask(ws2, alice, Hex(w), CreateTaskRequest("Build", ""), t2, now);
    assert MaxOrder([design]) == Some(1) && NextOrder(Some(1)) == 2;
    assert [design] + [build] == [design, build];
    assert Fetch(ws3, Hex(w)) == Ok(launch.(tasks := [design, build]));
    assert SortByOrder([design, build]) == [design, build] by {
      assert SortByOrder([build]) == [build];
    }
    assert SortedTasks(ws3, Hex(w)) == Ok([design, build]);
  }

  class WorkflowController {
    const workflowService: WorkflowService
    const userEntity: UserEntity

    ghost predicate Valid()
      reads this, workflowService, workflowService.workflowEntity, userEntity
    {
      workflowService.Valid() && userEntity.Valid()
    }

    constructor (service: WorkflowService, users: UserEntity)
      ensures workflowService == service && userEntity == users
    {
      workflowService := service;
      userEntity := users;
    }

    /** Lists the caller's own workflows; the service never fails here. */
    method GetWorkflows(user: JWTUser) returns (resp: Response)
      requires Valid()
      ensures resp.Success? && resp.data.WorkflowsData?
      ensures forall w :: w in resp.data.workflows <==>
        w in workflowService.workflowEntity.workflows.Values && w.owner == user.username
    ensures forall i, j :: 0 <= i < j < |resp.data.workflows| ==>
        resp.data.workflows[i].id != resp.data.workflows[j].id
    {
      var workflows := workflowService.GetWorkflows(user.username);
      resp := Success(WorkflowsData(workflows));
    }

    method GetWorkflow(workflowId: string) returns (resp: Response)
      ensures resp == ReadWorkflow(workflowService.workflowEntity.workflows, workflowId)
    {
      var workflow := workflowService.GetWorkflowByID(workflowId);
      if workflow.Err? {
        return Failure(workflow.error);
      }
      resp := Success(WorkflowData(workflow.value));
    }

    method CreateWorkflow(user: JWTUser, body: Option<CreateWorkflowRequest>, newId: ObjectId, now: Time) returns (resp: Response)
      requires Valid()
      modifies workflowService.workflowEntity
      ensures Valid()
      ensures (workflowService.workflowEntity.workflows, resp) ==
        CreateWorkflowFlow(old(workflowService.workflowEntity.workflows), user, body, newId, now)
    {
      if !CreateWorkflowBinds(body) {
        return Failure(InvalidInput);
      }
      var insertedId := workflowService.CreateWorkflow(user.username, body.value, newId, now);
      if insertedId.Err? {
        return Failure(insertedId.error);
      }
      resp := Success(WorkflowIdData(insertedId.value));
    }

    method EditWorkflow(user: JWTUser, workflowId: string, body: Option<EditWorkflowRequest>, now: Time) returns (resp: Response)
      requires Valid()
      modifies workflowService.workflowEntity
      ensures Valid()
      ensures (workflowService.workflowEntity.workflows, resp) ==
        EditWorkflowFlow(old(workflowService.workflowEntity.workflows), user, workflowId, body, now)
    {
      var workflow := workflowService.GetWorkflowByID(workflowId);
      if workflow.Err? {
        return Failure(FailedToGetWorkflow);
      }
      if !CheckWorkflowAccess(workflow.value, user, "delete") {
        return Failure(Unauthorized);
      }
      if !EditWorkflowBinds(body) {
        return Failure(InvalidInput);
      }
      var updated := workflowService.EditWorkflowByID(workflowId, body.value, now);
      if updated.Err? {
        return Failure(updated.error);
      }
      resp := Success(WorkflowData(updated.value));
    }

    method DeleteWorkflow(user: JWTUser, workflowId: string) returns (resp: Response)
      requires Valid()
      modifies workflowService.workflowEntity
      ensures Valid()
      ensures (workflowService.workflowEntity.workflows, resp) ==
        DeleteWorkflowFlow(old(workflowService.workflowEntity.workflows), user, workflowId)
    {
      var workflow := workflowService.GetWorkflowByID(workflowId);
      if workflow.Err? {
        return Failure(FailedToGetWorkflow);
      }
      if !CheckWorkflowAccess(workflow.value, user, "delete") {
        return Failure(Unauthorized);
      }
      var err := workflowService.DeleteWorkflowByID(workflowId);
      match err
      case Fail(message) => resp := Failure(message);
      case Pass => resp := Success(NoData);
    }

    /** The new owner is looked up in the users collection, which is only read. */
    method TransferWorkflow(user: JWTUser, workflowId: string, newOwner: string) returns (resp: Response)
      requires Valid()
      modifies workflowService.workflowEntity
      ensures Valid()
      ensures (workflowService.workflowEntity.workflows, resp) ==
        TransferWorkflowFlow(old(workflowService.workflowEntity.workflows), userEntity.users, user, workflowId, newOwner)
    {
      var workflow := workflowService.GetWorkflowByID(workflowId);
      if workflow.Err? {
        return Failure(FailedToGetWorkflow);
      }
      if !CheckWorkflowAccess(workflow.value, user, "transfer") {
        return Failure(Unauthorized);
      }
      var owner := userEntity.FindOneByUsername(newOwner);
      if owner.Err? {
        return Failure(UserDoesNotExist);
      }
      var transferred := workflowService.TransferWorkflowByID(workflowId, newOwner);
      if transferred.Err? {
        return Failure(transferred.error);
      }
      resp := Success(WorkflowData(transferred.value));
    }

    method GetTasks(workflowId: string) returns (resp: Response)
      ensures resp == ReadTasks(workflowService.workflowEntity.workflows, workflowId)
    {
      var tasks := workflowService.GetTasksByWorkflowID(workflowId);
      if tasks.Err? {
        return Failure(tasks.error);
      }
      resp := Success(TasksData(tasks.value));
    }

    method GetTask(workflowId: string, taskId: string) returns (resp: Response)
      ensures resp == ReadTask(workflowService.workflowEntity.workflows, workflowId, taskId)
    {
      var task := workflowService.GetTaskByID(workflowId, taskId);
      if task.Err? {
        return Failure(task.error);
      }
      resp := Success(TaskData(task.value));
    }

    method CreateTask(user: JWTUser, workflowId: string, body: Option<CreateTaskRequest>, newId: ObjectId, now: Time) returns (resp: Response)
      requires Valid()
      modifies workflowService.workflowEntity
      ensures Valid()
      ensures (workflowService.workflowEntity.workflows, resp) ==
        CreateTaskFlow(old(workflowService.workflowEntity.workflows), user, workflowId, body, newId, now)
    {
      var workflow := workflowService.GetWorkflowByID(workflowId);
      if workflow.Err? {
        return Failure(FailedToGetWorkflow);
      }
      if !CheckWorkflowAccess(workflow.value, user, "delete") {
        return Failure(Unauthorized);
      }
      if !CreateTaskBinds(body) {
        return Failure(InvalidInput);
      }
      var createdTaskId := workflowService.CreateTaskByWorkflowID(workflowId, body.value, newId, now);
      match createdTaskId
      case Err(message) => resp := Failure(message);
      case Ok(id) => resp := Success(TaskIdData(id));
    }

    method EditTask(user: JWTUser, workflowId: string, taskId: string, body: Option<EditTaskRequest>, now: Time) returns (resp: Response)
      requires Valid()
      modifies workflowService.workflowEntity
      ensures Valid()
      ensures (workflowService.workflowEntity.workflows, resp) ==
        EditTaskFlow(old(workflowService.workflowEntity.workflows), user, workflowId, taskId, body, now)
    {
      var workflow := workflowService.GetWorkflowByID(workflowId);
      if workflow.Err? {
        return Failure(FailedToGetWorkflow);
      }
      if !CheckWorkflowAccess(workflow.value, user, "delete") {
        return Failure(Unauthorized);
      }
      if !EditTaskBinds(body) {
        return Failure(InvalidInput);
      }
      var task := workflowService.EditTaskByID(workflowId, taskId, body.value, now);
      if task.Err? {
        return Failure(task.error);
      }
      resp := Success(TaskData(task.value));
    }

    method DeleteTask(user: JWTUser, workflowId: string, taskId: string) returns (resp: Response)
      requires Valid()
      modifies workflowService.workflowEntity
      ensures Valid()
      ensures (workflowService.workflowEntity.workflows, resp) ==
        DeleteTaskFlow(old(workflowService.workflowEntity.workflows), user, workflowId, taskId)
    {
      var workflow := workflowService.GetWorkflowByID(workflowId);
      if workflow.Err? {
        return Failure(FailedToGetWorkflow);
      }
      if !CheckWorkflowAccess(workflow.value, user, "delete") {
        return Failure(Unauthorized);
      }
      var err := workflowService.DeleteTaskByID(workflowId, taskId);
      match err
      case Fail(message) => resp := Failure(message);
      case Pass => resp := Success(NoData);
    }
  }
}
