/** `WorkflowService`: builds the models the repository stores from the request payloads,
    assigns each new task its order, and hands every repository error back unchanged. */
module Services {
  import opened Results
  import opened ObjectIds
  import opened Models
  import opened Requests
  import opened WorkflowRepository

  /** The workflow `CreateWorkflow` builds: the request's name, the caller as owner, no tasks. */
  function NewWorkflow(username: string, req: CreateWorkflowRequest): Workflow {
    Workflow(NilObjectId, req.name, [], username, 0, 0)
  }

  /** The order a new task receives: one past the maximum, or 1 when there is none. */
  function NextOrder(maxOrder: Option<int>): int {
    match maxOrder
    case None => 1
    case Some(m) => m + 1
  }

  /** The task `CreateTaskByWorkflowID` builds: name and description from the request, status
      "Pending", and the given order. */
  function NewTask(req: CreateTaskRequest, order: int): Task {
    Task(NilObjectId, req.name, req.description, Pending, order, 0, 0)
  }

  /** The patch `EditTaskByID` builds: the four editable fields, copied verbatim. */
  function TaskPatch(req: EditTaskRequest): Task {
    Task(NilObjectId, req.name, req.description, req.status, req.order, 0, 0)
  }

  /** `CreateTaskByWorkflowID`: read the maximum order, then append the new task with the next
      one. A failed lookup is returned as it is and nothing is appended. */
  function CreateTaskInWorkflow(ws: Store, workflowId: string, req: CreateTaskRequest, newId: ObjectId, now: Time): (r: (Store, Result<string>))
    ensures MaxTaskOrder(ws, workflowId).Err? ==> r == (ws, Err(MaxTaskOrder(ws, workflowId).error))
    ensures r.1.Err? ==> r.0 == ws
    ensures r.1.Ok? <==> Fetch(ws, workflowId).Ok?
    ensures ObjectIdFromHex(workflowId).None? ==> r.1 == Err(InvalidObjectIdFormat)
    ensures ObjectIdFromHex(workflowId).Some? && r.1.Err? ==> r.1.error == WorkflowNotFound
    ensures r.1.Ok? ==>
      var w := Fetch(ws, workflowId).value;
      && r.1.value == Hex(newId)
      && Fetch(r.0, workflowId).Ok?
      && var tasks := Fetch(r.0, workflowId).value.tasks;
         && |tasks| == |w.tasks| + 1
         && Fetch(r.0, workflowId).value == w.(tasks := tasks)
         && tasks[..|w.tasks|] == w.tasks
         && var created := tasks[|w.tasks|];
            && created == Task(newId, req.name, req.description, Pending, created.order, now, now)
            && (w.tasks == [] ==> created.order == 1)
            && (forall t :: t in w.tasks ==> t.order < created.order)
            && (w.tasks != [] ==> exists t :: t in w.tasks && created.order == t.order + 1)
    ensures r.0.Keys == ws.Keys
    ensures OthersUnchanged(ws, r.0, ObjectIdFromHex(workflowId))
  {
    match MaxTaskOrder(ws, workflowId)
    case Err(e) => (ws, Err(e))
    case Ok(maxOrder) => CreateTaskEffect(ws, workflowId, NewTask(req, NextOrder(maxOrder)), newId, now)
  }

  /** Orders 1, 2, ..., n in array position. */
  ghost predicate ConsecutiveOrders(tasks: seq<Task>) {
    forall i :: 0 <= i < |tasks| ==> tasks[i].order == i + 1
  }

  /** Creating tasks one after another on the same workflow. */
  function CreateTasks(ws: Store, workflowId: string, reqs: seq<CreateTaskRequest>, newIds: seq<ObjectId>, now: Time): Store
    requires |newIds| == |reqs|
  {
    if reqs == [] then ws
    else CreateTasks(CreateTaskInWorkflow(ws, workflowId, reqs[0], newIds[0], now).0, workflowId, reqs[1..], newIds[1..], now)
  }

  /** Without other writers, a workflow whose tasks are numbered 1..n is numbered 1..n+m after m
      more creations; starting from no tasks, N creations are numbered exactly 1..N in creation
      order. */
  lemma {:induction false} CreationsNumberConsecutively(ws: Store, workflowId: string, reqs: seq<CreateTaskRequest>, newIds: seq<ObjectId>, now: Time)
    requires |newIds| == |reqs|
    requires Fetch(ws, workflowId).Ok? && ConsecutiveOrders(Fetch(ws, workflowId).value.tasks)
    ensures var after := Fetch(CreateTasks(ws, workflowId, reqs, newIds, now), workflowId);
      && after.Ok?
      && |after.value.tasks| == |Fetch(ws, workflowId).value.tasks| + |reqs|
      && ConsecutiveOrders(after.value.tasks)
  {
    if reqs != [] {
      var tasks := Fetch(ws, workflowId).value.tasks;
      var next := CreateTaskInWorkflow(ws, workflowId, reqs[0], newIds[0], now).0;
      var oid := ObjectIdFromHex(workflowId).value;
      var created := next[oid].tasks[|tasks|];
      if tasks != [] {
        var m := MaxOrder(tasks).value;
        assert tasks[|tasks| - 1].order == |tasks|;
        var k :| 0 <= k < |tasks| && tasks[k].order == m;
      }
      assert created.order == |tasks| + 1;
      assert ConsecutiveOrders(next[oid].tasks) by {
        assert next[oid].tasks == tasks + [created];
      }
      CreationsNumberConsecutively(next, workflowId, reqs[1..], newIds[1..], now);
    }
  }

  /** The edit copies the requested order as it is: giving a task the order of another one
      succeeds and leaves two tasks with the same order. */
  lemma EditTaskCanDuplicateOrders(ws: Store, workflowId: string, req: EditTaskRequest, now: Time)
    requires Fetch(ws, workflowId).Ok?
    requires var tasks := Fetch(ws, workflowId).value.tasks;
      |tasks| >= 2 && UniqueTaskIds(tasks) && req.order == tasks[0].order
    ensures var tasks := Fetch(ws, workflowId).value.tasks;
      var r := UpdateTaskEffect(ws, workflowId, Hex(tasks[1].id), TaskPatch(req), now);
      && r.1.Ok?
      && var edited := Fetch(r.0, workflowId).value.tasks;
         edited[0].order == edited[1].order
  {
    var tasks := Fetch(ws, workflowId).value.tasks;
    ParseHex(tasks[1].id);
    assert FirstIndexOf(tasks, tasks[1].id) == Some(1);
  }

  class WorkflowService {
    const workflowEntity: WorkflowEntity

    ghost predicate Valid()
      reads this, workflowEntity
    {
      workflowEntity.Valid()
    }

    constructor (entity: WorkflowEntity)
      ensures workflowEntity == entity
    {
      workflowEntity := entity;
    }

    method GetWorkflows(username: string) returns (r: seq<Workflow>)
      requires Valid()
      ensures forall w :: w in r <==> w in workflowEntity.workflows.Values && w.owner == username
      ensures forall i, j :: 0 <= i < j < |r| ==> r[i].id != r[j].id
    {
      r := workflowEntity.FindWorkflowsByUsername(username);
    }

    method GetWorkflowByID(workflowId: string) returns (r: Result<Workflow>)
      ensures r == Fetch(workflowEntity.workflows, workflowId)
    {
      r := workflowEntity.FindWorkflowByID(workflowId);
    }

    method CreateWorkflow(username: string, req: CreateWorkflowRequest, newId: ObjectId, now: Time) returns (r: Result<string>)
      requires Valid()
      modifies workflowEntity
      ensures Valid()
      ensures (workflowEntity.workflows, r) ==
        CreateWorkflowEffect(old(workflowEntity.workflows), NewWorkflow(username, req), newId, now)
    {
      r := workflowEntity.CreateWorkflow(NewWorkflow(username, req), newId, now);
    }

    /** Only the name is forwarded. */
    method EditWorkflowByID(workflowId: string, req: EditWorkflowRequest, now: Time) returns (r: Result<Workflow>)
      requires Valid()
      modifies workflowEntity
      ensures Valid()
      ensures (workflowEntity.workflows, r) ==
        UpdateWorkflowEffect(old(workflowEntity.workflows), workflowId, req.name, now)
    {
      r := workflowEntity.UpdateWorkflow(workflowId, req.name, now);
    }

    method DeleteWorkflowByID(workflowId: string) returns (r: Outcome)
      requires Valid()
      modifies workflowEntity
      ensures Valid()
      ensures (workflowEntity.workflows, r) == DeleteWorkflowEffect(old(workflowEntity.workflows), workflowId)
    {
      r := workflowEntity.DeleteWorkflow(workflowId);
    }

    /** Only the new owner is forwarded. */
    method TransferWorkflowByID(workflowId: string, username: string) returns (r: Result<Workflow>)
      requires Valid()
      modifies workflowEntity
      ensures Valid()
      ensures (workflowEntity.workflows, r) ==
        TransferWorkflowEffect(old(workflowEntity.workflows), workflowId, username)
    {
      r := workflowEntity.TransferWorkflowByID(workflowId, username);
    }

    method GetTasksByWorkflowID(workflowId: string) returns (r: Result<seq<Task>>)
      ensures r == SortedTasks(workflowEntity.workflows, workflowId)
    {
      r := workflowEntity.FindTasksByWorkflowID(workflowId);
    }

    method GetTaskByID(workflowId: string, taskId: string) returns (r: Result<Task>)
      ensures r == TaskLookup(workflowEntity.workflows, workflowId, taskId)
    {
      r := workflowEntity.FindTaskByID(workflowId, taskId);
    }

    method CreateTaskByWorkflowID(workflowId: string, req: CreateTaskRequest, newId: ObjectId, now: Time) returns (r: Result<string>)
      requires Valid()
      modifies workflowEntity
      ensures Valid()
      ensures (workflowEntity.workflows, r) ==
        CreateTaskInWorkflow(old(workflowEntity.workflows), workflowId, req, newId, now)
    {
      var maxOrder := workflowEntity.FindMaxTaskOrderByWorkflowID(workflowId);
      if maxOrder.Err? {
        return Err(maxOrder.error);
      }
      var order := 1;
      if maxOrder.value.Some? {
        order := maxOrder.value.value + 1;
      }
      r := workflowEntity.CreateTaskByWorkflowID(workflowId, NewTask(req, order), newId, now);
    }

    method EditTaskByID(workflowId: string, taskId: string, req: EditTaskRequest, now: Time) returns (r: Result<Task>)
      requires Valid()
      modifies workflowEntity
      ensures Valid()
      ensures (workflowEntity.workflows, r) ==
        UpdateTaskEffect(old(workflowEntity.workflows), workflowId, taskId, TaskPatch(req), now)
    {
      r := workflowEntity.UpdateTaskByID(workflowId, taskId, TaskPatch(req), now);
    }

    method DeleteTaskByID(workflowId: string, taskId: string) returns (r: Outcome)
      requires Valid()
      modifies workflowEntity
      ensures Valid()
      ensures (workflowEntity.workflows, r) == DeleteTaskEffect(old(workflowEntity.workflows), workflowId, taskId)
    {
      r := workflowEntity.DeleteTaskByID(workflowId, taskId);
    }
  }
}
