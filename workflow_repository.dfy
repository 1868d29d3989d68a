/** The workflow collection, as a map from identifier to document, and every operation of the
    repository on it. Each store update is first given as a pure function from the old map to
    the new map and the result, whose contract says what the update means; the methods of
    `WorkflowEntity` perform the same steps on the collection they hold and are proved against
    those functions. */
module WorkflowRepository {
  import opened Results
  import opened ObjectIds
  import opened Models

  type Store = map<ObjectId, Workflow>

  const InvalidObjectIdFormat: string := "invalid ObjectID format"
  const WorkflowDoesNotExist: string := "workflow does not exist"
  const FailedToCreateWorkflow: string := "failed to create workflow"
  const NoWorkflowUpdated: string := "no workflow was updated"
  const NoTasksFound: string := "no tasks found"
  const TaskDoesNotExist: string := "task does not exist"
  const WorkflowNotFound: string := "workflow not found"
  const NoTaskUpdated: string := "no task was updated"
  const NoTaskDeleted: string := "no task was deleted"

  // ---------------------------------------------------------------------------------------
  // The embedded task array

  ghost predicate SortedByOrder(tasks: seq<Task>) {
    forall i, j :: 0 <= i < j < |tasks| ==> tasks[i].order <= tasks[j].order
  }

  ghost predicate UniqueTaskIds(tasks: seq<Task>) {
    forall i, j :: 0 <= i < j < |tasks| ==> tasks[i].id != tasks[j].id
  }

  /** `r` is `s` with some elements left out and the rest in their original order. */
  ghost predicate IsSubsequence(r: seq<Task>, s: seq<Task>)
    decreases |s|
  {
    if r == [] then true
    else if s == [] then false
    else (r[0] == s[0] && IsSubsequence(r[1..], s[1..])) || IsSubsequence(r, s[1..])
  }

  /** The element the positional operator `tasks.$` designates: the first task with that id. */
  function FirstIndexOf(tasks: seq<Task>, taskId: ObjectId): (r: Option<nat>)
    ensures r.Some? ==>
      && r.value < |tasks| && tasks[r.value].id == taskId
      && forall j :: 0 <= j < r.value ==> tasks[j].id != taskId
    ensures r.None? <==> forall j :: 0 <= j < |tasks| ==> tasks[j].id != taskId
  {
    if tasks == [] then None
    else if tasks[0].id == taskId then Some(0)
    else match FirstIndexOf(tasks[1..], taskId)
      case None => None
      case Some(i) => Some(i + 1)
  }

  /** The linear scan over `workflow.Tasks` that looks a task up by id. */
  method ScanForTask(tasks: seq<Task>, taskId: ObjectId) returns (r: Option<nat>)
    ensures r == FirstIndexOf(tasks, taskId)
  {
    var i := 0;
    while i < |tasks|
      invariant 0 <= i <= |tasks|
      invariant forall j :: 0 <= j < i ==> tasks[j].id != taskId
    {
      if tasks[i].id == taskId {
        return Some(i);
      }
      i := i + 1;
    }
    return None;
  }

  /** `$pull` on the task array: every task with that id goes, the others stay as they are. */
  function PullTask(tasks: seq<Task>, taskId: ObjectId): (r: seq<Task>)
    ensures |r| <= |tasks|
    ensures forall t :: t in r <==> t in tasks && t.id != taskId
    ensures forall t {:trigger multiset(r)[t]} :: multiset(r)[t] == if t.id == taskId then 0 else multiset(tasks)[t]
  {
    if tasks == [] then []
    else
      assert tasks == [tasks[0]] + tasks[1..];
      assert multiset(tasks) == multiset{tasks[0]} + multiset(tasks[1..]);
      (if tasks[0].id == taskId then [] else [tasks[0]]) + PullTask(tasks[1..], taskId)
  }

  /** The tasks left by `$pull` keep their relative order (and, being the same values, their
      `order` fields): deletion never renumbers. */
  lemma {:induction false} PullTaskKeepsOrder(tasks: seq<Task>, taskId: ObjectId)
    ensures IsSubsequence(PullTask(tasks, taskId), tasks)
  {
    if tasks != [] {
      PullTaskKeepsOrder(tasks[1..], taskId);
      var rest := PullTask(tasks[1..], taskId);
      if tasks[0].id == taskId {
        assert PullTask(tasks, taskId) == rest;
        SkipHead(rest, tasks);
      } else {
        assert PullTask(tasks, taskId) == [tasks[0]] + rest;
        assert ([tasks[0]] + rest)[1..] == rest;
      }
    }
  }

  lemma SkipHead(r: seq<Task>, s: seq<Task>)
    requires s != [] && IsSubsequence(r, s[1..])
    ensures IsSubsequence(r, s)
  {
  }

  lemma {:induction false} PullTaskKeepsIdsUnique(tasks: seq<Task>, taskId: ObjectId)
    requires UniqueTaskIds(tasks)
    ensures UniqueTaskIds(PullTask(tasks, taskId))
  {
    if tasks != [] {
      UniqueTail(tasks);
      PullTaskKeepsIdsUnique(tasks[1..], taskId);
      var rest := PullTask(tasks[1..], taskId);
      if tasks[0].id != taskId {
        assert PullTask(tasks, taskId) == [tasks[0]] + rest;
        UniqueCons(tasks[0], rest);
      } else {
        assert PullTask(tasks, taskId) == rest;
      }
    }
  }

  lemma UniqueTail(tasks: seq<Task>)
    requires tasks != [] && UniqueTaskIds(tasks)
    ensures UniqueTaskIds(tasks[1..])
    ensures forall t :: t in tasks[1..] ==> t.id != tasks[0].id
  {
    forall t | t in tasks[1..] ensures t.id != tasks[0].id {
      var k :| 0 <= k < |tasks[1..]| && tasks[1..][k] == t;
      assert tasks[k + 1] == t;
    }
  }

  lemma UniqueCons(head: Task, rest: seq<Task>)
    requires UniqueTaskIds(rest)
    requires forall t :: t in rest ==> t.id != head.id
    ensures UniqueTaskIds([head] + rest)
  {
    var r := [head] + rest;
    forall i, j | 0 <= i < j < |r| ensures r[i].id != r[j].id {
      assert r[j] == rest[j - 1];
      if i > 0 {
        assert r[i] == rest[i - 1];
      }
    }
  }

  /** Inserts `t` in front of the first task with a larger-or-equal order. */
  function InsertByOrder(t: Task, sorted: seq<Task>): (r: seq<Task>)
    ensures multiset(r) == multiset(sorted) + multiset{t}
    ensures forall x :: x in r ==> x == t || x in sorted
  {
    if sorted == [] || t.order <= sorted[0].order then
      [t] + sorted
    else
      assert sorted == [sorted[0]] + sorted[1..];
      [sorted[0]] + InsertByOrder(t, sorted[1..])
  }

  lemma {:induction false} InsertByOrderSorted(t: Task, sorted: seq<Task>)
    requires SortedByOrder(sorted)
    ensures SortedByOrder(InsertByOrder(t, sorted))
  {
    if sorted == [] || t.order <= sorted[0].order {
      forall x | x in sorted ensures t.order <= x.order {
        var k :| 0 <= k < |sorted| && sorted[k] == x;
      }
      SortedCons(t, sorted);
    } else {
      var tail := sorted[1..];
      assert SortedByOrder(tail) by {
        forall i, j | 0 <= i < j < |tail| ensures tail[i].order <= tail[j].order {
          assert tail[i] == sorted[i + 1] && tail[j] == sorted[j + 1];
        }
      }
      InsertByOrderSorted(t, tail);
      var rest := InsertByOrder(t, tail);
      forall x | x in rest ensures sorted[0].order <= x.order {
        if x != t {
          var k :| 0 <= k < |tail| && tail[k] == x;
          assert sorted[k + 1] == x;
        }
      }
      SortedCons(sorted[0], rest);
    }
  }

  lemma SortedCons(head: Task, rest: seq<Task>)
    requires SortedByOrder(rest)
    requires forall x :: x in rest ==> head.order <= x.order
    ensures SortedByOrder([head] + rest)
  {
    var r := [head] + rest;
    forall i, j | 0 <= i < j < |r| ensures r[i].order <= r[j].order {
      assert r[j] == rest[j - 1];
      if i > 0 { assert r[i] == rest[i - 1]; }
    }
  }

  /** The `$sort` stage on `tasks.order`. Ties keep their stored order here; the store does not
      promise any particular order among equal keys. */
  function SortByOrder(tasks: seq<Task>): (r: seq<Task>)
    ensures multiset(r) == multiset(tasks)
    ensures SortedByOrder(r)
  {
    if tasks == [] then []
    else
      assert tasks == [tasks[0]] + tasks[1..];
      InsertByOrderSorted(tasks[0], SortByOrder(tasks[1..]));
      InsertByOrder(tasks[0], SortByOrder(tasks[1..]))
  }

  ghost predicate IsMaxOrder(tasks: seq<Task>, m: int) {
    && (exists i :: 0 <= i < |tasks| && tasks[i].order == m)
    && (forall i :: 0 <= i < |tasks| ==> tasks[i].order <= m)
  }

  /** The `$max` accumulator over `tasks.order`: none for an empty array. */
  function MaxOrder(tasks: seq<Task>): (r: Option<int>)
    ensures r.None? <==> tasks == []
    ensures r.Some? ==> IsMaxOrder(tasks, r.value)
  {
    if tasks == [] then None
    else match MaxOrder(tasks[1..])
      case None => Some(tasks[0].order)
      case Some(m) =>
        assert forall i :: 1 <= i < |tasks| ==> tasks[i] == tasks[1..][i - 1];
        var k :| 0 <= k < |tasks[1..]| && tasks[1..][k].order == m;
        assert tasks[k + 1].order == m;
        Some(if tasks[0].order < m then m else tasks[0].order)
  }

  // ---------------------------------------------------------------------------------------
  // The collection

  /** The identifier of each stored document is its key. */
  ghost predicate WellFormed(ws: Store) {
    forall k :: k in ws ==> ws[k].id == k
  }

  ghost predicate TaskIdsUnique(ws: Store) {
    forall k :: k in ws ==> UniqueTaskIds(ws[k].tasks)
  }

  /** Every document other than the one `target` names is still there, unchanged. */
  ghost predicate OthersUnchanged(ws: Store, ws': Store, target: Option<ObjectId>) {
    forall k :: k in ws && Some(k) != target ==> k in ws' && ws'[k] == ws[k]
  }

  /** `FindOne` by `_id` after `ObjectIDFromHex`. */
  function Fetch(ws: Store, workflowId: string): Result<Workflow> {
    match ObjectIdFromHex(workflowId)
    case None => Err(InvalidObjectIdFormat)
    case Some(oid) => if oid in ws then Ok(ws[oid]) else Err(WorkflowDoesNotExist)
  }

  /** A workflow is found exactly when its printed identifier is the argument spelt in lower
      case; the identifier is checked for its format before the collection is consulted. */
  lemma FetchByPrintedId(ws: Store, workflowId: string)
    requires WellFormed(ws)
    ensures Fetch(ws, workflowId).Ok? <==> exists k :: k in ws && Hex(k) == Lower(workflowId)
    ensures Fetch(ws, workflowId).Ok? ==> Hex(Fetch(ws, workflowId).value.id) == Lower(workflowId)
    ensures forall k :: k in ws && Hex(k) == Lower(workflowId) ==> Fetch(ws, workflowId) == Ok(ws[k])
    ensures Fetch(ws, workflowId).Err? ==>
      (Fetch(ws, workflowId).error == InvalidObjectIdFormat <==> ObjectIdFromHex(workflowId).None?)
    ensures ObjectIdFromHex(workflowId).Some? && Fetch(ws, workflowId).Err? ==>
      Fetch(ws, workflowId).error == WorkflowDoesNotExist
  {
    if ObjectIdFromHex(workflowId).Some? {
      HexParse(workflowId);
    }
    if k :| k in ws && Hex(k) == Lower(workflowId) {
      ParseHex(k);
      LowerOfHexIsHex(workflowId, Hex(k));
      HexParse(workflowId);
      ParseHex(ObjectIdFromHex(workflowId).value);
    }
    forall k | k in ws && Hex(k) == Lower(workflowId)
      ensures Fetch(ws, workflowId) == Ok(ws[k])
    {
      ParseHex(k);
      LowerOfHexIsHex(workflowId, Hex(k));
      HexParse(workflowId);
      ParseHex(ObjectIdFromHex(workflowId).value);
    }
  }

  lemma LowerOfHexIsHex(s: string, h: string)
    requires Lower(s) == h && ObjectIdFromHex(h).Some?
    ensures ObjectIdFromHex(s).Some?
  {
    forall i | 0 <= i < |s| ensures IsHexChar(s[i]) {
      assert LowerChar(s[i]) == h[i];
    }
  }

  /** `CreateWorkflow`: stamp both timestamps, insert under the identifier the driver generates,
      and return it printed. An identifier already present is a duplicate-key insert error. */
  function CreateWorkflowEffect(ws: Store, workflow: Workflow, newId: ObjectId, now: Time): (r: (Store, Result<string>))
    ensures newId in ws ==> r == (ws, Err(FailedToCreateWorkflow))
    ensures newId !in ws ==>
      && r.1 == Ok(Hex(newId))
      && Fetch(r.0, r.1.value) == Ok(Workflow(newId, workflow.name, workflow.tasks, workflow.owner, now, now))
      && r.0.Keys == ws.Keys + {newId}
    ensures OthersUnchanged(ws, r.0, None)
  {
    if newId in ws then (ws, Err(FailedToCreateWorkflow))
    else
      ParseHex(newId);
      (ws[newId := workflow.(id := newId, createdAt := now, updatedAt := now)], Ok(Hex(newId)))
  }

  /** `UpdateWorkflow`: `$set` of `name` and `updated_at` only, then a re-read. The update fails
      when it modified nothing: an unknown id, or a name and clock equal to the stored ones. */
  function UpdateWorkflowEffect(ws: Store, workflowId: string, name: string, now: Time): (r: (Store, Result<Workflow>))
    ensures r.1.Err? ==> r.0 == ws
    ensures r.1.Err? ==>
      r.1.error == if ObjectIdFromHex(workflowId).None? then InvalidObjectIdFormat else NoWorkflowUpdated
    ensures r.1.Ok? <==>
      Fetch(ws, workflowId).Ok? &&
      (Fetch(ws, workflowId).value.name != name || Fetch(ws, workflowId).value.updatedAt != now)
    ensures r.1.Ok? ==>
      && r.1.value == Fetch(ws, workflowId).value.(name := name, updatedAt := now)
      && Fetch(r.0, workflowId) == r.1
    ensures r.0.Keys == ws.Keys
    ensures OthersUnchanged(ws, r.0, ObjectIdFromHex(workflowId))
  {
    match ObjectIdFromHex(workflowId)
    case None => (ws, Err(InvalidObjectIdFormat))
    case Some(oid) =>
      if oid !in ws then (ws, Err(NoWorkflowUpdated))
      else
        var updated := ws[oid].(name := name, updatedAt := now);
        if updated == ws[oid] then (ws, Err(NoWorkflowUpdated))
        else (ws[oid := updated], Ok(updated))
  }

  /** `DeleteWorkflow`: `DeleteOne` whose deleted count is never looked at. The embedded tasks
      go with the document. */
  function DeleteWorkflowEffect(ws: Store, workflowId: string): (r: (Store, Outcome))
    ensures ObjectIdFromHex(workflowId).None? ==> r == (ws, Fail(InvalidObjectIdFormat))
    ensures ObjectIdFromHex(workflowId).Some? ==>
      && r.1 == Pass
      && Fetch(r.0, workflowId) == Err(WorkflowDoesNotExist)
      && r.0.Keys == ws.Keys - {ObjectIdFromHex(workflowId).value}
    ensures OthersUnchanged(ws, r.0, ObjectIdFromHex(workflowId))
  {
    match ObjectIdFromHex(workflowId)
    case None => (ws, Fail(InvalidObjectIdFormat))
    case Some(oid) => (ws - {oid}, Pass)
  }

  /** Deleting twice is deleting once, and the second call succeeds as well. */
  lemma DeleteWorkflowIdempotent(ws: Store, workflowId: string)
    ensures var once := DeleteWorkflowEffect(ws, workflowId);
      DeleteWorkflowEffect(once.0, workflowId) == once
  {
    if ObjectIdFromHex(workflowId).Some? {
      var oid := ObjectIdFromHex(workflowId).value;
      assert (ws - {oid}) - {oid} == ws - {oid};
    }
  }

  /** `TransferWorkflowByID`: `$set` of `owner` only (`updated_at` is stamped on the local copy
      but not written), then a re-read. Transferring to the current owner modifies nothing and
      therefore fails. */
  function TransferWorkflowEffect(ws: Store, workflowId: string, newOwner: string): (r: (Store, Result<Workflow>))
    ensures r.1.Err? ==> r.0 == ws
    ensures r.1.Err? ==>
      r.1.error == if ObjectIdFromHex(workflowId).None? then InvalidObjectIdFormat else NoWorkflowUpdated
    ensures r.1.Ok? <==> Fetch(ws, workflowId).Ok? && Fetch(ws, workflowId).value.owner != newOwner
    ensures r.1.Ok? ==>
      && r.1.value == Fetch(ws, workflowId).value.(owner := newOwner)
      && Fetch(r.0, workflowId) == r.1
    ensures r.0.Keys == ws.Keys
    ensures OthersUnchanged(ws, r.0, ObjectIdFromHex(workflowId))
  {
    match ObjectIdFromHex(workflowId)
    case None => (ws, Err(InvalidObjectIdFormat))
    case Some(oid) =>
      if oid !in ws || ws[oid].owner == newOwner then (ws, Err(NoWorkflowUpdated))
      else
        var updated := ws[oid].(owner := newOwner);
        (ws[oid := updated], Ok(updated))
  }

  /** `FindTasksByWorkflowID`: match, unwind (dropping empty arrays), sort on `tasks.order`,
      group. An absent workflow and a workflow without tasks both leave no group behind. */
  function SortedTasks(ws: Store, workflowId: string): (r: Result<seq<Task>>)
    ensures ObjectIdFromHex(workflowId).None? ==> r == Err(InvalidObjectIdFormat)
    ensures ObjectIdFromHex(workflowId).Some? ==>
      (r.Ok? <==> Fetch(ws, workflowId).Ok? && Fetch(ws, workflowId).value.tasks != [])
    ensures ObjectIdFromHex(workflowId).Some? && r.Err? ==> r.error == NoTasksFound
    ensures r.Ok? ==>
      && SortedByOrder(r.value)
      && multiset(r.value) == multiset(Fetch(ws, workflowId).value.tasks)
  {
    match ObjectIdFromHex(workflowId)
    case None => Err(InvalidObjectIdFormat)
    case Some(oid) =>
      if oid !in ws || ws[oid].tasks == [] then Err(NoTasksFound)
      else Ok(SortByOrder(ws[oid].tasks))
  }

  /** `FindTaskByID`: the task id's format is checked first; any failure to load the workflow,
      an ill-formed workflow id included, reads "workflow does not exist"; then the first task
      carrying the id. */
  function TaskLookup(ws: Store, workflowId: string, taskId: string): (r: Result<Task>)
    ensures ObjectIdFromHex(taskId).None? ==> r == Err(InvalidObjectIdFormat)
    ensures ObjectIdFromHex(taskId).Some? && Fetch(ws, workflowId).Err? ==> r == Err(WorkflowDoesNotExist)
    ensures ObjectIdFromHex(taskId).Some? && Fetch(ws, workflowId).Ok? ==>
      var tasks := Fetch(ws, workflowId).value.tasks;
      var tid := ObjectIdFromHex(taskId).value;
      && (r.Ok? <==> exists i :: 0 <= i < |tasks| && tasks[i].id == tid)
      && (r.Ok? ==> r.value.id == tid && r.value == tasks[FirstIndexOf(tasks, tid).value])
      && (r.Err? ==> r.error == TaskDoesNotExist)
  {
    match ObjectIdFromHex(taskId)
    case None => Err(InvalidObjectIdFormat)
    case Some(tid) =>
      match Fetch(ws, workflowId)
      case Err(_) => Err(WorkflowDoesNotExist)
      case Ok(w) =>
        match FirstIndexOf(w.tasks, tid)
        case None => Err(TaskDoesNotExist)
        case Some(i) => Ok(w.tasks[i])
  }

  /** `FindMaxTaskOrderByWorkflowID`: the largest order, or none, without an error, when the
      workflow is absent or has no tasks. */
  function MaxTaskOrder(ws: Store, workflowId: string): (r: Result<Option<int>>)
    ensures ObjectIdFromHex(workflowId).None? ==> r == Err(InvalidObjectIdFormat)
    ensures ObjectIdFromHex(workflowId).Some? ==> r.Ok?
    ensures r.Ok? ==>
      (r.value.None? <==> Fetch(ws, workflowId).Err? || Fetch(ws, workflowId).value.tasks == [])
    ensures r.Ok? && r.value.Some? ==> IsMaxOrder(Fetch(ws, workflowId).value.tasks, r.value.value)
  {
    match ObjectIdFromHex(workflowId)
    case None => Err(InvalidObjectIdFormat)
    case Some(oid) => if oid in ws then Ok(MaxOrder(ws[oid].tasks)) else Ok(None)
  }

  /** `CreateTaskByWorkflowID`: the task gets a generated id and both timestamps and is `$push`ed
      to the end of the array; the workflow's own fields, `updated_at` included, are not written.
      Not matching the workflow is the only failure after the format check. */
  function CreateTaskEffect(ws: Store, workflowId: string, task: Task, newId: ObjectId, now: Time): (r: (Store, Result<string>))
    ensures r.1.Err? ==> r.0 == ws
    ensures ObjectIdFromHex(workflowId).None? ==> r.1 == Err(InvalidObjectIdFormat)
    ensures ObjectIdFromHex(workflowId).Some? ==> (r.1.Ok? <==> Fetch(ws, workflowId).Ok?)
    ensures ObjectIdFromHex(workflowId).Some? && r.1.Err? ==> r.1.error == WorkflowNotFound
    ensures r.1.Ok? ==>
      var w := Fetch(ws, workflowId).value;
      var stored := task.(id := newId, createdAt := now, updatedAt := now);
      && r.1.value == Hex(newId)
      && Fetch(r.0, workflowId) == Ok(w.(tasks := w.tasks + [stored]))
    ensures r.0.Keys == ws.Keys
    ensures OthersUnchanged(ws, r.0, ObjectIdFromHex(workflowId))
  {
    match ObjectIdFromHex(workflowId)
    case None => (ws, Err(InvalidObjectIdFormat))
    case Some(oid) =>
      if oid !in ws then (ws, Err(WorkflowNotFound))
      else
        var w := ws[oid];
        var stored := task.(id := newId, createdAt := now, updatedAt := now);
        (ws[oid := w.(tasks := w.tasks + [stored])], Ok(Hex(newId)))
  }

  /** The fields the positional update of `UpdateTaskByID` writes. */
  function EditedTask(t: Task, patch: Task, now: Time): Task {
    t.(name := patch.name, description := patch.description, status := patch.status,
       order := patch.order, updatedAt := now)
  }

  /** `UpdateTaskByID`: `$set` through `tasks.$` on the first task with that id, then a re-read
      and scan. The check is on the matched count, so a patch that changes nothing succeeds. */
  function UpdateTaskEffect(ws: Store, workflowId: string, taskId: string, patch: Task, now: Time): (r: (Store, Result<Task>))
    ensures r.1.Err? ==> r.0 == ws
    ensures ObjectIdFromHex(workflowId).None? || ObjectIdFromHex(taskId).None? ==>
      r.1 == Err(InvalidObjectIdFormat)
    ensures ObjectIdFromHex(workflowId).Some? && ObjectIdFromHex(taskId).Some? ==>
      && (r.1.Ok? <==>
           Fetch(ws, workflowId).Ok? &&
           exists i :: 0 <= i < |Fetch(ws, workflowId).value.tasks| &&
                       Fetch(ws, workflowId).value.tasks[i].id == ObjectIdFromHex(taskId).value)
      && (r.1.Err? ==> r.1.error == NoTaskUpdated)
    ensures r.1.Ok? ==>
      var w := Fetch(ws, workflowId).value;
      var i := FirstIndexOf(w.tasks, ObjectIdFromHex(taskId).value).value;
      && r.1.value == EditedTask(w.tasks[i], patch, now)
      && r.1.value.id == ObjectIdFromHex(taskId).value
      && Fetch(r.0, workflowId) == Ok(w.(tasks := w.tasks[i := r.1.value]))
    ensures r.0.Keys == ws.Keys
    ensures OthersUnchanged(ws, r.0, ObjectIdFromHex(workflowId))
  {
    match (ObjectIdFromHex(workflowId), ObjectIdFromHex(taskId))
    case (None, _) => (ws, Err(InvalidObjectIdFormat))
    case (_, None) => (ws, Err(InvalidObjectIdFormat))
    case (Some(oid), Some(tid)) =>
      if oid !in ws then (ws, Err(NoTaskUpdated))
      else
        var w := ws[oid];
        match FirstIndexOf(w.tasks, tid)
        case None => (ws, Err(NoTaskUpdated))
        case Some(i) =>
          var edited := EditedTask(w.tasks[i], patch, now);
          (ws[oid := w.(tasks := w.tasks[i := edited])], Ok(edited))
  }

  /** `DeleteTaskByID`: `$pull` by task id. Only an unmatched workflow fails; an unknown task id
      on an existing workflow succeeds and changes nothing. */
  function DeleteTaskEffect(ws: Store, workflowId: string, taskId: string): (r: (Store, Outcome))
    ensures r.1.Fail? ==> r.0 == ws
    ensures ObjectIdFromHex(workflowId).None? || ObjectIdFromHex(taskId).None? ==>
      r.1 == Fail(InvalidObjectIdFormat)
    ensures ObjectIdFromHex(workflowId).Some? && ObjectIdFromHex(taskId).Some? ==>
      && (r.1.Pass? <==> Fetch(ws, workflowId).Ok?)
      && (r.1.Fail? ==> r.1.message == NoTaskDeleted)
    ensures r.1.Pass? ==>
      var w := Fetch(ws, workflowId).value;
      Fetch(r.0, workflowId) == Ok(w.(tasks := PullTask(w.tasks, ObjectIdFromHex(taskId).value)))
    ensures r.0.Keys == ws.Keys
    ensures OthersUnchanged(ws, r.0, ObjectIdFromHex(workflowId))
  {
    match (ObjectIdFromHex(workflowId), ObjectIdFromHex(taskId))
    case (None, _) => (ws, Fail(InvalidObjectIdFormat))
    case (_, None) => (ws, Fail(InvalidObjectIdFormat))
    case (Some(oid), Some(tid)) =>
      if oid !in ws then (ws, Fail(NoTaskDeleted))
      else (ws[oid := ws[oid].(tasks := PullTask(ws[oid].tasks, tid))], Pass)
  }

  /** Deleting an id no task carries leaves the workflow as it was, yet reports success. */
  lemma DeleteUnknownTaskSucceeds(ws: Store, workflowId: string, taskId: string)
    requires Fetch(ws, workflowId).Ok? && ObjectIdFromHex(taskId).Some?
    requires forall t :: t in Fetch(ws, workflowId).value.tasks ==> t.id != ObjectIdFromHex(taskId).value
    ensures DeleteTaskEffect(ws, workflowId, taskId) == (ws, Pass)
  {
    var oid := ObjectIdFromHex(workflowId).value;
    PullUnknownId(ws[oid].tasks, ObjectIdFromHex(taskId).value);
    assert ws[oid].(tasks := ws[oid].tasks) == ws[oid];
    assert ws[oid := ws[oid]] == ws;
  }

  lemma {:induction false} PullUnknownId(tasks: seq<Task>, taskId: ObjectId)
    requires forall t :: t in tasks ==> t.id != taskId
    ensures PullTask(tasks, taskId) == tasks
  {
    if tasks != [] {
      PullUnknownId(tasks[1..], taskId);
      assert [tasks[0]] + tasks[1..] == tasks;
    }
  }

  // ---------------------------------------------------------------------------------------
  // Task identifiers stay unique within a workflow

  lemma CreateTaskKeepsIdsUnique(ws: Store, workflowId: string, task: Task, newId: ObjectId, now: Time)
    requires TaskIdsUnique(ws)
    requires forall k, t :: k in ws && t in ws[k].tasks ==> t.id != newId
    ensures TaskIdsUnique(CreateTaskEffect(ws, workflowId, task, newId, now).0)
  {
  }

  lemma UpdateTaskKeepsIdsUnique(ws: Store, workflowId: string, taskId: string, patch: Task, now: Time)
    requires TaskIdsUnique(ws)
    ensures TaskIdsUnique(UpdateTaskEffect(ws, workflowId, taskId, patch, now).0)
  {
  }

  lemma DeleteTaskKeepsIdsUnique(ws: Store, workflowId: string, taskId: string)
    requires TaskIdsUnique(ws)
    ensures TaskIdsUnique(DeleteTaskEffect(ws, workflowId, taskId).0)
  {
    match (ObjectIdFromHex(workflowId), ObjectIdFromHex(taskId))
    case (Some(oid), Some(tid)) =>
      if oid in ws {
        PullTaskKeepsIdsUnique(ws[oid].tasks, tid);
      }
    case _ =>
  }

  // ---------------------------------------------------------------------------------------
  // The repository object

  class WorkflowEntity {
    var workflows: Store

    ghost predicate Valid()
      reads this
    {
      WellFormed(workflows)
    }

    constructor ()
      ensures Valid() && workflows == map[]
    {
      workflows := map[];
    }

    /** `FindWorkflowsByUsername`: every workflow the user owns, each once. */
    method FindWorkflowsByUsername(username: string) returns (found: seq<Workflow>)
      requires Valid()
      ensures forall w :: w in found <==> w in workflows.Values && w.owner == username
      ensures forall i, j :: 0 <= i < j < |found| ==> found[i].id != found[j].id
    {
      found := [];
      var pending := workflows.Keys;
      while pending != {}
        invariant pending <= workflows.Keys
        invariant forall w :: w in found <==> w in workflows.Values && w.owner == username && w.id !in pending
        invariant forall i, j :: 0 <= i < j < |found| ==> found[i].id != found[j].id
        decreases pending
      {
        var k :| k in pending;
        var w := workflows[k];
        if w.owner == username {
          found := found + [w];
        }
        pending := pending - {k};
      }
    }

    method FindWorkflowByID(workflowId: string) returns (r: Result<Workflow>)
      ensures r == Fetch(workflows, workflowId)
    {
      var parsed := ObjectIdFromHex(workflowId);
      if parsed.None? {
        return Err(InvalidObjectIdFormat);
      }
      if parsed.value !in workflows {
        return Err(WorkflowDoesNotExist);
      }
      return Ok(workflows[parsed.value]);
    }

    method CreateWorkflow(workflow: Workflow, newId: ObjectId, now: Time) returns (r: Result<string>)
      requires Valid()
      modifies this
      ensures Valid()
      ensures (workflows, r) == CreateWorkflowEffect(old(workflows), workflow, newId, now)
    {
      var stamped := workflow.(createdAt := now, updatedAt := now);
      if newId in workflows {
        return Err(FailedToCreateWorkflow);
      }
      workflows := workflows[newId := stamped.(id := newId)];
      return Ok(Hex(newId));
    }

    method UpdateWorkflow(workflowId: string, name: string, now: Time) returns (r: Result<Workflow>)
      requires Valid()
      modifies this
      ensures Valid()
      ensures (workflows, r) == UpdateWorkflowEffect(old(workflows), workflowId, name, now)
    {
      var parsed := ObjectIdFromHex(workflowId);
      if parsed.None? {
        return Err(InvalidObjectIdFormat);
      }
      var oid := parsed.value;
      var modified := oid in workflows && (workflows[oid].name != name || workflows[oid].updatedAt != now);
      if !modified {
        return Err(NoWorkflowUpdated);
      }
      workflows := workflows[oid := workflows[oid].(name := name, updatedAt := now)];
      r := FindWorkflowByID(workflowId);
    }

    method DeleteWorkflow(workflowId: string) returns (r: Outcome)
      requires Valid()
      modifies this
      ensures Valid()
      ensures (workflows, r) == DeleteWorkflowEffect(old(workflows), workflowId)
    {
      var parsed := ObjectIdFromHex(workflowId);
      if parsed.None? {
        return Fail(InvalidObjectIdFormat);
      }
      workflows := workflows - {parsed.value};
      return Pass;
    }

    method TransferWorkflowByID(workflowId: string, newOwner: string) returns (r: Result<Workflow>)
      requires Valid()
      modifies this
      ensures Valid()
      ensures (workflows, r) == TransferWorkflowEffect(old(workflows), workflowId, newOwner)
    {
      var parsed := ObjectIdFromHex(workflowId);
      if parsed.None? {
        return Err(InvalidObjectIdFormat);
      }
      var oid := parsed.value;
      var modified := oid in workflows && workflows[oid].owner != newOwner;
      if !modified {
        return Err(NoWorkflowUpdated);
      }
      workflows := workflows[oid := workflows[oid].(owner := newOwner)];
      r := FindWorkflowByID(workflowId);
    }

    method FindTasksByWorkflowID(workflowId: string) returns (r: Result<seq<Task>>)
      ensures r == SortedTasks(workflows, workflowId)
    {
      var parsed := ObjectIdFromHex(workflowId);
      if parsed.None? {
        return Err(InvalidObjectIdFormat);
      }
      var oid := parsed.value;
      if oid !in workflows || workflows[oid].tasks == [] {
        return Err(NoTasksFound);
      }
      return Ok(SortByOrder(workflows[oid].tasks));
    }

    method FindTaskByID(workflowId: string, taskId: string) returns (r: Result<Task>)
      ensures r == TaskLookup(workflows, workflowId, taskId)
    {
      var parsed := ObjectIdFromHex(taskId);
      if parsed.None? {
        return Err(InvalidObjectIdFormat);
      }
      var workflow := FindWorkflowByID(workflowId);
      if workflow.Err? {
        return Err(WorkflowDoesNotExist);
      }
      var index := ScanForTask(workflow.value.tasks, parsed.value);
      if index.None? {
        return Err(TaskDoesNotExist);
      }
      return Ok(workflow.value.tasks[index.value]);
    }

    method FindMaxTaskOrderByWorkflowID(workflowId: string) returns (r: Result<Option<int>>)
      ensures r == MaxTaskOrder(workflows, workflowId)
    {
      var parsed := ObjectIdFromHex(workflowId);
      if parsed.None? {
        return Err(InvalidObjectIdFormat);
      }
      if parsed.value !in workflows {
        return Ok(None);
      }
      return Ok(MaxOrder(workflows[parsed.value].tasks));
    }

    method CreateTaskByWorkflowID(workflowId: string, task: Task, newId: ObjectId, now: Time) returns (r: Result<string>)
      requires Valid()
      modifies this
      ensures Valid()
      ensures (workflows, r) == CreateTaskEffect(old(workflows), workflowId, task, newId, now)
    {
      var parsed := ObjectIdFromHex(workflowId);
      if parsed.None? {
        return Err(InvalidObjectIdFormat);
      }
      var oid := parsed.value;
      var stored := task.(id := newId, createdAt := now, updatedAt := now);
      if oid !in workflows {
        return Err(WorkflowNotFound);
      }
      workflows := workflows[oid := workflows[oid].(tasks := workflows[oid].tasks + [stored])];
      var tasks := workflows[oid].tasks;
      return Ok(Hex(tasks[|tasks| - 1].id));
    }

    method UpdateTaskByID(workflowId: string, taskId: string, patch: Task, now: Time) returns (r: Result<Task>)
      requires Valid()
      modifies this
      ensures Valid()
      ensures (workflows, r) == UpdateTaskEffect(old(workflows), workflowId, taskId, patch, now)
    {
      var parsedWorkflow := ObjectIdFromHex(workflowId);
      if parsedWorkflow.None? {
        return Err(InvalidObjectIdFormat);
      }
      var parsedTask := ObjectIdFromHex(taskId);
      if parsedTask.None? {
        return Err(InvalidObjectIdFormat);
      }
      var oid, tid := parsedWorkflow.value, parsedTask.value;
      if oid !in workflows {
        return Err(NoTaskUpdated);
      }
      var position := ScanForTask(workflows[oid].tasks, tid);
      if position.None? {
        return Err(NoTaskUpdated);
      }
      var tasks := workflows[oid].tasks;
      var i := position.value;
      workflows := workflows[oid := workflows[oid].(tasks := tasks[i := EditedTask(tasks[i], patch, now)])];
      // re-read and scan for the task
      assert workflows[oid].tasks[i].id == tid;
      var index := ScanForTask(workflows[oid].tasks, tid);
      return Ok(workflows[oid].tasks[index.value]);
    }

    method DeleteTaskByID(workflowId: string, taskId: string) returns (r: Outcome)
      requires Valid()
      modifies this
      ensures Valid()
      ensures (workflows, r) == DeleteTaskEffect(old(workflows), workflowId, taskId)
    {
      var parsedWorkflow := ObjectIdFromHex(workflowId);
      if parsedWorkflow.None? {
        return Fail(InvalidObjectIdFormat);
      }
      var parsedTask := ObjectIdFromHex(taskId);
      if parsedTask.None? {
        return Fail(InvalidObjectIdFormat);
      }
      var oid := parsedWorkflow.value;
      if oid !in workflows {
        return Fail(NoTaskDeleted);
      }
      workflows := workflows[oid := workflows[oid].(tasks := PullTask(workflows[oid].tasks, parsedTask.value))];
      return Pass;
    }
  }
}
