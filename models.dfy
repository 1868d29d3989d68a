/** The stored entities (workflows with their embedded tasks, users), the principal carried by
    an access token, and the access decision every mutating handler consults. */
module Models {
  import opened ObjectIds

  /** A clock reading, as written by `SetCreatedAt` / `SetUpdatedAt`. */
  type Time = int

  /** A named string type: the constants below are conventional, any string can be stored. */
  type TaskStatus = string

  const Pending: TaskStatus := "Pending"
  const InProgress: TaskStatus := "In Progress"
  const Completed: TaskStatus := "Completed"

  datatype Task = Task(
    id: ObjectId,
    name: string,
    description: string,
    status: TaskStatus,
    order: int,
    createdAt: Time,
    updatedAt: Time)

  datatype Workflow = Workflow(
    id: ObjectId,
    name: string,
    tasks: seq<Task>,
    owner: string,
    createdAt: Time,
    updatedAt: Time)

  type UserRole = string

  const Admin: UserRole := "Admin"
  const Employer: UserRole := "Employer"

  type UserAction = string

  const Edit: UserAction := "Edit"
  const Delete: UserAction := "Delete"
  const Transfer: UserAction := "Transfer"

  datatype User = User(username: string, password: string, role: UserRole)

  /** The authenticated principal. */
  datatype JWTUser = JWTUser(username: string, role: UserRole)

  /** `Workflow.CheckWorkflowAccess`. The owner may do anything. Otherwise the switch decides:
      "transfer" re-tests ownership, the empty "edit" case does not fall through and ends at the
      final `return false`, "delete" compares the role with the lower-case literal "admin", and
      every other action string is refused. */
  function CheckWorkflowAccess(workflow: Workflow, user: JWTUser, action: UserAction): (allowed: bool)
    ensures allowed <==> user.username == workflow.owner || (action == "delete" && user.role == "admin")
  {
    if user.username == workflow.owner then true
    else if action == "transfer" then user.username == workflow.owner
    else if action == "edit" then false
    else if action == "delete" then user.role == "admin"
    else false
  }

  /** What a principal who does not own the workflow is allowed. */
  lemma NonOwnerAccess(workflow: Workflow, user: JWTUser)
    requires user.username != workflow.owner
    ensures !CheckWorkflowAccess(workflow, user, "transfer")
    ensures !CheckWorkflowAccess(workflow, user, "edit")
    ensures CheckWorkflowAccess(workflow, user, "delete") <==> user.role == "admin"
    ensures forall action :: action != "delete" ==> !CheckWorkflowAccess(workflow, user, action)
  {
  }

  /** The declared constants do not match the literals the decision compares with: the role
      constant `Admin` is "Admin", and the action constants are capitalised. */
  lemma DeclaredConstantsDoNotQualify(workflow: Workflow, user: JWTUser)
    requires user.username != workflow.owner
    ensures user.role == Admin ==> !CheckWorkflowAccess(workflow, user, "delete")
    ensures !CheckWorkflowAccess(workflow, user, Edit)
    ensures !CheckWorkflowAccess(workflow, user, Delete)
    ensures !CheckWorkflowAccess(workflow, user, Transfer)
  {
  }

  /** The decision reads nothing of the workflow but its owner. */
  lemma AccessDependsOnlyOnOwner(w1: Workflow, w2: Workflow, user: JWTUser, action: UserAction)
    requires w1.owner == w2.owner
    ensures CheckWorkflowAccess(w1, user, action) == CheckWorkflowAccess(w2, user, action)
  {
  }
}
