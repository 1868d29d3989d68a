/** Request payloads and the binding rules `ShouldBindJSON` enforces on them. A body that could
    not be decoded at all is `None`. */
module Requests {
  import opened Results
  import opened Models

  datatype CreateWorkflowRequest = CreateWorkflowRequest(name: string)

  datatype EditWorkflowRequest = EditWorkflowRequest(name: string)

  datatype CreateTaskRequest = CreateTaskRequest(name: string, description: string)

  datatype EditTaskRequest = EditTaskRequest(name: string, description: string, status: TaskStatus, order: int)

  /** The registration payload `CreateOne` receives. */
  datatype RegisterRequest = RegisterRequest(username: string, password: string, role: UserRole)

  /** `min=3,max=100`, counted in characters; it also rejects the empty string. */
  predicate NameBinds(name: string) {
    3 <= |name| <= 100
  }

  predicate CreateWorkflowBinds(body: Option<CreateWorkflowRequest>) {
    body.Some? && NameBinds(body.value.name)
  }

  predicate EditWorkflowBinds(body: Option<EditWorkflowRequest>) {
    body.Some? && NameBinds(body.value.name)
  }

  predicate CreateTaskBinds(body: Option<CreateTaskRequest>) {
    body.Some? && NameBinds(body.value.name)
  }

  /** `required` on a string means non-empty and on an int means non-zero; the order may be
      negative, and nothing relates it to the orders already in the workflow. */
  predicate EditTaskBinds(body: Option<EditTaskRequest>) {
    body.Some? && NameBinds(body.value.name) && body.value.status != "" && body.value.order != 0
  }
}
