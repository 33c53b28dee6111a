/** The value shapes shared by the store, the action layer and the views:
    users, projects and tasks as the REST backend returns them. */
module Domain {
  import opened Wrappers

  /** A field that holds a number or is missing. JavaScript tells `undefined`
      and `null` apart under `===`, and so do these constructors under `==`. */
  datatype Slot = Undefined | Null | Num(n: int) {

    /** JavaScript truthiness of the value: `undefined`, `null` and `0` are falsy. */
    predicate Truthy() {
      Num? && n != 0
    }
  }

  /** The role string that marks an administrator. */
  const AdminRole: string := "ADMIN"

  datatype User = User(id: int, name: Option<string>, email: Option<string>, role: Option<string>)

  datatype Project = Project(id: int, name: string, description: Option<string>, ownerId: Slot)

  /** The backend sends the assignee under either `assignee_id` or `assigneeId`;
      both spellings are kept, as the client reads both. */
  datatype Task = Task(
    id: int,
    projectId: int,
    title: string,
    description: Option<string>,
    status: Option<string>,
    priority: Option<string>,
    assignee_id: Slot,
    assigneeId: Slot)

  function ProjectId(p: Project): int {
    p.id
  }

  function TaskId(t: Task): int {
    t.id
  }

  /** `user?.id`: undefined when there is no user. */
  function IdOf(user: Option<User>): (r: Slot)
    ensures r.Undefined? <==> user.None?
    ensures user.Some? ==> r == Num(user.value.id)
  {
    match user
    case Some(u) => Num(u.id)
    case None => Undefined
  }

  /** `user?.role === 'ADMIN'`, the one admin test every predicate shares. */
  predicate HasAdminRole(user: Option<User>) {
    user.Some? && user.value.role == Some(AdminRole)
  }

  /** `task.assignee_id || task.assigneeId`: the snake-case field wins when it is
      truthy, otherwise the camel-case field is taken whatever it holds. */
  function EffectiveAssignee(t: Task): (r: Slot)
    ensures r == t.assignee_id || r == t.assigneeId
    ensures r.Truthy() <==> t.assignee_id.Truthy() || t.assigneeId.Truthy()
    ensures t.assignee_id.Truthy() ==> r == t.assignee_id
    ensures !t.assignee_id.Truthy() ==> r == t.assigneeId
  {
    if t.assignee_id.Truthy() then t.assignee_id else t.assigneeId
  }

  /** A task is assigned to a non-zero user id exactly when its snake-case field
      names that id, or that field is falsy and the camel-case field names it. */
  lemma AssignedToNonZeroId(t: Task, id: int)
    requires id != 0
    ensures EffectiveAssignee(t) == Num(id)
        <==> t.assignee_id == Num(id) || (!t.assignee_id.Truthy() && t.assigneeId == Num(id))
  {
  }
}
