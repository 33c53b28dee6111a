/** The action layer (src/store/appActions.js, `createActions`). Each async
    operation is a function from its service call's outcome to the actions it
    dispatches, in order, and to how its promise ends. Folding the reducer over
    the trace gives the state the operation leaves behind. */
module AppActions {
  import opened Wrappers
  import opened Domain
  import opened Outcomes
  import R = AppReducer

  /** The actions an operation dispatches and how it ends. */
  datatype Effect<+T> = Effect(trace: seq<R.Action>, completion: Completion<T>)

  /** `dispatch({type: SET_ERROR, payload: error.message})` */
  function Recorded(f: Failure): R.Action {
    R.SetError(Some(f.message))
  }

  /** No impersonation action occurs in the trace. */
  predicate StoreOnly(trace: seq<R.Action>) {
    forall i :: 0 <= i < |trace| ==> !trace[i].IsImpersonation()
  }

  /** Some action of the trace sets or clears the loading flag. */
  predicate TouchesLoading(trace: seq<R.Action>) {
    exists i :: 0 <= i < |trace| && trace[i].SetLoading?
  }

  /** Some action of the trace records an error. */
  predicate RecordsError(trace: seq<R.Action>) {
    exists i :: 0 <= i < |trace| && trace[i].SetError?
  }

  /** The shape shared by `fetchUsers`, `fetchProjects` and `fetchTasksByProject`:
      raise the loading flag, store the result or record the failure, and in
      `finally` lower the flag; a failure is swallowed. */
  function FetchAll<T>(res: ServiceResult<T>, store: T -> R.Action): (e: Effect<()>)
    ensures |e.trace| == 3
    ensures e.trace[0] == R.SetLoading(true) && e.trace[2] == R.SetLoading(false)
    ensures e.completion == Return(())
    ensures res.Ok? ==> e.trace[1] == store(res.value)
    ensures res.Err? ==> e.trace[1] == Recorded(res.failure)
  {
    var middle := match res
      case Ok(v) => store(v)
      case Err(f) => Recorded(f);
    Effect([R.SetLoading(true), middle, R.SetLoading(false)], Return(()))
  }

  /** The shape shared by the single-entity mutations: on success one action
      built from the server's entity and that entity returned; on failure the
      message recorded and the same failure rethrown. The loading flag is not
      raised. */
  function Mutate<T, U>(res: ServiceResult<T>, onSuccess: T -> R.Action, returned: T -> U): (e: Effect<U>)
    ensures |e.trace| == 1
    ensures res.Ok? ==> e.trace == [onSuccess(res.value)] && e.completion == Return(returned(res.value))
    ensures res.Err? ==> e.trace == [Recorded(res.failure)] && e.completion == Throw(res.failure)
  {
    match res
    case Ok(v) => Effect([onSuccess(v)], Return(returned(v)))
    case Err(f) => Effect([Recorded(f)], Throw(f))
  }

  /** `fetchUsers()` */
  function FetchUsers(res: ServiceResult<seq<User>>): (e: Effect<()>)
    ensures |e.trace| >= 2 && e.trace[0] == R.SetLoading(true) && e.trace[|e.trace| - 1] == R.SetLoading(false)
    ensures e.completion == Return(())
    ensures StoreOnly(e.trace)
    ensures forall us :: R.SetUsers(us) in e.trace <==> res == Ok(us)
    ensures RecordsError(e.trace) <==> res.Err?
  {
    FetchAll(res, (us: seq<User>) => R.SetUsers(us))
  }

  /** `fetchProjects()` */
  function FetchProjects(res: ServiceResult<seq<Project>>): (e: Effect<()>)
    ensures |e.trace| >= 2 && e.trace[0] == R.SetLoading(true) && e.trace[|e.trace| - 1] == R.SetLoading(false)
    ensures e.completion == Return(())
    ensures StoreOnly(e.trace)
    ensures forall ps :: R.SetProjects(ps) in e.trace <==> res == Ok(ps)
    ensures RecordsError(e.trace) <==> res.Err?
  {
    FetchAll(res, (ps: seq<Project>) => R.SetProjects(ps))
  }

  /** `fetchTasksByProject(projectId)`; the project id only selects the call. */
  function FetchTasksByProject(res: ServiceResult<seq<Task>>): (e: Effect<()>)
    ensures |e.trace| >= 2 && e.trace[0] == R.SetLoading(true) && e.trace[|e.trace| - 1] == R.SetLoading(false)
    ensures e.completion == Return(())
    ensures StoreOnly(e.trace)
    ensures forall ts :: R.SetTasks(ts) in e.trace <==> res == Ok(ts)
    ensures RecordsError(e.trace) <==> res.Err?
  {
    FetchAll(res, (ts: seq<Task>) => R.SetTasks(ts))
  }

  /** `createProject(projectData)` */
  function CreateProject(res: ServiceResult<Project>): (e: Effect<Project>)
    ensures !TouchesLoading(e.trace) && StoreOnly(e.trace)
    ensures res.Ok? ==> e.trace == [R.AddProject(res.value)] && e.completion == Return(res.value)
    ensures res.Err? ==> e.trace == [Recorded(res.failure)] && e.completion == Throw(res.failure)
  {
    Mutate(res, (p: Project) => R.AddProject(p), (p: Project) => p)
  }

  /** `updateProject(projectId, projectData)`: the store is updated with the
      project the server returns. */
  function UpdateProject(res: ServiceResult<Project>): (e: Effect<Project>)
    ensures !TouchesLoading(e.trace) && StoreOnly(e.trace)
    ensures res.Ok? ==> e.trace == [R.UpdateProject(res.value)] && e.completion == Return(res.value)
    ensures res.Err? ==> e.trace == [Recorded(res.failure)] && e.completion == Throw(res.failure)
  {
    Mutate(res, (p: Project) => R.UpdateProject(p), (p: Project) => p)
  }

  /** `deleteProject(id)`: the store deletes the id the caller asked for. */
  function DeleteProject(id: int, res: ServiceResult<()>): (e: Effect<()>)
    ensures !TouchesLoading(e.trace) && StoreOnly(e.trace)
    ensures res.Ok? ==> e.trace == [R.DeleteProject(id)] && e.completion == Return(())
    ensures res.Err? ==> e.trace == [Recorded(res.failure)] && e.completion == Throw(res.failure)
  {
    match res
    case Ok(_) => Effect([R.DeleteProject(id)], Return(()))
    case Err(f) => Effect([Recorded(f)], Throw(f))
  }

  /** `createTask(taskData)` */
  function CreateTask(res: ServiceResult<Task>): (e: Effect<Task>)
    ensures !TouchesLoading(e.trace) && StoreOnly(e.trace)
    ensures res.Ok? ==> e.trace == [R.AddTask(res.value)] && e.completion == Return(res.value)
    ensures res.Err? ==> e.trace == [Recorded(res.failure)] && e.completion == Throw(res.failure)
  {
    Mutate(res, (t: Task) => R.AddTask(t), (t: Task) => t)
  }

  /** `updateTask(id, taskData)` */
  function UpdateTask(res: ServiceResult<Task>): (e: Effect<Task>)
    ensures !TouchesLoading(e.trace) && StoreOnly(e.trace)
    ensures res.Ok? ==> e.trace == [R.UpdateTask(res.value)] && e.completion == Return(res.value)
    ensures res.Err? ==> e.trace == [Recorded(res.failure)] && e.completion == Throw(res.failure)
  {
    Mutate(res, (t: Task) => R.UpdateTask(t), (t: Task) => t)
  }

  /** `updateTaskStatus(id, status)`: the status goes to the server, and the store
      takes whatever task the server returns. */
  function UpdateTaskStatus(res: ServiceResult<Task>): (e: Effect<Task>)
    ensures !TouchesLoading(e.trace) && StoreOnly(e.trace)
    ensures res.Ok? ==> e.trace == [R.UpdateTask(res.value)] && e.completion == Return(res.value)
    ensures res.Err? ==> e.trace == [Recorded(res.failure)] && e.completion == Throw(res.failure)
  {
    match res
    case Ok(t) => Effect([R.UpdateTask(t)], Return(t))
    case Err(f) => Effect([Recorded(f)], Throw(f))
  }

  /** `deleteTask(id)` */
  function DeleteTask(id: int, res: ServiceResult<()>): (e: Effect<()>)
    ensures !TouchesLoading(e.trace) && StoreOnly(e.trace)
    ensures res.Ok? ==> e.trace == [R.DeleteTask(id)] && e.completion == Return(())
    ensures res.Err? ==> e.trace == [Recorded(res.failure)] && e.completion == Throw(res.failure)
  {
    match res
    case Ok(_) => Effect([R.DeleteTask(id)], Return(()))
    case Err(f) => Effect([Recorded(f)], Throw(f))
  }

  /** `fetchProjectMembers(projectId)`: the flag is raised and lowered around the
      call, the members are returned and never stored; a failure is recorded and
      rethrown, after `finally` has lowered the flag. */
  function FetchProjectMembers(res: ServiceResult<seq<User>>): (e: Effect<seq<User>>)
    ensures |e.trace| >= 2 && e.trace[0] == R.SetLoading(true) && e.trace[|e.trace| - 1] == R.SetLoading(false)
    ensures StoreOnly(e.trace)
    ensures res.Ok? ==> e.completion == Return(res.value) && !RecordsError(e.trace)
    ensures res.Err? ==> e.completion == Throw(res.failure) && Recorded(res.failure) in e.trace
  {
    match res
    case Ok(ms) => Effect([R.SetLoading(true), R.SetLoading(false)], Return(ms))
    case Err(f) => Effect([R.SetLoading(true), Recorded(f), R.SetLoading(false)], Throw(f))
  }

  /** `addProjectMember(projectId, userId)`: membership is not kept in the store,
      so success dispatches nothing. */
  function AddProjectMember(res: ServiceResult<User>): (e: Effect<User>)
    ensures res.Ok? ==> e.trace == [] && e.completion == Return(res.value)
    ensures res.Err? ==> e.trace == [Recorded(res.failure)] && e.completion == Throw(res.failure)
  {
    match res
    case Ok(m) => Effect([], Return(m))
    case Err(f) => Effect([Recorded(f)], Throw(f))
  }

  /** `removeProjectMember(projectId, userId)` */
  function RemoveProjectMember(res: ServiceResult<()>): (e: Effect<()>)
    ensures res.Ok? ==> e.trace == [] && e.completion == Return(())
    ensures res.Err? ==> e.trace == [Recorded(res.failure)] && e.completion == Throw(res.failure)
  {
    match res
    case Ok(_) => Effect([], Return(()))
    case Err(f) => Effect([Recorded(f)], Throw(f))
  }

  /** `clearError()` */
  function ClearError(): (e: Effect<()>)
    ensures StoreOnly(e.trace) && RecordsError(e.trace)
    ensures e.trace == [R.SetError(None)] && e.completion == Return(())
  {
    var e := Effect([R.SetError(None)], Return(()));
    assert e.trace[0].SetError?;
    e
  }

  /** After a fetch the flag is down. On success the collection is replaced
      wholesale and the error untouched; on failure the collection is untouched,
      the message is recorded and the operation still resolves. */
  lemma FetchUsersOutcome(s: R.State, res: ServiceResult<seq<User>>)
    ensures var r := R.Run(s, FetchUsers(res).trace);
      && !r.loading
      && (res.Ok? ==> r == s.(users := res.value, loading := false))
      && (res.Err? ==> r == s.(error := Some(res.failure.message), loading := false))
  {
    var e := FetchUsers(res);
    R.RunThree(s, e.trace[0], e.trace[1], e.trace[2]);
  }

  lemma FetchProjectsOutcome(s: R.State, res: ServiceResult<seq<Project>>)
    ensures var r := R.Run(s, FetchProjects(res).trace);
      && !r.loading
      && (res.Ok? ==> r == s.(projects := res.value, loading := false))
      && (res.Err? ==> r == s.(error := Some(res.failure.message), loading := false))
  {
    var e := FetchProjects(res);
    R.RunThree(s, e.trace[0], e.trace[1], e.trace[2]);
  }

  lemma FetchTasksOutcome(s: R.State, res: ServiceResult<seq<Task>>)
    ensures var r := R.Run(s, FetchTasksByProject(res).trace);
      && !r.loading
      && (res.Ok? ==> r == s.(tasks := res.value, loading := false))
      && (res.Err? ==> r == s.(error := Some(res.failure.message), loading := false))
  {
    var e := FetchTasksByProject(res);
    R.RunThree(s, e.trace[0], e.trace[1], e.trace[2]);
  }

  /** A failed mutation leaves every collection and the current project as they
      were, records the message, lowers the loading flag (SET_ERROR always does)
      and rethrows the same failure. */
  lemma MutationFailureKeepsData(s: R.State, f: Failure, id: int)
    ensures var expected := s.(error := Some(f.message), loading := false);
      && R.Run(s, CreateProject(Err(f)).trace) == expected
      && R.Run(s, UpdateProject(Err(f)).trace) == expected
      && R.Run(s, DeleteProject(id, Err(f)).trace) == expected
      && R.Run(s, CreateTask(Err(f)).trace) == expected
      && R.Run(s, UpdateTask(Err(f)).trace) == expected
      && R.Run(s, UpdateTaskStatus(Err(f)).trace) == expected
      && R.Run(s, DeleteTask(id, Err(f)).trace) == expected
      && R.Run(s, AddProjectMember(Err(f)).trace) == expected
      && R.Run(s, RemoveProjectMember(Err(f)).trace) == expected
  {
    R.RunSingle(s, Recorded(f));
  }

  /** A successful mutation applies exactly its one transition to the state. */
  lemma MutationSuccessApplies(s: R.State, p: Project, t: Task, id: int)
    ensures R.Run(s, CreateProject(Ok(p)).trace) == R.Reduce(s, R.AddProject(p))
    ensures R.Run(s, UpdateProject(Ok(p)).trace) == R.Reduce(s, R.UpdateProject(p))
    ensures R.Run(s, DeleteProject(id, Ok(())).trace) == R.Reduce(s, R.DeleteProject(id))
    ensures R.Run(s, CreateTask(Ok(t)).trace) == R.Reduce(s, R.AddTask(t))
    ensures R.Run(s, UpdateTask(Ok(t)).trace) == R.Reduce(s, R.UpdateTask(t))
    ensures R.Run(s, DeleteTask(id, Ok(())).trace) == R.Reduce(s, R.DeleteTask(id))
  {
    R.RunSingle(s, R.AddProject(p));
    R.RunSingle(s, R.UpdateProject(p));
    R.RunSingle(s, R.DeleteProject(id));
    R.RunSingle(s, R.AddTask(t));
    R.RunSingle(s, R.UpdateTask(t));
    R.RunSingle(s, R.DeleteTask(id));
  }

  /** `updateTask` and `updateTaskStatus` differ only in what they send: for the
      same server answer they dispatch and return the same. */
  lemma UpdateTaskAndStatusAgree(res: ServiceResult<Task>)
    ensures UpdateTask(res) == UpdateTaskStatus(res)
  {
  }

  /** Member operations never touch a collection: fetching only toggles the
      flag (and records a failure), adding and removing change nothing on
      success. */
  lemma MemberOperationsKeepCollections(s: R.State, ms: ServiceResult<seq<User>>, m: User)
    ensures ms.Ok? ==> R.Run(s, FetchProjectMembers(ms).trace) == s.(loading := false)
    ensures ms.Err? ==> R.Run(s, FetchProjectMembers(ms).trace) == s.(error := Some(ms.failure.message), loading := false)
    ensures R.Run(s, AddProjectMember(Ok(m)).trace) == s
    ensures R.Run(s, RemoveProjectMember(Ok(())).trace) == s
  {
    var e := FetchProjectMembers(ms);
    if ms.Ok? {
      R.RunTwo(s, e.trace[0], e.trace[1]);
    } else {
      R.RunThree(s, e.trace[0], e.trace[1], e.trace[2]);
    }
  }

  /** `clearError()` empties the error and lowers the flag, nothing else. */
  lemma ClearErrorResets(s: R.State)
    ensures R.Run(s, ClearError().trace) == s.(error := None, loading := false)
  {
    R.RunSingle(s, R.SetError(None));
  }

  /** `isAdmin()` */
  function IsAdmin(user: Option<User>): (r: bool)
    ensures r ==> user.Some?
  {
    user.Some? && user.value.role == Some(AdminRole)
  }

  /** `canManageProjects()` */
  function CanManageProjects(user: Option<User>): (r: bool)
    ensures r ==> user.Some?
  {
    user.Some? && user.value.role == Some(AdminRole)
  }

  /** `canManageProjectMembers()` */
  function CanManageProjectMembers(user: Option<User>): (r: bool)
    ensures r ==> user.Some?
  {
    user.Some? && user.value.role == Some(AdminRole)
  }

  /** The three management predicates are one test: the acting user's role is
      exactly "ADMIN". */
  lemma ManagementPredicatesAgree(user: Option<User>)
    ensures IsAdmin(user) == CanManageProjects(user) == CanManageProjectMembers(user)
    ensures IsAdmin(user) <==> HasAdminRole(user)
    ensures user.None? ==> !IsAdmin(user)
  {
  }

  /** `canUpdateTask(task)`: no task or no user refuses; an admin may update any
      task; anyone else only a task whose effective assignee is their id. */
  function CanUpdateTask(user: Option<User>, task: Option<Task>): (r: bool)
    ensures task.None? || user.None? ==> !r
    ensures task.Some? && IsAdmin(user) ==> r
    ensures task.Some? && user.Some? && !IsAdmin(user) ==> (r <==> EffectiveAssignee(task.value) == Num(user.value.id))
  {
    if task.None? || user.None? then false
    else user.value.role == Some(AdminRole) || EffectiveAssignee(task.value) == Num(user.value.id)
  }

  /** `canDeleteTask(task)` */
  function CanDeleteTask(user: Option<User>, task: Option<Task>): (r: bool)
    ensures task.None? || user.None? ==> !r
    ensures task.Some? && IsAdmin(user) ==> r
    ensures task.Some? && user.Some? && !IsAdmin(user) ==> (r <==> EffectiveAssignee(task.value) == Num(user.value.id))
  {
    if task.None? || user.None? then false
    else user.value.role == Some(AdminRole) || EffectiveAssignee(task.value) == Num(user.value.id)
  }

  /** Whoever may update a task may delete it, and the other way round. */
  lemma UpdateAndDeleteAgree(user: Option<User>, task: Option<Task>)
    ensures CanUpdateTask(user, task) == CanDeleteTask(user, task)
  {
  }

  /** The authorization examples: a plain user with id 1 may not update a task
      assigned to 2, may update one assigned to 1, and an admin may update
      either. */
  lemma AuthorizationExamples()
    ensures var plain := Some(User(1, None, None, Some("USER")));
      var admin := Some(User(1, None, None, Some("ADMIN")));
      var toTwo := Task(10, 1, "t", None, None, None, Undefined, Num(2));
      var toOne := Task(11, 1, "t", None, None, None, Undefined, Num(1));
      && !CanUpdateTask(plain, Some(toTwo))
      && CanUpdateTask(plain, Some(toOne))
      && CanUpdateTask(admin, Some(toTwo)) && CanUpdateTask(admin, Some(toOne))
  {
  }
}
