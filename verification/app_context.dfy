/** The store the application actually mounts (src/store/AppContext.jsx): its
    own copy of the reducer, written without any impersonation case, and its own
    copy of the permission helpers. Its `actions` object issues the same
    operations as the action layer, so the traces of AppActions apply to it. */
module AppContext {
  import opened Wrappers
  import opened Domain
  import opened Seqs
  import R = AppReducer
  import A = AppActions
  import O = Outcomes

  /** The reducer of AppContext.jsx. Its ActionTypes has no impersonation keys
      and its switch no impersonation label, so both impersonation actions reach
      the default. */
  function Reduce(s: R.State, a: R.Action): R.State {
    match a
    case SetLoading(b) => s.(loading := b)
    case SetError(e) => s.(error := e, loading := false)
    case SetUser(u) => s.(user := u)
    case SetUsers(us) => s.(users := us)
    case SetProjects(ps) => s.(projects := ps)
    case SetTasks(ts) => s.(tasks := ts)
    case SetCurrentProject(p) => s.(currentProject := p)
    case AddProject(p) => s.(projects := s.projects + [p])
    case UpdateProject(p) =>
      s.(projects := ReplaceById(s.projects, p, ProjectId),
         currentProject := if s.currentProject.Some? && s.currentProject.value.id == p.id then Some(p) else s.currentProject)
    case DeleteProject(id) =>
      s.(projects := RemoveById(s.projects, id, ProjectId),
         currentProject := if s.currentProject.Some? && s.currentProject.value.id == id then None else s.currentProject)
    case AddTask(t) => s.(tasks := s.tasks + [t])
    case UpdateTask(t) => s.(tasks := ReplaceById(s.tasks, t, TaskId))
    case DeleteTask(id) => s.(tasks := RemoveById(s.tasks, id, TaskId))
    case ClearState => R.InitialState
    case _ => s
  }

  /** Applies a trace of dispatched actions in order. */
  function Run(s: R.State, trace: seq<R.Action>): R.State
    decreases |trace|
  {
    if trace == [] then s else Run(Reduce(s, trace[0]), trace[1..])
  }

  /** On each of its fourteen action types this reducer yields what appReducer.js
      yields; an impersonation action leaves the state unchanged. */
  lemma AgreesWithAppReducer(s: R.State, a: R.Action)
    ensures !a.IsImpersonation() ==> Reduce(s, a) == R.Reduce(s, a)
    ensures a.IsImpersonation() ==> Reduce(s, a) == s
  {
  }

  /** UPDATE_PROJECT and DELETE_PROJECT keep `currentProject` in step exactly when
      the ids match. */
  lemma SyncsCurrentProject(s: R.State, p: Project, id: int)
    ensures Reduce(s, R.UpdateProject(p)).currentProject
         == (if R.IsCurrent(s, p.id) then Some(p) else s.currentProject)
    ensures Reduce(s, R.DeleteProject(id)).currentProject
         == (if R.IsCurrent(s, id) then None else s.currentProject)
  {
  }

  /** Over any trace free of impersonation actions the mounted store and
      appReducer.js end in the same state. */
  lemma {:induction false} RunAgrees(s: R.State, trace: seq<R.Action>)
    requires A.StoreOnly(trace)
    ensures Run(s, trace) == R.Run(s, trace)
    decreases |trace|
  {
    if trace != [] {
      AgreesWithAppReducer(s, trace[0]);
      assert A.StoreOnly(trace[1..]) by {
        forall i | 0 <= i < |trace[1..]| ensures !trace[1..][i].IsImpersonation() {
          assert trace[1..][i] == trace[i + 1];
        }
      }
      RunAgrees(Reduce(s, trace[0]), trace[1..]);
    }
  }

  /** What the action layer promises holds in the mounted store too: every fetch
      ends with the flag down, and `clearError` leaves no error and no loading. */
  lemma MountedStoreKeepsDiscipline(s: R.State, users: O.ServiceResult<seq<User>>,
                                    projects: O.ServiceResult<seq<Project>>,
                                    tasks: O.ServiceResult<seq<Task>>)
    ensures !Run(s, A.FetchUsers(users).trace).loading
    ensures !Run(s, A.FetchProjects(projects).trace).loading
    ensures !Run(s, A.FetchTasksByProject(tasks).trace).loading
    ensures Run(s, A.ClearError().trace) == s.(error := None, loading := false)
  {
    RunAgrees(s, A.FetchUsers(users).trace);
    A.FetchUsersOutcome(s, users);
    RunAgrees(s, A.FetchProjects(projects).trace);
    A.FetchProjectsOutcome(s, projects);
    RunAgrees(s, A.FetchTasksByProject(tasks).trace);
    A.FetchTasksOutcome(s, tasks);
    RunAgrees(s, A.ClearError().trace);
    A.ClearErrorResets(s);
  }

  /** `isAdmin()` */
  function IsAdmin(user: Option<User>): (r: bool)
    ensures r ==> user.Some?
  {
    user.Some? && user.value.role == Some("ADMIN")
  }

  /** `canUpdateTask(task)` */
  function CanUpdateTask(user: Option<User>, task: Option<Task>): (r: bool)
    ensures task.None? || user.None? ==> !r
  {
    if task.None? || user.None? then false
    else user.value.role == Some("ADMIN") || EffectiveAssignee(task.value) == Num(user.value.id)
  }

  /** `canDeleteTask(task)` */
  function CanDeleteTask(user: Option<User>, task: Option<Task>): (r: bool)
    ensures task.None? || user.None? ==> !r
  {
    if task.None? || user.None? then false
    else user.value.role == Some("ADMIN") || EffectiveAssignee(task.value) == Num(user.value.id)
  }

  /** The helpers of AppContext.jsx agree with each other and with those of
      appActions.js. */
  lemma PredicatesAgreeWithAppActions(user: Option<User>, task: Option<Task>)
    ensures CanUpdateTask(user, task) == CanDeleteTask(user, task)
    ensures CanUpdateTask(user, task) == A.CanUpdateTask(user, task)
    ensures CanDeleteTask(user, task) == A.CanDeleteTask(user, task)
    ensures IsAdmin(user) == A.IsAdmin(user)
  {
  }
}
