/** The client's state store (src/store/appReducer.js): the Core State record,
    its initial value, the closed set of actions and the reducer, a total
    function of state and action. */
module AppReducer {
  import opened Wrappers
  import opened Domain
  import opened Seqs

  /** Core State. The impersonation fields are absent from the initial state,
      so each of them is an Option that starts as None. */
  datatype State = State(
    user: Option<User>,
    users: seq<User>,
    projects: seq<Project>,
    tasks: seq<Task>,
    currentProject: Option<Project>,
    loading: bool,
    error: Option<string>,
    originalUser: Option<User>,
    impersonatedUser: Option<User>,
    isImpersonating: Option<bool>)

  const InitialState: State := State(None, [], [], [], None, false, None, None, None, None)

  /** The values of `ActionTypes`. There is no START_IMPERSONATION and no
      STOP_IMPERSONATION key, so `ActionTypes.START_IMPERSONATION` and
      `ActionTypes.STOP_IMPERSONATION` are both `undefined`. */
  const ActionTypeKeys: set<string> := {
    "SET_LOADING", "SET_ERROR", "SET_USER", "SET_USERS", "SET_PROJECTS", "SET_TASKS",
    "SET_CURRENT_PROJECT", "ADD_PROJECT", "UPDATE_PROJECT", "DELETE_PROJECT",
    "ADD_TASK", "UPDATE_TASK", "DELETE_TASK", "CLEAR_STATE"
  }

  /** An action type string that is none of the `ActionTypes` values, such as the
      literal "START_IMPERSONATION". */
  type UnknownType = t: string | t !in ActionTypeKeys witness ""

  /** The actions. The first fourteen are dispatched as `{type: ActionTypes.X, payload}`.
      StartImpersonation and StopImpersonation denote the two impersonation
      transitions; no string-typed dispatch reaches them (see ReduceAsWritten
      for what a dispatch through `ActionTypes` does). Other is any action whose
      type is an unknown string. */
  datatype Action =
    | SetLoading(flag: bool)
    | SetError(message: Option<string>)
    | SetUser(newUser: Option<User>)
    | SetUsers(allUsers: seq<User>)
    | SetProjects(allProjects: seq<Project>)
    | SetTasks(allTasks: seq<Task>)
    | SetCurrentProject(selected: Option<Project>)
    | AddProject(project: Project)
    | UpdateProject(project: Project)
    | DeleteProject(id: int)
    | AddTask(task: Task)
    | UpdateTask(task: Task)
    | DeleteTask(id: int)
    | ClearState
    | StartImpersonation(target: User)
    | StopImpersonation
    | Other(tag: UnknownType)
  {
    predicate IsImpersonation() {
      StartImpersonation? || StopImpersonation?
    }
  }

  /** `state.currentProject?.id === id` */
  predicate IsCurrent(s: State, id: int) {
    s.currentProject.Some? && s.currentProject.value.id == id
  }

  /** The START_IMPERSONATION case body. The captured identity is
      `state.originalUser || state.user`: an earlier capture wins over the
      acting user. */
  function StartImpersonationCase(s: State, payload: Option<User>): State {
    var original := if s.originalUser.Some? then s.originalUser else s.user;
    s.(isImpersonating := Some(true), originalUser := original, impersonatedUser := payload, user := payload)
  }

  /** The STOP_IMPERSONATION case body: the acting user becomes whatever
      `originalUser` holds, null included. */
  function StopImpersonationCase(s: State): State {
    s.(isImpersonating := Some(false), user := s.originalUser, originalUser := None, impersonatedUser := None)
  }

  /** The DELETE_PROJECT case body: the project leaves the list, and stops
      being the current one if it was. */
  function DeleteProjectCase(s: State, id: int): State {
    s.(projects := RemoveById(s.projects, id, ProjectId),
       currentProject := if IsCurrent(s, id) then None else s.currentProject)
  }

  /** The reducer, with each impersonation action reaching its own case body. */
  function Reduce(s: State, a: Action): State {
    match a
    case SetLoading(b) => s.(loading := b)
    case SetError(e) => s.(error := e, loading := false)
    case SetUser(u) => s.(user := u)
    case SetUsers(us) => s.(users := us)
    case SetProjects(ps) => s.(projects := ps)
    case SetTasks(ts) => s.(tasks := ts)
    case SetCurrentProject(p) => s.(currentProject := p)
    case AddProject(p) => s.(projects := s.projects + [p])
    case UpdateProject(p) =>
      s.(projects := ReplaceById(s.projects, p, ProjectId),
         currentProject := if IsCurrent(s, p.id) then Some(p) else s.currentProject)
    case DeleteProject(id) => DeleteProjectCase(s, id)
    case AddTask(t) => s.(tasks := s.tasks + [t])
    case UpdateTask(t) => s.(tasks := ReplaceById(s.tasks, t, TaskId))
    case DeleteTask(id) => s.(tasks := RemoveById(s.tasks, id, TaskId))
    case ClearState => InitialState
    case StartImpersonation(u) => StartImpersonationCase(s, Some(u))
    case StopImpersonation => StopImpersonationCase(s)
    case Other(_) => s
  }

  /** The reducer as the switch is written. A dispatch of
      `{type: ActionTypes.STOP_IMPERSONATION}` carries type `undefined` and no
      payload; `switch` compares with `===` and takes the first matching label,
      which is the START_IMPERSONATION label (also `undefined`), so it runs the
      START body with an undefined payload. */
  function ReduceAsWritten(s: State, a: Action): State {
    if a.StopImpersonation? then StartImpersonationCase(s, None) else Reduce(s, a)
  }

  /** Applies a trace of dispatched actions in order. */
  function Run(s: State, trace: seq<Action>): State
    decreases |trace|
  {
    if trace == [] then s else Run(Reduce(s, trace[0]), trace[1..])
  }

  /** The fields no impersonation transition touches. */
  predicate SameData(s: State, t: State) {
    && s.users == t.users
    && s.projects == t.projects
    && s.tasks == t.tasks
    && s.currentProject == t.currentProject
    && s.loading == t.loading
    && s.error == t.error
  }

  /** Running two traces one after the other is running their concatenation. */
  lemma {:induction false} RunAppend(s: State, t1: seq<Action>, t2: seq<Action>)
    ensures Run(s, t1 + t2) == Run(Run(s, t1), t2)
    decreases |t1|
  {
    if t1 == [] {
      assert t1 + t2 == t2;
    } else {
      assert (t1 + t2)[1..] == t1[1..] + t2;
      RunAppend(Reduce(s, t1[0]), t1[1..], t2);
    }
  }

  lemma RunSingle(s: State, a: Action)
    ensures Run(s, [a]) == Reduce(s, a)
  {
    assert Run(Reduce(s, a), []) == Reduce(s, a);
  }

  lemma RunTwo(s: State, a: Action, b: Action)
    ensures Run(s, [a, b]) == Reduce(Reduce(s, a), b)
  {
    RunAppend(s, [a], [b]);
    assert [a] + [b] == [a, b];
    RunSingle(s, a);
    RunSingle(Reduce(s, a), b);
  }

  lemma RunThree(s: State, a: Action, b: Action, c: Action)
    ensures Run(s, [a, b, c]) == Reduce(Reduce(Reduce(s, a), b), c)
  {
    RunAppend(s, [a, b], [c]);
    assert [a, b] + [c] == [a, b, c];
    RunTwo(s, a, b);
    RunSingle(Reduce(Reduce(s, a), b), c);
  }

  /** SET_LOADING sets the flag and nothing else. */
  lemma SetLoadingSetsFlag(s: State, b: bool)
    ensures Reduce(s, SetLoading(b)) == s.(loading := b)
  {
  }

  /** SET_ERROR records the payload and always releases the loading flag; every
      other field is unchanged. */
  lemma SetErrorReleasesLoading(s: State, e: Option<string>)
    ensures Reduce(s, SetError(e)).error == e
    ensures !Reduce(s, SetError(e)).loading
    ensures Reduce(s, SetError(e)) == s.(error := e, loading := false)
  {
  }

  /** ADD_PROJECT appends: the old projects are an unchanged prefix and the
      payload is the one new last entry; nothing else changes. */
  lemma AddProjectAppends(s: State, p: Project)
    ensures var r := Reduce(s, AddProject(p));
      && |r.projects| == |s.projects| + 1
      && r.projects[..|s.projects|] == s.projects
      && r.projects[|s.projects|] == p
      && r == s.(projects := r.projects)
  {
  }

  /** ADD_TASK appends in the same way. */
  lemma AddTaskAppends(s: State, t: Task)
    ensures var r := Reduce(s, AddTask(t));
      && |r.tasks| == |s.tasks| + 1
      && r.tasks[..|s.tasks|] == s.tasks
      && r.tasks[|s.tasks|] == t
      && r == s.(tasks := r.tasks)
  {
  }

  /** UPDATE_TASK keeps length and order, turns every task carrying the
      payload's id into the payload, leaves every other task as it was, and is
      the identity on the state when no task has that id. */
  lemma UpdateTaskReplacesById(s: State, t: Task)
    ensures var r := Reduce(s, UpdateTask(t));
      && |r.tasks| == |s.tasks|
      && (forall i :: 0 <= i < |s.tasks| ==> r.tasks[i] == if s.tasks[i].id == t.id then t else s.tasks[i])
      && r == s.(tasks := r.tasks)
      && (!HasKey(s.tasks, t.id, TaskId) ==> r == s)
  {
    if !HasKey(s.tasks, t.id, TaskId) {
      ReplaceAbsentKey(s.tasks, t, TaskId);
    }
  }

  /** UPDATE_PROJECT replaces by id as UPDATE_TASK does, and replaces
      `currentProject` with the payload exactly when it is present with the same
      id; otherwise `currentProject` is unchanged. */
  lemma UpdateProjectSyncsCurrent(s: State, p: Project)
    ensures var r := Reduce(s, UpdateProject(p));
      && |r.projects| == |s.projects|
      && (forall i :: 0 <= i < |s.projects| ==> r.projects[i] == if s.projects[i].id == p.id then p else s.projects[i])
      && (r.currentProject == Some(p) <==> IsCurrent(s, p.id) || s.currentProject == Some(p))
      && (!IsCurrent(s, p.id) ==> r.currentProject == s.currentProject)
      && r == s.(projects := r.projects, currentProject := r.currentProject)
      && (!HasKey(s.projects, p.id, ProjectId) && !IsCurrent(s, p.id) ==> r == s)
  {
    if !HasKey(s.projects, p.id, ProjectId) {
      ReplaceAbsentKey(s.projects, p, ProjectId);
    }
  }

  /** DELETE_TASK leaves exactly the tasks whose id differs from the payload, in
      their original order and with their multiplicity. */
  lemma DeleteTaskRemovesById(s: State, id: int)
    ensures var r := Reduce(s, DeleteTask(id));
      && IsSubsequence(r.tasks, s.tasks)
      && (forall t :: multiset(r.tasks)[t] == if t.id == id then 0 else multiset(s.tasks)[t])
      && r == s.(tasks := r.tasks)
  {
  }

  /** DELETE_PROJECT removes by id in the same way, and clears `currentProject`
      exactly when it has the deleted id. */
  lemma DeleteProjectClearsCurrent(s: State, id: int)
    ensures var r := Reduce(s, DeleteProject(id));
      && IsSubsequence(r.projects, s.projects)
      && (forall p :: multiset(r.projects)[p] == if p.id == id then 0 else multiset(s.projects)[p])
      && (r.currentProject.None? <==> IsCurrent(s, id) || s.currentProject.None?)
      && (!IsCurrent(s, id) ==> r.currentProject == s.currentProject)
      && r == s.(projects := r.projects, currentProject := r.currentProject)
  {
  }

  /** Adding a project with a fresh id and deleting that id gives back the
      projects and the current project it started from. */
  lemma DeleteUndoesAddProject(s: State, p: Project)
    requires !HasKey(s.projects, p.id, ProjectId)
    requires !IsCurrent(s, p.id)
    ensures Reduce(Reduce(s, AddProject(p)), DeleteProject(p.id)) == s
  {
    var added := s.(projects := s.projects + [p]);
    assert Reduce(s, AddProject(p)) == added;
    assert RemoveById(added.projects, p.id, ProjectId) == s.projects by {
      RemoveUndoesAppend(s.projects, p, p.id, ProjectId);
    }
    ReduceDeleteProject(added, p.id);
  }

  /** DELETE_PROJECT reaches its case body. */
  lemma ReduceDeleteProject(s: State, id: int)
    ensures Reduce(s, DeleteProject(id)) == DeleteProjectCase(s, id)
  {
  }

  /** CLEAR_STATE returns the initial state whatever the state was. */
  lemma ClearStateResets(s: State, t: State)
    ensures Reduce(s, ClearState) == Reduce(t, ClearState)
    ensures Reduce(s, ClearState) == State(None, [], [], [], None, false, None, None, None, None)
  {
  }

  /** An action with an unknown type string, such as "START_IMPERSONATION"
      spelled out, falls through to the default and changes nothing. */
  lemma UnknownTypeIgnored(s: State, tag: UnknownType)
    ensures Reduce(s, Other(tag)) == s
    ensures Reduce(s, Other("START_IMPERSONATION")) == s
    ensures Reduce(s, Other("STOP_IMPERSONATION")) == s
  {
  }

  /** START_IMPERSONATION makes the payload the acting and the impersonated user,
      marks the state as impersonating, and captures the identity to restore:
      the earlier capture if there is one, else the acting user. */
  lemma StartImpersonationCaptures(s: State, u: User)
    ensures var r := Reduce(s, StartImpersonation(u));
      && r.user == Some(u)
      && r.impersonatedUser == Some(u)
      && r.isImpersonating == Some(true)
      && r.originalUser == (if s.originalUser.Some? then s.originalUser else s.user)
      && SameData(r, s)
  {
  }

  /** Starting twice keeps the identity the first start captured, provided there
      was one to capture; the second start only retargets. */
  lemma RetargetKeepsOrigin(s: State, a: User, b: User)
    requires s.originalUser.Some? || s.user.Some?
    ensures var r := Reduce(Reduce(s, StartImpersonation(a)), StartImpersonation(b));
      && r.originalUser == Reduce(s, StartImpersonation(a)).originalUser
      && r.originalUser == (if s.originalUser.Some? then s.originalUser else s.user)
      && r.user == Some(b)
      && r.impersonatedUser == Some(b)
  {
  }

  /** With no user and nothing captured, the first start captures null, so a
      second start captures the first target instead. */
  lemma RetargetWithoutUserCapturesFirstTarget(s: State, a: User, b: User)
    requires s.originalUser.None? && s.user.None?
    ensures Reduce(s, StartImpersonation(a)).originalUser.None?
    ensures Reduce(Reduce(s, StartImpersonation(a)), StartImpersonation(b)).originalUser == Some(a)
  {
  }

  /** STOP_IMPERSONATION restores the captured identity and clears the rest of
      the impersonation fields; from a state with nothing captured it leaves no
      acting user at all, so it is not a no-op there. */
  lemma StopRestoresCaptured(s: State)
    ensures var r := Reduce(s, StopImpersonation);
      && r.user == s.originalUser
      && r.originalUser.None? && r.impersonatedUser.None?
      && r.isImpersonating == Some(false)
      && SameData(r, s)
      && (s.originalUser.None? ==> r.user.None?)
      && (s.originalUser.None? && s.user.Some? ==> r != s)
  {
  }

  /** Start followed by stop gives the acting user back: the prior user when
      nothing was captured before, else the earlier captured identity. */
  lemma StartThenStopRestoresUser(s: State, u: User)
    ensures var r := Reduce(Reduce(s, StartImpersonation(u)), StopImpersonation);
      && r.user == (if s.originalUser.Some? then s.originalUser else s.user)
      && (s.originalUser.None? ==> r.user == s.user)
      && r.originalUser.None? && r.impersonatedUser.None?
      && r.isImpersonating == Some(false)
      && SameData(r, s)
  {
  }

  /** As written, a stop dispatched through `ActionTypes` runs the START body
      with an undefined payload: the state stays impersonating and the acting
      user is lost. */
  lemma AsWrittenStopRunsStartCase(s: State)
    ensures var r := ReduceAsWritten(s, StopImpersonation);
      && r.isImpersonating == Some(true)
      && r.user.None? && r.impersonatedUser.None?
      && r.originalUser == (if s.originalUser.Some? then s.originalUser else s.user)
  {
  }

  /** The concrete case: an admin starts impersonating user 2 and stops. As
      written the admin is not restored; the intended reducer restores them. */
  lemma AsWrittenStartThenStopLosesAdmin()
    ensures var admin := User(1, None, None, Some("ADMIN"));
      var target := User(2, None, None, Some("USER"));
      var s := InitialState.(user := Some(admin));
      && ReduceAsWritten(ReduceAsWritten(s, StartImpersonation(target)), StopImpersonation).user.None?
      && ReduceAsWritten(ReduceAsWritten(s, StartImpersonation(target)), StopImpersonation).isImpersonating == Some(true)
      && Reduce(Reduce(s, StartImpersonation(target)), StopImpersonation).user == Some(admin)
  {
  }

  /** Outside the impersonation actions the switch as written and the intended
      reducer agree. */
  lemma AsWrittenAgreesElsewhere(s: State, a: Action)
    requires !a.StopImpersonation?
    ensures ReduceAsWritten(s, a) == Reduce(s, a)
  {
  }

  /** The impersonation invariant: impersonating exactly when both identities are
      held, and then acting as the impersonated user. */
  predicate ImpersonationConsistent(s: State) {
    if s.isImpersonating == Some(true) then
      s.originalUser.Some? && s.impersonatedUser.Some? && s.user == s.impersonatedUser
    else
      s.originalUser.None? && s.impersonatedUser.None?
  }

  /** Every transition keeps the invariant except SET_USER while impersonating
      and a start with no acting user. */
  lemma ImpersonationInvariantPreserved(s: State, a: Action)
    requires ImpersonationConsistent(s)
    requires a.SetUser? ==> s.isImpersonating != Some(true)
    requires a.StartImpersonation? ==> s.user.Some?
    ensures ImpersonationConsistent(Reduce(s, a))
  {
  }

  /** SET_USER while impersonating breaks the invariant. */
  lemma SetUserWhileImpersonatingBreaksInvariant(s: State, u: User)
    requires ImpersonationConsistent(s) && s.isImpersonating == Some(true)
    requires Some(u) != s.impersonatedUser
    ensures !ImpersonationConsistent(Reduce(s, SetUser(Some(u))))
  {
  }

  /** Projects and tasks are unique by id. */
  predicate UniqueIds(s: State) {
    UniqueKeys(s.projects, ProjectId) && UniqueKeys(s.tasks, TaskId)
  }

  /** The reducer keeps ids unique as long as adds carry fresh ids and wholesale
      replacements are themselves unique: updates replace by id and never
      duplicate. */
  lemma UniqueIdsPreserved(s: State, a: Action)
    requires UniqueIds(s)
    requires a.AddProject? ==> !HasKey(s.projects, a.project.id, ProjectId)
    requires a.AddTask? ==> !HasKey(s.tasks, a.task.id, TaskId)
    requires a.SetProjects? ==> UniqueKeys(a.allProjects, ProjectId)
    requires a.SetTasks? ==> UniqueKeys(a.allTasks, TaskId)
    ensures UniqueIds(Reduce(s, a))
  {
    match a
    case AddProject(p) => AppendKeepsUnique(s.projects, p, ProjectId);
    case AddTask(t) => AppendKeepsUnique(s.tasks, t, TaskId);
    case UpdateProject(p) => ReplaceKeepsKeys(s.projects, p, ProjectId);
    case UpdateTask(t) => ReplaceKeepsKeys(s.tasks, t, TaskId);
    case DeleteProject(id) => RemoveKeepsUnique(s.projects, id, ProjectId);
    case DeleteTask(id) => RemoveKeepsUnique(s.tasks, id, TaskId);
    case _ =>
  }
}
