/** The board of one project (src/pages/ProjectBoard.jsx): how the project's
    tasks are split into the three columns, the task the create form sends,
    when the form can be submitted, and when the board selects the routed
    project as the current one. */
module ProjectBoard {
  import opened Wrappers
  import opened Domain
  import opened Text
  import opened Seqs
  import opened Numbers
  import KanbanColumn
  import Ctx = AppContext
  import R = AppReducer

  /** The statuses the board has columns for, in column order. */
  const BoardStatuses: seq<string> := ["TODO", "DOING", "DONE"]

  /** The test `task.status === status`. */
  function StatusIs(status: string): Task -> bool {
    (t: Task) => t.status == Some(status)
  }

  /** A task has a column on the board. */
  predicate OnBoard(t: Task) {
    t.status == Some("TODO") || t.status == Some("DOING") || t.status == Some("DONE")
  }

  /** `getTasksByStatus(status)`: the tasks with exactly that status, in their
      order in the store. */
  function GetTasksByStatus(ts: seq<Task>, status: string): (r: seq<Task>)
    ensures IsSubsequence(r, ts)
    ensures forall t :: t in r <==> t in ts && t.status == Some(status)
    ensures forall t: Task :: t.status == Some(status) ==> multiset(r)[t] == multiset(ts)[t]
  {
    Filter(StatusIs(status), ts)
  }

  datatype Column = Column(title: string, status: string, tasks: seq<Task>)

  /** `columns`: one column per board status, titled by it. */
  function Columns(ts: seq<Task>): (r: seq<Column>)
    ensures |r| == |BoardStatuses|
    ensures forall i :: 0 <= i < |r| ==> r[i].title == r[i].status == BoardStatuses[i]
    ensures forall i :: 0 <= i < |r| ==> forall t :: t in r[i].tasks <==> t in ts && t.status == Some(BoardStatuses[i])
    ensures forall i :: 0 <= i < |r| ==> r[i].tasks == GetTasksByStatus(ts, BoardStatuses[i])
  {
    seq(3, i requires 0 <= i < 3 => Column(BoardStatuses[i], BoardStatuses[i], GetTasksByStatus(ts, BoardStatuses[i])))
  }

  /** No task is in two columns, and a task whose status is none of the three
      is in no column. */
  lemma ColumnsDisjoint(ts: seq<Task>, t: Task)
    ensures var c := Columns(ts);
      forall i, j :: 0 <= i < j < |c| ==> !(t in c[i].tasks && t in c[j].tasks)
    ensures !OnBoard(t) ==> forall i :: 0 <= i < |Columns(ts)| ==> t !in Columns(ts)[i].tasks
  {
    assert "TODO"[0] != "DOING"[0] && "TODO"[0] != "DONE"[0] && "DOING"[2] != "DONE"[2];
  }

  /** The three columns hold, between them, every on-board task as often as
      the store holds it, and nothing else. */
  lemma {:induction false} ColumnsPartition(ts: seq<Task>)
    ensures multiset(GetTasksByStatus(ts, "TODO")) + multiset(GetTasksByStatus(ts, "DOING"))
          + multiset(GetTasksByStatus(ts, "DONE"))
         == multiset(Filter(OnBoard, ts))
    decreases |ts|
  {
    if ts != [] {
      var x, rest := ts[0], ts[1..];
      assert ts == [x] + rest;
      ColumnsPartition(rest);
      FilterCons(StatusIs("TODO"), x, rest);
      FilterCons(StatusIs("DOING"), x, rest);
      FilterCons(StatusIs("DONE"), x, rest);
      FilterCons(OnBoard, x, rest);
    }
  }

  /** The columns hold as many tasks as the store has on-board tasks. */
  lemma ColumnsCount(ts: seq<Task>)
    ensures |GetTasksByStatus(ts, "TODO")| + |GetTasksByStatus(ts, "DOING")| + |GetTasksByStatus(ts, "DONE")|
         == |Filter(OnBoard, ts)|
  {
    ColumnsPartition(ts);
    assert |multiset(Filter(OnBoard, ts))| == |Filter(OnBoard, ts)|;
  }

  /** A card dropped back on its own column asks for nothing; dropped on
      another column it asks to move that task to that column's status. */
  lemma DropBetweenColumns(ts: seq<Task>, t: Task, from: string, to: string)
    requires t in GetTasksByStatus(ts, from)
    ensures from == to ==> KanbanColumn.DropRequest(KanbanColumn.DragItemOf(t), to) == None
    ensures from != to ==> KanbanColumn.DropRequest(KanbanColumn.DragItemOf(t), to) == Some((t.id, to))
  {
  }

  /** A form field's value: the initial number, or the text a control wrote
      into it. */
  datatype FormValue = Number(n: int) | Text(s: string) {
    /** JavaScript truthiness: `0` and `""` are falsy, `"0"` is not. */
    predicate Truthy() {
      if Number? then n != 0 else s != ""
    }

    /** `parseInt` first converts its argument to a string. */
    function AsText(): string {
      if Number? then DecimalString(n) else s
    }
  }

  /** `newTask`: the create form's state. */
  datatype TaskForm = TaskForm(title: string, description: string, status: string, priority: string, assigneeId: FormValue)

  /** The state the form starts in and is reset to after a successful create. */
  const InitialForm: TaskForm := TaskForm("", "", "TODO", "MEDIUM", Number(0))

  /** `taskData`: what `createTask` is sent. */
  datatype TaskData = TaskData(
    title: string,
    description: string,
    status: string,
    priority: string,
    projectId: JsNum,
    assigneeId: JsNum)

  /** `user ? actions.isAdmin() : false` */
  predicate BoardAdmin(user: Option<User>) {
    user.Some? && Ctx.IsAdmin(user)
  }

  /** `handleCreateTask`'s data: the form's fields, the route's project id, an
      empty status replaced by "TODO", and an assignee that is the picked
      member for an administrator and the user themselves for anyone else. */
  function BuildTaskData(form: TaskForm, routeId: string, user: Option<User>): (d: TaskData)
    ensures d.title == form.title && d.description == form.description && d.priority == form.priority
    ensures d.status != ""
    ensures form.status != "" ==> d.status == form.status
    ensures d.projectId == ParseInt(routeId)
    ensures BoardAdmin(user) ==> d.assigneeId == ParseInt(form.assigneeId.AsText())
    ensures !BoardAdmin(user) ==> d.assigneeId == if user.Some? then Int(user.value.id) else Undef
  {
    TaskData(
      form.title,
      form.description,
      if form.status != "" then form.status else "TODO",
      form.priority,
      ParseInt(routeId),
      if BoardAdmin(user) then ParseInt(form.assigneeId.AsText()) else if user.Some? then Int(user.value.id) else Undef)
  }

  /** Whatever a non-administrator puts in the form, the task is assigned to
      them. */
  lemma NonAdminAssignsSelf(f1: TaskForm, f2: TaskForm, routeId: string, u: User)
    requires !BoardAdmin(Some(u))
    ensures BuildTaskData(f1, routeId, Some(u)).assigneeId == BuildTaskData(f2, routeId, Some(u)).assigneeId == Int(u.id)
  {
  }

  /** An administrator who picks a member from the list assigns the task to that
      member: the option's text reads back as the member's id. The route's
      project id reads back the same way. */
  lemma AdminAssignsPickedMember(form: TaskForm, p: Project, u: User, m: User)
    requires BoardAdmin(Some(u))
    requires form.assigneeId == Text(DecimalString(m.id))
    ensures BuildTaskData(form, DecimalString(p.id), Some(u)).assigneeId == Int(m.id)
    ensures BuildTaskData(form, DecimalString(p.id), Some(u)).projectId == Int(p.id)
  {
    ParseDecimal(m.id);
    ParseDecimal(p.id);
  }

  /** A form whose status comes from the status control creates a task that
      lands in a column. */
  lemma CreatedTaskHasAColumn(form: TaskForm, routeId: string, user: Option<User>)
    requires form.status == "" || form.status in BoardStatuses
    ensures BuildTaskData(form, routeId, user).status in BoardStatuses
  {
  }

  /** The create button's `disabled`: a title of nothing but white space, or an
      administrator without a truthy assignee. */
  function SubmitDisabled(form: TaskForm, user: Option<User>): (r: bool)
    ensures r <==> AllTrimmable(form.title) || (BoardAdmin(user) && !form.assigneeId.Truthy())
  {
    TrimEmptyIffBlank(form.title);
    Trim(form.title) == "" || (BoardAdmin(user) && !form.assigneeId.Truthy())
  }

  /** The fresh form cannot be submitted by anyone; an administrator who types
      a title still has to pick an assignee, while anyone else may submit at
      once. */
  lemma SubmitExamples(u: User, m: User)
    requires m.id != 0
    ensures SubmitDisabled(InitialForm, Some(u))
    ensures var titled := InitialForm.(title := "Fix login");
      && (BoardAdmin(Some(u)) ==> SubmitDisabled(titled, Some(u)))
      && (!BoardAdmin(Some(u)) ==> !SubmitDisabled(titled, Some(u)))
      && !SubmitDisabled(titled.(assigneeId := Text(DecimalString(m.id))), Some(u))
  {
    assert !IsTrimmable("Fix login"[0]);
  }

  /** The position of the first project whose id equals `key`, or the length
      when there is none. */
  function FirstIndex(ps: seq<Project>, key: JsNum): (i: nat)
    ensures i <= |ps|
    ensures forall j :: 0 <= j < i ==> Int(ps[j].id) != key
    ensures i < |ps| ==> Int(ps[i].id) == key
  {
    if ps == [] then 0
    else if Int(ps[0].id) == key then 0
    else 1 + FirstIndex(ps[1..], key)
  }

  /** `projects.find(p => p.id === key)`: the first project with that id. */
  function FindById(ps: seq<Project>, key: JsNum): (r: Option<Project>)
    ensures r.None? <==> forall p :: p in ps ==> Int(p.id) != key
    ensures r.Some? ==> exists i :: 0 <= i < |ps| && ps[i] == r.value && Int(ps[i].id) == key
                                    && forall j :: 0 <= j < i ==> Int(ps[j].id) != key
  {
    var i := FirstIndex(ps, key);
    if i < |ps| then Some(ps[i]) else None
  }

  /** The selection effect: with a route id and some projects loaded, the
      route's project is made current unless a project with that id already is.
      The result is the project `setCurrentProject` is called with, if any. */
  function SelectionEffect(routeId: string, projects: seq<Project>, current: Option<Project>): (r: Option<Project>)
    ensures r.Some? <==>
      && routeId != ""
      && (exists p :: p in projects && Int(p.id) == ParseInt(routeId))
      && (current.None? || Int(current.value.id) != ParseInt(routeId))
    ensures r.Some? ==> r.value in projects && Int(r.value.id) == ParseInt(routeId)
  {
    if routeId != "" && |projects| > 0 then
      match FindById(projects, ParseInt(routeId))
      case None => None
      case Some(p) => if current.None? || current.value.id != p.id then Some(p) else None
    else None
  }

  /** Once the effect's dispatch has been reduced, the effect does not fire
      again: the selection settles after one step. */
  lemma SelectionSettles(s: R.State, routeId: string)
    requires SelectionEffect(routeId, s.projects, s.currentProject).Some?
    ensures var p := SelectionEffect(routeId, s.projects, s.currentProject);
      var s' := R.Reduce(s, R.SetCurrentProject(p));
      && s'.currentProject == p
      && s'.projects == s.projects
      && SelectionEffect(routeId, s'.projects, s'.currentProject).None?
  {
  }

  /** Opening the board of a loaded project with nothing selected selects a
      project with that id. */
  lemma RouteSelectsProject(projects: seq<Project>, p: Project)
    requires p in projects
    ensures var r := SelectionEffect(DecimalString(p.id), projects, None);
      r.Some? && r.value.id == p.id
  {
    ParseDecimal(p.id);
  }
}
