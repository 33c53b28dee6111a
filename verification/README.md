# Kanban client state store, in Dafny

This project models the client-side core of a React Kanban board (client-tms).
The core is a Redux-style store of users, projects and tasks, plus the effect
layer that turns REST call outcomes into dispatched actions. It also covers the
permission helpers, and the view logic that decides:

- how tasks are split into columns and sorted;
- who may drag a card;
- which users may be added to a project;
- what the search boxes select;
- what the create forms send.

Every operation is a pure function over immutable datatypes:

- A JavaScript value that may be `undefined`, `null` or a number is a `Slot`. `===` on such values is `==` on `Slot`.
- A REST call is replaced by its outcome (`Ok(value)` or `Err(failure)`), which the operation receives as a parameter.
- An async action is an `Effect`: the trace of actions it dispatches plus how its promise ends. Folding a trace through the reducer (`Run`) gives the state afterwards.
- Case mapping is ASCII. `trim` and `parseInt` skip the ECMAScript white space and line terminator characters. `parseInt` reads a sign, an optional `0x`, and the longest run of digits.

Modules, one per source file:

| module | models |
|---|---|
| `AppReducer` | src/store/appReducer.js, including its impersonation cases |
| `AppContext` | the reducer and helpers of src/store/AppContext.jsx, the store the application mounts |
| `AppActions` | src/store/appActions.js |
| `Permissions` | src/hooks/usePermissions.js |
| `KanbanColumn`, `TaskCard`, `ProjectBoard`, `ProjectMembers`, `Dashboard`, `UsersColumn` | the component of the same name |
| `ImpersonationService` | src/api/impersonationService.js |

`Domain`, `Text`, `Numbers`, `Seqs`, `Outcomes` and `Wrappers` hold the shared pieces:

- the records;
- string search and trimming;
- `parseInt` and `String(n)`;
- filtering and replace/remove by id;
- call outcomes;
- `Option`.

## Model

| member | source | states |
|---|---|---|
| Domain.EffectiveAssignee | src/store/appActions.js:175 | the snake-case assignee wins when truthy, else the camel-case one is taken whatever it holds; the result is truthy iff either field is |
| Domain.AssignedToNonZeroId | src/store/appActions.js:175-176 | for a non-zero id, the effective assignee is that id iff `assignee_id` is it, or `assignee_id` is falsy and `assigneeId` is it |
| AppReducer.SetLoadingSetsFlag | src/store/appReducer.js:30-31 | SET_LOADING changes the loading flag and nothing else |
| AppReducer.SetErrorReleasesLoading | src/store/appReducer.js:32-33 | SET_ERROR stores the payload and always lowers the loading flag; nothing else changes |
| AppReducer.AddProjectAppends | src/store/appReducer.js:44-45 | ADD_PROJECT keeps the old projects as a prefix and puts the payload last; nothing else changes |
| AppReducer.AddTaskAppends | src/store/appReducer.js:64-65 | ADD_TASK keeps the old tasks as a prefix and puts the payload last; nothing else changes |
| AppReducer.UpdateTaskReplacesById | src/store/appReducer.js:66-72 | UPDATE_TASK keeps length and order, replaces exactly the tasks with the payload's id, and is a no-op when that id is absent |
| AppReducer.UpdateProjectSyncsCurrent | src/store/appReducer.js:46-55 | UPDATE_PROJECT replaces by id and replaces the current project iff it is present with the payload's id; unknown id is a no-op |
| AppReducer.DeleteTaskRemovesById | src/store/appReducer.js:73-77 | DELETE_TASK keeps, in order and multiplicity, exactly the tasks with another id |
| AppReducer.DeleteProjectClearsCurrent | src/store/appReducer.js:56-63 | DELETE_PROJECT removes by id the same way and clears the current project iff it has that id |
| AppReducer.DeleteUndoesAddProject | src/store/appReducer.js:44-63 | adding a project with a fresh id and then deleting that id returns the original state |
| AppReducer.ClearStateResets | src/store/appReducer.js:101-102 | CLEAR_STATE gives the initial state whatever the state was |
| AppReducer.UnknownTypeIgnored | src/store/appReducer.js:103-104 | an action whose type matches no label, including the impersonation names spelled as strings, changes nothing |
| AppReducer.StartImpersonationCaptures | src/store/appReducer.js:78-90 | START makes the payload the acting and impersonated user, sets impersonating, captures `originalUser \|\| user`, and leaves the data fields alone |
| AppReducer.RetargetKeepsOrigin | src/store/appReducer.js:80 | a second start keeps the identity the first one captured, provided there was a user or a capture to begin with |
| AppReducer.RetargetWithoutUserCapturesFirstTarget | src/store/appReducer.js:80 | with no user and no capture, the first start captures nothing, so the second captures the first target |
| AppReducer.StopRestoresCaptured | src/store/appReducer.js:91-100 | STOP makes the captured identity the user and clears the other impersonation fields; with nothing captured it leaves no user |
| AppReducer.StartThenStopRestoresUser | src/store/appReducer.js:78-100 | start then stop gives back the prior user (or the earlier capture) and the same data |
| AppReducer.AsWrittenStopRunsStartCase | src/store/appReducer.js:11-26 | as written, a stop dispatched through `ActionTypes` runs the start case with an undefined payload |
| AppReducer.AsWrittenStartThenStopLosesAdmin | src/store/appReducer.js:78-100 | as written, an admin who starts and then stops impersonating ends with no user and still impersonating |
| AppReducer.AsWrittenAgreesElsewhere | src/store/appReducer.js:28-77 | apart from stop, the switch as written and the corrected reducer agree on every action |
| AppReducer.ImpersonationInvariantPreserved | src/store/appReducer.js:78-100 | every transition keeps "impersonating iff both identities are held, acting as the impersonated user", except a start with no user and SET_USER while impersonating |
| AppReducer.SetUserWhileImpersonatingBreaksInvariant | src/store/appReducer.js:34-35 | SET_USER with another user while impersonating breaks that invariant |
| AppReducer.UniqueIdsPreserved | src/store/appReducer.js:36-77 | ids stay unique when adds carry fresh ids and wholesale replacements are unique |
| AppActions.FetchUsers | src/store/appActions.js:13-23 | the trace raises then lowers the flag and always resolves; SET_USERS with v is in it iff the call returned v; an error is recorded iff the call failed |
| AppActions.FetchProjects | src/store/appActions.js:26-36 | as for users, with SET_PROJECTS |
| AppActions.FetchTasksByProject | src/store/appActions.js:75-85 | as for users, with SET_TASKS |
| AppActions.FetchUsersOutcome | src/store/appActions.js:13-23 | after the fetch the flag is down; success replaces the users only; failure records the message only |
| AppActions.FetchProjectsOutcome | src/store/appActions.js:26-36 | after the fetch the flag is down; success replaces the projects only; failure records the message only |
| AppActions.FetchTasksOutcome | src/store/appActions.js:75-85 | after the fetch the flag is down; success replaces the tasks only; failure records the message only |
| AppActions.CreateProject | src/store/appActions.js:38-47 | success dispatches ADD_PROJECT with the server's project and returns it; failure records the message and rethrows the same failure |
| AppActions.UpdateProject | src/store/appActions.js:49-58 | success dispatches UPDATE_PROJECT and returns the project; failure records and rethrows |
| AppActions.DeleteProject | src/store/appActions.js:60-68 | success dispatches DELETE_PROJECT with the requested id; failure records and rethrows |
| AppActions.CreateTask | src/store/appActions.js:89-98 | success dispatches ADD_TASK and returns the task; failure records and rethrows |
| AppActions.UpdateTask | src/store/appActions.js:100-109 | success dispatches UPDATE_TASK and returns the task; failure records and rethrows |
| AppActions.UpdateTaskStatus | src/store/appActions.js:111-120 | success dispatches UPDATE_TASK with the server's task; failure records and rethrows |
| AppActions.DeleteTask | src/store/appActions.js:122-130 | success dispatches DELETE_TASK with the requested id; failure records and rethrows |
| AppActions.FetchProjectMembers | src/store/appActions.js:134-145 | the flag goes up first and down last; members are returned, never stored; failure is recorded and rethrown |
| AppActions.AddProjectMember | src/store/appActions.js:147-155 | success dispatches nothing and returns the member; failure records and rethrows |
| AppActions.RemoveProjectMember | src/store/appActions.js:157-164 | success dispatches nothing; failure records and rethrows |
| AppActions.ClearError | src/store/appActions.js:10 | the trace is exactly one SET_ERROR with a null payload, so it records an error slot and touches no impersonation state; the call resolves |
| AppActions.ClearErrorResets | src/store/appActions.js:10 | clearing the error empties it and lowers the flag, nothing else |
| AppActions.MutationFailureKeepsData | src/store/appActions.js:38-164 | a failed mutation leaves every collection and the current project as they were and records the message |
| AppActions.MutationSuccessApplies | src/store/appActions.js:38-130 | a successful mutation applies exactly its one reducer transition |
| AppActions.UpdateTaskAndStatusAgree | src/store/appActions.js:100-120 | for the same server answer `updateTask` and `updateTaskStatus` dispatch and return the same |
| AppActions.MemberOperationsKeepCollections | src/store/appActions.js:134-164 | member operations change no collection: fetching only moves the flag (and records a failure); add and remove change nothing on success |
| AppActions.ManagementPredicatesAgree | src/store/appActions.js:167-171 | `isAdmin`, `canManageProjects` and `canManageProjectMembers` are one test: a user whose role is exactly "ADMIN" |
| AppActions.CanUpdateTask | src/store/appActions.js:173-177 | no task or no user refuses; an admin may update any task; anyone else iff the effective assignee is their id |
| AppActions.CanDeleteTask | src/store/appActions.js:179-183 | the same rule as update |
| AppActions.UpdateAndDeleteAgree | src/store/appActions.js:173-183 | update and delete permission coincide for every user and task |
| AppActions.AuthorizationExamples | src/store/appActions.js:173-177 | a plain user 1 may update a task assigned to 1 but not one assigned to 2; an admin may update both |
| AppContext.AgreesWithAppReducer | src/store/AppContext.jsx:39-94 | the mounted reducer agrees with appReducer.js on all fourteen action types and ignores both impersonation actions |
| AppContext.SyncsCurrentProject | src/store/AppContext.jsx:57-74 | update and delete keep the current project in step exactly when the ids match |
| AppContext.RunAgrees | src/store/AppContext.jsx:39-94 | over any trace without impersonation actions the two reducers end in the same state |
| AppContext.MountedStoreKeepsDiscipline | src/store/AppContext.jsx:136-213 | in the mounted store every fetch ends with the flag down, and clearing the error leaves no error and no loading |
| AppContext.PredicatesAgreeWithAppActions | src/store/AppContext.jsx:296-322 | the store's `isAdmin`, `canUpdateTask` and `canDeleteTask` equal those of the action layer |
| Permissions.ProjectPermissionsAreAdmin | src/hooks/usePermissions.js:7-25 | creating, updating and deleting projects and managing members are all "role is exactly ADMIN"; no user means no admin |
| Permissions.TaskPermissionsAlwaysGranted | src/hooks/usePermissions.js:27-52 | with the membership placeholder, every task and view permission holds for every project, even with no user |
| Permissions.HookAndStoreDisagreeWithoutUser | src/hooks/usePermissions.js:33-35 | with no user the hook grants task updates that the store refuses |
| Permissions.GetUserRole | src/hooks/usePermissions.js:54-56 | the role is never empty: the user's non-empty role, else "USER" |
| Permissions.GetRoleDisplayName | src/hooks/usePermissions.js:58-67 | "Administrator" iff the upper-cased role is ADMIN, otherwise "User" |
| Permissions.AdminsDisplayAsAdministrator | src/hooks/usePermissions.js:54-67 | every admin, and any role spelled "admin" in any case, displays as "Administrator" |
| KanbanColumn.Rank | src/components/KanbanColumn.jsx:21-22 | HIGH, MEDIUM and LOW in any letter case rank 3, 2 and 1; every other priority, and a missing one, ranks 0 |
| KanbanColumn.RankIgnoresCase | src/components/KanbanColumn.jsx:21-22 | two priorities spelled alike up to letter case rank alike, since the key is the lower-cased name |
| KanbanColumn.SortByPriority | src/components/KanbanColumn.jsx:20-25 | the sorted column is a permutation of its tasks in non-increasing rank |
| KanbanColumn.SortIsStable | src/components/KanbanColumn.jsx:20-25 | tasks of equal rank keep their relative order |
| KanbanColumn.SortMatchesBuckets | src/components/KanbanColumn.jsx:20-25 | the sorted column is exactly the high, then medium, then low, then other tasks, each in input order |
| KanbanColumn.DropRequest | src/components/KanbanColumn.jsx:9-13 | a drop asks to move the item iff its status differs from the column's, and then with the item's id and the column's status |
| TaskCard.CanDrag | src/components/TaskCard.jsx:13-14 | admins may drag every card; anyone else exactly the cards whose effective assignee equals their id |
| TaskCard.DragMatchesUpdatePermission | src/components/TaskCard.jsx:12-18 | with a signed-in user, a card is draggable iff the store lets that user update its task |
| TaskCard.UnassignedDraggableWithoutViewer | src/components/TaskCard.jsx:13-14 | with no user, a card with no assignee is draggable and counts as the user's own, though the store refuses the update |
| TaskCard.NonAdminDragsOwnCards | src/components/TaskCard.jsx:13-50 | a non-admin drags exactly their own cards; for a non-zero id, those are the tasks whose assignee field holds it |
| TaskCard.GetPriorityColor | src/components/TaskCard.jsx:24-35 | each of the exact names HIGH, MEDIUM and LOW gets its own colour; every other string gets the default |
| TaskCard.ColouredPrioritiesAreRanked | src/components/TaskCard.jsx:24-35 | a coloured priority is one the column ranks above zero; HIGH is rank 3 and LOW rank 1 |
| TaskCard.LowerCaseHighSortsFirstButIsGrey | src/components/TaskCard.jsx:24-35 | a "high" task sorts first but gets the default colour: the sort ignores case and the colour does not |
| Numbers.ParseDecimal | src/pages/ProjectBoard.jsx:88 | `parseInt` of the decimal text of any integer gives back that integer |
| Numbers.ParseSkipsLeadingSpace | src/pages/ProjectBoard.jsx:85 | leading white space does not change what `parseInt` reads |
| Numbers.ParseHexExample | src/components/ProjectMembers.jsx:40 | a `0x` prefix switches `parseInt` to radix 16: "0x1A" reads as 26 |
| Numbers.ParseTrailingTextExample | src/components/ProjectMembers.jsx:40 | reading stops at the first non-digit: "12px" reads as 12 |
| Numbers.ParseNaNExample | src/components/ProjectMembers.jsx:40 | text with no digits, including the empty string, reads as `NaN` |
| ProjectBoard.GetTasksByStatus | src/pages/ProjectBoard.jsx:103-105 | an order-preserving subsequence holding every task with that status, as often as the store holds it, and nothing else |
| ProjectBoard.Columns | src/pages/ProjectBoard.jsx:107-111 | three columns titled TODO, DOING and DONE; each holds the tasks of its status in store order with their multiplicity, as `getTasksByStatus` gives them |
| ProjectBoard.ColumnsDisjoint | src/pages/ProjectBoard.jsx:107-111 | no task is in two columns, and a task with any other status is in none |
| ProjectBoard.ColumnsPartition | src/pages/ProjectBoard.jsx:107-111 | together the columns hold exactly the on-board tasks, with their multiplicities |
| ProjectBoard.ColumnsCount | src/pages/ProjectBoard.jsx:107-111 | the column sizes add up to the number of on-board tasks |
| ProjectBoard.DropBetweenColumns | src/pages/ProjectBoard.jsx:181-191 | a card dropped back on its own column asks for nothing; dropped on another column it asks for that column's status |
| ProjectBoard.BuildTaskData | src/pages/ProjectBoard.jsx:83-88 | the form fields are copied; the project id is parsed from the route; an empty status becomes TODO; an admin's assignee is the parsed field, anyone else's is their own id |
| ProjectBoard.NonAdminAssignsSelf | src/pages/ProjectBoard.jsx:88 | whatever a non-admin puts in the form, the task is assigned to them |
| ProjectBoard.AdminAssignsPickedMember | src/pages/ProjectBoard.jsx:83-88 | an admin who picks a member's option assigns that member's id, and the route's id text becomes that project id |
| ProjectBoard.CreatedTaskHasAColumn | src/pages/ProjectBoard.jsx:83-87 | a status from the status control, or an empty one, gives a task that lands in a column |
| ProjectBoard.SubmitDisabled | src/pages/ProjectBoard.jsx:290 | disabled iff the title is all white space, or the user is an admin and the assignee field is falsy |
| ProjectBoard.SubmitExamples | src/pages/ProjectBoard.jsx:26-32 | the fresh form is never submittable; with a title a non-admin may submit, while an admin must first pick an assignee |
| ProjectBoard.FindById | src/pages/ProjectBoard.jsx:51 | the first project with the given id, or none iff no project has it |
| ProjectBoard.SelectionEffect | src/pages/ProjectBoard.jsx:49-56 | a project is selected iff there is a route id, some project has the parsed id, and the current project is absent or has another id; it is a loaded project with that id |
| ProjectBoard.SelectionSettles | src/pages/ProjectBoard.jsx:49-56 | once its dispatch is reduced the effect does not fire again |
| ProjectBoard.RouteSelectsProject | src/pages/ProjectBoard.jsx:49-56 | opening a loaded project's route with nothing current selects a project with that id |
| ProjectMembers.AvailableUsers | src/components/ProjectMembers.jsx:62-64 | an order-preserving subsequence of the users: exactly those that are not members by id and do not have the excluded address, each as often as the store lists it |
| ProjectMembers.NeverOffered | src/components/ProjectMembers.jsx:63 | a user sharing an id with a member, or having the excluded address, is never offered, whatever their role |
| ProjectMembers.JoiningShrinksOffer | src/components/ProjectMembers.jsx:62-64 | a user who joins is no longer offered, and nobody new is |
| ProjectMembers.ShowAddButton | src/components/ProjectMembers.jsx:81 | shown iff the user is an admin and some user is still offerable |
| ProjectMembers.AddMemberRequest | src/components/ProjectMembers.jsx:35-40 | nothing is requested iff no user is picked; otherwise the parsed pick is requested |
| ProjectMembers.PickedUserIsAdded | src/components/ProjectMembers.jsx:157-161 | picking an offered user's option requests exactly that user's id |
| ProjectMembers.RemoveMemberRequest | src/components/ProjectMembers.jsx:49-53 | nothing is requested iff there is no current member or its id is 0; otherwise its id is requested |
| ProjectMembers.RemoveUndoesAddRequest | src/components/ProjectMembers.jsx:35-64 | adding an offered user with a non-zero id requests that id, the user is then no longer offered, and removing that member requests the same id |
| Dashboard.FilteredProjects | src/pages/Dashboard.jsx:47-50 | an order-preserving subsequence: exactly the projects whose lower-cased name, or present description, includes the lower-cased term, each as often as the store lists it |
| Dashboard.SelectedByOccurrence | src/pages/Dashboard.jsx:47-50 | a project is selected iff the term occurs at some position in its lower-cased name or description |
| Dashboard.EmptyTermKeepsAll | src/pages/Dashboard.jsx:48 | an empty search keeps every project |
| Dashboard.CaseInsensitive | src/pages/Dashboard.jsx:48-49 | terms that differ only in letter case select the same projects |
| Dashboard.UpperCaseTermFindsSame | src/pages/Dashboard.jsx:48-49 | the upper-cased term selects the same projects |
| Dashboard.NewProjectData | src/pages/Dashboard.jsx:35-38 | name and description are copied; the owner is the signed-in user's id, or undefined without one |
| Dashboard.ImpersonatedUserOwnsNewProject | src/pages/Dashboard.jsx:35-38 | a project created while impersonating is owned by the impersonated user |
| UsersColumn.FilteredUsers | src/components/UsersColumn.jsx:44-50 | an order-preserving subsequence: exactly the users whose present name or email includes the term, ignoring case, each as often as the store lists it |
| UsersColumn.EmptyTermKeepsNamed | src/components/UsersColumn.jsx:46-48 | an empty search keeps exactly the users with a name or an email, in order |
| UsersColumn.CaseInsensitive | src/components/UsersColumn.jsx:46-48 | terms that differ only in letter case select the same users |
| UsersColumn.UpperCaseTermFindsSame | src/components/UsersColumn.jsx:46-48 | the upper-cased term selects the same users |
| UsersColumn.LongerTermNarrows | src/components/UsersColumn.jsx:46-48 | a term that includes another never selects a user the shorter one does not |
| ImpersonationService.StartImpersonation | src/api/impersonationService.js:5-19 | success passes the server data through; a 404 becomes `{ success: true }`; any other failure is rethrown unchanged |
| ImpersonationService.StopImpersonation | src/api/impersonationService.js:22-35 | the same policy as start |
| ImpersonationService.StartAndStopAgree | src/api/impersonationService.js:5-35 | start and stop resolve or reject alike for the same call outcome |
| ImpersonationService.GetUserForImpersonation | src/api/impersonationService.js:38-46 | the user lookup rejects iff the call failed, with the same failure; 404 is not masked |
| ImpersonationService.OnlyStartAndStopForgiveNotFound | src/api/impersonationService.js:13-45 | a 404 is forgiven by start and stop but not by the lookup; a 500 or a network failure by none |

## Left out

- Identity-provider bootstrap and token storage (src/store/AppContext.jsx:105-130): this is I/O against Auth0 and `localStorage`. The signed-in user enters the model only as the `user` field.
- The REST service wrappers: each call is replaced by its outcome, passed as a parameter.
- The impersonation orchestration that components call (start/stop actions, `isImpersonating`, restore on reload). Those actions are not in the `createActions` object of src/store/appActions.js, so only the reducer transitions and the service's outcome mapping are modelled.
- Overlapping async operations, React effect scheduling and the timers of src/components/UsersColumn.jsx:27-41: operations are modelled one at a time.
- The one-line dispatchers `setLoading`, `setError`, `setCurrentProject`, `setTasks` and `clearState` are not modelled as functions. Each dispatches one action, whose transition is covered by the AppReducer lemmas.
- The fetches ProjectBoard and Dashboard start on mount are left out: they only call the modelled fetch operations.
- Presentation: JSX, CSS, icons, the member-count label, the avatar initial, and date formatting.
- AppReducer.StopRestoresCaptured: on a state that is not impersonating, STOP sets the user to null. The code does this, so the model states it: STOP is not a no-op on a state that is not impersonating.
- KanbanColumn.Rank: a priority whose lower-cased name is an `Object.prototype` property, such as "constructor", is taken to rank 0. In the source, `priorityOrder["constructor"] \|\| 0` is a function, and subtracting it gives `NaN` in the comparator.
- Text.Lower: only ASCII letters change case, and strings are sequences of Dafny characters, not UTF-16 code units.
- Text.Upper: only ASCII letters change case; `toUpperCase` also maps letters such as the dotless ı (U+0131) to I.
- Permissions.GetRoleDisplayName: with ASCII upper-casing, a role such as "admın" (dotless ı) displays as "User", whereas `toUpperCase` turns it into ADMIN and the source shows "Administrator".
- Numbers.ParseInt: radix 16 is only entered through `0x`. A number beyond 2^53 is read exactly, whereas JavaScript rounds it.
- Numbers.ParseInt: `NaN` is a value of its own, compared by `==`. JavaScript's `NaN !== NaN` is never needed, because the only comparison (src/pages/ProjectBoard.jsx:51) compares with a project's integer id.

## Findings

| source | as written | input that shows it | evidently intended | confidence | as-written member | corrected member |
|---|---|---|---|---|---|---|
| src/store/appReducer.js:11-26 | `ActionTypes` has no START_IMPERSONATION or STOP_IMPERSONATION key, so both case labels at lines 78 and 91 are `undefined`. A stop dispatched as `{ type: ActionTypes.STOP_IMPERSONATION }` then matches the first `undefined` label and runs the start case with an undefined payload. | admin user 1 is signed in; START with user 2, then STOP, both dispatched through `ActionTypes` | stop restores the admin and ends impersonation | not executed | AppReducer.AsWrittenStartThenStopLosesAdmin | AppReducer.StartThenStopRestoresUser |

`AppReducer.ReduceAsWritten` is the switch as written. `AppReducer.Reduce` is the corrected reducer, and everything else uses it.
