/** A task card on the board (src/components/TaskCard.jsx): whether it can be
    dragged, whether it is marked as the viewer's own, and the colour of its
    priority label. */
module TaskCard {
  import opened Wrappers
  import opened Domain
  import KanbanColumn
  import Text
  import Ctx = AppContext

  /** `taskAssigneeId === user?.id`: the card belongs to the viewer. With no
      viewer both sides can be `undefined`, and then the card counts as theirs. */
  predicate IsOwnTask(user: Option<User>, t: Task) {
    EffectiveAssignee(t) == IdOf(user)
  }

  /** `isAdmin || taskAssigneeId === user?.id`, with `isAdmin` the store's
      `actions.isAdmin()`. */
  function CanDrag(user: Option<User>, t: Task): (r: bool)
    ensures Ctx.IsAdmin(user) ==> r
    ensures !Ctx.IsAdmin(user) ==> (r <==> IsOwnTask(user, t))
  {
    (user.Some? && user.value.role == Some(AdminRole)) || EffectiveAssignee(t) == IdOf(user)
  }

  /** With a signed-in viewer, a card can be dragged exactly when the store
      would let that viewer update the task; dropping then asks for exactly
      that update. */
  lemma DragMatchesUpdatePermission(user: Option<User>, t: Task)
    requires user.Some?
    ensures CanDrag(user, t) <==> Ctx.CanUpdateTask(user, Some(t))
  {
  }

  /** Without a viewer the two disagree: a card with no assignee at all is
      draggable, though the store refuses every update when nobody is signed
      in. */
  lemma UnassignedDraggableWithoutViewer(t: Task)
    requires EffectiveAssignee(t) == Undefined
    ensures CanDrag(None, t) && IsOwnTask(None, t)
    ensures !Ctx.CanUpdateTask(None, Some(t))
  {
  }

  /** A viewer who is not an administrator may drag exactly the cards marked as
      their own; for a non-zero id those are the tasks whose assignee field holds
      that id. */
  lemma NonAdminDragsOwnCards(u: User, t: Task)
    requires u.role != Some(AdminRole)
    ensures CanDrag(Some(u), t) <==> IsOwnTask(Some(u), t)
    ensures u.id != 0 ==>
      (IsOwnTask(Some(u), t) <==> t.assignee_id == Num(u.id) || (!t.assignee_id.Truthy() && t.assigneeId == Num(u.id)))
  {
    if u.id != 0 {
      AssignedToNonZeroId(t, u.id);
    }
  }

  const HighColor: string := "#ff5630"
  const MediumColor: string := "#ff8b00"
  const LowColor: string := "#36b37e"
  const DefaultColor: string := "#6b778c"

  /** `getPriorityColor(priority)`: a `switch` on the exact upper-case names. */
  function GetPriorityColor(priority: string): (r: string)
    ensures r in {HighColor, MediumColor, LowColor, DefaultColor}
    ensures r == HighColor <==> priority == "HIGH"
    ensures r == MediumColor <==> priority == "MEDIUM"
    ensures r == LowColor <==> priority == "LOW"
  {
    match priority
    case "HIGH" => HighColor
    case "MEDIUM" => MediumColor
    case "LOW" => LowColor
    case _ => DefaultColor
  }

  /** The three coloured names are the three that the column ranks above the
      rest, each at its own rank. */
  lemma ColouredPrioritiesAreRanked(t: Task)
    requires t.priority.Some? && GetPriorityColor(t.priority.value) != DefaultColor
    ensures KanbanColumn.Rank(t) > 0
    ensures GetPriorityColor(t.priority.value) == HighColor <==> KanbanColumn.Rank(t) == 3
    ensures GetPriorityColor(t.priority.value) == LowColor <==> KanbanColumn.Rank(t) == 1
  {
    var p := t.priority.value;
    var key := Text.Lower(p);
    if p == "HIGH" {
      assert key == "high";
    } else if p == "MEDIUM" {
      assert key == "medium";
    } else {
      assert key == "low";
    }
  }

  /** The column sorts priorities without regard to case but the card colours
      only the upper-case names: a lower-case "high" task sorts first and is
      drawn in the default colour. */
  lemma LowerCaseHighSortsFirstButIsGrey(t: Task)
    requires t.priority == Some("high")
    ensures KanbanColumn.Rank(t) == 3
    ensures GetPriorityColor(t.priority.value) == DefaultColor
  {
    assert Text.Lower("high") == "high";
  }
}
