/** The members dialog of a project (src/components/ProjectMembers.jsx): which
    users may still be added, when the add button shows, and what the add and
    remove handlers ask the store to do. */
module ProjectMembers {
  import opened Wrappers
  import opened Domain
  import opened Seqs
  import opened Numbers
  import Ctx = AppContext

  /** The one address the dialog never offers. */
  const ExcludedEmail: string := "thinh@gmail.com"

  /** `members.some(member => member.id === user.id)` */
  predicate IsMember(members: seq<User>, u: User) {
    exists m :: m in members && m.id == u.id
  }

  /** The test `availableUsers` applies: not a member, and not the excluded
      address. A user with no email passes the address test. */
  function Offerable(members: seq<User>): User -> bool {
    (u: User) => !IsMember(members, u) && u.email != Some(ExcludedEmail)
  }

  /** `availableUsers`: the store's users that are not members of the project,
      without the excluded address, in the store's order. */
  function AvailableUsers(users: seq<User>, members: seq<User>): (r: seq<User>)
    ensures IsSubsequence(r, users)
    ensures forall u :: u in r <==> u in users && !IsMember(members, u) && u.email != Some(ExcludedEmail)
    ensures forall u ::
              multiset(r)[u] == if !IsMember(members, u) && u.email != Some(ExcludedEmail) then multiset(users)[u] else 0
  {
    Filter(Offerable(members), users)
  }

  /** No member, and nobody with the excluded address, is ever offered,
      whatever their role. */
  lemma NeverOffered(users: seq<User>, members: seq<User>, u: User)
    requires IsMember(members, u) || u.email == Some(ExcludedEmail)
    ensures u !in AvailableUsers(users, members)
  {
  }

  /** A user who joins stops being offered, and nobody new is offered: the
      offer only shrinks as members are added. */
  lemma JoiningShrinksOffer(users: seq<User>, members: seq<User>, joined: User)
    ensures joined !in AvailableUsers(users, members + [joined])
    ensures forall u :: u in AvailableUsers(users, members + [joined]) ==> u in AvailableUsers(users, members)
  {
    assert joined in members + [joined];
  }

  /** `isAdmin && availableUsers.length > 0` */
  function ShowAddButton(user: Option<User>, users: seq<User>, members: seq<User>): (r: bool)
    ensures r <==> Ctx.IsAdmin(user) && exists u :: u in users && !IsMember(members, u) && u.email != Some(ExcludedEmail)
  {
    var available := AvailableUsers(users, members);
    assert available != [] ==> available[0] in available;
    Ctx.IsAdmin(user) && |available| > 0
  }

  /** `handleAddMember`: nothing while no user is picked; otherwise the parsed
      id of the picked option goes to `addProjectMember`. */
  function AddMemberRequest(selectedUserId: string): (r: Option<JsNum>)
    ensures r.None? <==> selectedUserId == ""
    ensures r.Some? ==> r.value == ParseInt(selectedUserId)
  {
    if selectedUserId == "" then None else Some(ParseInt(selectedUserId))
  }

  /** Picking an offered user adds exactly that user: the option's value is the
      user's id as text, which is never empty and reads back as the id. */
  lemma PickedUserIsAdded(users: seq<User>, members: seq<User>, u: User)
    requires u in AvailableUsers(users, members)
    ensures AddMemberRequest(DecimalString(u.id)) == Some(Int(u.id))
  {
    ParseDecimal(u.id);
  }

  /** `handleRemoveMember`: nothing without a member whose id is truthy;
      otherwise that id goes to `removeProjectMember`. */
  function RemoveMemberRequest(current: Option<User>): (r: Option<int>)
    ensures r.None? <==> current.None? || current.value.id == 0
    ensures r.Some? ==> r.value == current.value.id
  {
    match current
    case Some(m) => if m.id != 0 then Some(m.id) else None
    case None => None
  }

  /** Adding and then removing a user name the same id: the add handler asks
      for the id the option's text reads back as, the user is offered no more
      once listed, and removing that listed member asks for the same id. */
  lemma RemoveUndoesAddRequest(users: seq<User>, members: seq<User>, u: User)
    requires u in AvailableUsers(users, members)
    requires u.id != 0
    ensures var listed := members + [u];
      && AddMemberRequest(DecimalString(u.id)) == Some(Int(u.id))
      && u !in AvailableUsers(users, listed)
      && u in listed
      && RemoveMemberRequest(Some(u)) == Some(u.id)
  {
    PickedUserIsAdded(users, members, u);
    JoiningShrinksOffer(users, members, u);
  }
}
