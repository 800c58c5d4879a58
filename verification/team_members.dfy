/** The member table of `components/teams/TeamMembers.tsx`: who may manage members, what the role
    change and removal handlers send, and which controls each row shows. The session's user id,
    the confirm dialog's answer and whether the request succeeded are inputs; a request that
    throws is treated like one that answers with an error status, as the handlers' `catch` does. */
module TeamMembers {
  import opened Base
  import opened Teams

  datatype TeamMember = TeamMember(id: string, userId: string, role: Role)

  /** The role of the viewer's own membership: the first member whose user id is the session's. A
      visitor without a session user has none. */
  function ViewerRole(members: seq<TeamMember>, viewer: Option<string>): (r: Option<Role>)
    ensures r.None? <==> viewer.None? || forall i :: 0 <= i < |members| ==> members[i].userId != viewer.value
    ensures r.Some? ==> exists i :: 0 <= i < |members| && members[i].userId == viewer.value && members[i].role == r.value
    decreases |members|
  {
    if viewer.None? || members == [] then None
    else if members[0].userId == viewer.value then Some(members[0].role)
    else
      var rest := ViewerRole(members[1..], viewer);
      assert forall i :: 1 <= i < |members| ==> members[i] == members[1..][i - 1];
      rest
  }

  /** `canManageMembers`. */
  predicate CanManage(members: seq<TeamMember>, viewer: Option<string>) {
    ViewerRole(members, viewer) == Some(Admin) || ViewerRole(members, viewer) == Some(Owner)
  }

  /** A team holds at most one membership per user. */
  predicate UniqueUsers(members: seq<TeamMember>) {
    forall i, j :: 0 <= i < j < |members| ==> members[i].userId != members[j].userId
  }

  /** With one membership per user, the viewer may manage members exactly when they are one of
      the team's admins or owners; a non-member never may. */
  lemma {:induction false} CanManageIffAdminOrOwner(members: seq<TeamMember>, viewer: string)
    requires UniqueUsers(members)
    ensures CanManage(members, Some(viewer)) <==>
              exists i :: 0 <= i < |members| && members[i].userId == viewer && members[i].role in {Admin, Owner}
    decreases |members|
  {
    if members != [] && members[0].userId != viewer {
      CanManageIffAdminOrOwner(members[1..], viewer);
      if exists i :: 0 <= i < |members| && members[i].userId == viewer && members[i].role in {Admin, Owner} {
        var i :| 0 <= i < |members| && members[i].userId == viewer && members[i].role in {Admin, Owner};
        assert members[1..][i - 1] == members[i];
      }
    } else if members != [] {
      if exists i :: 0 <= i < |members| && members[i].userId == viewer && members[i].role in {Admin, Owner} {
        var i :| 0 <= i < |members| && members[i].userId == viewer && members[i].role in {Admin, Owner};
        assert i == 0;
      }
    }
  }

  /** A request the component sends to the member endpoint. */
  datatype Request = Patch(path: string, role: Role) | Delete(path: string)

  datatype Toast = Toast(title: string, description: string, destructive: bool)

  /** What a handler did: the request it sent, the toasts it showed and whether it asked the page
      to reload the team. */
  datatype Effect = Effect(request: Option<Request>, toasts: seq<Toast>, refreshed: bool)

  const DENIED := Toast("Permission denied", "You do not have permission to manage team members.", true)
  const ROLE_UPDATED := Toast("Role updated", "Team member role has been updated successfully.", false)
  const ROLE_FAILED := Toast("Error", "Failed to update team member role.", true)
  const REMOVED := Toast("Member removed", "Team member has been removed successfully.", false)
  const REMOVE_FAILED := Toast("Error", "Failed to remove team member.", true)

  /** `/api/teams/${team.id}/members/${memberId}`. */
  function MemberPath(teamId: string, memberId: string): string {
    "/api/teams/" + teamId + "/members/" + memberId
  }

  /** `handleRoleChange`: a non-manager is told off and nothing is sent; otherwise a PATCH with the
      new role, then a reload and a success toast, or an error toast when the request failed. */
  function ChangeRole(members: seq<TeamMember>, viewer: Option<string>, teamId: string,
                      memberId: string, newRole: Role, ok: bool): (r: Effect)
    ensures !CanManage(members, viewer) ==> r == Effect(None, [DENIED], false)
    ensures CanManage(members, viewer) ==>
              && r.request == Some(Patch(MemberPath(teamId, memberId), newRole))
              && r.refreshed == ok
              && r.toasts == [if ok then ROLE_UPDATED else ROLE_FAILED]
  {
    if !CanManage(members, viewer) then Effect(None, [DENIED], false)
    else Effect(Some(Patch(MemberPath(teamId, memberId), newRole)), [if ok then ROLE_UPDATED else ROLE_FAILED], ok)
  }

  /** `handleRemoveMember`: as a role change, but a DELETE, and only after the confirm dialog is
      accepted; a declined dialog does nothing at all. */
  function RemoveMember(members: seq<TeamMember>, viewer: Option<string>, teamId: string,
                        memberId: string, confirmed: bool, ok: bool): (r: Effect)
    ensures !CanManage(members, viewer) ==> r == Effect(None, [DENIED], false)
    ensures CanManage(members, viewer) && !confirmed ==> r == Effect(None, [], false)
    ensures CanManage(members, viewer) && confirmed ==>
              && r.request == Some(Delete(MemberPath(teamId, memberId)))
              && r.refreshed == ok
              && r.toasts == [if ok then REMOVED else REMOVE_FAILED]
  {
    if !CanManage(members, viewer) then Effect(None, [DENIED], false)
    else if !confirmed then Effect(None, [], false)
    else Effect(Some(Delete(MemberPath(teamId, memberId))), [if ok then REMOVED else REMOVE_FAILED], ok)
  }

  /** Nothing reaches the server unless the viewer may manage members, and a removal also needs
      the dialog's consent; a refused viewer always sees exactly the permission toast. */
  lemma RequestsNeedPermission(members: seq<TeamMember>, viewer: Option<string>, teamId: string,
                               memberId: string, newRole: Role, confirmed: bool, ok: bool)
    ensures ChangeRole(members, viewer, teamId, memberId, newRole, ok).request.Some? <==> CanManage(members, viewer)
    ensures RemoveMember(members, viewer, teamId, memberId, confirmed, ok).request.Some? <==>
              CanManage(members, viewer) && confirmed
    ensures DENIED in ChangeRole(members, viewer, teamId, memberId, newRole, ok).toasts <==> !CanManage(members, viewer)
    ensures DENIED in RemoveMember(members, viewer, teamId, memberId, confirmed, ok).toasts <==> !CanManage(members, viewer)
  {
  }

  /** The three roles (`Object.values(Role)`). */
  const ALL_ROLES := [Owner, Admin, Member]

  /** `roles.filter((role) => role !== Role.OWNER)`. */
  function ExceptOwner(roles: seq<Role>): (r: seq<Role>)
    ensures Owner !in r
    ensures forall role :: role != Owner ==> (role in r <==> role in roles)
    decreases |roles|
  {
    if roles == [] then []
    else if roles[0] == Owner then ExceptOwner(roles[1..])
    else [roles[0]] + ExceptOwner(roles[1..])
  }

  /** The selector's options: every role but OWNER. */
  function SelectorOptions(): (r: seq<Role>)
    ensures Owner !in r
    ensures forall role :: role != Owner ==> role in r
  {
    assert Admin in ALL_ROLES && Member in ALL_ROLES;
    ExceptOwner(ALL_ROLES)
  }

  /** The controls one row shows: whether the role is a selector (else a plain badge), whether
      there is an actions cell and whether it holds a Remove button. */
  datatype Row = Row(selector: bool, actionsCell: bool, removeButton: bool)

  function RowControls(canManage: bool, member: TeamMember): (r: Row)
    ensures r.selector <==> canManage && member.role != Owner
    ensures r.actionsCell <==> canManage
    ensures r.removeButton <==> canManage && member.role != Owner
  {
    Row(canManage && member.role != Owner, canManage, canManage && member.role != Owner)
  }

  /** An owner's row offers no way to change or remove them, whoever is looking; and no choice in
      the selector promotes anyone to owner. */
  lemma OwnersProtected(canManage: bool, member: TeamMember, members: seq<TeamMember>, viewer: Option<string>,
                        teamId: string, choice: nat, ok: bool)
    requires choice < |SelectorOptions()|
    ensures member.role == Owner ==> !RowControls(canManage, member).selector && !RowControls(canManage, member).removeButton
    ensures var req := ChangeRole(members, viewer, teamId, member.id, SelectorOptions()[choice], ok).request;
            req.Some? ==> req.value.role != Owner
  {
    assert SelectorOptions()[choice] in SelectorOptions();
  }
}
