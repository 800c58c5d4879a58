/** The team store of `lib/team-service.ts`: creating a team with its owner, and adding, changing,
    finding and removing members. Storage is two maps, teams by id and roles by (team id, user id).
    The store refuses what the database's constraints refuse: a second team with the same slug (the
    slug is unique), a membership of a team that does not exist (the foreign key), a second
    membership for the same pair (the composite key), and an update or removal of a missing one. */
module Teams {
  import opened Base
  import Slugs
  import TeamUtils

  datatype Role = Owner | Admin | Member

  function RoleName(r: Role): string {
    match r
    case Owner => "OWNER"
    case Admin => "ADMIN"
    case Member => "MEMBER"
  }

  datatype Team = Team(id: string, name: string, slug: string)

  datatype Store = Store(teams: map<string, Team>, members: map<(string, string), Role>)

  /** Every membership belongs to a stored team. */
  predicate Valid(s: Store) {
    forall k :: k in s.members ==> k.0 in s.teams
  }

  /** The memberships as the role check reads them. */
  function Roles(s: Store): (r: TeamUtils.Memberships)
    ensures r.Keys == s.members.Keys
    ensures forall k :: k in s.members ==> r[k] == RoleName(s.members[k])
  {
    map k | k in s.members :: RoleName(s.members[k])
  }

  const DUPLICATE := "Unique constraint failed"
  const FOREIGN_KEY := "Foreign key constraint failed"
  /** Prisma's messages when the row an update or a delete names does not exist. */
  const NOT_FOUND := "Record to update not found"
  const NOT_FOUND_FOR_DELETE := "Record to delete does not exist."

  /** Some stored team already has this slug. */
  predicate SlugTaken(s: Store, slug: string) {
    exists t :: t in s.teams && s.teams[t].slug == slug
  }

  /** `slug || this.generateSlug(name)`: the caller's slug when it is non-empty, else one
      generated from the name. */
  function ChosenSlug(slug: Option<string>, name: string): (r: string)
    ensures Filled(slug) ==> r == slug.value
    ensures !Filled(slug) ==> r == Slugs.ServiceSlug(name) && Slugs.IsSlug(r)
  {
    OrElse(slug, Slugs.ServiceSlug(name))
  }

  /** `create`: the team gets the chosen slug and the creator becomes its only member, as OWNER.
      The new id is chosen by the database, so it is fresh. A slug some team already has breaks
      the unique key and nothing is written. */
  function Create(s: Store, id: string, name: string, userId: string, slug: Option<string>): (r: Result<(Team, Store)>)
    requires Valid(s) && id !in s.teams
    ensures r.Err? <==> SlugTaken(s, ChosenSlug(slug, name))
    ensures r.Err? ==> r.error == DUPLICATE
    ensures r.Ok? ==> Valid(r.value.1)
    ensures r.Ok? ==> r.value.0 == Team(id, name, ChosenSlug(slug, name)) && r.value.1.teams == s.teams[id := r.value.0]
    ensures r.Ok? ==> forall k :: k in r.value.1.members && k.0 == id ==> k == (id, userId) && r.value.1.members[k] == Owner
    ensures r.Ok? ==> (id, userId) in r.value.1.members
    ensures r.Ok? ==> forall k :: k in s.members ==> k in r.value.1.members && r.value.1.members[k] == s.members[k]
    ensures r.Ok? ==> |r.value.1.members| == |s.members| + 1
  {
    var teamSlug := ChosenSlug(slug, name);
    if SlugTaken(s, teamSlug) then Err(DUPLICATE)
    else
      var team := Team(id, name, teamSlug);
      var members := s.members[(id, userId) := Owner];
      assert (id, userId) !in s.members;
      assert members.Keys == s.members.Keys + {(id, userId)};
      Ok((team, Store(s.teams[id := team], members)))
  }

  /** `addMember`: the role defaults to MEMBER. A team that does not exist breaks the foreign key;
      an existing membership breaks the composite key. */
  function AddMember(s: Store, teamId: string, userId: string, role: Option<Role>): (r: Result<Store>)
    ensures r.Err? <==> teamId !in s.teams || (teamId, userId) in s.members
    ensures teamId !in s.teams ==> r == Err(FOREIGN_KEY)
    ensures teamId in s.teams && (teamId, userId) in s.members ==> r == Err(DUPLICATE)
    ensures r.Ok? ==> r.value.teams == s.teams && r.value.members == s.members[(teamId, userId) := role.GetOr(Member)]
    ensures r.Ok? && Valid(s) ==> Valid(r.value)
  {
    if teamId !in s.teams then Err(FOREIGN_KEY)
    else if (teamId, userId) in s.members then Err(DUPLICATE)
    else Ok(Store(s.teams, s.members[(teamId, userId) := role.GetOr(Member)]))
  }

  /** `updateMember`. */
  function UpdateMember(s: Store, teamId: string, userId: string, role: Role): (r: Result<Store>)
    ensures r.Err? <==> (teamId, userId) !in s.members
    ensures r.Err? ==> r.error == NOT_FOUND
    ensures r.Ok? ==> r.value.teams == s.teams && r.value.members.Keys == s.members.Keys
    ensures r.Ok? ==> r.value.members[(teamId, userId)] == role
    ensures r.Ok? ==> forall k :: k in s.members && k != (teamId, userId) ==> r.value.members[k] == s.members[k]
  {
    if (teamId, userId) !in s.members then Err(NOT_FOUND)
    else Ok(Store(s.teams, s.members[(teamId, userId) := role]))
  }

  /** `removeMember`. */
  function RemoveMember(s: Store, teamId: string, userId: string): (r: Result<Store>)
    ensures r.Err? <==> (teamId, userId) !in s.members
    ensures r.Err? ==> r.error == NOT_FOUND_FOR_DELETE
    ensures r.Ok? ==> r.value.teams == s.teams && r.value.members.Keys == s.members.Keys - {(teamId, userId)}
    ensures r.Ok? ==> forall k :: k in r.value.members ==> r.value.members[k] == s.members[k]
  {
    if (teamId, userId) !in s.members then Err(NOT_FOUND_FOR_DELETE)
    else Ok(Store(s.teams, map k | k in s.members && k != (teamId, userId) :: s.members[k]))
  }

  /** `findMember`. */
  function FindMember(s: Store, teamId: string, userId: string): (r: Option<Role>)
    ensures r.Some? <==> (teamId, userId) in s.members
    ensures r.Some? ==> r.value == s.members[(teamId, userId)]
  {
    if (teamId, userId) in s.members then Some(s.members[(teamId, userId)]) else None
  }

  // -----------------------------------------------------------------------------------------------
  // Properties

  /** After creation the creator holds the OWNER role in the new team and nobody else holds any
      role there. */
  lemma CreatorIsSoleOwner(s: Store, id: string, name: string, userId: string, slug: Option<string>, other: string, roles: seq<string>)
    requires Valid(s) && id !in s.teams && !SlugTaken(s, ChosenSlug(slug, name))
    requires other != userId
    ensures Create(s, id, name, userId, slug).Ok?
    ensures TeamUtils.HasTeamRole(Roles(Create(s, id, name, userId, slug).value.1), userId, id, ["OWNER"])
    ensures !TeamUtils.HasTeamRole(Roles(Create(s, id, name, userId, slug).value.1), other, id, roles)
  {
    var after := Create(s, id, name, userId, slug).value.1;
    assert Roles(after)[(id, userId)] == "OWNER";
    assert ["OWNER"][0] == "OWNER";
  }

  /** No two stored teams share a slug. */
  predicate UniqueSlugs(s: Store) {
    forall t, u :: t in s.teams && u in s.teams && t != u ==> s.teams[t].slug != s.teams[u].slug
  }

  /** Creation keeps the store's constraints: slugs stay unique and every membership still belongs
      to a stored team; so a second team asking for the same slug is refused. */
  lemma CreateKeepsConstraints(s: Store, id: string, name: string, userId: string, slug: string,
                               id2: string, name2: string, userId2: string)
    requires Valid(s) && UniqueSlugs(s) && id !in s.teams
    requires slug != "" && !SlugTaken(s, slug)
    requires id2 != id && id2 !in s.teams
    ensures Create(s, id, name, userId, Some(slug)).Ok?
    ensures Valid(Create(s, id, name, userId, Some(slug)).value.1)
    ensures UniqueSlugs(Create(s, id, name, userId, Some(slug)).value.1)
    ensures Create(Create(s, id, name, userId, Some(slug)).value.1, id2, name2, userId2, Some(slug)) == Err(DUPLICATE)
  {
    var after := Create(s, id, name, userId, Some(slug)).value;
    assert after.0 == Team(id, name, slug) && after.1.teams == s.teams[id := after.0];
    forall t, u | t in after.1.teams && u in after.1.teams && t != u
      ensures after.1.teams[t].slug != after.1.teams[u].slug
    {
      if t != id && u != id {
        assert after.1.teams[t] == s.teams[t] && after.1.teams[u] == s.teams[u];
      } else if t == id {
        assert after.1.teams[u] == s.teams[u];
      } else {
        assert after.1.teams[t] == s.teams[t];
      }
    }
    assert SlugTaken(after.1, slug) by {
      assert after.1.teams[id].slug == slug;
    }
  }

  /** A member added without a role is a MEMBER: the role check passes for MEMBER and fails for
      OWNER and ADMIN. */
  lemma DefaultRoleIsMember(s: Store, teamId: string, userId: string)
    requires teamId in s.teams && (teamId, userId) !in s.members
    ensures AddMember(s, teamId, userId, None).Ok?
    ensures TeamUtils.HasTeamRole(Roles(AddMember(s, teamId, userId, None).value), userId, teamId, ["MEMBER"])
    ensures !TeamUtils.HasTeamRole(Roles(AddMember(s, teamId, userId, None).value), userId, teamId, ["OWNER", "ADMIN"])
  {
    var after := AddMember(s, teamId, userId, None).value;
    assert Roles(after)[(teamId, userId)] == "MEMBER";
    assert ["MEMBER"][0] == "MEMBER";
  }

  /** Adding a member and removing them again restores the store. */
  lemma AddThenRemove(s: Store, teamId: string, userId: string, role: Option<Role>)
    requires teamId in s.teams && (teamId, userId) !in s.members
    ensures AddMember(s, teamId, userId, role).Ok?
    ensures RemoveMember(AddMember(s, teamId, userId, role).value, teamId, userId) == Ok(s)
  {
    var added := AddMember(s, teamId, userId, role).value;
    var removed := RemoveMember(added, teamId, userId).value;
    assert removed.members == s.members;
  }

  /** Changing a role and reading it back gives the new role; nobody else's role changes. */
  lemma UpdateThenFind(s: Store, teamId: string, userId: string, role: Role, otherTeam: string, otherUser: string)
    requires (teamId, userId) in s.members
    requires (otherTeam, otherUser) != (teamId, userId)
    ensures FindMember(UpdateMember(s, teamId, userId, role).value, teamId, userId) == Some(role)
    ensures FindMember(UpdateMember(s, teamId, userId, role).value, otherTeam, otherUser) == FindMember(s, otherTeam, otherUser)
  {
  }
}
