/**
 * The team list (src/pages/teams/Teams.tsx): who may manage teams, the
 * initial load, replacing an edited team, and deleting a team.
 */
module Teams {
  import opened Wrappers
  import opened Domain
  import opened EntityLists
  import opened Http

  const TeamManagerRoles: seq<Role> := [Owner, Manager]

  /**
   * `getCompanyTeams`: the only list whose company travels in the query,
   * interpolated into the path as `?companyId=` without escaping.
   */
  function GetCompanyTeams(companyId: string): (r: Request)
    ensures r.verb == Get && r.path == "/teams" && r.body == None
    ensures Keys(r.query) == ["companyId"] && Lookup(r.query, "companyId") == Some(companyId)
  {
    Request(Get, "/teams", [("companyId", companyId)], None)
  }

  /** `canManageTeam`, written the same way on the team list and on the team page. */
  predicate CanManageTeam(user: Option<User>)
    ensures CanManageTeam(user) <==> HasRole(user, [Owner, Manager])
  {
    user.Some? && (user.value.role == Owner || user.value.role == Manager)
  }

  /** Only owners and managers see the edit and delete controls. */
  lemma CanManageTeamIff(user: Option<User>)
    ensures CanManageTeam(user) <==> HasRole(user, TeamManagerRoles)
    ensures user.Some? && (user.value.role == Technician || user.value.role == Operator) ==> !CanManageTeam(user)
  {
  }

  /**
   * The delete button as written: it calls a `deleteTeam` that the team
   * service does not define, so with a user the call throws into the
   * `catch` and the list never changes.
   */
  function DeleteTeamAsWritten(teams: seq<Team>, user: Option<User>, teamId: string): (r: seq<Team>)
    ensures r == teams
  {
    // `if (!user) return;` and the throwing call both leave `teams` alone.
    teams
  }

  /** The delete button as intended: with a user, the team goes once the server confirms. */
  function DeleteTeamIntended(teams: seq<Team>, user: Option<User>, teamId: string, reply: Response<()>): (r: seq<Team>)
    ensures user.None? || reply.Failure? ==> r == teams
    ensures user.Some? && reply.Success? ==> r == WithoutId(teams, TeamId, teamId)
  {
    if user.Some? && reply.Success? then WithoutId(teams, TeamId, teamId) else teams
  }

  /** A listed team that the server deletes stays on screen as written. */
  lemma DeleteTeamAsWrittenKeepsDeleted(teams: seq<Team>, user: User, team: Team)
    requires team in teams
    ensures team in DeleteTeamAsWritten(teams, Some(user), team.id)
    ensures team !in DeleteTeamIntended(teams, Some(user), team.id, Success(()))
  {
  }

  class TeamsPage {
    const user: Option<User>
    var teams: seq<Team>
    var loading: bool

    /** Unlike the other lists, this one starts without the spinner. */
    constructor (user: Option<User>)
      ensures this.user == user && teams == [] && !loading
    {
      this.user := user;
      teams := [];
      loading := false;
    }

    /** `loadTeams`: without a company nothing happens; otherwise the spinner runs for the call only. */
    method LoadTeams(reply: Response<seq<Team>>) returns (sent: Option<Request>)
      modifies this`teams, this`loading
      ensures CompanyOf(user).None? ==> sent == None && teams == old(teams) && loading == old(loading)
      ensures CompanyOf(user).Some? ==> sent == Some(GetCompanyTeams(user.value.companyId)) && !loading
      ensures CompanyOf(user).Some? ==> teams == if reply.Success? then reply.value else old(teams)
    {
      sent := None;
      if CompanyOf(user).None? {
        return;
      }
      loading := true;
      sent := Some(GetCompanyTeams(user.value.companyId));
      if reply.Success? {
        teams := reply.value;
      }
      loading := false;
    }

    /** `onUpdated`: the edited team takes the place of the team with its id. */
    method OnUpdated(updated: Team)
      modifies this`teams
      ensures teams == ReplaceById(old(teams), TeamId, updated)
    {
      teams := ReplaceById(teams, TeamId, updated);
    }

    /** The corrected delete: nothing without a user; the team goes once the server confirms. */
    method DeleteTeam(team: Team, reply: Response<()>)
      modifies this`teams
      ensures teams == DeleteTeamIntended(old(teams), user, team.id, reply)
    {
      if user.None? {
        return;
      }
      if reply.Success? {
        teams := WithoutId(teams, TeamId, team.id);
      }
    }
  }
}
