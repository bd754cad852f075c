/**
 * The team page (src/pages/teams/TeamDetails.tsx): loading the team with
 * its members, the users that can still be added, and removing a member.
 */
module TeamDetails {
  import opened Wrappers
  import opened Seqs
  import opened Domain
  import opened EntityLists
  import opened Http

  /** `members.some(m => m.id === id)`. */
  predicate IsMemberId(members: seq<User>, id: string)
  {
    exists m :: m in members && m.id == id
  }

  function NotAMember(members: seq<User>): User -> bool
  {
    (u: User) => !IsMemberId(members, u.id)
  }

  /** `companyUsers.filter(u => !members.some(m => m.id === u.id))`. */
  function NonMembers(companyUsers: seq<User>, members: seq<User>): (r: seq<User>)
    ensures forall u :: u in r ==> u in companyUsers && !IsMemberId(members, u.id)
    ensures forall u :: u in companyUsers && !IsMemberId(members, u.id) ==> u in r
  {
    Filter(companyUsers, NotAMember(members))
  }

  /** No user offered for adding shares an id with a member. */
  lemma NonMembersDisjoint(companyUsers: seq<User>, members: seq<User>)
    ensures forall u, m :: u in NonMembers(companyUsers, members) && m in members ==> u.id != m.id
  {
  }

  /** The offered users keep the company list's order. */
  lemma NonMembersKeepOrder(companyUsers: seq<User>, members: seq<User>) returns (idx: seq<nat>)
    ensures |idx| == |NonMembers(companyUsers, members)|
    ensures forall k :: 0 <= k < |idx| ==>
      idx[k] < |companyUsers| && companyUsers[idx[k]] == NonMembers(companyUsers, members)[k]
    ensures forall k, l :: 0 <= k < l < |idx| ==> idx[k] < idx[l]
  {
    idx := FilterPreservesOrder(companyUsers, NotAMember(members));
  }

  /** A team without members offers every company user. */
  lemma NoMembersOffersEveryone(companyUsers: seq<User>)
    ensures NonMembers(companyUsers, []) == companyUsers
  {
    FilterKeepsAll(companyUsers, NotAMember([]));
  }

  /** `getCompanyUsers`. */
  function GetCompanyUsers(companyId: string): (r: Request)
    ensures r.verb == Get && r.path == "/companies/" + companyId + "/users" && r.query == [] && r.body == None
  {
    Request(Get, "/companies/" + companyId + "/users", [], None)
  }

  /** `getTeamDetails`. */
  function GetTeamDetails(teamId: string): (r: Request)
    ensures r.verb == Get && r.path == "/teams/" + teamId && r.query == [] && r.body == None
  {
    Request(Get, "/teams/" + teamId, [], None)
  }

  /** `getTeamMembers`. */
  function GetTeamMembers(teamId: string): (r: Request)
    ensures r.verb == Get && r.path == "/teams/" + teamId + "/members" && r.query == [] && r.body == None
  {
    Request(Get, "/teams/" + teamId + "/members", [], None)
  }

  /** `removeUserFromTeam`. */
  function RemoveUserFromTeam(teamId: string, userId: string): (r: Request)
    ensures r.verb == Delete && r.path == "/teams/" + teamId + "/remove/" + userId && r.query == [] && r.body == None
  {
    Request(Delete, "/teams/" + teamId + "/remove/" + userId, [], None)
  }

  class TeamDetailsPage {
    /** The `:teamId` route parameter; the empty string is an absent one. */
    const teamId: string
    const user: Option<User>
    var team: Option<Team>
    var members: seq<User>
    var loading: bool
    var availableUsers: seq<User>
    /** The last `navigate` call, if any. */
    var navigatedTo: Option<string>

    constructor (teamId: string, user: Option<User>)
      ensures this.teamId == teamId && this.user == user
      ensures team == None && members == [] && loading && availableUsers == [] && navigatedTo == None
    {
      this.teamId := teamId;
      this.user := user;
      team := None;
      members := [];
      loading := true;
      availableUsers := [];
      navigatedTo := None;
    }

    /**
     * `loadTeamDetails`: team and members together, or neither and back to
     * the list. `Promise.all` sends both requests before either reply.
     */
    method LoadTeamDetails(teamReply: Response<Team>, membersReply: Response<seq<User>>) returns (sent: seq<Request>)
      modifies this`team, this`members, this`loading, this`navigatedTo
      ensures teamId == "" ==> sent == []
      ensures teamId == "" ==>
        team == old(team) && members == old(members) && loading == old(loading) && navigatedTo == old(navigatedTo)
      ensures teamId != "" ==> sent == [GetTeamDetails(teamId), GetTeamMembers(teamId)] && !loading
      ensures teamId != "" && teamReply.Success? && membersReply.Success? ==>
        team == Some(teamReply.value) && members == membersReply.value && navigatedTo == old(navigatedTo)
      ensures teamId != "" && (teamReply.Failure? || membersReply.Failure?) ==>
        team == old(team) && members == old(members) && navigatedTo == Some("/teams")
    {
      sent := [];
      if teamId == "" {
        return;
      }
      sent := [GetTeamDetails(teamId), GetTeamMembers(teamId)];
      if teamReply.Success? && membersReply.Success? {
        team := Some(teamReply.value);
        members := membersReply.value;
      } else {
        navigatedTo := Some("/teams");
      }
      loading := false;
    }

    /** `loadAvailableUsers`: without a loaded team, `team!` throws into the `catch` before any request. */
    method LoadAvailableUsers(reply: Response<seq<User>>) returns (sent: Option<Request>)
      modifies this`availableUsers
      ensures team.None? ==> sent == None && availableUsers == old(availableUsers)
      ensures team.Some? ==> sent == Some(GetCompanyUsers(team.value.companyId))
      ensures team.Some? && reply.Success? ==> availableUsers == NonMembers(reply.value, members)
      ensures reply.Failure? ==> availableUsers == old(availableUsers)
    {
      sent := None;
      if team.None? {
        return;
      }
      sent := Some(GetCompanyUsers(team.value.companyId));
      if reply.Success? {
        availableUsers := NonMembers(reply.value, members);
      }
    }

    /** `handleRemoveMember`: nothing without a team id; without a user, `user!` throws into the `catch`. */
    method HandleRemoveMember(userId: string, reply: Response<()>) returns (sent: Option<Request>)
      modifies this`members
      ensures teamId == "" || user.None? ==> sent == None && members == old(members)
      ensures teamId != "" && user.Some? ==> sent == Some(RemoveUserFromTeam(teamId, userId))
      ensures teamId != "" && user.Some? ==>
        members == if reply.Success? then WithoutId(old(members), UserId, userId) else old(members)
    {
      sent := None;
      if teamId == "" || user.None? {
        return;
      }
      sent := Some(RemoveUserFromTeam(teamId, userId));
      if reply.Success? {
        members := WithoutId(members, UserId, userId);
      }
    }
  }
}
