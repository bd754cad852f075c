/**
 * The employee list of a company (src/pages/company/ManageEmployees.tsx):
 * who may remove whom, the initial load and the removal. Role labels are
 * the ones of the invitations page.
 */
module ManageEmployees {
  import opened Wrappers
  import opened Domain
  import opened EntityLists
  import opened Http
  import TeamDetails

  /** The remove button: the current user is an owner and the employee is not. */
  predicate CanRemoveEmployee(currentUser: Option<User>, employee: User)
    ensures CanRemoveEmployee(currentUser, employee) <==> HasRole(currentUser, [Owner]) && !HasRole(Some(employee), [Owner])
  {
    currentUser.Some? && currentUser.value.role == Owner && employee.role != Owner
  }

  /** Nobody can remove an owner, and only owners can remove anybody. */
  lemma RemovalRule(currentUser: Option<User>, employee: User)
    ensures employee.role == Owner ==> !CanRemoveEmployee(currentUser, employee)
    ensures !HasRole(currentUser, [Owner]) ==> !CanRemoveEmployee(currentUser, employee)
    ensures HasRole(currentUser, [Owner]) && employee.role != Owner ==> CanRemoveEmployee(currentUser, employee)
  {
  }

  /** `removeUserFromCompany`. */
  function RemoveUserFromCompany(companyId: string, userId: string): (r: Request)
    ensures r.verb == Delete && r.path == "/companies/" + companyId + "/user/" + userId && r.query == [] && r.body == None
  {
    Request(Delete, "/companies/" + companyId + "/user/" + userId, [], None)
  }

  class ManageEmployeesPage {
    /** The `:companyId` route parameter; the empty string is an absent one. */
    const companyId: string
    var employees: seq<User>
    var loading: bool

    constructor (companyId: string)
      ensures this.companyId == companyId && employees == [] && loading
    {
      this.companyId := companyId;
      employees := [];
      loading := true;
    }

    /** `loadEmployees`: without a company it returns before its `finally`, so the spinner stays. */
    method LoadEmployees(reply: Response<seq<User>>) returns (sent: Option<Request>)
      modifies this`employees, this`loading
      ensures companyId == "" ==> sent == None && employees == old(employees) && loading == old(loading)
      ensures companyId != "" ==> sent == Some(TeamDetails.GetCompanyUsers(companyId)) && !loading
      ensures companyId != "" ==> employees == if reply.Success? then reply.value else old(employees)
    {
      sent := None;
      if companyId == "" {
        return;
      }
      sent := Some(TeamDetails.GetCompanyUsers(companyId));
      if reply.Success? {
        employees := reply.value;
      }
      loading := false;
    }

    /** `handleRemoveEmployee`: nothing without a company; the employee goes once the server confirms. */
    method HandleRemoveEmployee(userId: string, reply: Response<()>) returns (sent: Option<Request>)
      modifies this`employees
      ensures companyId == "" ==> sent == None && employees == old(employees)
      ensures companyId != "" ==> sent == Some(RemoveUserFromCompany(companyId, userId))
      ensures companyId != "" ==>
        employees == if reply.Success? then WithoutId(old(employees), UserId, userId) else old(employees)
    {
      sent := None;
      if companyId == "" {
        return;
      }
      sent := Some(RemoveUserFromCompany(companyId, userId));
      if reply.Success? {
        employees := WithoutId(employees, UserId, userId);
      }
    }
  }
}
