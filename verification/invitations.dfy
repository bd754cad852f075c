/**
 * The invitations page (src/pages/invitations/Invitations.tsx): the invite
 * form and its role options, the role labels, and the list updates after
 * creating, deleting and resending an invitation. The role labels are
 * shared with the employee list.
 */
module Invitations {
  import opened Wrappers
  import opened Seqs
  import opened Domain
  import opened EntityLists
  import opened Http

  const RoleLabels: seq<string> := ["Administrator", "Manager", "Tehnician", "Operator"]

  /** `getRoleLabel`: a fixed label per known role; anything else is shown as it is. */
  function RoleLabel(role: Role): (text: string)
    ensures forall k :: 0 <= k < |AllRoles| && role == AllRoles[k] ==> text == RoleLabels[k]
    ensures role !in AllRoles ==> text == role
  {
    if role == Owner then "Administrator"
    else if role == Manager then "Manager"
    else if role == Technician then "Tehnician"
    else if role == Operator then "Operator"
    else role
  }

  /** Different known roles never share a label. */
  lemma RoleLabelsDistinct(a: Role, b: Role)
    requires a in AllRoles && b in AllRoles && a != b
    ensures RoleLabel(a) != RoleLabel(b)
  {
  }

  function IsNotOwner(role: Role): bool
  {
    role != Owner
  }

  /** The options of the role select: `Object.values(Role).filter(role => role !== Role.OWNER)`. */
  function SelectableRoles(): (r: seq<Role>)
    ensures forall role :: role in r <==> role in AllRoles && role != Owner
  {
    Filter(AllRoles, IsNotOwner)
  }

  /** The select offers every role but OWNER, in declaration order. */
  lemma SelectableRolesAreAllButOwner()
    ensures SelectableRoles() == [Manager, Technician, Operator]
  {
    var s := AllRoles;
    assert s[1..][1..] == s[2..] && s[2..][1..] == s[3..] && s[3..][1..] == [];
    assert Filter(s[3..], IsNotOwner) == [s[3]];
    assert Filter(s[2..], IsNotOwner) == [s[2], s[3]];
    assert Filter(s[1..], IsNotOwner) == [s[1], s[2], s[3]];
  }

  /** The invite form's values. */
  datatype InvitationForm = InvitationForm(employeeEmail: string, role: Role)

  /**
   * The form schema: an email address (the check itself is a parameter)
   * and any member of `Role`. The schema accepts OWNER although the select
   * never offers it.
   */
  predicate FormValid(values: InvitationForm, isEmail: string -> bool)
    ensures FormValid(values, isEmail) <==> isEmail(values.employeeEmail) && (values.role in SelectableRoles() || values.role == Owner)
  {
    isEmail(values.employeeEmail) && values.role in AllRoles
  }

  /** Every selectable role passes the schema, and OWNER passes it too. */
  lemma SchemaAdmitsSelectableAndOwner(email: string, isEmail: string -> bool)
    requires isEmail(email)
    ensures forall r :: r in SelectableRoles() ==> FormValid(InvitationForm(email, r), isEmail)
    ensures FormValid(InvitationForm(email, Owner), isEmail) && Owner !in SelectableRoles()
  {
    SelectableRolesAreAllButOwner();
  }

  /** `getCompanyInvitations`. */
  function GetCompanyInvitations(companyId: string): (r: Request)
    ensures r.verb == Get && r.path == "/invitations/company/" + companyId && r.query == [] && r.body == None
  {
    Request(Get, "/invitations/company/" + companyId, [], None)
  }

  /** `createInvitation`: the three fields in the body. */
  function CreateInvitation(employeeEmail: string, role: Role, companyId: string): (r: Request)
    ensures r.verb == Post && r.path == "/invitations" && r.query == [] && r.body.Some?
    ensures Keys(r.body.value) == ["employeeEmail", "role", "companyId"]
    ensures Lookup(r.body.value, "employeeEmail") == Some(employeeEmail)
    ensures Lookup(r.body.value, "role") == Some(role)
    ensures Lookup(r.body.value, "companyId") == Some(companyId)
  {
    Request(Post, "/invitations", [], Some([("employeeEmail", employeeEmail), ("role", role), ("companyId", companyId)]))
  }

  /** `deleteInvitation`. */
  function DeleteInvitation(invitationId: string): (r: Request)
    ensures r.verb == Delete && r.path == "/invitations/" + invitationId && r.query == [] && r.body == None
  {
    Request(Delete, "/invitations/" + invitationId, [], None)
  }

  /** The resend button shows only for invitations not yet used. */
  predicate CanResend(invitation: Invitation)
  {
    !invitation.used
  }

  // The screen-reader labels of a row's two action buttons.
  const ResendAction := "Retrimite"
  const DeleteAction := "Șterge"

  /**
   * The action buttons of an invitation's row, left to right: resend for an
   * invitation not yet used, then delete for every invitation.
   */
  function RowActions(invitation: Invitation): (actions: seq<string>)
    ensures ResendAction in actions <==> !invitation.used
    ensures DeleteAction in actions && actions[|actions| - 1] == DeleteAction
    ensures |actions| == if invitation.used then 1 else 2
  {
    (if CanResend(invitation) then [ResendAction] else []) + [DeleteAction]
  }

  /** The list after a resend: the new invitation first, the old one gone, the rest in order. */
  function Resent(list: seq<Invitation>, previous: Invitation, replacement: Invitation): (r: seq<Invitation>)
    ensures |r| >= 1 && r[0] == replacement
    ensures forall x :: x in r[1..] ==> x in list && x.id != previous.id
    ensures forall x :: x in list && x.id != previous.id ==> x in r[1..]
  {
    Prepended(WithoutId(list, InvitationId, previous.id), replacement)
  }

  /**
   * With unique ids, resending a listed invitation that comes back under a
   * fresh id keeps the length and keeps the ids unique.
   */
  lemma ResentReplacesOne(list: seq<Invitation>, previous: Invitation, replacement: Invitation)
    requires UniqueIds(list, InvitationId) && previous in list
    requires forall x :: x in list ==> x.id != replacement.id
    ensures |Resent(list, previous, replacement)| == |list|
    ensures UniqueIds(Resent(list, previous, replacement), InvitationId)
  {
    WithoutPresentId(list, InvitationId, previous.id);
    WithoutIdKeepsUnique(list, InvitationId, previous.id);
    PrependedKeepsUnique(WithoutId(list, InvitationId, previous.id), InvitationId, replacement);
  }

  class InvitationsPage {
    /** The `:companyId` route parameter; the empty string is an absent one. */
    const companyId: string
    var invitations: seq<Invitation>
    var loading: bool
    var dialogOpen: bool

    constructor (companyId: string)
      ensures this.companyId == companyId && invitations == [] && loading && !dialogOpen
    {
      this.companyId := companyId;
      invitations := [];
      loading := true;
      dialogOpen := false;
    }

    /** `loadInvitations`: without a company it returns before its `finally`, so the spinner stays. */
    method LoadInvitations(reply: Response<seq<Invitation>>) returns (sent: Option<Request>)
      modifies this`invitations, this`loading
      ensures companyId == "" ==> sent == None && invitations == old(invitations) && loading == old(loading)
      ensures companyId != "" ==> sent == Some(GetCompanyInvitations(companyId)) && !loading
      ensures companyId != "" ==> invitations == if reply.Success? then reply.value else old(invitations)
    {
      sent := None;
      if companyId == "" {
        return;
      }
      sent := Some(GetCompanyInvitations(companyId));
      if reply.Success? {
        invitations := reply.value;
      }
      loading := false;
    }

    /** `onSubmit`, reached only with values the schema accepts. */
    method OnSubmit(values: InvitationForm, isEmail: string -> bool, reply: Response<Invitation>) returns (sent: Option<Request>)
      modifies this`invitations, this`dialogOpen
      ensures !FormValid(values, isEmail) || companyId == "" ==>
        sent == None && invitations == old(invitations) && dialogOpen == old(dialogOpen)
      ensures FormValid(values, isEmail) && companyId != "" ==>
        sent == Some(CreateInvitation(values.employeeEmail, values.role, companyId))
      ensures FormValid(values, isEmail) && companyId != "" && reply.Success? ==>
        invitations == Prepended(old(invitations), reply.value) && !dialogOpen
      ensures reply.Failure? ==> invitations == old(invitations) && dialogOpen == old(dialogOpen)
    {
      sent := None;
      if !FormValid(values, isEmail) || companyId == "" {
        return;
      }
      sent := Some(CreateInvitation(values.employeeEmail, values.role, companyId));
      if reply.Success? {
        invitations := [reply.value] + invitations;
        dialogOpen := false;
      }
    }

    /** `handleDelete`: drop the entries with that id once the server confirms. */
    method HandleDelete(invitationId: string, reply: Response<()>) returns (sent: Request)
      modifies this`invitations
      ensures sent == DeleteInvitation(invitationId)
      ensures invitations == if reply.Success? then WithoutId(old(invitations), InvitationId, invitationId) else old(invitations)
    {
      sent := DeleteInvitation(invitationId);
      if reply.Success? {
        invitations := WithoutId(invitations, InvitationId, invitationId);
      }
    }

    /** `handleResend`: a new invitation for the same address, role and company replaces the old one. */
    method HandleResend(invitation: Invitation, reply: Response<Invitation>) returns (sent: Request)
      modifies this`invitations
      ensures sent == CreateInvitation(invitation.employeeEmail, invitation.role, invitation.companyId)
      ensures invitations == if reply.Success? then Resent(old(invitations), invitation, reply.value) else old(invitations)
    {
      sent := CreateInvitation(invitation.employeeEmail, invitation.role, invitation.companyId);
      if reply.Success? {
        invitations := [reply.value] + WithoutId(invitations, InvitationId, invitation.id);
      }
    }
  }
}
