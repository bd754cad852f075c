/**
 * The records and enumerations of the console (src/types/index.ts).
 * Enumeration values travel as JSON strings, so they are strings here and
 * the named constants below are the members the front end knows about;
 * timestamps and dates are left out.
 */
module Domain {
  import opened Wrappers

  type Role = string

  const Owner: Role := "OWNER"
  const Manager: Role := "MANAGER"
  const Technician: Role := "TECHNICIAN"
  const Operator: Role := "OPERATOR"

  /** `Object.values(Role)`, in declaration order. */
  const AllRoles: seq<Role> := [Owner, Manager, Technician, Operator]

  // Status and type values shared by several enumerations.
  const Pending := "PENDING"
  const Scheduled := "SCHEDULED"
  const InProgress := "IN_PROGRESS"
  const Completed := "COMPLETED"
  const Cancelled := "CANCELLED"

  const OrderStatuses: seq<string> := [Pending, Scheduled, InProgress, Completed, Cancelled]
  const TaskStatuses: seq<string> := [Pending, InProgress, Completed, Cancelled]

  const Montare := "MONTARE"
  const Reparatie := "REPARATIE"
  const Masurare := "MASURARE"
  const Consultanta := "CONSULTANTA"
  const Altele := "ALTELE"
  const TaskTypes: seq<string> := [Montare, Reparatie, Masurare, Consultanta, Altele]

  const Concediu := "CONCEDIU"
  const Invoiere := "INVOIERE"
  const Medical := "MEDICAL"
  const TimeOffTypes: seq<string> := [Concediu, Invoiere, Medical, Altele]

  /** A member of the company. A missing `companyId` is the empty string (falsy in the source). */
  datatype User = User(
    id: string,
    keycloakId: string,
    firstName: string,
    lastName: string,
    email: string,
    role: Role,
    companyId: string)

  datatype Invitation = Invitation(
    id: string,
    employeeEmail: string,
    role: Role,
    companyId: string,
    token: string,
    used: bool)

  datatype Team = Team(id: string, name: string, companyId: string)

  datatype Task = Task(
    id: string,
    title: string,
    description: string,
    taskType: string,
    status: string,
    scheduledDate: string,
    teamId: Option<string>,
    userId: Option<string>,
    orderId: Option<string>,
    assignedBy: string,
    companyId: string,
    assignedByUser: Option<User>)

  datatype Order = Order(
    id: string,
    clientName: string,
    clientPhone: string,
    clientAddress: string,
    latitude: Option<real>,
    longitude: Option<real>,
    status: string,
    scheduledDate: string,
    companyId: string,
    teamId: Option<string>)

  datatype TimeOffRequest = TimeOffRequest(id: string, userId: string, timeOffType: string, status: string, companyId: string)

  function UserId(u: User): string { u.id }
  function InvitationId(i: Invitation): string { i.id }
  function TeamId(t: Team): string { t.id }
  function TimeOffRequestId(r: TimeOffRequest): string { r.id }

  /** `user?.role === r1 || user?.role === r2 || ...`: false when there is no user. */
  predicate HasRole(user: Option<User>, roles: seq<Role>)
  {
    user.Some? && user.value.role in roles
  }

  /** `user?.companyId` when it is truthy, the guard of most page handlers. */
  function CompanyOf(user: Option<User>): (c: Option<string>)
    ensures c.Some? <==> user.Some? && user.value.companyId != ""
    ensures c.Some? ==> c.value == user.value.companyId && c.value != ""
  {
    if user.Some? && user.value.companyId != "" then Some(user.value.companyId) else None
  }

  /**
   * `${user?.companyId}` inside a link: the id when there is one, and the
   * text `undefined` when there is no user or the user has no company.
   */
  function CompanyIdText(user: Option<User>): (t: string)
    ensures CompanyOf(user).Some? ==> t == user.value.companyId
    ensures CompanyOf(user).None? ==> t == "undefined"
  {
    match CompanyOf(user)
    case Some(companyId) => companyId
    case None => "undefined"
  }
}
