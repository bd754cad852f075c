/**
 * The pending time-off requests of a company
 * (src/pages/timeoff/TimeOffRequests.tsx): when they load, approving and
 * rejecting one, and the type labels.
 */
module TimeOffRequests {
  import opened Wrappers
  import opened Domain
  import opened EntityLists
  import opened Http

  /** The effect loads only for a user with a company; it re-runs whenever the user changes. */
  predicate ShouldLoadPending(user: Option<User>)
  {
    CompanyOf(user).Some?
  }

  const TimeOffTypeLabels: seq<string> := ["Concediu", "Învoire", "Medical", "Altele"]

  /** `getTypeLabel`: a fixed label per known type; anything else is shown as it is. */
  function TimeOffTypeLabel(timeOffType: string): (text: string)
    ensures forall k :: 0 <= k < |TimeOffTypes| && timeOffType == TimeOffTypes[k] ==> text == TimeOffTypeLabels[k]
    ensures timeOffType !in TimeOffTypes ==> text == timeOffType
  {
    if timeOffType == Concediu then "Concediu"
    else if timeOffType == Invoiere then "Învoire"
    else if timeOffType == Medical then "Medical"
    else if timeOffType == Altele then "Altele"
    else timeOffType
  }

  /** Different known types never share a label. */
  lemma TimeOffTypeLabelsDistinct(a: string, b: string)
    requires a in TimeOffTypes && b in TimeOffTypes && a != b
    ensures TimeOffTypeLabel(a) != TimeOffTypeLabel(b)
  {
  }

  /** `getPendingTimeOffRequests`. */
  function GetPending(companyId: string): (r: Request)
    ensures r.verb == Get && r.path == "/time-off/pending/company/" + companyId && r.query == [] && r.body == None
  {
    Request(Get, "/time-off/pending/company/" + companyId, [], None)
  }

  /** `approveTimeOffRequest`: the reviewer's Keycloak id travels as the only parameter. */
  function Approve(requestId: string, keycloakId: string): (r: Request)
    ensures r.verb == Put && r.path == "/time-off/" + requestId + "/approve" && r.body == None
    ensures Keys(r.query) == ["keycloakId"] && Lookup(r.query, "keycloakId") == Some(keycloakId)
  {
    Request(Put, "/time-off/" + requestId + "/approve", [("keycloakId", keycloakId)], None)
  }

  /** `rejectTimeOffRequest`: the reviewer's Keycloak id travels as the only parameter. */
  function Reject(requestId: string, keycloakId: string): (r: Request)
    ensures r.verb == Delete && r.path == "/time-off/" + requestId + "/reject" && r.body == None
    ensures Keys(r.query) == ["keycloakId"] && Lookup(r.query, "keycloakId") == Some(keycloakId)
  {
    Request(Delete, "/time-off/" + requestId + "/reject", [("keycloakId", keycloakId)], None)
  }

  /** `user?.keycloakId` when it is truthy, the guard of both review handlers. */
  function ReviewerOf(user: Option<User>): (k: Option<string>)
    ensures k.Some? <==> user.Some? && user.value.keycloakId != ""
    ensures k.Some? ==> k.value == user.value.keycloakId
  {
    if user.Some? && user.value.keycloakId != "" then Some(user.value.keycloakId) else None
  }

  class TimeOffRequestsPage {
    const user: Option<User>
    var requests: seq<TimeOffRequest>
    var loading: bool

    constructor (user: Option<User>)
      ensures this.user == user && requests == [] && loading
    {
      this.user := user;
      requests := [];
      loading := true;
    }

    /** `loadPendingRequests`: without a company it returns before its `finally`, so the spinner stays. */
    method LoadPendingRequests(reply: Response<seq<TimeOffRequest>>) returns (sent: Option<Request>)
      modifies this`requests, this`loading
      ensures !ShouldLoadPending(user) ==> sent == None && requests == old(requests) && loading == old(loading)
      ensures ShouldLoadPending(user) ==> sent == Some(GetPending(user.value.companyId)) && !loading
      ensures ShouldLoadPending(user) ==> requests == if reply.Success? then reply.value else old(requests)
    {
      sent := None;
      if CompanyOf(user).None? {
        return;
      }
      sent := Some(GetPending(user.value.companyId));
      if reply.Success? {
        requests := reply.value;
      }
      loading := false;
    }

    /** `handleApprove`: nothing without a reviewer id; the request leaves the list once the server confirms. */
    method HandleApprove(requestId: string, reply: Response<TimeOffRequest>) returns (sent: Option<Request>)
      modifies this`requests
      ensures ReviewerOf(user).None? ==> sent == None && requests == old(requests)
      ensures ReviewerOf(user).Some? ==> sent == Some(Approve(requestId, ReviewerOf(user).value))
      ensures ReviewerOf(user).Some? ==>
        requests == if reply.Success? then WithoutId(old(requests), TimeOffRequestId, requestId) else old(requests)
    {
      sent := None;
      var reviewer := ReviewerOf(user);
      if reviewer.None? {
        return;
      }
      sent := Some(Approve(requestId, reviewer.value));
      if reply.Success? {
        requests := WithoutId(requests, TimeOffRequestId, requestId);
      }
    }

    /** `handleReject`: nothing without a reviewer id; the request leaves the list once the server confirms. */
    method HandleReject(requestId: string, reply: Response<()>) returns (sent: Option<Request>)
      modifies this`requests
      ensures ReviewerOf(user).None? ==> sent == None && requests == old(requests)
      ensures ReviewerOf(user).Some? ==> sent == Some(Reject(requestId, ReviewerOf(user).value))
      ensures ReviewerOf(user).Some? ==>
        requests == if reply.Success? then WithoutId(old(requests), TimeOffRequestId, requestId) else old(requests)
    {
      sent := None;
      var reviewer := ReviewerOf(user);
      if reviewer.None? {
        return;
      }
      sent := Some(Reject(requestId, reviewer.value));
      if reply.Success? {
        requests := WithoutId(requests, TimeOffRequestId, requestId);
      }
    }
  }
}
