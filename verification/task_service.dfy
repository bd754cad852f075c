/**
 * The request builders of src/services/task.service.ts that decide
 * something: the paginated company listing with its optional filters, and
 * the parameters of `updateTaskStatus` and `deleteTask`.
 */
module TaskService {
  import opened Wrappers
  import opened Http

  predicate IsDigit(c: char)
  {
    '0' <= c <= '9'
  }

  function DigitChar(d: nat): (c: char)
    requires d < 10
    ensures IsDigit(c) && c as int - '0' as int == d
  {
    ('0' as int + d) as char
  }

  /** `Number.prototype.toString()` for a non-negative integer. */
  function DecimalString(n: nat): (s: string)
    ensures |s| >= 1 && forall i :: 0 <= i < |s| ==> IsDigit(s[i])
    ensures n >= 10 ==> s[0] != '0'
  {
    if n < 10 then [DigitChar(n)] else DecimalString(n / 10) + [DigitChar(n % 10)]
  }

  /** The number a string of decimal digits denotes. */
  function DecimalValue(s: string): nat
    requires forall i :: 0 <= i < |s| ==> IsDigit(s[i])
  {
    if |s| == 0 then 0
    else
      assert IsDigit(s[|s| - 1]);
      DecimalValue(s[..|s| - 1]) * 10 + (s[|s| - 1] as int - '0' as int)
  }

  /** The server reads back the number the page sent. */
  lemma {:induction false} DecimalRoundTrip(n: nat)
    ensures DecimalValue(DecimalString(n)) == n
  {
    if n >= 10 {
      DecimalRoundTrip(n / 10);
      var s := DecimalString(n);
      assert s[..|s| - 1] == DecimalString(n / 10);
    }
  }

  const DefaultPage: nat := 0
  const DefaultSize: nat := 10

  /** A filter value is sent only when it is non-empty and not the `'all'` wildcard. */
  predicate Sends(value: Option<string>)
  {
    value.Some? && value.value != "" && value.value != "all"
  }

  function Optional(key: string, value: Option<string>): (q: Params)
    ensures Sends(value) ==> q == [(key, value.value)]
    ensures !Sends(value) ==> q == []
  {
    if Sends(value) then [(key, value.value)] else []
  }

  /** The query of `getCompanyTasksPaginated`: page and size, then the filters that are sent. */
  function PaginatedQuery(page: Option<nat>, size: Option<nat>, status: Option<string>, taskType: Option<string>): (q: Params)
    ensures |q| == 2 + (if Sends(status) then 1 else 0) + (if Sends(taskType) then 1 else 0)
    ensures q[0] == ("page", DecimalString(page.GetOr(DefaultPage))) && q[1] == ("size", DecimalString(size.GetOr(DefaultSize)))
  {
    [("page", DecimalString(page.GetOr(DefaultPage))), ("size", DecimalString(size.GetOr(DefaultSize)))]
      + Optional("status", status) + Optional("type", taskType)
  }

  /** `getCompanyTasksPaginated`, appending to the parameters step by step as the service does. */
  method GetCompanyTasksPaginated(companyId: string, page: Option<nat>, size: Option<nat>, status: Option<string>, taskType: Option<string>)
    returns (req: Request)
    ensures req == Request(Get, "/tasks/company/" + companyId, PaginatedQuery(page, size, status, taskType), None)
  {
    var params: Params := [("page", DecimalString(page.GetOr(DefaultPage))), ("size", DecimalString(size.GetOr(DefaultSize)))];
    if status.Some? && status.value != "" && status.value != "all" {
      params := params + [("status", status.value)];
    }
    if taskType.Some? && taskType.value != "" && taskType.value != "all" {
      params := params + [("type", taskType.value)];
    }
    req := Request(Get, "/tasks/company/" + companyId, params, None);
  }

  /** Page and size always lead, in that order; status precedes type; nothing else is sent. */
  lemma PaginatedQueryKeys(page: Option<nat>, size: Option<nat>, status: Option<string>, taskType: Option<string>)
    ensures Keys(PaginatedQuery(page, size, status, taskType))
      == ["page", "size"] + (if Sends(status) then ["status"] else []) + (if Sends(taskType) then ["type"] else [])
  {
  }

  /** What the server reads back from the query: the defaults, and each filter only when it is sent. */
  lemma PaginatedQueryValues(page: Option<nat>, size: Option<nat>, status: Option<string>, taskType: Option<string>)
    ensures var q := PaginatedQuery(page, size, status, taskType);
      && Lookup(q, "page").Some? && Lookup(q, "size").Some?
      && DecimalValue(Lookup(q, "page").value) == page.GetOr(DefaultPage)
      && DecimalValue(Lookup(q, "size").value) == size.GetOr(DefaultSize)
      && Lookup(q, "status") == (if Sends(status) then status else None)
      && Lookup(q, "type") == (if Sends(taskType) then taskType else None)
  {
    var q := PaginatedQuery(page, size, status, taskType);
    var filters := Optional("status", status) + Optional("type", taskType);
    assert Lookup(q, "page") == Some(DecimalString(page.GetOr(DefaultPage)));
    assert Lookup(q, "size") == Some(DecimalString(size.GetOr(DefaultSize)));
    DecimalRoundTrip(page.GetOr(DefaultPage));
    DecimalRoundTrip(size.GetOr(DefaultSize));
    assert Lookup(q, "status") == Lookup(filters, "status") && Lookup(q, "type") == Lookup(filters, "type") by {
      assert q[1..][1..] == filters;
    }
    assert Lookup(filters, "status") == (if Sends(status) then status else None);
    assert Lookup(filters, "type") == (if Sends(taskType) then taskType else None) by {
      if Sends(status) {
        assert filters[1..] == Optional("type", taskType);
      }
    }
  }

  /** `updateTaskStatus`: status, then company, in the query; no body. */
  function UpdateTaskStatus(taskId: string, status: string, companyId: string): (r: Request)
    ensures r.verb == Put && r.path == "/tasks/" + taskId + "/status" && r.body == None
    ensures Keys(r.query) == ["status", "companyId"]
    ensures Lookup(r.query, "status") == Some(status) && Lookup(r.query, "companyId") == Some(companyId)
  {
    Request(Put, "/tasks/" + taskId + "/status", [("status", status), ("companyId", companyId)], None)
  }

  /** `deleteTask`: the acting user travels as the only parameter. */
  function DeleteTask(taskId: string, userId: string): (r: Request)
    ensures r.verb == Delete && r.path == "/tasks/" + taskId && r.body == None
    ensures Keys(r.query) == ["userId"] && Lookup(r.query, "userId") == Some(userId)
  {
    Request(Delete, "/tasks/" + taskId, [("userId", userId)], None)
  }
}
