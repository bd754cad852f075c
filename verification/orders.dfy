/**
 * The order list (src/pages/orders/Orders.tsx): the status filter with its
 * `'all'` wildcard, who may create orders, and the initial load.
 */
module Orders {
  import opened Wrappers
  import opened Seqs
  import opened Domain
  import opened Http
  import ProtectedRoute
  import OrderDetails

  const AllFilter := "all"

  function StatusMatches(statusFilter: string): Order -> bool
  {
    (o: Order) => statusFilter == AllFilter || o.status == statusFilter
  }

  /** `filteredOrders`. */
  function FilteredOrders(orders: seq<Order>, statusFilter: string): (r: seq<Order>)
    ensures forall o :: o in r ==> o in orders && (statusFilter == AllFilter || o.status == statusFilter)
    ensures forall o :: o in orders && (statusFilter == AllFilter || o.status == statusFilter) ==> o in r
  {
    Filter(orders, StatusMatches(statusFilter))
  }

  /** The wildcard keeps the whole list, in place. */
  lemma AllKeepsEveryOrder(orders: seq<Order>)
    ensures FilteredOrders(orders, AllFilter) == orders
  {
    FilterKeepsAll(orders, StatusMatches(AllFilter));
  }

  /** The shown orders are a subsequence of the loaded ones. */
  lemma FilteredOrdersKeepOrder(orders: seq<Order>, statusFilter: string) returns (idx: seq<nat>)
    ensures |idx| == |FilteredOrders(orders, statusFilter)|
    ensures forall k :: 0 <= k < |idx| ==> idx[k] < |orders| && orders[idx[k]] == FilteredOrders(orders, statusFilter)[k]
    ensures forall k, l :: 0 <= k < l < |idx| ==> idx[k] < idx[l]
  {
    idx := FilterPreservesOrder(orders, StatusMatches(statusFilter));
  }

  /** Filtering the shown list again with the same filter changes nothing. */
  lemma FilteredOrdersIdempotent(orders: seq<Order>, statusFilter: string)
    ensures FilteredOrders(FilteredOrders(orders, statusFilter), statusFilter) == FilteredOrders(orders, statusFilter)
  {
    FilterIdempotent(orders, StatusMatches(statusFilter));
  }

  /** `getCompanyOrders`. */
  function GetCompanyOrders(companyId: string): (r: Request)
    ensures r.verb == Get && r.path == "/orders/company/" + companyId && r.query == [] && r.body == None
  {
    Request(Get, "/orders/company/" + companyId, [], None)
  }

  /** `canCreateOrder`. */
  predicate CanCreateOrder(user: Option<User>)
    ensures CanCreateOrder(user) <==> HasRole(user, [Owner, Manager, Operator])
  {
    user.Some? && (user.value.role == Owner || user.value.role == Manager || user.value.role == Operator)
  }

  /** The create button shows exactly to the users the create route admits, who are also those who may manage an order. */
  lemma CreateButtonMatchesRoute(user: User, location: string)
    ensures CanCreateOrder(Some(user))
      <==> ProtectedRoute.Admits(ProtectedRoute.Guard(false, Some(user), Some(ProtectedRoute.CreateOrderRoles), true, location))
    ensures CanCreateOrder(Some(user)) <==> OrderDetails.CanManageOrder(Some(user))
  {
  }

  class OrdersPage {
    const user: Option<User>
    var orders: seq<Order>
    var loading: bool
    var statusFilter: string

    constructor (user: Option<User>)
      ensures this.user == user && orders == [] && loading && statusFilter == AllFilter
    {
      this.user := user;
      orders := [];
      loading := true;
      statusFilter := AllFilter;
    }

    /** `loadOrders`: without a company it returns before its `finally`, so the spinner stays. */
    method LoadOrders(reply: Response<seq<Order>>) returns (sent: Option<Request>)
      modifies this`orders, this`loading
      ensures CompanyOf(user).None? ==> sent == None && orders == old(orders) && loading == old(loading)
      ensures CompanyOf(user).Some? ==> sent == Some(GetCompanyOrders(user.value.companyId)) && !loading
      ensures CompanyOf(user).Some? ==> orders == if reply.Success? then reply.value else old(orders)
    {
      sent := None;
      if CompanyOf(user).None? {
        return;
      }
      sent := Some(GetCompanyOrders(user.value.companyId));
      if reply.Success? {
        orders := reply.value;
      }
      loading := false;
    }
  }
}
