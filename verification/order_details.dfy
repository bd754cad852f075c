/**
 * The order page (src/pages/orders/OrderDetails.tsx): who may manage an
 * order, the status buttons it offers, the Romanian status labels, and the
 * handlers that load, update and delete the order.
 */
module OrderDetails {
  import opened Wrappers
  import opened Domain
  import opened Http
  import OrderService

  const OrderManagerRoles: seq<Role> := [Owner, Manager, Operator]

  /** `canManageOrder`. */
  predicate CanManageOrder(user: Option<User>)
    ensures CanManageOrder(user) <==> user.Some? && (user.value.role == Owner || user.value.role == Manager || user.value.role == Operator)
  {
    HasRole(user, OrderManagerRoles)
  }

  /** Position of a status along the forward chain PENDING, SCHEDULED, IN_PROGRESS, COMPLETED. */
  function OrderRank(status: string): (n: int)
    ensures status in OrderStatuses && status != Cancelled <==> 0 <= n
  {
    if status == Pending then 0
    else if status == Scheduled then 1
    else if status == InProgress then 2
    else if status == Completed then 3
    else -1
  }

  predicate IsTerminalOrderStatus(status: string)
  {
    status == Completed || status == Cancelled
  }

  /** The status buttons of the status card, in screen order: the forward step, if any, then cancel. */
  function OrderActions(canManage: bool, status: string): (r: seq<string>)
    ensures !canManage || IsTerminalOrderStatus(status) ==> r == []
    ensures canManage && !IsTerminalOrderStatus(status) ==> |r| >= 1 && r[|r| - 1] == Cancelled
    ensures |r| <= 2
    ensures forall k :: 0 <= k < |r| - 1 ==> OrderRank(r[k]) == OrderRank(status) + 1 && OrderRank(status) >= 0
  {
    if !canManage || status == Completed || status == Cancelled then []
    else
      (if status == Pending then [Scheduled] else [])
      + (if status == Scheduled then [InProgress] else [])
      + (if status == InProgress then [Completed] else [])
      + [Cancelled]
  }

  /** The forward target offered from a status, if any. */
  function NextOrderStatus(status: string): Option<string>
  {
    var r := OrderActions(true, status);
    if |r| == 2 then Some(r[0]) else None
  }

  /** Every non-terminal known status has exactly one forward step; an unknown one gets only cancel. */
  lemma OrderForwardStep(status: string)
    ensures status in OrderStatuses && !IsTerminalOrderStatus(status) ==>
      NextOrderStatus(status).Some? && OrderRank(NextOrderStatus(status).value) == OrderRank(status) + 1
    ensures status !in OrderStatuses ==> OrderActions(true, status) == [Cancelled]
  {
  }

  /** Following the forward buttons from PENDING reaches COMPLETED in three steps, through every status but CANCELLED. */
  lemma OrderForwardChain()
    ensures NextOrderStatus(Pending) == Some(Scheduled)
    ensures NextOrderStatus(Scheduled) == Some(InProgress)
    ensures NextOrderStatus(InProgress) == Some(Completed)
    ensures NextOrderStatus(Completed) == None && NextOrderStatus(Cancelled) == None
  {
  }

  const OrderStatusLabels: seq<string> := ["În așteptare", "Programat", "În lucru", "Finalizat", "Anulat"]

  /** `getStatusLabel`: a fixed label per known status; anything else is shown as it is. */
  function OrderStatusLabel(status: string): (text: string)
    ensures forall k :: 0 <= k < |OrderStatuses| && status == OrderStatuses[k] ==> text == OrderStatusLabels[k]
    ensures status !in OrderStatuses ==> text == status
  {
    if status == Pending then "În așteptare"
    else if status == Scheduled then "Programat"
    else if status == InProgress then "În lucru"
    else if status == Completed then "Finalizat"
    else if status == Cancelled then "Anulat"
    else status
  }

  /** Different known statuses never share a label. */
  lemma OrderStatusLabelsDistinct(a: string, b: string)
    requires a in OrderStatuses && b in OrderStatuses && a != b
    ensures OrderStatusLabel(a) != OrderStatusLabel(b)
  {
  }

  /** `getOrderDetails`. */
  function GetOrderDetails(orderId: string): (r: Request)
    ensures r.verb == Get && r.path == "/orders/" + orderId && r.query == [] && r.body == None
  {
    Request(Get, "/orders/" + orderId, [], None)
  }

  /** `deleteOrder`. */
  function DeleteOrder(orderId: string): (r: Request)
    ensures r.verb == Delete && r.path == "/orders/" + orderId && r.query == [] && r.body == None
  {
    Request(Delete, "/orders/" + orderId, [], None)
  }

  class OrderDetailsPage {
    /** The `:orderId` route parameter; the empty string is an absent one. */
    const orderId: string
    const user: Option<User>
    var order: Option<Order>
    var loading: bool
    /** The last `navigate` call, if any. */
    var navigatedTo: Option<string>

    constructor (orderId: string, user: Option<User>)
      ensures this.orderId == orderId && this.user == user
      ensures order == None && loading && navigatedTo == None
    {
      this.orderId := orderId;
      this.user := user;
      order := None;
      loading := true;
      navigatedTo := None;
    }

    /** `loadOrderDetails`: without an id it returns before its `finally`, so the spinner stays. */
    method LoadOrderDetails(reply: Response<Order>) returns (sent: Option<Request>)
      modifies this
      ensures orderId == "" ==> sent == None && order == old(order) && loading == old(loading) && navigatedTo == old(navigatedTo)
      ensures orderId != "" ==> sent == Some(GetOrderDetails(orderId)) && !loading
      ensures orderId != "" && reply.Success? ==> order == Some(reply.value) && navigatedTo == old(navigatedTo)
      ensures orderId != "" && reply.Failure? ==> order == old(order) && navigatedTo == Some("/orders")
    {
      if orderId == "" {
        sent := None;
        return;
      }
      sent := Some(GetOrderDetails(orderId));
      match reply {
        case Success(data) => order := Some(data);
        case Failure => navigatedTo := Some("/orders");
      }
      loading := false;
    }

    /** `handleStatusChange`: nothing without an order or an id; the order is replaced only by the server's result. */
    method HandleStatusChange(newStatus: string, reply: Response<Order>) returns (sent: Option<Request>)
      modifies this`order
      ensures old(order).None? || orderId == "" ==> sent == None && order == old(order)
      ensures old(order).Some? && orderId != "" ==> sent == Some(OrderService.UpdateOrderStatus(orderId, newStatus))
      ensures old(order).Some? && orderId != "" && reply.Success? ==> order == Some(reply.value)
      ensures reply.Failure? ==> order == old(order)
    {
      if order.None? || orderId == "" {
        sent := None;
        return;
      }
      sent := Some(OrderService.UpdateOrderStatus(orderId, newStatus));
      if reply.Success? {
        order := Some(reply.value);
      }
    }

    /** `handleDelete`: leave for the list only once the server confirms. */
    method HandleDelete(reply: Response<()>) returns (sent: Option<Request>)
      modifies this`navigatedTo
      ensures orderId == "" ==> sent == None && navigatedTo == old(navigatedTo)
      ensures orderId != "" ==> sent == Some(DeleteOrder(orderId))
      ensures orderId != "" ==> navigatedTo == if reply.Success? then Some("/orders") else old(navigatedTo)
    {
      if orderId == "" {
        sent := None;
        return;
      }
      sent := Some(DeleteOrder(orderId));
      if reply.Success? {
        navigatedTo := Some("/orders");
      }
    }
  }

  /** An order page shows no status button to a technician. */
  lemma TechnicianChangesNoOrder(user: User, status: string)
    requires user.role == Technician
    ensures OrderActions(CanManageOrder(Some(user)), status) == []
  {
  }
}
