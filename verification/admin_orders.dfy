/**
 * Order-status display and update: the colour class of each status, in the
 * admin order manager and in its copy on the customer's order history,
 * and the status select, which allows any status from any status.
 */
module AdminOrders {
  import opened Types
  import OrderService

  /** `getStatusColor` of the admin order manager; `pending` falls through to gray. */
  function StatusColor(s: OrderStatus): string {
    match s
    case Delivered => "bg-green-100 text-green-800"
    case Shipped => "bg-blue-100 text-blue-800"
    case Processing => "bg-yellow-100 text-yellow-800"
    case Cancelled => "bg-red-100 text-red-800"
    case Pending => "bg-gray-100 text-gray-800"
  }

  /** The copy of `getStatusColor` on the customer's order history page. */
  function HistoryStatusColor(s: OrderStatus): string {
    match s
    case Delivered => "bg-green-100 text-green-800"
    case Shipped => "bg-blue-100 text-blue-800"
    case Processing => "bg-yellow-100 text-yellow-800"
    case Cancelled => "bg-red-100 text-red-800"
    case _ => "bg-gray-100 text-gray-800"
  }

  /** The five statuses get five different classes, and both pages agree on them. */
  lemma StatusColorsDistinctAndShared(a: OrderStatus, b: OrderStatus)
    ensures StatusColor(a) == StatusColor(b) ==> a == b
    ensures StatusColor(a) == HistoryStatusColor(a)
  {
  }

  /** The select's option values, in display order. */
  const StatusOptions: seq<string> := ["pending", "processing", "shipped", "delivered", "cancelled"]

  /** Every status is offered, and every offered value names a status. */
  lemma OptionsCoverStatuses(s: OrderStatus)
    ensures StatusName(s) in StatusOptions
    ensures forall i :: 0 <= i < |StatusOptions| ==> ParseStatus(StatusOptions[i]).Some?
  {
  }

  /** `handleStatusUpdate(id, value)`: the PATCH sent for a selected option, whatever the current status. */
  function StatusUpdate(order: Order, option: string): (r: OrderService.StatusPatch)
    requires option in StatusOptions
    ensures r.orderId == order.id
    ensures StatusName(r.status) == option
  {
    var s := ParseStatus(option);
    OrderService.UpdateOrderStatus(order.id, s.value)
  }

  /** There is no transition guard: any status can follow any status. */
  lemma AnyTransitionAllowed(order: Order, target: OrderStatus)
    ensures StatusUpdate(order, StatusName(target)).status == target
  {
    ParseStatusName(target);
  }
}
