/**
 * The order service: `createOrder` assembles the order from its lines and
 * submits it, synthesising a local order when the server is unreachable;
 * `getOrders` and `getOrder` have their own network fallbacks.
 */
module OrderService {
  import opened Wrappers
  import opened Types

  /** Σ price × quantity over the lines. */
  function Total(items: seq<OrderItem>): int {
    if |items| == 0 then 0 else items[0].price * items[0].quantity + Total(items[1..])
  }

  lemma {:induction false} TotalAppend(a: seq<OrderItem>, b: seq<OrderItem>)
    ensures Total(a + b) == Total(a) + Total(b)
    decreases |a|
  {
    if |a| == 0 {
      assert a + b == b;
    } else {
      assert (a + b)[1..] == a[1..] + b;
      TotalAppend(a[1..], b);
    }
  }

  lemma {:induction false} TotalNonNegative(items: seq<OrderItem>)
    requires forall i :: 0 <= i < |items| ==> items[i].price >= 0 && items[i].quantity >= 0
    ensures Total(items) >= 0
    decreases |items|
  {
    if |items| > 0 {
      TotalNonNegative(items[1..]);
    }
  }

  /** `items.reduce((sum, item) => sum + item.price * item.quantity, 0)`, left to right. */
  method ReduceTotal(items: seq<OrderItem>) returns (sum: int)
    ensures sum == Total(items)
    ensures |items| == 0 ==> sum == 0
  {
    sum := 0;
    var i := 0;
    while i < |items|
      invariant 0 <= i <= |items|
      invariant sum == Total(items[..i])
    {
      TotalAppend(items[..i], [items[i]]);
      assert items[..i + 1] == items[..i] + [items[i]];
      sum := sum + items[i].price * items[i].quantity;
      i := i + 1;
    }
    assert items[..i] == items;
  }

  const PlaceholderUserId := "current-user-id"

  /** The body `createOrder` posts: an order without id and creation time. */
  datatype OrderDraft = OrderDraft(
    userId: string,
    items: seq<OrderItem>,
    total: int,
    status: OrderStatus,
    shippingAddress: Address,
    paymentMethod: string)

  function Draft(items: seq<OrderItem>, address: Address, paymentMethod: string): OrderDraft {
    OrderDraft(PlaceholderUserId, items, Total(items), Pending, address, paymentMethod)
  }

  /** An order carries exactly what a draft submitted. */
  predicate AgreesWith(o: Order, d: OrderDraft) {
    && o.userId == d.userId
    && o.items == d.items
    && o.total == d.total
    && o.status == d.status
    && o.shippingAddress == d.shippingAddress
    && o.paymentMethod == d.paymentMethod
  }

  /**
   * `createOrder(items, address, paymentMethod)` given the server's answer
   * to the POST; `freshId` and `now` stand for `Date.now()` and the ISO time.
   */
  function CreateOrder(items: seq<OrderItem>, address: Address, paymentMethod: string,
                       api: Result<Order, Failure>, freshId: string, now: string): (r: Result<Order, Failure>)
    ensures api.Ok? || api.error != NetworkError ==> r == api
    ensures api == Err(NetworkError) ==>
              && r.Ok?
              && r.value.id == freshId
              && r.value.createdAt == now
              && r.value.userId == PlaceholderUserId
              && r.value.status == Pending
              && r.value.items == items
              && r.value.total == Total(items)
              && r.value.shippingAddress == address
              && r.value.paymentMethod == paymentMethod
  {
    var d := Draft(items, address, paymentMethod);
    match api
    case Ok(_) => api
    case Err(e) =>
      if e != NetworkError then api
      else Ok(Order(freshId, d.userId, d.items, d.total, d.status, d.shippingAddress, d.paymentMethod, now))
  }

  /** The submitted draft and the local fallback order agree on every field the draft has. */
  lemma FallbackAgreesWithDraft(items: seq<OrderItem>, address: Address, paymentMethod: string,
                                freshId: string, now: string)
    ensures var d := Draft(items, address, paymentMethod);
            && d.status == Pending
            && d.userId == PlaceholderUserId
            && d.total == Total(items)
            && AgreesWith(CreateOrder(items, address, paymentMethod, Err(NetworkError), freshId, now).value, d)
  {
  }

  function GetOrders(api: Result<seq<Order>, Failure>): (r: Result<seq<Order>, Failure>)
    ensures api == Err(NetworkError) ==> r == Ok([])
    ensures api != Err(NetworkError) ==> r == api
  {
    match api
    case Ok(_) => api
    case Err(e) => if e == NetworkError then Ok([]) else api
  }

  const OrderNotFoundMessage := "Order not found"

  function GetOrder(id: string, api: Result<Order, Failure>): (r: Result<Order, Failure>)
    ensures api == Err(NetworkError) ==> r == Err(Thrown(OrderNotFoundMessage))
    ensures api != Err(NetworkError) ==> r == api
  {
    match api
    case Ok(_) => api
    case Err(e) => if e == NetworkError then Err(Thrown(OrderNotFoundMessage)) else api
  }

  /** `updateOrderStatus(id, status)`: a PATCH of the status alone, with no check on the current status. */
  datatype StatusPatch = StatusPatch(orderId: string, status: OrderStatus)

  function UpdateOrderStatus(id: string, status: OrderStatus): (r: StatusPatch)
    ensures r.orderId == id && r.status == status
  {
    StatusPatch(id, status)
  }
}
