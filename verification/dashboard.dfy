/**
 * The admin dashboard's statistics: product, order and user counts and the
 * revenue summed over all orders. The user list comes from a service that
 * is not part of this model, so its outcome is an input.
 */
module Dashboard {
  import opened Wrappers
  import opened Types
  import ProductService
  import OrderService

  datatype Stats = Stats(totalProducts: int, totalOrders: int, totalUsers: int, totalRevenue: int)

  const InitialStats := Stats(0, 0, 0, 0)

  /** `orders.reduce((sum, order) => sum + order.total, 0)`. */
  function Revenue(orders: seq<Order>): int {
    if |orders| == 0 then 0 else orders[0].total + Revenue(orders[1..])
  }

  lemma {:induction false} RevenueAppend(a: seq<Order>, b: seq<Order>)
    ensures Revenue(a + b) == Revenue(a) + Revenue(b)
    decreases |a|
  {
    if |a| == 0 {
      assert a + b == b;
    } else {
      assert (a + b)[1..] == a[1..] + b;
      RevenueAppend(a[1..], b);
    }
  }

  /** Changing an order's status leaves the revenue unchanged. */
  lemma {:induction false} RevenueIgnoresStatus(orders: seq<Order>, k: int, s: OrderStatus)
    requires 0 <= k < |orders|
    ensures Revenue(orders[k := orders[k].(status := s)]) == Revenue(orders)
    decreases |orders|
  {
    if k > 0 {
      assert orders[k := orders[k].(status := s)][1..] == orders[1..][k - 1 := orders[k].(status := s)];
      RevenueIgnoresStatus(orders[1..], k - 1, s);
    }
  }

  /** The stats once all three lists arrived. */
  function StatsOf(products: seq<Product>, orders: seq<Order>, users: seq<User>): (r: Stats)
    ensures r.totalProducts == |products| && r.totalOrders == |orders| && r.totalUsers == |users|
    ensures r.totalRevenue == Revenue(orders)
    ensures |orders| == 0 ==> r.totalRevenue == 0
  {
    Stats(|products|, |orders|, |users|, Revenue(orders))
  }

  /** `fetchStats`: if any of the three fetches fails, every stat keeps its initial 0. */
  function FetchStats(productsApi: Result<seq<Product>, Failure>, ordersApi: Result<seq<Order>, Failure>,
                      users: Result<seq<User>, Failure>, now: string): (r: Stats)
    ensures var ps := ProductService.GetProducts(None, productsApi, now);
            var os := OrderService.GetOrders(ordersApi);
            if ps.Ok? && os.Ok? && users.Ok? then r == StatsOf(ps.value, os.value, users.value)
            else r == InitialStats
  {
    var ps := ProductService.GetProducts(None, productsApi, now);
    var os := OrderService.GetOrders(ordersApi);
    if ps.Ok? && os.Ok? && users.Ok? then StatsOf(ps.value, os.value, users.value) else InitialStats
  }

  /** Offline, the dashboard counts the six built-in products, no orders and no revenue. */
  lemma OfflineDashboard(users: seq<User>, now: string)
    ensures FetchStats(Err(NetworkError), Err(NetworkError), Ok(users), now) == Stats(6, 0, |users|, 0)
  {
    ProductService.MockCatalogueShape(now);
  }
}
