/** The reductions behind `GET /api/admin/dashboard`: revenue, order and
    customer counts, pending orders, and the ten most recent orders and payments. */
module Dashboard {
  import opened Lookup
  import opened Records

  datatype Kpi = Kpi(totalRevenue: int, totalOrders: int, totalCustomers: int, pendingOrders: int)

  datatype Summary = Summary(
    kpi: Kpi, orders: seq<Order>, payments: seq<Payment>,
    inventory: seq<InventoryItem>, promos: seq<Promo>)

  /** `orders.reduce((acc, curr) => acc + curr.total, 0)`, a left fold. */
  function Revenue(orders: seq<Order>): int {
    if orders == [] then 0 else Revenue(orders[..|orders| - 1]) + orders[|orders| - 1].total
  }

  /** `orders.filter((o) => o.status !== 'Selesai')`. */
  function PendingOrders(orders: seq<Order>): seq<Order> {
    Filter(orders, (o: Order) => o.status != DONE)
  }

  /** `users.filter((u) => u.role === 'customer')`. */
  function Customers(users: seq<User>): seq<User> {
    Filter(users, (u: User) => u.role == CUSTOMER_ROLE)
  }

  /** `slice(0, 10)`: the first ten elements, or all of them when there are fewer. */
  function FirstTen<T>(s: seq<T>): (r: seq<T>)
    ensures |r| == if |s| < 10 then |s| else 10
    ensures r == s[..|r|]
  {
    if |s| <= 10 then s else s[..10]
  }

  function Summarize(
    orders: seq<Order>, payments: seq<Payment>, users: seq<User>,
    inventory: seq<InventoryItem>, promos: seq<Promo>): (d: Summary)
    ensures d.kpi.totalRevenue == Revenue(orders)
    ensures d.kpi.totalOrders == |orders|
    ensures d.kpi.pendingOrders == |PendingOrders(orders)| <= d.kpi.totalOrders
    ensures d.kpi.totalCustomers == |Customers(users)| <= |users|
    ensures d.inventory == inventory && d.promos == promos
    ensures |d.orders| == (if |orders| < 10 then |orders| else 10) && d.orders == orders[..|d.orders|]
    ensures |d.payments| == (if |payments| < 10 then |payments| else 10) && d.payments == payments[..|d.payments|]
  {
    Summary(
      Kpi(Revenue(orders), |orders|, |Customers(users)|, |PendingOrders(orders)|),
      FirstTen(orders), FirstTen(payments), inventory, promos)
  }

  /** The revenue of two runs of orders is the sum of their revenues. */
  lemma {:induction false} RevenueAppend(a: seq<Order>, b: seq<Order>)
    ensures Revenue(a + b) == Revenue(a) + Revenue(b)
    decreases |b|
  {
    if b == [] {
      assert a + b == a;
    } else {
      var n := |b| - 1;
      assert (a + b)[..|a + b| - 1] == a + b[..n];
      assert (a + b)[|a + b| - 1] == b[n];
      RevenueAppend(a, b[..n]);
    }
  }

  /** A new order at the front adds its total to the revenue. */
  lemma RevenuePrepend(o: Order, orders: seq<Order>)
    ensures Revenue([o] + orders) == o.total + Revenue(orders)
  {
    RevenueAppend([o], orders);
    assert [o][..0] == [];
  }

  /** Changing the status of one order leaves the revenue as it was. */
  lemma RevenueIgnoresStatus(orders: seq<Order>, k: nat, status: string)
    requires k < |orders|
    ensures Revenue(orders[k := orders[k].(status := status)]) == Revenue(orders)
  {
    var o := orders[k];
    var after := orders[k := o.(status := status)];
    assert orders == orders[..k] + [o] + orders[k + 1..];
    assert after == orders[..k] + [o.(status := status)] + orders[k + 1..];
    RevenueAppend(orders[..k] + [o], orders[k + 1..]);
    RevenueAppend(orders[..k], [o]);
    RevenueAppend(orders[..k] + [o.(status := status)], orders[k + 1..]);
    RevenueAppend(orders[..k], [o.(status := status)]);
    assert [o][..0] == [] && [o.(status := status)][..0] == [];
  }

  /** A new order awaiting confirmation adds one to the pending count. */
  lemma PendingPrepend(o: Order, orders: seq<Order>)
    requires o.status == AWAITING_CONFIRMATION
    ensures |PendingOrders([o] + orders)| == |PendingOrders(orders)| + 1
  {
    var p := (x: Order) => x.status != DONE;
    FilterAppend([o], orders, p);
    FilterSingle(o, p);
  }

  /** Changing the status of one order moves it into or out of the pending
      count according to whether the new status is 'Selesai'. */
  lemma PendingAfterStatus(orders: seq<Order>, k: nat, status: string)
    requires k < |orders|
    ensures |PendingOrders(orders[k := orders[k].(status := status)])| ==
      |PendingOrders(orders)| - (if orders[k].status != DONE then 1 else 0) + (if status != DONE then 1 else 0)
  {
    var p := (x: Order) => x.status != DONE;
    var o := orders[k];
    var o' := o.(status := status);
    assert orders == orders[..k] + [o] + orders[k + 1..];
    assert orders[k := o'] == orders[..k] + [o'] + orders[k + 1..];
    FilterAppend(orders[..k] + [o], orders[k + 1..], p);
    FilterAppend(orders[..k], [o], p);
    FilterAppend(orders[..k] + [o'], orders[k + 1..], p);
    FilterAppend(orders[..k], [o'], p);
    FilterSingle(o, p);
    FilterSingle(o', p);
  }

  /** The dashboard after a new order awaiting confirmation is prepended:
      revenue grows by its total, the order and pending counts by one, and the
      customer count stays. */
  lemma SummarizeAfterPlace(
    o: Order, orders: seq<Order>, payments: seq<Payment>, users: seq<User>,
    inventory: seq<InventoryItem>, promos: seq<Promo>, p: Payment)
    requires o.status == AWAITING_CONFIRMATION
    ensures var before := Summarize(orders, payments, users, inventory, promos).kpi;
      var after := Summarize([o] + orders, [p] + payments, users, inventory, promos).kpi;
      && after.totalRevenue == before.totalRevenue + o.total
      && after.totalOrders == before.totalOrders + 1
      && after.pendingOrders == before.pendingOrders + 1
      && after.totalCustomers == before.totalCustomers
  {
    RevenuePrepend(o, orders);
    PendingPrepend(o, orders);
  }

  /** The dashboard after order `k`'s status changes: revenue and counts stay,
      and the pending count moves by the change in the `!== 'Selesai'` test. */
  lemma SummarizeAfterStatus(
    orders: seq<Order>, k: nat, status: string, payments: seq<Payment>, users: seq<User>,
    inventory: seq<InventoryItem>, promos: seq<Promo>)
    requires k < |orders|
    ensures var before := Summarize(orders, payments, users, inventory, promos).kpi;
      var after := Summarize(orders[k := orders[k].(status := status)], payments, users, inventory, promos).kpi;
      && after.totalRevenue == before.totalRevenue
      && after.totalOrders == before.totalOrders
      && after.pendingOrders == before.pendingOrders - (if orders[k].status != DONE then 1 else 0) + (if status != DONE then 1 else 0)
      && after.totalCustomers == before.totalCustomers
  {
    RevenueIgnoresStatus(orders, k, status);
    PendingAfterStatus(orders, k, status);
  }
}
