/**
 Order records and the counters the `home` and `userPage` views show:
 `orders.count()` and `orders.filter(status=...).count()`.
 */
module Dashboard {

  /** An `Order` row: its key, the customer and product it refers to, and its status. */
  datatype Order = Order(id: nat, customer: nat, product: nat, status: string)

  const Delivered := "Delivered"
  const Pending := "Pending"

  /** `orders.filter(status=status).count()`. */
  function CountStatus(orders: seq<Order>, status: string): (n: nat)
    ensures n <= |orders|
    ensures n == 0 <==> forall i :: 0 <= i < |orders| ==> orders[i].status != status
    decreases |orders|
  {
    if orders == [] then 0
    else
      assert forall i :: 1 <= i < |orders| ==> orders[i] == orders[1..][i - 1];
      (if orders[0].status == status then 1 else 0) + CountStatus(orders[1..], status)
  }

  /** The statuses of `orders`, in order. */
  function Statuses(orders: seq<Order>): seq<string>
  {
    seq(|orders|, i requires 0 <= i < |orders| => orders[i].status)
  }

  /** The counter agrees with the multiplicity of `status` among the statuses. */
  lemma {:induction false} CountStatusIsMultiplicity(orders: seq<Order>, status: string)
    ensures CountStatus(orders, status) == multiset(Statuses(orders))[status]
    decreases |orders|
  {
    if orders != [] {
      CountStatusIsMultiplicity(orders[1..], status);
      assert Statuses(orders) == [orders[0].status] + Statuses(orders[1..]);
    }
  }

  /** Counting distributes over concatenation. */
  lemma {:induction false} CountStatusAppend(a: seq<Order>, b: seq<Order>, status: string)
    ensures CountStatus(a + b, status) == CountStatus(a, status) + CountStatus(b, status)
    decreases |a|
  {
    if a != [] {
      assert (a + b)[0] == a[0] && (a + b)[1..] == a[1..] + b;
      CountStatusAppend(a[1..], b, status);
    } else {
      assert a + b == b;
    }
  }

  /** Orders with two different statuses never outnumber all orders. */
  lemma {:induction false} TwoStatusesBounded(orders: seq<Order>, s: string, t: string)
    requires s != t
    ensures CountStatus(orders, s) + CountStatus(orders, t) <= |orders|
    decreases |orders|
  {
    if orders != [] {
      TwoStatusesBounded(orders[1..], s, t);
    }
  }

  /** `customer.order_set.all()`: the orders of customer `cid`, in order. */
  function OrdersOf(orders: seq<Order>, cid: nat): (r: seq<Order>)
    ensures |r| <= |orders|
    ensures forall o :: o in r <==> o in orders && o.customer == cid
    decreases |orders|
  {
    if orders == [] then []
    else
      var rest := OrdersOf(orders[1..], cid);
      assert forall o :: o in orders <==> o == orders[0] || o in orders[1..];
      if orders[0].customer == cid then [orders[0]] + rest else rest
  }

  /** Filtering by customer never raises a status count. */
  lemma {:induction false} OrdersOfCountBounded(orders: seq<Order>, cid: nat, status: string)
    ensures CountStatus(OrdersOf(orders, cid), status) <= CountStatus(orders, status)
    decreases |orders|
  {
    if orders != [] {
      OrdersOfCountBounded(orders[1..], cid, status);
      var rest := OrdersOf(orders[1..], cid);
      if orders[0].customer == cid {
        assert ([orders[0]] + rest)[1..] == rest;
      }
    }
  }

  /** Filtering by customer distributes over concatenation. */
  lemma {:induction false} OrdersOfAppend(a: seq<Order>, b: seq<Order>, cid: nat)
    ensures OrdersOf(a + b, cid) == OrdersOf(a, cid) + OrdersOf(b, cid)
    decreases |a|
  {
    if a != [] {
      assert (a + b)[0] == a[0] && (a + b)[1..] == a[1..] + b;
      OrdersOfAppend(a[1..], b, cid);
    } else {
      assert a + b == b;
    }
  }

  /** The three numbers both dashboards show. */
  datatype Counts = Counts(total: nat, delivered: nat, pending: nat)

  /** `total_orders`, `delivered` and `pending` over a set of orders. */
  function Tally(orders: seq<Order>): (c: Counts)
    ensures c.total == |orders|
    ensures c.delivered == multiset(Statuses(orders))[Delivered]
    ensures c.pending == multiset(Statuses(orders))[Pending]
    ensures c.delivered + c.pending <= c.total
  {
    CountStatusIsMultiplicity(orders, Delivered);
    CountStatusIsMultiplicity(orders, Pending);
    TwoStatusesBounded(orders, Delivered, Pending);
    Counts(|orders|, CountStatus(orders, Delivered), CountStatus(orders, Pending))
  }

  /** What `home` shows: `total_customers` and the counts over all orders. */
  datatype HomeContext = HomeContext(totalCustomers: nat, counts: Counts)

  /** `home`: every order is counted, and the customers are counted too. */
  function HomeCounts(orders: seq<Order>, customerCount: nat): (h: HomeContext)
    ensures h.totalCustomers == customerCount
    ensures h.counts.total == |orders|
    ensures h.counts.delivered == multiset(Statuses(orders))[Delivered]
    ensures h.counts.pending == multiset(Statuses(orders))[Pending]
    ensures h.counts.delivered + h.counts.pending <= h.counts.total
  {
    HomeContext(customerCount, Tally(orders))
  }

  /** `userPage`: the counts over the orders of customer `cid` only, each no
      more than the same count over all orders. */
  function UserCounts(orders: seq<Order>, cid: nat): (c: Counts)
    ensures c == Tally(OrdersOf(orders, cid))
    ensures c.total <= Tally(orders).total
    ensures c.delivered <= Tally(orders).delivered
    ensures c.pending <= Tally(orders).pending
    ensures c.delivered + c.pending <= c.total
  {
    OrdersOfCountBounded(orders, cid, Delivered);
    OrdersOfCountBounded(orders, cid, Pending);
    Tally(OrdersOf(orders, cid))
  }
}
