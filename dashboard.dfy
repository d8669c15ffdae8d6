/**
 * The customer dashboard: counters, money spent and the recent-orders strip,
 * computed from the fetched order list. Its status comparisons are exact and
 * lower-case, while the server writes upper-case statuses.
 */
module Dashboard {
  import opened Basics
  import opened OrderJson
  import OrderController

  datatype DashboardStats = DashboardStats(totalOrders: nat, pending: nat, inTransit: nat, delivered: nat, totalSpent: int)

  const InitialStats := DashboardStats(0, 0, 0, 0, 0)

  /** `o.price || 0`: a missing (or zero) price adds nothing. */
  function PriceOrZero(o: OrderJson): int {
    if o.price.Some? then o.price.value else 0
  }

  /** `orders.reduce((sum, o) => sum + (o.price || 0), 0)`, folding from the left. */
  function TotalSpent(orders: seq<OrderJson>): (total: int)
    ensures (forall i :: 0 <= i < |orders| ==> PriceOrZero(orders[i]) >= 0) ==> total >= 0
  {
    if orders == [] then 0
    else TotalSpent(orders[..|orders| - 1]) + PriceOrZero(orders[|orders| - 1])
  }

  /** The fold adds up the two halves of a split list separately. */
  lemma {:induction false} TotalSpentAppend(xs: seq<OrderJson>, ys: seq<OrderJson>)
    ensures TotalSpent(xs + ys) == TotalSpent(xs) + TotalSpent(ys)
    decreases |ys|
  {
    if ys != [] {
      assert (xs + ys)[..|xs + ys| - 1] == xs + ys[..|ys| - 1];
      TotalSpentAppend(xs, ys[..|ys| - 1]);
    } else {
      assert xs + ys == xs;
    }
  }

  /** Orders priced by the server (at least 500 each) make the total at least 500 per order. */
  lemma {:induction false} TotalSpentOfPricedOrders(orders: seq<OrderJson>)
    requires forall i :: 0 <= i < |orders| ==> orders[i].price.Some? && orders[i].price.value >= OrderController.Price(0)
    ensures TotalSpent(orders) >= 500 * |orders|
  {
    if orders != [] {
      TotalSpentOfPricedOrders(orders[..|orders| - 1]);
    }
  }

  const PendingKeys: set<string> := {"pending"}
  const InTransitKeys: set<string> := {"in_transit", "picked_up"}
  const DeliveredKeys: set<string> := {"delivered"}

  function StatsOf(orders: seq<OrderJson>): (s: DashboardStats)
    ensures s.totalOrders == |orders|
  {
    var st := StatusesOf(orders);
    DashboardStats(|orders|, CountIn(st, PendingKeys), CountIn(st, InTransitKeys), CountIn(st, DeliveredKeys), TotalSpent(orders))
  }

  /** The first five orders, in the order the server sent them. */
  function RecentOrders(orders: seq<OrderJson>): (recent: seq<OrderJson>)
    ensures |recent| == Min(5, |orders|)
    ensures recent == orders[..|recent|]
  {
    orders[..Min(5, |orders|)]
  }

  /** The page state after the fetch: computed only from an ok response, initial otherwise. */
  function AfterFetch(responseOk: bool, orders: seq<OrderJson>): (r: (DashboardStats, seq<OrderJson>))
    ensures !responseOk ==> r == (InitialStats, [])
    ensures responseOk ==> r.0.totalOrders == |orders| && r.1 == RecentOrders(orders)
  {
    if responseOk then (StatsOf(orders), RecentOrders(orders)) else (InitialStats, [])
  }

  /** The counters never count an order twice and together stay within the total. */
  lemma CountersWithinTotal(orders: seq<OrderJson>)
    ensures StatsOf(orders).pending + StatsOf(orders).inTransit + StatsOf(orders).delivered
            == CountIn(StatusesOf(orders), PendingKeys + InTransitKeys + DeliveredKeys)
    ensures StatsOf(orders).pending + StatsOf(orders).inTransit + StatsOf(orders).delivered <= StatsOf(orders).totalOrders
  {
  }

  /** The comparison is case-sensitive: statuses written by the server are never counted. */
  lemma ServerOrdersAreNotCounted(orders: seq<OrderJson>)
    requires FromServer(orders)
    ensures StatsOf(orders).pending == 0 && StatsOf(orders).inTransit == 0 && StatsOf(orders).delivered == 0
  {
    var st := StatusesOf(orders);
    forall i | 0 <= i < |st|
      ensures st[i] !in PendingKeys + InTransitKeys + DeliveredKeys
    {
      OrderController.ParseStatusInverse(orders[i].status);
      NameIsNotCounted(OrderController.ParseStatus(orders[i].status).value);
    }
    CountInNone(st, PendingKeys + InTransitKeys + DeliveredKeys);
    CountersWithinTotal(orders);
  }

  /** A stored status name starts with a capital letter, and no counter key does. */
  lemma NameIsNotCounted(st: OrderController.Status)
    ensures OrderController.Name(st) !in PendingKeys + InTransitKeys + DeliveredKeys
  {
  }
}
