/**
 * The customer's order list: the search box and status filter, the summary
 * buckets and the status badge.
 */
module MyOrders {
  import opened Basics
  import opened OrderJson
  import OrderController

  /** An optional text field matches when present and its lower-case form contains the query. */
  predicate FieldMatches(field: Option<string>, query: string) {
    field.Some? && Contains(Lower(field.value), query)
  }

  /** The search part of the filter, for an already lower-cased query. */
  predicate MatchesSearch(o: OrderJson, query: string) {
    || FieldMatches(o.trackingId, query)
    || FieldMatches(o.pickupAddress, query)
    || FieldMatches(o.dropoffAddress, query)
    || FieldMatches(o.packageDesc, query)
  }

  /** The filter callback with the date filter at 'all'; an empty query keeps everything. */
  predicate Keep(o: OrderJson, searchQuery: string, statusFilter: string) {
    && (searchQuery == "" || MatchesSearch(o, Lower(searchQuery)))
    && (statusFilter == "all" || Lower(o.status) == statusFilter)
  }

  function FilteredOrders(orders: seq<OrderJson>, searchQuery: string, statusFilter: string): (shown: seq<OrderJson>)
    ensures |shown| <= |orders|
    ensures IsSubsequence(shown, orders)
    ensures forall o :: o in shown <==> o in orders && Keep(o, searchQuery, statusFilter)
    ensures forall o :: multiset(shown)[o] == if Keep(o, searchQuery, statusFilter) then multiset(orders)[o] else 0
  {
    if orders == [] then []
    else
      assert orders == [orders[0]] + orders[1..];
      if Keep(orders[0], searchQuery, statusFilter) then
      [orders[0]] + FilteredOrders(orders[1..], searchQuery, statusFilter)
    else FilteredOrders(orders[1..], searchQuery, statusFilter)
  }

  /** With no search text and the status filter at 'all', the whole list is shown. */
  lemma {:induction false} NoFilterShowsAll(orders: seq<OrderJson>)
    ensures FilteredOrders(orders, "", "all") == orders
  {
    if orders != [] {
      NoFilterShowsAll(orders[1..]);
    }
  }

  /** The "Confirmed" option matches no status the server writes: it says ACCEPTED. */
  lemma {:induction false} ConfirmedFilterMatchesNoServerOrder(orders: seq<OrderJson>, searchQuery: string)
    requires FromServer(orders)
    ensures FilteredOrders(orders, searchQuery, "confirmed") == []
  {
    if orders != [] {
      var st := OrderController.ParseStatus(orders[0].status).value;
      assert orders[0].status == OrderController.Name(st);
      LowerNameIsNotConfirmed(st);
      ConfirmedFilterMatchesNoServerOrder(orders[1..], searchQuery);
    }
  }

  lemma LowerNameIsNotConfirmed(st: OrderController.Status)
    ensures Lower(OrderController.Name(st)) != "confirmed"
  {
  }

  /** The lower-cased statuses the stats buckets are computed from. */
  function LowerStatuses(orders: seq<OrderJson>): (st: seq<string>)
    ensures |st| == |orders|
    ensures forall i :: 0 <= i < |orders| ==> st[i] == Lower(orders[i].status)
  {
    if orders == [] then [] else [Lower(orders[0].status)] + LowerStatuses(orders[1..])
  }

  const PendingKeys: set<string> := {"pending"}
  const InProgressKeys: set<string> := {"confirmed", "picked_up", "in_transit"}
  const DeliveredKeys: set<string> := {"delivered"}

  datatype Stats = Stats(total: nat, pending: nat, inProgress: nat, delivered: nat)

  function StatsOf(orders: seq<OrderJson>): (s: Stats)
    ensures s.total == |orders|
  {
    var st := LowerStatuses(orders);
    Stats(|orders|, CountIn(st, PendingKeys), CountIn(st, InProgressKeys), CountIn(st, DeliveredKeys))
  }

  /** The three buckets never count an order twice, so together they stay within the total. */
  lemma BucketsWithinTotal(orders: seq<OrderJson>)
    ensures StatsOf(orders).pending + StatsOf(orders).inProgress + StatsOf(orders).delivered
            == CountIn(LowerStatuses(orders), PendingKeys + InProgressKeys + DeliveredKeys)
    ensures StatsOf(orders).pending + StatsOf(orders).inProgress + StatsOf(orders).delivered <= StatsOf(orders).total
  {
  }

  /** An accepted order from the server ("accepted" once lower-cased) is in no bucket. */
  lemma AcceptedInNoBucket()
    ensures Lower("ACCEPTED") == "accepted"
    ensures Lower("ACCEPTED") !in PendingKeys + InProgressKeys + DeliveredKeys
  {
  }

  /** The badge label: the config of the lower-cased status, Pending's for an unknown key. */
  function BadgeLabel(status: string): (caption: string)
    ensures Lower(status) !in {"pending", "confirmed", "picked_up", "in_transit", "delivered", "cancelled"}
            ==> caption == "Pending"
  {
    match Lower(status)
    case "pending" => "Pending"
    case "confirmed" => "Confirmed"
    case "picked_up" => "Picked Up"
    case "in_transit" => "In Transit"
    case "delivered" => "Delivered"
    case "cancelled" => "Cancelled"
    case _ => "Pending"
  }

  lemma AcceptedShowsPendingBadge()
    ensures BadgeLabel("ACCEPTED") == "Pending"
  {
  }

  /** "Showing X of Y orders": X never exceeds Y. */
  lemma ShowingCountBounded(orders: seq<OrderJson>, searchQuery: string, statusFilter: string)
    ensures |FilteredOrders(orders, searchQuery, statusFilter)| <= |orders|
  {
  }
}
