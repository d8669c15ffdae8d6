/** An order as the customer pages receive it from the order API. */
module OrderJson {
  import opened Basics
  import OrderController

  /** The fields the list pages read; a missing field is `None`. */
  datatype OrderJson = OrderJson(
    id: string,
    trackingId: Option<string>,
    status: string,
    pickupAddress: Option<string>,
    dropoffAddress: Option<string>,
    packageDesc: Option<string>,
    price: Option<int>)

  /** The `status` of every order, in list order. */
  function StatusesOf(orders: seq<OrderJson>): (st: seq<string>)
    ensures |st| == |orders|
    ensures forall i :: 0 <= i < |orders| ==> st[i] == orders[i].status
  {
    if orders == [] then [] else [orders[0].status] + StatusesOf(orders[1..])
  }

  /** Every status is one the server writes (its upper-case enum names). */
  predicate FromServer(orders: seq<OrderJson>) {
    forall i :: 0 <= i < |orders| ==> OrderController.ParseStatus(orders[i].status).Some?
  }
}
