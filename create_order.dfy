/**
 * The order form: the price preview computed from the routed distance and the
 * submit handler that sends the order over the socket and subscribes to it.
 */
module CreateOrder {
  import opened Basics
  import OrderController

  /** What the route service reports: `distanceValue` in metres, the rest as display text. */
  datatype RouteInfo = RouteInfo(distanceValue: real, distance: string, duration: string)

  datatype Location = Location(lat: real, lng: real, address: string)

  /** `Math.round`: the nearest integer, halves rounded up. */
  function Round(x: real): (n: int)
    ensures n as real - 0.5 <= x < n as real + 0.5
  {
    (x + 0.5).Floor
  }

  /** calculatePrice: 0 without a route, else 500 plus 100 per kilometre, rounded. */
  function CalculatePrice(routeInfo: Option<RouteInfo>): (price: int)
    ensures routeInfo.None? ==> price == 0
    ensures routeInfo.Some? ==>
      price as real - 0.5 <= 500.0 + routeInfo.value.distanceValue / 10.0 < price as real + 0.5
    ensures routeInfo.Some? && routeInfo.value.distanceValue >= 0.0 ==> price >= 500
  {
    if routeInfo.None? then 0
    else
      var distanceKm := routeInfo.value.distanceValue / 1000.0;
      Round(500.0 + distanceKm * 100.0)
  }

  /** A longer route never shows a lower price. */
  lemma CalculatePriceMonotone(a: RouteInfo, b: RouteInfo)
    requires a.distanceValue <= b.distanceValue
    ensures CalculatePrice(Some(a)) <= CalculatePrice(Some(b))
  {
  }

  /** For a route of exactly `d` tenths of a kilometre the preview equals the server's price. */
  lemma PreviewMatchesServerPrice(route: RouteInfo, d: nat)
    requires route.distanceValue == 100.0 * d as real
    ensures CalculatePrice(Some(route)) == OrderController.Price(d)
  {
  }

  /** The order object the page emits to drivers. */
  datatype OutgoingOrder = OutgoingOrder(
    id: string,
    pickup: Location,
    dropoff: Location,
    distance: Option<string>,
    duration: Option<string>,
    price: int,
    driverEarnings: real,
    packageType: string)

  /** One effect of the page, in the order it happens: a socket send, a subscription or an alert. */
  datatype Effect = Send(order: OutgoingOrder) | Subscribe(orderId: string) | Alert(message: string)

  class CreateOrderPage {
    var pickupLocation: Option<Location>
    var dropoffLocation: Option<Location>
    var routeInfo: Option<RouteInfo>
    var packageType: string
    /** Everything the page has sent, subscribed to and alerted, in order. */
    var effects: seq<Effect>

    constructor ()
      ensures pickupLocation == None && dropoffLocation == None && routeInfo == None
      ensures packageType == "package"
      ensures effects == []
    {
      pickupLocation, dropoffLocation, routeInfo := None, None, None;
      packageType := "package";
      effects := [];
    }

    /** handleSubmitOrder; `now` is the `Date.now()` reading that names the order. */
    method HandleSubmitOrder(now: nat)
      modifies this`effects
      ensures pickupLocation.None? || dropoffLocation.None? ==>
        effects == old(effects) + [Alert("Please select pickup and dropoff locations")]
      ensures pickupLocation.Some? && dropoffLocation.Some? ==>
        && |effects| == |old(effects)| + 3
        && effects[|effects| - 3].Send?
        && effects == old(effects) + [effects[|effects| - 3],
                                      Subscribe(effects[|effects| - 3].order.id),
                                      Alert("Order created! Waiting for driver...")]
      ensures pickupLocation.Some? && dropoffLocation.Some? ==>
        var sent := effects[|effects| - 3].order;
        && sent.id == "order-" + Digits(now)
        && sent.pickup == pickupLocation.value && sent.dropoff == dropoffLocation.value
        && sent.distance == (if routeInfo.Some? then Some(routeInfo.value.distance) else None)
        && sent.duration == (if routeInfo.Some? then Some(routeInfo.value.duration) else None)
        && sent.price == CalculatePrice(routeInfo)
        && sent.driverEarnings == sent.price as real * 0.8
        && sent.packageType == packageType
    {
      if pickupLocation.None? || dropoffLocation.None? {
        effects := effects + [Alert("Please select pickup and dropoff locations")];
        return;
      }
      var order := OutgoingOrder(
        "order-" + Digits(now),
        pickupLocation.value,
        dropoffLocation.value,
        if routeInfo.Some? then Some(routeInfo.value.distance) else None,
        if routeInfo.Some? then Some(routeInfo.value.duration) else None,
        CalculatePrice(routeInfo),
        CalculatePrice(routeInfo) as real * 0.8,
        packageType);
      effects := effects + [Send(order)];
      effects := effects + [Subscribe(order.id)];
      effects := effects + [Alert("Order created! Waiting for driver...")];
    }
  }
}
