/**
 * The order lifecycle of the delivery server: create, accept, status update,
 * cancel and the pending-order query, as one sequential in-memory store.
 *
 * The database tables become two maps and the socket emitters become an
 * append-only event log. Each handler is first specified as a ghost function
 * from the old state to the new state and the HTTP reply; the class
 * `OrderService` then runs the same handler step by step and is proved equal
 * to that function.
 */
module OrderController {
  import opened Basics

  type UserId = string
  type OrderId = string
  type DriverId = string

  datatype Status = Pending | Accepted | PickedUp | InTransit | Delivered | Cancelled

  /** The status as it is stored and sent to clients. */
  function Name(s: Status): (n: string)
    ensures ParseStatus(n) == Some(s)
  {
    match s
    case Pending => "PENDING"
    case Accepted => "ACCEPTED"
    case PickedUp => "PICKED_UP"
    case InTransit => "IN_TRANSIT"
    case Delivered => "DELIVERED"
    case Cancelled => "CANCELLED"
  }

  /** The enum value a status string names, if any. */
  function ParseStatus(n: string): (r: Option<Status>)
  {
    if n == "PENDING" then Some(Pending)
    else if n == "ACCEPTED" then Some(Accepted)
    else if n == "PICKED_UP" then Some(PickedUp)
    else if n == "IN_TRANSIT" then Some(InTransit)
    else if n == "DELIVERED" then Some(Delivered)
    else if n == "CANCELLED" then Some(Cancelled)
    else None
  }

  lemma ParseStatusInverse(n: string)
    ensures ParseStatus(n).Some? ==> Name(ParseStatus(n).value) == n
  {
  }

  /** An order row. `distance` is in tenths of a kilometre, times are clock readings. */
  datatype Order = Order(
    customerId: UserId,
    driverId: Option<DriverId>,
    status: Status,
    distance: nat,
    price: nat,
    createdAt: int,
    pickedUpAt: Option<int>,
    deliveredAt: Option<int>)

  /** A driver profile row. */
  datatype Driver = Driver(userId: UserId, isApproved: bool, totalDeliveries: nat)

  /** Who a socket event is addressed to. */
  datatype Target = ToUser(userId: UserId) | ToDrivers | ToOrderRoom(orderId: OrderId)

  datatype Payload =
    | NewOrder(id: OrderId, order: Order)
    | AcceptedBy(orderId: OrderId, driverId: DriverId, driver: Driver)
    | Taken(orderId: OrderId)
    | StatusChange(orderId: OrderId, status: Status)
    | CancelledOrder(orderId: OrderId)

  datatype Event = Event(target: Target, name: string, payload: Payload)

  /** HTTP status code and the `message` of the JSON body. */
  datatype Reply = Reply(code: nat, message: string)

  datatype State = State(orders: map<OrderId, Order>, drivers: map<DriverId, Driver>, events: seq<Event>)

  const ServerError := Reply(500, "Server error")

  /** Price in currency units for a distance given in tenths of a kilometre:
      base 500 plus 100 per kilometre. */
  function Price(distance: nat): (p: nat)
    ensures p >= 500
    ensures (p - 500) % 10 == 0 && (p - 500) / 10 == distance
  {
    500 + 10 * distance
  }

  lemma PriceMonotone(d1: nat, d2: nat)
    ensures d1 <= d2 <==> Price(d1) <= Price(d2)
    ensures d1 < d2 <==> Price(d1) < Price(d2)
  {
  }

  /** The row `prisma.order.create` inserts: PENDING, no driver, no timestamps. */
  function NewOrderRow(customerId: UserId, distance: nat, now: int): (o: Order)
    ensures o.status == Pending && o.driverId == None
    ensures o.customerId == customerId && o.distance == distance && o.price == Price(distance)
    ensures o.pickedUpAt == None && o.deliveredAt == None
  {
    Order(customerId, None, Pending, distance, Price(distance), now, None, None)
  }

  /** At most one driver profile per user (the lookup key of `findUnique`). */
  ghost predicate UniqueUsers(drivers: map<DriverId, Driver>) {
    forall a, b :: a in drivers && b in drivers && drivers[a].userId == drivers[b].userId ==> a == b
  }

  /** `prisma.driver.findUnique({ where: { userId } })`. */
  ghost function DriverOfUser(drivers: map<DriverId, Driver>, userId: UserId): (r: Option<DriverId>)
    ensures r.Some? ==> r.value in drivers && drivers[r.value].userId == userId
    ensures r.None? <==> forall d :: d in drivers ==> drivers[d].userId != userId
  {
    if exists d :: d in drivers && drivers[d].userId == userId then
      var d :| d in drivers && drivers[d].userId == userId; Some(d)
    else None
  }

  /** createOrder: price the trip, insert the row, then broadcast "order:new" to drivers.
      `id` is the key the store assigns; `fails` says that the insert throws. */
  ghost function Create(s: State, customerId: UserId, id: OrderId, distance: nat, now: int, fails: bool): (r: (State, Reply))
    ensures r.1.code == 201 <==> !fails && id !in s.orders
    ensures r.1.code != 201 ==> r.1 == ServerError && r.0 == s
    ensures r.1.code == 201 ==>
      && r.0.drivers == s.drivers
      && r.0.orders == s.orders[id := NewOrderRow(customerId, distance, now)]
      && r.0.events == s.events + [Event(ToDrivers, "order:new", NewOrder(id, r.0.orders[id]))]
  {
    if fails || id in s.orders then (s, ServerError)
    else
      var o := NewOrderRow(customerId, distance, now);
      (State(s.orders[id := o], s.drivers, s.events + [Event(ToDrivers, "order:new", NewOrder(id, o))]),
       Reply(201, "Order created successfully"))
  }

  /** acceptOrder: driver profile, approval, order existence and PENDING status are
      checked in that order; only then are the driver and ACCEPTED written. */
  ghost function Accept(s: State, userId: UserId, id: OrderId, fails: bool): (r: (State, Reply))
    ensures DriverOfUser(s.drivers, userId).None? ==> r.1 == Reply(404, "Driver profile not found")
    ensures DriverOfUser(s.drivers, userId).Some? && !s.drivers[DriverOfUser(s.drivers, userId).value].isApproved
      ==> r.1 == Reply(403, "Driver not approved yet")
    ensures (DriverOfUser(s.drivers, userId).Some? && s.drivers[DriverOfUser(s.drivers, userId).value].isApproved
             && id !in s.orders) ==> r.1 == Reply(404, "Order not found")
    ensures (DriverOfUser(s.drivers, userId).Some? && s.drivers[DriverOfUser(s.drivers, userId).value].isApproved
             && id in s.orders && s.orders[id].status != Pending) ==> r.1 == Reply(400, "Order is no longer available")
    ensures r.1.code == 200 <==>
      DriverOfUser(s.drivers, userId).Some? && s.drivers[DriverOfUser(s.drivers, userId).value].isApproved
      && id in s.orders && s.orders[id].status == Pending && !fails
    ensures r.1.code != 200 ==> r.0 == s
    ensures r.1.code == 200 ==>
      var d := DriverOfUser(s.drivers, userId).value;
      && r.0.drivers == s.drivers
      && r.0.orders == s.orders[id := s.orders[id].(driverId := Some(d), status := Accepted)]
      && r.0.events == s.events + [
           Event(ToUser(s.orders[id].customerId), "order:accepted", AcceptedBy(id, d, s.drivers[d])),
           Event(ToDrivers, "order:taken", Taken(id))]
  {
    var d := DriverOfUser(s.drivers, userId);
    if d.None? then (s, Reply(404, "Driver profile not found"))
    else if !s.drivers[d.value].isApproved then (s, Reply(403, "Driver not approved yet"))
    else if id !in s.orders then (s, Reply(404, "Order not found"))
    else if s.orders[id].status != Pending then (s, Reply(400, "Order is no longer available"))
    else if fails then (s, ServerError)
    else
      var o := s.orders[id];
      var events := [Event(ToUser(o.customerId), "order:accepted", AcceptedBy(id, d.value, s.drivers[d.value])),
                     Event(ToDrivers, "order:taken", Taken(id))];
      (State(s.orders[id := o.(driverId := d, status := Accepted)], s.drivers, s.events + events),
       Reply(200, "Order accepted successfully"))
  }

  /** The order row after the status write of updateOrderStatus. */
  function StatusWrite(o: Order, status: Status, now: int): (o': Order)
    ensures o'.status == status
    ensures o'.pickedUpAt == (if status == PickedUp then Some(now) else o.pickedUpAt)
    ensures o'.deliveredAt == (if status == Delivered then Some(now) else o.deliveredAt)
    ensures o'.customerId == o.customerId && o'.driverId == o.driverId
    ensures o'.distance == o.distance && o'.price == o.price && o'.createdAt == o.createdAt
  {
    if status == PickedUp then o.(status := status, pickedUpAt := Some(now))
    else if status == Delivered then o.(status := status, deliveredAt := Some(now))
    else o.(status := status)
  }

  /** The drivers table after a DELIVERED update by driver `d`: one more delivery. */
  function CountDelivery(drivers: map<DriverId, Driver>, d: DriverId): (r: map<DriverId, Driver>)
    requires d in drivers
    ensures r.Keys == drivers.Keys
    ensures r[d].totalDeliveries == drivers[d].totalDeliveries + 1
    ensures r[d].userId == drivers[d].userId && r[d].isApproved == drivers[d].isApproved
    ensures forall e :: e in drivers && e != d ==> r[e] == drivers[e]
  {
    drivers[d := drivers[d].(totalDeliveries := drivers[d].totalDeliveries + 1)]
  }

  /** updateOrderStatus: the only check is that the caller is the assigned driver;
      the requested status is written whatever the current one is. */
  ghost function UpdateStatus(s: State, userId: UserId, id: OrderId, status: Status, now: int, fails: bool): (r: (State, Reply))
    ensures id !in s.orders ==> r.1 == Reply(404, "Order not found")
    ensures id in s.orders && DriverOfUser(s.drivers, userId).None? ==> r.1 == ServerError
    ensures (id in s.orders && DriverOfUser(s.drivers, userId).Some?
             && s.orders[id].driverId != DriverOfUser(s.drivers, userId)) ==> r.1 == Reply(403, "Not authorized")
    ensures r.1.code == 200 <==>
      id in s.orders && DriverOfUser(s.drivers, userId).Some?
      && s.orders[id].driverId == DriverOfUser(s.drivers, userId) && !fails
    ensures r.1.code == 200 ==>
      && r.0.orders == s.orders[id := StatusWrite(s.orders[id], status, now)]
      && r.0.events == s.events + [
           Event(ToUser(s.orders[id].customerId), "order:status", StatusChange(id, status)),
           Event(ToOrderRoom(id), "order:status", StatusChange(id, status))]
    ensures r.1.code != 200 ==> r.0.orders == s.orders && r.0.events == s.events
    ensures
      var d := DriverOfUser(s.drivers, userId);
      if status == Delivered && id in s.orders && d.Some? && s.orders[id].driverId == d
      then r.0.drivers == CountDelivery(s.drivers, d.value)
      else r.0.drivers == s.drivers
  {
    var d := DriverOfUser(s.drivers, userId);
    if id !in s.orders then (s, Reply(404, "Order not found"))
    else if d.None? then (s, ServerError)
    else if s.orders[id].driverId != d then (s, Reply(403, "Not authorized"))
    else
      var drivers := if status == Delivered then CountDelivery(s.drivers, d.value) else s.drivers;
      if fails then (State(s.orders, drivers, s.events), ServerError)
      else
        var o := s.orders[id];
        var events := [Event(ToUser(o.customerId), "order:status", StatusChange(id, status)),
                       Event(ToOrderRoom(id), "order:status", StatusChange(id, status))];
        (State(s.orders[id := StatusWrite(o, status, now)], drivers, s.events + events),
         Reply(200, "Order status updated to " + Name(status)))
  }

  predicate Cancellable(s: Status) {
    s == Pending || s == Accepted
  }

  /** The "order:cancelled" notice to the assigned driver's user, if there is one. */
  function CancelNotice(drivers: map<DriverId, Driver>, o: Order, id: OrderId): (e: seq<Event>)
    ensures |e| <= 1
    ensures |e| == 1 <==> o.driverId.Some? && o.driverId.value in drivers
    ensures |e| == 1 ==> e[0] == Event(ToUser(drivers[o.driverId.value].userId), "order:cancelled", CancelledOrder(id))
  {
    if o.driverId.Some? && o.driverId.value in drivers then
      [Event(ToUser(drivers[o.driverId.value].userId), "order:cancelled", CancelledOrder(id))]
    else []
  }

  /** cancelOrder: existence, ownership, then the PENDING/ACCEPTED window. */
  ghost function Cancel(s: State, userId: UserId, id: OrderId, fails: bool): (r: (State, Reply))
    ensures id !in s.orders ==> r.1 == Reply(404, "Order not found")
    ensures id in s.orders && s.orders[id].customerId != userId ==> r.1 == Reply(403, "Not authorized")
    ensures id in s.orders && s.orders[id].customerId == userId && !Cancellable(s.orders[id].status)
      ==> r.1 == Reply(400, "Cannot cancel order at this stage")
    ensures r.1.code == 200 <==>
      id in s.orders && s.orders[id].customerId == userId && Cancellable(s.orders[id].status) && !fails
    ensures r.1.code != 200 ==> r.0 == s
    ensures r.1.code == 200 ==>
      && r.0.drivers == s.drivers
      && r.0.orders == s.orders[id := s.orders[id].(status := Cancelled)]
      && r.0.events == s.events + CancelNotice(s.drivers, s.orders[id], id)
  {
    if id !in s.orders then (s, Reply(404, "Order not found"))
    else if s.orders[id].customerId != userId then (s, Reply(403, "Not authorized"))
    else if !Cancellable(s.orders[id].status) then (s, Reply(400, "Cannot cancel order at this stage"))
    else if fails then (s, ServerError)
    else
      var o := s.orders[id];
      (State(s.orders[id := o.(status := Cancelled)], s.drivers, s.events + CancelNotice(s.drivers, o, id)),
       Reply(200, "Order cancelled successfully"))
  }

  /** getPendingOrders, as a set of ids. */
  function PendingOrders(orders: map<OrderId, Order>): (ids: set<OrderId>)
    ensures forall id :: id in ids <==> id in orders && orders[id].status == Pending
  {
    set id | id in orders && orders[id].status == Pending
  }

  /** The handlers above, run step by step over mutable tables and an event log. */
  class OrderService {
    var orders: map<OrderId, Order>
    var drivers: map<DriverId, Driver>
    var events: seq<Event>

    ghost predicate Valid()
      reads this
    {
      UniqueUsers(drivers)
    }

    ghost function Snapshot(): State
      reads this
    {
      State(orders, drivers, events)
    }

    constructor (driverTable: map<DriverId, Driver>)
      requires UniqueUsers(driverTable)
      ensures Valid() && Snapshot() == State(map[], driverTable, [])
    {
      orders := map[];
      drivers := driverTable;
      events := [];
    }

    method FindDriver(userId: UserId) returns (d: Option<DriverId>)
      requires Valid()
      ensures d == DriverOfUser(drivers, userId)
    {
      var ids := set k | k in drivers && drivers[k].userId == userId;
      if ids == {} {
        forall k | k in drivers
          ensures drivers[k].userId != userId
        {
          assert k !in ids;
        }
        d := None;
      } else {
        var k :| k in ids;
        var chosen := DriverOfUser(drivers, userId);
        assert chosen.Some? && chosen.value in drivers && drivers[chosen.value].userId == drivers[k].userId;
        d := Some(k);
      }
    }

    method CreateOrder(customerId: UserId, id: OrderId, distance: nat, now: int, fails: bool) returns (reply: Reply)
      requires Valid()
      modifies this
      ensures Valid()
      ensures (Snapshot(), reply) == Create(old(Snapshot()), customerId, id, distance, now, fails)
    {
      if fails || id in orders {
        return ServerError;
      }
      var price := Price(distance);
      var order := Order(customerId, None, Pending, distance, price, now, None, None);
      orders := orders[id := order];
      events := events + [Event(ToDrivers, "order:new", NewOrder(id, order))];
      reply := Reply(201, "Order created successfully");
    }

    method AcceptOrder(userId: UserId, id: OrderId, fails: bool) returns (reply: Reply)
      requires Valid()
      modifies this
      ensures Valid()
      ensures (Snapshot(), reply) == Accept(old(Snapshot()), userId, id, fails)
    {
      ghost var s := Snapshot();
      var driver := FindDriver(userId);
      if driver.None? {
        return Reply(404, "Driver profile not found");
      }
      if !drivers[driver.value].isApproved {
        return Reply(403, "Driver not approved yet");
      }
      if id !in orders {
        return Reply(404, "Order not found");
      }
      var order := orders[id];
      if order.status != Pending {
        return Reply(400, "Order is no longer available");
      }
      if fails {
        return ServerError;
      }
      orders := orders[id := order.(driverId := driver, status := Accepted)];
      events := events + [Event(ToUser(order.customerId), "order:accepted", AcceptedBy(id, driver.value, drivers[driver.value]))];
      events := events + [Event(ToDrivers, "order:taken", Taken(id))];
      reply := Reply(200, "Order accepted successfully");
      assert Accept(s, userId, id, fails).0.events == events;
    }

    method UpdateOrderStatus(userId: UserId, id: OrderId, status: Status, now: int, fails: bool) returns (reply: Reply)
      requires Valid()
      modifies this
      ensures Valid()
      ensures (Snapshot(), reply) == UpdateStatus(old(Snapshot()), userId, id, status, now, fails)
    {
      ghost var s := Snapshot();
      var driver := FindDriver(userId);
      if id !in orders {
        return Reply(404, "Order not found");
      }
      var order := orders[id];
      if driver.None? {
        return ServerError;
      }
      if order.driverId != driver {
        return Reply(403, "Not authorized");
      }
      var update := order.(status := status);
      if status == PickedUp {
        update := update.(pickedUpAt := Some(now));
      } else if status == Delivered {
        update := update.(deliveredAt := Some(now));
        var d := driver.value;
        drivers := drivers[d := drivers[d].(totalDeliveries := drivers[d].totalDeliveries + 1)];
      }
      if fails {
        return ServerError;
      }
      orders := orders[id := update];
      events := events + [Event(ToUser(order.customerId), "order:status", StatusChange(id, status))];
      events := events + [Event(ToOrderRoom(id), "order:status", StatusChange(id, status))];
      reply := Reply(200, "Order status updated to " + Name(status));
      assert UpdateStatus(s, userId, id, status, now, fails).0.events == events;
    }

    method CancelOrder(userId: UserId, id: OrderId, fails: bool) returns (reply: Reply)
      requires Valid()
      modifies this
      ensures Valid()
      ensures (Snapshot(), reply) == Cancel(old(Snapshot()), userId, id, fails)
    {
      ghost var s := Snapshot();
      if id !in orders {
        return Reply(404, "Order not found");
      }
      var order := orders[id];
      if order.customerId != userId {
        return Reply(403, "Not authorized");
      }
      if !(order.status in {Pending, Accepted}) {
        return Reply(400, "Cannot cancel order at this stage");
      }
      if fails {
        return ServerError;
      }
      orders := orders[id := order.(status := Cancelled)];
      if order.driverId.Some? {
        if order.driverId.value in drivers {
          var driver := drivers[order.driverId.value];
          events := events + [Event(ToUser(driver.userId), "order:cancelled", CancelledOrder(id))];
        }
      }
      reply := Reply(200, "Order cancelled successfully");
      assert Cancel(s, userId, id, fails).0.events == events;
    }

  }
}
