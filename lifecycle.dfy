/**
 * Properties of whole runs of the order handlers, and how the client pages
 * line up with the server's status enum.
 *
 * The server writes whatever status a driver requests; only the driver
 * dashboard restricts requests to the next status on the chain. The
 * dashboard's buttons are not yet wired to the server (their handler only
 * shows a demo alert), so a press is modelled as the status request its
 * label names. Runs in which drivers change status through those buttons
 * alone, each press made on a card that shows the order's current status,
 * move every order forward. A press on a stale card, or a single direct
 * request, can move an order backwards; after a direct move back to PENDING
 * a second driver can accept the order.
 */
module Lifecycle {
  import opened Basics
  import opened OrderController
  import DriverDashboard
  import OrderDetails

  /** Position on the lifecycle: PENDING 0 up to DELIVERED 4, CANCELLED off to the side. */
  function Rank(s: Status): nat {
    match s
    case Pending => 0
    case Accepted => 1
    case PickedUp => 2
    case InTransit => 3
    case Delivered => 4
    case Cancelled => 5
  }

  /** `b` is `a` or lies ahead of it: further along the chain, or cancelled while still cancellable. */
  predicate Reaches(a: Status, b: Status) {
    a == b
    || (b == Cancelled && Cancellable(a))
    || (a != Cancelled && b != Cancelled && Rank(a) < Rank(b))
  }

  lemma ReachesTransitive(a: Status, b: Status, c: Status)
    requires Reaches(a, b) && Reaches(b, c)
    ensures Reaches(a, c)
  {
  }

  /** Moving forward can never be undone: `Reaches` is antisymmetric. */
  lemma ReachesAntisymmetric(a: Status, b: Status)
    requires Reaches(a, b) && Reaches(b, a)
    ensures a == b
  {
  }

  /** The status the dashboard's update button sends for an order the server holds at `cur`. */
  function ButtonRequest(cur: Status): (next: Option<Status>)
  {
    match DriverDashboard.NextStatusButton(Name(cur))
    case None => None
    case Some(n) => ParseStatus(n)
  }

  /** A button is offered from ACCEPTED, PICKED_UP and IN_TRANSIT only, and always one step ahead. */
  lemma ButtonRequestIsSuccessor(cur: Status)
    ensures ButtonRequest(cur).Some? <==> cur in {Accepted, PickedUp, InTransit}
    ensures ButtonRequest(cur).Some? ==>
      ButtonRequest(cur).value != Cancelled && Rank(ButtonRequest(cur).value) == Rank(cur) + 1
  {
  }

  /** One request reaching the server. */
  datatype Action =
    | CreateAs(customerId: UserId, orderId: OrderId, distance: nat, now: int, fails: bool)
    | AcceptBy(userId: UserId, orderId: OrderId, fails: bool)
    | PressButton(userId: UserId, orderId: OrderId, cardStatus: Status, now: int, fails: bool)
    | CancelBy(userId: UserId, orderId: OrderId, fails: bool)

  /**
   * The state after one action. A status change is only ever the request of
   * the button on the driver's card, which is chosen by the card's own copy
   * of the status; with no button on the card nothing is sent.
   */
  ghost function Step(s: State, a: Action): State {
    match a
    case CreateAs(c, id, d, now, f) => Create(s, c, id, d, now, f).0
    case AcceptBy(u, id, f) => Accept(s, u, id, f).0
    case PressButton(u, id, card, now, f) =>
      if ButtonRequest(card).Some?
      then UpdateStatus(s, u, id, ButtonRequest(card).value, now, f).0
      else s
    case CancelBy(u, id, f) => Cancel(s, u, id, f).0
  }

  ghost function Run(s: State, acts: seq<Action>): State
    decreases |acts|
  {
    if acts == [] then s else Run(Step(s, acts[0]), acts[1..])
  }

  /** A press is made on a card showing the status the server holds for that order. */
  ghost predicate Fresh(s: State, a: Action) {
    a.PressButton? && a.orderId in s.orders ==> a.cardStatus == s.orders[a.orderId].status
  }

  /** Every press of the run is made on a fresh card, in the state the run has reached by then. */
  ghost predicate FreshRun(s: State, acts: seq<Action>)
    decreases |acts|
  {
    acts == [] || (Fresh(s, acts[0]) && FreshRun(Step(s, acts[0]), acts[1..]))
  }

  /** No single action with a fresh card removes an order or moves it backwards. */
  lemma StepMovesForward(s: State, a: Action, id: OrderId)
    requires id in s.orders
    requires Fresh(s, a)
    ensures id in Step(s, a).orders
    ensures Reaches(s.orders[id].status, Step(s, a).orders[id].status)
  {
  }

  /** When drivers use only the dashboard buttons on fresh cards, every order's status only moves forward. */
  lemma {:induction false} ButtonRunsMoveForward(s: State, acts: seq<Action>, id: OrderId)
    requires id in s.orders
    requires FreshRun(s, acts)
    ensures id in Run(s, acts).orders
    ensures Reaches(s.orders[id].status, Run(s, acts).orders[id].status)
    decreases |acts|
  {
    if acts != [] {
      var s1 := Step(s, acts[0]);
      StepMovesForward(s, acts[0], id);
      ButtonRunsMoveForward(s1, acts[1..], id);
      ReachesTransitive(s.orders[id].status, s1.orders[id].status, Run(s1, acts[1..]).orders[id].status);
    }
  }

  /** A driver table with two approved drivers, and one order accepted by the first. */
  function TwoDrivers(): map<DriverId, Driver> {
    map["d1" := Driver("u1", true, 0), "d2" := Driver("u2", true, 0)]
  }

  function AcceptedByFirst(): State {
    State(map["o1" := Order("c1", Some("d1"), Accepted, 25, Price(25), 0, None, None)], TwoDrivers(), [])
  }

  /** The order of `AcceptedByFirst` after the driver has started the delivery. */
  function InTransitByFirst(): State {
    State(map["o1" := Order("c1", Some("d1"), InTransit, 25, Price(25), 0, Some(0), None)], TwoDrivers(), [])
  }

  /**
   * A card that still shows ACCEPTED while the server holds IN_TRANSIT offers
   * "picked up", and pressing it moves the order backwards.
   */
  lemma StaleCardMovesBack()
    ensures !Fresh(InTransitByFirst(), PressButton("u1", "o1", Accepted, 1, false))
    ensures Step(InTransitByFirst(), PressButton("u1", "o1", Accepted, 1, false)).orders["o1"].status == PickedUp
    ensures !Reaches(InTransit, PickedUp)
  {
    DriverOfTwoDrivers();
  }

  /** Pressing "delivered" twice on the same IN_TRANSIT card counts the delivery twice. */
  lemma StaleDoublePressCountsTwice()
    ensures
      var once := Step(InTransitByFirst(), PressButton("u1", "o1", InTransit, 1, false));
      && !Fresh(once, PressButton("u1", "o1", InTransit, 2, false))
      && Step(once, PressButton("u1", "o1", InTransit, 2, false)).drivers["d1"].totalDeliveries == 2
  {
    DriverOfTwoDrivers();
    assert UniqueUsers(TwoDrivers());
    DeliveredTwiceCountsTwice(InTransitByFirst(), "u1", "o1", 1, 2);
  }

  lemma DriverOfTwoDrivers()
    ensures DriverOfUser(TwoDrivers(), "u1") == Some("d1")
    ensures DriverOfUser(TwoDrivers(), "u2") == Some("d2")
  {
    var ds := TwoDrivers();
    assert ds["d1"].userId == "u1";
    assert ds["d2"].userId == "u2";
  }

  /**
   * Without the buttons the server does not keep orders moving forward: the
   * assigned driver may request PENDING directly, and a second driver can
   * then accept the same order and take it over.
   */
  lemma ServerAllowsReassignment()
    ensures UpdateStatus(AcceptedByFirst(), "u1", "o1", Pending, 1, false).1.code == 200
    ensures !Reaches(Accepted, UpdateStatus(AcceptedByFirst(), "u1", "o1", Pending, 1, false).0.orders["o1"].status)
    ensures
      var back := UpdateStatus(AcceptedByFirst(), "u1", "o1", Pending, 1, false).0;
      && Accept(back, "u2", "o1", false).1.code == 200
      && Accept(back, "u2", "o1", false).0.orders["o1"].driverId == Some("d2")
  {
    DriverOfTwoDrivers();
    var back := UpdateStatus(AcceptedByFirst(), "u1", "o1", Pending, 1, false).0;
    assert back.drivers == TwoDrivers();
  }

  /** The replies to a sequence of accept attempts (user, write fails) on one order, and the final state. */
  ghost function AcceptAll(s: State, id: OrderId, attempts: seq<(UserId, bool)>): (r: (State, seq<Reply>))
    ensures |r.1| == |attempts|
    decreases |attempts|
  {
    if attempts == [] then (s, [])
    else
      var first := Accept(s, attempts[0].0, id, attempts[0].1);
      var rest := AcceptAll(first.0, id, attempts[1..]);
      (rest.0, [first.1] + rest.1)
  }

  /** Once an order has left PENDING, every accept attempt is refused and changes nothing. */
  lemma {:induction false} NoAcceptOnceTaken(s: State, id: OrderId, attempts: seq<(UserId, bool)>)
    requires id in s.orders && s.orders[id].status != Pending
    ensures AcceptAll(s, id, attempts).0 == s
    ensures forall i :: 0 <= i < |attempts| ==> AcceptAll(s, id, attempts).1[i].code != 200
    decreases |attempts|
  {
    if attempts != [] {
      NoAcceptOnceTaken(s, id, attempts[1..]);
    }
  }

  /**
   * Sequentially, accept assigns at most one driver: at most one attempt
   * succeeds, and the driver it assigns is the one the order keeps.
   */
  lemma {:induction false} AtMostOneAccept(s: State, id: OrderId, attempts: seq<(UserId, bool)>)
    ensures forall i, j :: (0 <= i < |attempts| && 0 <= j < |attempts|
                            && AcceptAll(s, id, attempts).1[i].code == 200
                            && AcceptAll(s, id, attempts).1[j].code == 200) ==> i == j
    ensures forall i :: (0 <= i < |attempts| && AcceptAll(s, id, attempts).1[i].code == 200) ==>
      && id in AcceptAll(s, id, attempts).0.orders
      && AcceptAll(s, id, attempts).0.orders[id].status == Accepted
      && AcceptAll(s, id, attempts).0.orders[id].driverId == DriverOfUser(s.drivers, attempts[i].0)
    decreases |attempts|
  {
    if attempts != [] {
      var first := Accept(s, attempts[0].0, id, attempts[0].1);
      var replies := AcceptAll(s, id, attempts).1;
      assert replies == [first.1] + AcceptAll(first.0, id, attempts[1..]).1;
      if first.1.code == 200 {
        NoAcceptOnceTaken(first.0, id, attempts[1..]);
        assert forall i :: 1 <= i < |attempts| ==> replies[i] == AcceptAll(first.0, id, attempts[1..]).1[i - 1];
      } else {
        AtMostOneAccept(s, id, attempts[1..]);
        assert first.0 == s;
        assert forall i :: 1 <= i < |attempts| ==> replies[i] == AcceptAll(s, id, attempts[1..]).1[i - 1];
        assert forall i :: 1 <= i < |attempts| ==> attempts[i] == attempts[1..][i - 1];
      }
    }
  }

  /** Delivery is counted on every DELIVERED request, so repeating one counts the order twice. */
  lemma DeliveredTwiceCountsTwice(s: State, userId: UserId, id: OrderId, t1: int, t2: int)
    requires UniqueUsers(s.drivers)
    requires UpdateStatus(s, userId, id, Delivered, t1, false).1.code == 200
    ensures
      var d := DriverOfUser(s.drivers, userId).value;
      var once := UpdateStatus(s, userId, id, Delivered, t1, false).0;
      var twice := UpdateStatus(once, userId, id, Delivered, t2, false);
      && twice.1.code == 200
      && d in twice.0.drivers
      && twice.0.drivers[d].totalDeliveries == s.drivers[d].totalDeliveries + 2
  {
  }

  /** A created order is offered to drivers; a successful accept withdraws it and nothing else. */
  lemma PendingQueryFollowsLifecycle(s: State, customerId: UserId, userId: UserId, id: OrderId, distance: nat, now: int)
    ensures Create(s, customerId, id, distance, now, false).1.code == 201 ==>
      PendingOrders(Create(s, customerId, id, distance, now, false).0.orders) == PendingOrders(s.orders) + {id}
    ensures Accept(s, userId, id, false).1.code == 200 ==>
      PendingOrders(Accept(s, userId, id, false).0.orders) == PendingOrders(s.orders) - {id}
  {
  }

  /** The order page's cancel button appears exactly when the server would allow the cancel. */
  lemma CancelButtonMatchesServer(st: Status)
    ensures OrderDetails.CanCancel(Name(st)) <==> Cancellable(st)
  {
  }

  /** The tracker step of a server status is its lifecycle rank plus one, and 0 for CANCELLED. */
  lemma TrackerFollowsRank(st: Status)
    ensures st != Cancelled ==> OrderDetails.StatusStep(Name(st)) == Rank(st) + 1
    ensures st == Cancelled <==> OrderDetails.StatusStep(Name(st)) == 0
  {
  }

  /** Live tracking is on exactly for the statuses from which a driver button is offered. */
  lemma LiveTrackingMatchesButtons(st: Status)
    ensures OrderDetails.IsLiveTracking(Name(st)) <==> ButtonRequest(st).Some?
  {
  }
}
