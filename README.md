# Order lifecycle of a parcel-delivery service, in Dafny

This project models the order lifecycle of a parcel-delivery web application.
It also models the small client pages that display or drive that lifecycle.

**Server.** A customer creates an order, which starts PENDING and is
announced to all drivers. An approved driver accepts it, which makes it
ACCEPTED. The assigned driver then moves it through PICKED_UP, IN_TRANSIT and
DELIVERED. The customer may cancel while the order is PENDING or ACCEPTED.
In the model, the database becomes two maps: orders by id and driver profiles
by id. The socket emitters become an append-only event log. Each handler is
specified as a ghost function from the old state to the new state and the
HTTP reply (`Create`, `Accept`, `UpdateStatus`, `Cancel`). The class
`OrderService` runs the same handler step by step over mutable fields and is
proved equal to that function. A `fails` flag stands for the order write
throwing, which the handler turns into a 500 reply.

The server writes whatever status the assigned driver asks for. It never
checks that the new status follows the current one. `Lifecycle` shows both
sides of this:

- when drivers change statuses only through the driver dashboard's buttons,
  and every press is made on a card that shows the order's current status,
  every order only moves forward (`ButtonRunsMoveForward`);
- a press on a stale card can move an order backwards
  (`StaleCardMovesBack`), and a double press counts a delivery twice
  (`StaleDoublePressCountsTwice`);
- a direct request can send an accepted order back to PENDING, and a second
  driver can then accept it (`ServerAllowsReassignment`).

The dashboard's status buttons are not yet connected to the server: their
click handler only shows a demo alert, and the list of the driver's orders is
never filled. `Lifecycle` therefore models the intended wiring, in which a
press sends the status request that the button's label names. Each press
carries the status shown on the driver's card, which can lag the server.

**Client pages.** The order-details progress tracker, the driver dashboard's
status buttons, badges, greeting and online switch, and the customer's order
list filter and counters. Also the customer dashboard's counters and the
price preview and submit of the order form. Also the sign-up password meter
and submit checks, the three-step driver registration wizard and the login
redirect. Pure lookups are functions. Handlers that change page state are
methods of a class whose fields are the page's state variables.

Statuses on the client are plain strings, as they arrive in JSON. The
customer dashboard compares them exactly against lower-case names, while the
server writes upper-case names. `Dashboard.ServerOrdersAreNotCounted` proves
that its counters therefore stay at zero for orders from this server.
`MyOrders.ConfirmedFilterMatchesNoServerOrder` proves the same for the
order list's "confirmed" filter, since the server says ACCEPTED.

## Model

| member | source | states |
|---|---|---|
| OrderController.Name | server/src/controllers/orderController.js:241-249 | every status has a stored name, and parsing that name gives the status back |
| OrderController.ParseStatusInverse | server/src/controllers/orderController.js:297-316 | a status string the server accepts is exactly the stored name of the status it denotes |
| OrderController.Price | server/src/controllers/orderController.js:34-36 | the price is at least 500 and exceeds 500 by exactly 10 per tenth of a kilometre |
| OrderController.PriceMonotone | server/src/controllers/orderController.js:34-36 | a longer trip never costs less, and a strictly longer one costs strictly more (both directions) |
| OrderController.DriverOfUser | server/src/controllers/orderController.js:221-223 | the profile lookup by user finds a profile of that user, and finds none exactly when no profile belongs to the user |
| OrderController.Create | server/src/controllers/orderController.js:10-76 | 201 exactly when the insert succeeds; then the new PENDING row without driver is stored and one "order:new" event goes to the drivers; otherwise 500 and nothing changes |
| OrderController.Accept | server/src/controllers/orderController.js:216-290 | the guards in source order (no profile 404, not approved 403, unknown order 404, not PENDING 400); 200 exactly when all pass; a refusal changes nothing; success sets only driverId and ACCEPTED, with no timestamp, then "order:accepted" to the customer and "order:taken" to the drivers |
| OrderController.UpdateStatus | server/src/controllers/orderController.js:294-356 | 404 for an unknown order, 500 for a caller without a driver profile, 403 unless the caller is the assigned driver; otherwise any requested status is written; PICKED_UP and DELIVERED stamp their times; DELIVERED adds one delivery to the driver before the order write, so a failing write still counts it; success sends "order:status" to the customer and then to the order room |
| OrderController.Cancellable | server/src/controllers/orderController.js:377 | an order can be cancelled exactly at PENDING or ACCEPTED |
| OrderController.CancelNotice | server/src/controllers/orderController.js:389-396 | at most one "order:cancelled" event, sent to the assigned driver's user exactly when a driver is assigned and that driver exists |
| OrderController.Cancel | server/src/controllers/orderController.js:360-406 | 404, 403 for another customer, 400 outside PENDING/ACCEPTED; success changes only the status to CANCELLED, keeps the driver, and notifies the driver's user only when a driver is assigned |
| OrderController.PendingOrders | server/src/controllers/orderController.js:156-177 | an id is listed exactly when its order is PENDING |
| OrderController.OrderService.FindDriver | server/src/controllers/orderController.js:221-223 | the lookup, which collects the profiles of the user and picks one, returns the same profile as the lookup specification |
| OrderController.OrderService.CreateOrder | server/src/controllers/orderController.js:10-76 | the new tables, event log and reply are those of `Create` on the old state |
| OrderController.OrderService.AcceptOrder | server/src/controllers/orderController.js:216-290 | the new tables, event log and reply are those of `Accept` on the old state |
| OrderController.OrderService.UpdateOrderStatus | server/src/controllers/orderController.js:294-356 | the new tables, event log and reply are those of `UpdateStatus` on the old state |
| OrderController.OrderService.CancelOrder | server/src/controllers/orderController.js:360-406 | the new tables, event log and reply are those of `Cancel` on the old state |
| Lifecycle.ButtonRequestIsSuccessor | client/src/pages/DriverDashboard.jsx:634-660 | a button is offered exactly from ACCEPTED, PICKED_UP and IN_TRANSIT, and it requests the status one place further on |
| Lifecycle.StepMovesForward | server/src/controllers/orderController.js:216-406 | with status changes made only through the buttons, and a press made on a card showing the current status, no single request removes an order or moves it backwards |
| Lifecycle.ButtonRunsMoveForward | client/src/pages/DriverDashboard.jsx:634-660 | over any sequence of create, accept, button and cancel requests in which every press is made on a fresh card, every existing order only moves forward |
| Lifecycle.StaleCardMovesBack | client/src/pages/DriverDashboard.jsx:634-642 | a card still showing ACCEPTED while the server holds IN_TRANSIT offers "picked up", and pressing it moves the order back to PICKED_UP |
| Lifecycle.StaleDoublePressCountsTwice | client/src/pages/DriverDashboard.jsx:652-660 | pressing "delivered" twice on the same IN_TRANSIT card counts the delivery twice for the driver |
| Lifecycle.ServerAllowsReassignment | server/src/controllers/orderController.js:308-316 | the assigned driver can set an ACCEPTED order back to PENDING (200), and a second driver can then accept it and replace the first |
| Lifecycle.NoAcceptOnceTaken | server/src/controllers/orderController.js:241-243 | once an order has left PENDING, every later accept attempt is refused and changes nothing |
| Lifecycle.AtMostOneAccept | server/src/controllers/orderController.js:233-251 | over any sequence of accept attempts at most one succeeds, and the order keeps the driver it assigned |
| Lifecycle.DeliveredTwiceCountsTwice | server/src/controllers/orderController.js:320-329 | repeating a DELIVERED update succeeds again and counts the delivery twice |
| Lifecycle.PendingQueryFollowsLifecycle | server/src/controllers/orderController.js:156-177 | a created order joins the pending list, and a successful accept removes exactly that order from it |
| Lifecycle.CancelButtonMatchesServer | client/src/pages/OrderDetails.jsx:278 | the order page offers cancel exactly for the statuses the server lets a customer cancel |
| Lifecycle.TrackerFollowsRank | client/src/pages/OrderDetails.jsx:223-226 | the tracker step of a server status is its place in the lifecycle plus one, and 0 exactly for CANCELLED |
| Lifecycle.LiveTrackingMatchesButtons | client/src/pages/OrderDetails.jsx:277 | live tracking is on exactly for the statuses from which the driver is offered a button |
| OrderDetails.StatusStep | client/src/pages/OrderDetails.jsx:223-226 | steps lie in 0..5; 0 exactly off the five tracker statuses, CANCELLED included; PENDING is 1 and DELIVERED 5 |
| OrderDetails.StepOfProgressKey | client/src/pages/OrderDetails.jsx:280-286 | the i-th tracker label has step i+1 |
| OrderDetails.CanCancel | client/src/pages/OrderDetails.jsx:278 | the cancel button is offered exactly for PENDING and ACCEPTED |
| OrderDetails.IsLiveTracking | client/src/pages/OrderDetails.jsx:277 | live tracking is on exactly for ACCEPTED, PICKED_UP and IN_TRANSIT |
| OrderDetails.CancelAndLiveOverlapAtAcceptedOnly | client/src/pages/OrderDetails.jsx:277-278 | cancel and live tracking are both on exactly at ACCEPTED, and one of them is on exactly for steps 1 to 4 |
| OrderDetails.StepCompleted | client/src/pages/OrderDetails.jsx:474 | the step at 0-based position i is completed exactly when i + 1 is below the current step |
| OrderDetails.StepCurrent | client/src/pages/OrderDetails.jsx:475 | the step at 0-based position i is current exactly when i + 1 equals the current step |
| OrderDetails.TrackerShape | client/src/pages/OrderDetails.jsx:472-475 | completed steps form a prefix, at most one step is current, no step is both, and every step before the current one is completed |
| OrderDetails.CurrentStepOfStatus | client/src/pages/OrderDetails.jsx:472-475 | for a tracker status the current step is its own and the completed steps are exactly those before it |
| OrderDetails.ProgressWidth | client/src/pages/OrderDetails.jsx:464 | the bar's width is (step - 1) / 4 of the line, in percent |
| OrderDetails.ProgressWidthRange | client/src/pages/OrderDetails.jsx:464 | the bar is 0% at PENDING, 100% at DELIVERED, within 0-100% on the tracker and -25% for an unknown status |
| OrderDetails.TrackerShown | client/src/pages/OrderDetails.jsx:450 | the progress tracker is rendered for every status except CANCELLED |
| OrderDetails.AutoRefreshInstalled | client/src/pages/OrderDetails.jsx:89-93 | the refresh interval is installed exactly when an order is loaded and its status is neither DELIVERED nor CANCELLED |
| OrderDetails.RefreshOnlyWhileActive | client/src/pages/OrderDetails.jsx:89-93 | the 30-second refresh runs exactly while an order is loaded, its tracker is shown and it is not delivered |
| OrderDetails.DisplayStatus | client/src/pages/OrderDetails.jsx:272 | a known status uses its own display config and any other status the PENDING one |
| OrderDetails.DisplayedTrackingId | client/src/pages/OrderDetails.jsx:410 | a non-empty tracking id is shown as is, otherwise the first 12 characters of the id |
| DriverDashboard.NextStatusButton | client/src/pages/DriverDashboard.jsx:634-660 | a button is shown exactly for ACCEPTED, PICKED_UP and IN_TRANSIT |
| DriverDashboard.ButtonMovesOneStep | client/src/pages/DriverDashboard.jsx:634-660 | every button moves exactly one place along ACCEPTED, PICKED_UP, IN_TRANSIT, DELIVERED |
| DriverDashboard.FollowButtons | client/src/pages/DriverDashboard.jsx:634-660 | following the buttons from any status never revisits a status and ends at DELIVERED or at a status with no button |
| DriverDashboard.ReplaceFirstUnderscore | client/src/pages/DriverDashboard.jsx:120 | the length is kept, and a status without underscore is shown unchanged |
| DriverDashboard.ReplaceFirstUnderscoreAt | client/src/pages/DriverDashboard.jsx:120 | only the first underscore becomes a space; later ones stay |
| DriverDashboard.StatusBadge | client/src/pages/DriverDashboard.jsx:104-123 | a known status uses its own colours and any other the PENDING ones; the text is the status with its first underscore replaced |
| DriverDashboard.VehicleIconOf | client/src/pages/DriverDashboard.jsx:125-136 | the default truck icon is used exactly for types other than BIKE, CAR and VAN |
| DriverDashboard.GreetingFor | client/src/pages/DriverDashboard.jsx:77-82 | the hours split into morning (before 12), afternoon (12 to 16) and evening (from 17) |
| DriverDashboard.AvailableTab | client/src/pages/DriverDashboard.jsx:453-556 | on the available tab, an offline driver sees the offline notice; an online driver sees the "Waiting for Orders" notice exactly when the list of available orders is empty, and the list exactly when it is not; other tabs show none of the three |
| DriverDashboard.DriverDashboardPage.constructor | client/src/pages/DriverDashboard.jsx:46-49 | the page starts offline on the available tab, so it shows the offline notice |
| DriverDashboard.DriverDashboardPage.ToggleOnline | client/src/pages/DriverDashboard.jsx:92-94 | the switch negates the online flag and changes nothing else |
| DriverDashboard.DriverDashboardPage.LoadGreeting | client/src/pages/DriverDashboard.jsx:77-82 | the greeting becomes the one for the current hour |
| DriverDashboard.ToggleTwice | client/src/pages/DriverDashboard.jsx:92-94 | two toggles restore the online flag and what the available tab shows, waiting notice included |
| DriverDashboard.GoOnlineFromStart | client/src/pages/DriverDashboard.jsx:63 | the list of available orders starts empty and the switch does not fill it, so going online from a fresh page shows the waiting notice and no list |
| MyOrders.Keep | client/src/pages/MyOrders.jsx:174-212 | an order is kept when the search is empty or the lower-cased query occurs in its lower-cased tracking id, pickup address, dropoff address or package description, and the status filter is 'all' or equals its lower-cased status |
| MyOrders.FilteredOrders | client/src/pages/MyOrders.jsx:174-212 | the shown orders keep their list order, are at most as many as all orders, an order is shown exactly when it passes the search and the status filter, and a kept order appears as often as in the full list |
| MyOrders.NoFilterShowsAll | client/src/pages/MyOrders.jsx:174-212 | an empty search with the status filter at 'all' shows the whole list |
| MyOrders.ConfirmedFilterMatchesNoServerOrder | client/src/pages/MyOrders.jsx:187-189 | the 'confirmed' filter shows no order whose status the server wrote |
| MyOrders.StatsOf | client/src/pages/MyOrders.jsx:215-220 | the total is the number of orders; pending, in progress and delivered count the lower-cased statuses in {pending}, {confirmed, picked_up, in_transit} and {delivered} |
| MyOrders.BucketsWithinTotal | client/src/pages/MyOrders.jsx:215-220 | the pending, in-progress and delivered counts add up to the count of the union of their keys, and so stay within the total |
| MyOrders.AcceptedInNoBucket | client/src/pages/MyOrders.jsx:218 | an ACCEPTED order lands in no bucket |
| MyOrders.BadgeLabel | client/src/pages/MyOrders.jsx:134-144 | an unknown lower-cased status shows the Pending badge |
| MyOrders.AcceptedShowsPendingBadge | client/src/pages/MyOrders.jsx:135 | an ACCEPTED order shows the Pending badge |
| MyOrders.ShowingCountBounded | client/src/pages/MyOrders.jsx:619 | "Showing X of Y" has X at most Y |
| Dashboard.TotalSpent | client/src/pages/Dashboard.jsx:91 | the sum of non-negative prices, a missing one as 0, is non-negative |
| Dashboard.TotalSpentAppend | client/src/pages/Dashboard.jsx:91 | the sum over two lists joined is the sum of their sums |
| Dashboard.TotalSpentOfPricedOrders | client/src/pages/Dashboard.jsx:91 | orders priced by the server add at least 500 each |
| Dashboard.StatsOf | client/src/pages/Dashboard.jsx:88-99 | the total is the number of fetched orders |
| Dashboard.RecentOrders | client/src/pages/Dashboard.jsx:101 | the first min(5, n) orders in the order received |
| Dashboard.AfterFetch | client/src/pages/Dashboard.jsx:85-102 | a failed response leaves the initial zero stats and no recent orders; an ok one sets the total and the recent orders |
| Dashboard.CountersWithinTotal | client/src/pages/Dashboard.jsx:88-90 | the three counters add up to the count of the union of their keys, and so stay within the total |
| Dashboard.NameIsNotCounted | client/src/pages/Dashboard.jsx:88-90 | no status name the server stores equals a counter key |
| Dashboard.ServerOrdersAreNotCounted | client/src/pages/Dashboard.jsx:88-90 | for upper-case server statuses all three counters are 0 |
| Basics.Lower | client/src/pages/MyOrders.jsx:177 | lower-casing keeps the length and maps each character on its own |
| Basics.Digits | client/src/pages/CreateOrder.jsx:26 | a non-empty string of decimal digits |
| Basics.DigitsRoundTrip | client/src/pages/CreateOrder.jsx:26 | reading the digits back gives the number |
| Basics.DigitsInjective | client/src/pages/CreateOrder.jsx:26 | two readings of the clock name the same order exactly when they are equal |
| Basics.CodeUnits | client/src/pages/Register.jsx:62-63 | a character takes two UTF-16 code units exactly when it lies outside the Basic Multilingual Plane, otherwise one |
| Basics.JsLength | client/src/pages/Register.jsx:62-63 | the UTF-16 length lies between the number of characters and twice that number |
| Basics.JsLengthAppend | client/src/pages/Register.jsx:62-63 | the length of a concatenation is the sum of the lengths |
| CreateOrder.Round | client/src/pages/CreateOrder.jsx:16 | the result is within half a unit of the argument, rounding halves up |
| CreateOrder.CalculatePrice | client/src/pages/CreateOrder.jsx:11-17 | 0 without a route; otherwise 500 plus a tenth of the metres, rounded; at least 500 for a non-negative distance |
| CreateOrder.CalculatePriceMonotone | client/src/pages/CreateOrder.jsx:11-17 | a longer route never shows a lower price |
| CreateOrder.PreviewMatchesServerPrice | client/src/pages/CreateOrder.jsx:11-17 | for a whole number of tenths of a kilometre the preview equals the server's price |
| CreateOrder.CreateOrderPage.constructor | client/src/pages/CreateOrder.jsx:6-9 | no locations, no route, package type "package", nothing sent |
| CreateOrder.CreateOrderPage.HandleSubmitOrder | client/src/pages/CreateOrder.jsx:19-50 | a missing location only raises the alert and sends nothing; otherwise exactly three effects follow, in this order: one order is sent, with the route's distance and duration text, the preview price and 0.8 of it as driver earnings; then its id is subscribed to; then the confirmation alert |
| Register.DefaultRole | client/src/pages/Register.jsx:29 | DRIVER exactly when the role parameter is 'driver', else CUSTOMER |
| Register.Strength | client/src/pages/Register.jsx:57-69 | between 0 and 5; 5 exactly when every criterion holds and 0 exactly when none does; lengths are UTF-16 lengths |
| Register.ComputeStrength | client/src/pages/Register.jsx:58-68 | the step-by-step count equals the number of criteria met |
| Register.AstralPasswordHasLengthSix | client/src/pages/Register.jsx:62-63 | three characters outside the Basic Multilingual Plane have length 6, so they pass the first length criterion and get strength 2 |
| Register.StrengthGrowsWithExtension | client/src/pages/Register.jsx:62-66 | typing more characters never lowers the strength |
| Register.StrengthText | client/src/pages/Register.jsx:128-134 | at most 1 is Weak, 2 Fair, 3 Good, 4 Strong, 5 and above Very Strong |
| Register.StrengthColor | client/src/pages/Register.jsx:120-126 | at most 1 is red, 2 orange, 3 yellow, 4 green, 5 and above dark green |
| Register.TextAndColorShareBuckets | client/src/pages/Register.jsx:120-134 | two strengths get the same text exactly when they get the same colour |
| Register.RedirectFor | client/src/pages/Register.jsx:71-79 | ADMIN to /admin, DRIVER to /driver/register, any other role to /dashboard, each in both directions |
| Register.RegisterPage.constructor | client/src/pages/Register.jsx:29-45 | empty fields, the default role, no error, strength 0 |
| Register.RegisterPage.RedirectIfAuthenticated | client/src/pages/Register.jsx:51-55 | a signed-in user is redirected by role; otherwise nothing happens |
| Register.RegisterPage.UpdateStrength | client/src/pages/Register.jsx:58-69 | the meter shows the strength of the current password |
| Register.RegisterPage.HandleChange | client/src/pages/Register.jsx:81-87 | only the named field changes, and the error is cleared |
| Register.RegisterPage.HandleSubmit | client/src/pages/Register.jsx:89-118 | a password mismatch is reported first, then a password shorter than 6 UTF-16 units, and neither calls register; otherwise register gets the form without confirmPassword, and success redirects by role while failure shows the error; loading ends false |
| DriverRegistration.StepError | client/src/pages/DriverRegistration.jsx:122-139 | step 1 fails exactly when no vehicle type is set, with "Please select a vehicle type"; step 2 fails exactly when plate or licence is empty, reporting the missing plate first and otherwise "Please enter your driver's license number"; other steps pass |
| DriverRegistration.DriverRegistrationPage.constructor | client/src/pages/DriverRegistration.jsx:45-60 | the wizard starts at step 1 with BIKE selected and all other fields empty or unchecked |
| DriverRegistration.DriverRegistrationPage.HandleChange | client/src/pages/DriverRegistration.jsx:71-78 | only the named field changes (to `checked` for a checkbox, else to `value`), and the error is cleared |
| DriverRegistration.DriverRegistrationPage.ValidateStep | client/src/pages/DriverRegistration.jsx:122-139 | passes exactly when `StepError` finds nothing, and otherwise sets that error |
| DriverRegistration.DriverRegistrationPage.NextStep | client/src/pages/DriverRegistration.jsx:141-146 | advances exactly one step and clears the error when the step validates; otherwise stays and shows the error |
| DriverRegistration.DriverRegistrationPage.PrevStep | client/src/pages/DriverRegistration.jsx:148-151 | goes back one step unconditionally and clears the error |
| DriverRegistration.DriverRegistrationPage.HandleSubmit | client/src/pages/DriverRegistration.jsx:153-179 | without accepted terms only the error is set and loading never starts; otherwise success is set, loading ends false and the page goes to the driver dashboard |
| Login.LoginRedirect | client/src/pages/Login.jsx:45-57 | ADMIN to /admin whatever the profile flag; DRIVER to /driver/register exactly when the flag is false and to /driver/dashboard otherwise, a missing flag counting as true; any other role to /dashboard |
| Login.LoginPage.constructor | client/src/pages/Login.jsx:26-33 | empty email and password, no error, not loading |
| Login.LoginPage.RedirectIfAuthenticated | client/src/pages/Login.jsx:38-43 | a signed-in user is redirected as if they had a driver profile |
| Login.LoginPage.HandleChange | client/src/pages/Login.jsx:59-65 | only the named field changes, and the error is cleared |
| Login.LoginPage.HandleSubmit | client/src/pages/Login.jsx:67-81 | the form is passed to login; success redirects with the returned role and profile flag, failure shows the returned error; loading ends false |

## Left out

- The haversine distance (`calculateDistance`, `toRad`) is floating-point trigonometry. The server model takes the distance as a natural number of tenths of a kilometre instead.
- OrderController.Price: the floating-point rounding of `distance * pricePerKm` is not modelled. The price is exact integer arithmetic on tenths of a kilometre.
- The Prisma client and the socket module are not part of this model. They are replaced by maps and an event log. Included customer and driver records in replies and payloads are not modelled.
- OrderController.Create: only the insert failing is modelled (`fails`). A duplicate id is treated as a failing insert (500).
- OrderController.Accept: only the order write failing is modelled. A failure of an emitter after the write is not modelled.
- CreateOrder.CalculatePrice: the preview price and the driver earnings (0.8 of it) are computed over exact reals. The page computes them in IEEE doubles, so the earnings can differ in the last digits, as 503 * 0.8 gives 402.40000000000003 there.
- OrderController.Cancel: a failure of the driver lookup after the cancel write is not modelled. The handler would then leave the order cancelled and reply 500.
- OrderController.UpdateStatus: the requested status is one of the six enum values. Other strings in the request body depend on the database schema, which is not part of this model.
- OrderController.PendingOrders: returns the set of pending ids. The newest-first order of the list is not modelled.
- Two drivers accepting the same order concurrently can race between the read and the write of `acceptOrder`. The model is sequential and makes no atomicity claim.
- Express routing and the role middleware are not modelled. Which role may call which handler is left to the caller.
- `getMyOrders`, `getOrder` and `getDriverOrders` are read-only queries outside the lifecycle and are not modelled.
- The order-details fetch and cancel (`fetchOrder`, `handleCancel`) and the order-list fetch (`fetchOrders`) are network I/O and are not modelled. Only the dashboard fetch is modelled, by taking the response as a parameter (`Dashboard.AfterFetch`). The login and sign-up handlers likewise take the auth provider's result as a parameter.
- MyOrders.FilteredOrders: the date filter and date formatting read the clock. The filter is modelled with the date filter at 'all', and every order is assumed to carry a status string.
- Basics.Lower: lower-cases ASCII letters only. Other Unicode case mappings are not modelled.
- DriverDashboard.DriverDashboardPage.LoadGreeting: the hour is a parameter in place of the clock reading. The loading timer is not modelled.
- CreateOrder.CreateOrderPage.HandleSubmitOrder: the fixed demo customer and the `createdAt` timestamp of the sent order are not modelled. `Date.now()` is a parameter.
- DriverRegistration.DriverRegistrationPage.HandleSubmit: the two simulated 2-second delays are collapsed. The page's unreachable error path for a failed request is not modelled.
- Simulated driver movement (`Math.random`), clipboard and share actions, all rendering and animation, and the driver dashboard's demo-only accept alert are not modelled.
- Lifecycle.Step: the dashboard's status buttons call a handler that only shows a demo alert, and the driver's order list is never filled. The model takes a press to send the request the button's label names, which is the intended wiring rather than what the page does now.
- Lifecycle.ButtonRunsMoveForward: holds only when each press is made on a card showing the order's current status. Cards that lag the server are covered by the two stale-card lemmas instead.
- OrderDetails.DisplayedTrackingId: takes the first 12 characters, where `slice` takes 12 UTF-16 units. The two differ only for ids with characters outside the Basic Multilingual Plane.
- The landing page and the map component (routing, geocoding and geolocation over the network) are not part of this model.
- Server-side JavaScript truthiness for fields outside the modelled records is not modelled, nor are prototype-property lookups on the client's config objects.
