/**
 * The driver dashboard page: the status-update buttons offered on an active
 * order, the status badge and vehicle icon lookups, the greeting and the
 * online switch.
 */
module DriverDashboard {
  import opened Basics

  /** The status the single update button of an order card requests, if the card shows one. */
  function NextStatusButton(status: string): (next: Option<string>)
    ensures next.Some? <==> status == "ACCEPTED" || status == "PICKED_UP" || status == "IN_TRANSIT"
  {
    if status == "ACCEPTED" then Some("PICKED_UP")
    else if status == "PICKED_UP" then Some("IN_TRANSIT")
    else if status == "IN_TRANSIT" then Some("DELIVERED")
    else None
  }

  /** Where a status stands on the chain ACCEPTED, PICKED_UP, IN_TRANSIT, DELIVERED (0: off the chain). */
  function ChainPosition(status: string): (p: nat)
    ensures p <= 4
  {
    if status == "ACCEPTED" then 1
    else if status == "PICKED_UP" then 2
    else if status == "IN_TRANSIT" then 3
    else if status == "DELIVERED" then 4
    else 0
  }

  /** Every button moves exactly one place up the chain, starting from a status on it. */
  lemma ButtonMovesOneStep(status: string)
    requires NextStatusButton(status).Some?
    ensures ChainPosition(status) >= 1
    ensures ChainPosition(NextStatusButton(status).value) == ChainPosition(status) + 1
  {
  }

  /** The statuses a driver passes through by pressing the offered button until none is offered. */
  function FollowButtons(status: string): (chain: seq<string>)
    decreases 4 - ChainPosition(status)
    ensures |chain| >= 1 && chain[0] == status
    ensures forall i :: 0 <= i < |chain| - 1 ==> NextStatusButton(chain[i]) == Some(chain[i + 1])
    ensures NextStatusButton(chain[|chain| - 1]).None?
    ensures forall i, j :: 0 <= i < j < |chain| ==> ChainPosition(chain[i]) < ChainPosition(chain[j])
    ensures forall i, j :: 0 <= i < j < |chain| ==> chain[i] != chain[j]
    ensures |chain| == 1 || chain[|chain| - 1] == "DELIVERED"
  {
    match NextStatusButton(status)
    case None => [status]
    case Some(next) =>
      ButtonMovesOneStep(status);
      [status] + FollowButtons(next)
  }

  /** `status.replace('_', ' ')`: a string pattern replaces its first occurrence only. */
  function ReplaceFirstUnderscore(s: string): (r: string)
    ensures |r| == |s|
    ensures (forall i :: 0 <= i < |s| ==> s[i] != '_') ==> r == s
  {
    if s == [] then []
    else if s[0] == '_' then " " + s[1..]
    else [s[0]] + ReplaceFirstUnderscore(s[1..])
  }

  /** Only the first underscore, at `k`, becomes a space. */
  lemma {:induction false} ReplaceFirstUnderscoreAt(s: string, k: nat)
    requires k < |s| && s[k] == '_'
    requires forall i :: 0 <= i < k ==> s[i] != '_'
    ensures ReplaceFirstUnderscore(s) == s[..k] + " " + s[k + 1..]
  {
    if k > 0 {
      ReplaceFirstUnderscoreAt(s[1..], k - 1);
      assert s[..k] == [s[0]] + s[1..][..k - 1];
      assert s[k + 1..] == s[1..][k..];
    }
  }

  predicate IsStatusKey(status: string) {
    status in {"PENDING", "ACCEPTED", "PICKED_UP", "IN_TRANSIT", "DELIVERED", "CANCELLED"}
  }

  datatype Badge = Badge(configKey: string, text: string)

  /** getStatusBadge: the colour config of the status, PENDING's for an unknown one. */
  function StatusBadge(status: string): (b: Badge)
    ensures IsStatusKey(status) ==> b.configKey == status
    ensures !IsStatusKey(status) ==> b.configKey == "PENDING"
    ensures b.text == ReplaceFirstUnderscore(status)
  {
    Badge(if IsStatusKey(status) then status else "PENDING", ReplaceFirstUnderscore(status))
  }

  datatype VehicleIcon = Motorcycle | CarIcon | VanIcon | TruckIcon

  function VehicleIconOf(vehicleType: string): (icon: VehicleIcon)
    ensures icon == TruckIcon <==> vehicleType !in {"BIKE", "CAR", "VAN"}
  {
    match vehicleType
    case "BIKE" => Motorcycle
    case "CAR" => CarIcon
    case "VAN" => VanIcon
    case _ => TruckIcon
  }

  function GreetingFor(hour: int): (g: string)
    ensures g == "Good morning" <==> hour < 12
    ensures g == "Good afternoon" <==> 12 <= hour < 17
    ensures g == "Good evening" <==> 17 <= hour
  {
    if hour < 12 then "Good morning"
    else if hour < 17 then "Good afternoon"
    else "Good evening"
  }

  /** What the "available" tab area shows. */
  datatype AvailablePanel = NotShown | OfflineNotice | WaitingNotice | OrderList

  /** `availableCount` is the length of the page's list of available orders. */
  function AvailableTab(activeTab: string, isOnline: bool, availableCount: nat): (p: AvailablePanel)
    ensures p == NotShown <==> activeTab != "available"
    ensures p == OfflineNotice <==> activeTab == "available" && !isOnline
    ensures p == WaitingNotice <==> activeTab == "available" && isOnline && availableCount == 0
    ensures p == OrderList <==> activeTab == "available" && isOnline && availableCount > 0
  {
    if activeTab != "available" then NotShown
    else if !isOnline then OfflineNotice
    else if availableCount == 0 then WaitingNotice
    else OrderList
  }

  /** The page state that toggleOnline and the greeting effect change. */
  class DriverDashboardPage {
    var isOnline: bool
    var greeting: string
    var activeTab: string
    /** Ids of the available orders; the page starts it empty and never fills it. */
    var availableOrders: seq<string>

    constructor ()
      ensures !isOnline && greeting == "" && activeTab == "available" && availableOrders == []
      ensures AvailableTab(activeTab, isOnline, |availableOrders|) == OfflineNotice
    {
      isOnline := false;
      greeting := "";
      activeTab := "available";
      availableOrders := [];
    }

    method ToggleOnline()
      modifies this`isOnline
      ensures isOnline == !old(isOnline)
    {
      isOnline := !isOnline;
    }

    method LoadGreeting(hour: int)
      modifies this`greeting
      ensures greeting == GreetingFor(hour)
    {
      if hour < 12 {
        greeting := "Good morning";
      } else if hour < 17 {
        greeting := "Good afternoon";
      } else {
        greeting := "Good evening";
      }
    }
  }

  /** Two presses of the online switch leave the page as it was. */
  method ToggleTwice(page: DriverDashboardPage)
    modifies page
    ensures page.isOnline == old(page.isOnline)
    ensures AvailableTab(page.activeTab, page.isOnline, |page.availableOrders|)
         == old(AvailableTab(page.activeTab, page.isOnline, |page.availableOrders|))
  {
    page.ToggleOnline();
    page.ToggleOnline();
  }

  /**
   * Going online from a fresh page shows the waiting notice, never a list:
   * the switch leaves the (still empty) list of available orders alone.
   */
  method GoOnlineFromStart() returns (page: DriverDashboardPage)
    ensures page.isOnline && page.availableOrders == []
    ensures AvailableTab(page.activeTab, page.isOnline, |page.availableOrders|) == WaitingNotice
  {
    page := new DriverDashboardPage();
    page.ToggleOnline();
  }
}
