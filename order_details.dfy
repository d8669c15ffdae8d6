/**
 * The order details page: the progress tracker derived from the order's
 * status, the cancel and live-tracking switches, the auto-refresh condition
 * and the displayed tracking id.
 */
module OrderDetails {
  import opened Basics

  /** getStatusStep: 1 to 5 along the delivery, 0 for every other status. */
  function StatusStep(status: string): (step: nat)
    ensures step <= 5
    ensures step == 0 <==> status !in {"PENDING", "ACCEPTED", "PICKED_UP", "IN_TRANSIT", "DELIVERED"}
    ensures status == "PENDING" <==> step == 1
    ensures status == "DELIVERED" <==> step == 5
  {
    if status == "PENDING" then 1
    else if status == "ACCEPTED" then 2
    else if status == "PICKED_UP" then 3
    else if status == "IN_TRANSIT" then 4
    else if status == "DELIVERED" then 5
    else 0
  }

  /** The five step labels of the tracker, in display order. */
  const ProgressKeys: seq<string> := ["PENDING", "ACCEPTED", "PICKED_UP", "IN_TRANSIT", "DELIVERED"]

  lemma StepOfProgressKey(index: nat)
    requires index < |ProgressKeys|
    ensures StatusStep(ProgressKeys[index]) == index + 1
  {
  }

  predicate CanCancel(status: string) {
    status == "PENDING" || status == "ACCEPTED"
  }

  predicate IsLiveTracking(status: string) {
    status == "ACCEPTED" || status == "PICKED_UP" || status == "IN_TRANSIT"
  }

  lemma CancelAndLiveOverlapAtAcceptedOnly(status: string)
    ensures CanCancel(status) && IsLiveTracking(status) <==> status == "ACCEPTED"
    ensures CanCancel(status) || IsLiveTracking(status) <==> 1 <= StatusStep(status) <= 4
  {
  }

  predicate StepCompleted(index: nat, currentStep: int) {
    index + 1 < currentStep
  }

  predicate StepCurrent(index: nat, currentStep: int) {
    index + 1 == currentStep
  }

  /** Completed steps are a prefix of the tracker, and the current step ends it. */
  lemma TrackerShape(status: string, i: nat, j: nat)
    requires i <= j < |ProgressKeys|
    ensures StepCompleted(j, StatusStep(status)) ==> StepCompleted(i, StatusStep(status))
    ensures StepCurrent(i, StatusStep(status)) && StepCurrent(j, StatusStep(status)) ==> i == j
    ensures !(StepCompleted(i, StatusStep(status)) && StepCurrent(i, StatusStep(status)))
    ensures StepCurrent(j, StatusStep(status)) && i < j ==> StepCompleted(i, StatusStep(status))
  {
  }

  /** A status from the tracker has exactly one current step: its own. */
  lemma CurrentStepOfStatus(index: nat, i: nat)
    requires index < |ProgressKeys| && i < |ProgressKeys|
    ensures StepCurrent(i, StatusStep(ProgressKeys[index])) <==> i == index
    ensures StepCompleted(i, StatusStep(ProgressKeys[index])) <==> i < index
  {
    StepOfProgressKey(index);
  }

  /** The width of the progress line, in percent. */
  function ProgressWidth(currentStep: int): (w: real)
  {
    (currentStep - 1) as real / 4.0 * 100.0
  }

  lemma ProgressWidthRange(status: string)
    ensures status == "PENDING" ==> ProgressWidth(StatusStep(status)) == 0.0
    ensures status == "DELIVERED" ==> ProgressWidth(StatusStep(status)) == 100.0
    ensures StatusStep(status) > 0 ==> 0.0 <= ProgressWidth(StatusStep(status)) <= 100.0
    ensures StatusStep(status) == 0 ==> ProgressWidth(StatusStep(status)) == -25.0
  {
  }

  /** The tracker card is rendered for every status except CANCELLED. */
  predicate TrackerShown(status: string) {
    status != "CANCELLED"
  }

  /** The 30-second refresh interval is installed for a loaded order that is still active. */
  predicate AutoRefreshInstalled(orderStatus: Option<string>) {
    orderStatus.Some? && orderStatus.value != "DELIVERED" && orderStatus.value != "CANCELLED"
  }

  /** The page refreshes exactly while the tracker is shown and has not reached its last step. */
  lemma RefreshOnlyWhileActive(status: string)
    ensures AutoRefreshInstalled(Some(status)) <==> TrackerShown(status) && StatusStep(status) != 5
    ensures !AutoRefreshInstalled(None)
  {
  }

  /** The status whose display config is used: an unknown status shows as PENDING. */
  function DisplayStatus(status: string): (key: string)
    ensures key in {"PENDING", "ACCEPTED", "PICKED_UP", "IN_TRANSIT", "DELIVERED", "CANCELLED"}
    ensures key == status || key == "PENDING"
    ensures key == status <==> status in {"PENDING", "ACCEPTED", "PICKED_UP", "IN_TRANSIT", "DELIVERED", "CANCELLED"}
  {
    if status in {"PENDING", "ACCEPTED", "PICKED_UP", "IN_TRANSIT", "DELIVERED", "CANCELLED"} then status
    else "PENDING"
  }

  /** `order.trackingId || order.id?.slice(0, 12)`: an empty tracking id also falls back. */
  function DisplayedTrackingId(trackingId: Option<string>, id: string): (shown: string)
    ensures trackingId.Some? && trackingId.value != "" ==> shown == trackingId.value
    ensures trackingId.None? || trackingId.value == "" ==> shown == id[..Min(12, |id|)]
    ensures trackingId.None? || trackingId.value == "" ==> |shown| <= 12
  {
    if trackingId.Some? && trackingId.value != "" then trackingId.value
    else id[..Min(12, |id|)]
  }
}
