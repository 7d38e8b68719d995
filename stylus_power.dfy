/** The notification shown when a USI stylus battery is low. The controller keeps the last
    reported capacity and whether the user suppressed the notification; every change of
    either re-decides whether the notification is posted or cancelled. Work posted to the
    controller's handler runs at once, in order. Capacities are treated as exact reals. */
module StylusPower {
  import opened Platform

  /** LOW_BATTERY_THRESHOLD. */
  const LowBatteryThreshold: real := 0.16

  /** InputDevice.SOURCE_STYLUS: the pointer class bit with the stylus bit. */
  const SourceStylus: bv32 := 0x4002

  const ActionDismissed: string := "StylusUsiPowerUI.dismiss"
  const ActionClicked: string := "StylusUsiPowerUI.click"

  datatype InputDevice = InputDevice(id: int, sources: bv32)

  /** InputDevice.supportsSource: every bit of `source` is among the device's sources. */
  predicate SupportsSource(d: InputDevice, source: bv32)
  {
    d.sources & source == source
  }

  /** hasConnectedBluetoothStylus: some connected input device is a stylus. */
  predicate HasConnectedStylus(devices: seq<InputDevice>)
  {
    exists i :: 0 <= i < |devices| && SupportsSource(devices[i], SourceStylus)
  }

  /** The controller's two fields and the notification currently posted under its id
      (None once cancelled); a posted notification shows the capacity it was built from. */
  datatype PowerUi = PowerUi(batteryCapacity: real, suppressed: bool, notification: Option<real>)

  /** Full battery, not suppressed, nothing posted. */
  const Initial: PowerUi := PowerUi(1.0, false, None)

  /** isBatteryBelowThreshold: at or below the threshold. */
  predicate BelowThreshold(s: PowerUi)
  {
    s.batteryCapacity <= LowBatteryThreshold
  }

  /** refresh: post when not suppressed, no stylus is connected and the battery is low;
      otherwise cancel, clearing the suppression if the battery is above the threshold. */
  function AfterRefresh(s: PowerUi, devices: seq<InputDevice>): PowerUi
  {
    if !s.suppressed && !HasConnectedStylus(devices) && BelowThreshold(s) then
      s.(notification := Some(s.batteryCapacity))
    else
      s.(suppressed := if !BelowThreshold(s) then false else s.suppressed, notification := None)
  }

  /** updateBatteryState: an unchanged capacity is ignored; a new one is stored, then
      the controller refreshes. */
  function AfterUpdateBattery(s: PowerUi, capacity: real, devices: seq<InputDevice>): PowerUi
  {
    if capacity == s.batteryCapacity then s else AfterRefresh(s.(batteryCapacity := capacity), devices)
  }

  /** updateSuppression: an unchanged flag is ignored; a new one is stored, then the
      controller refreshes. */
  function AfterUpdateSuppression(s: PowerUi, suppress: bool, devices: seq<InputDevice>): PowerUi
  {
    if s.suppressed == suppress then s else AfterRefresh(s.(suppressed := suppress), devices)
  }

  /** The broadcast receiver: dismissing and clicking the notification both suppress it;
      any other action is ignored. */
  function AfterReceive(s: PowerUi, action: string, devices: seq<InputDevice>): PowerUi
  {
    if action == ActionDismissed || action == ActionClicked then AfterUpdateSuppression(s, true, devices) else s
  }

  /** refresh posts exactly when not suppressed, no stylus is connected and the battery is
      at or below the threshold, and the posted notification shows the stored capacity;
      it never changes the capacity. */
  lemma RefreshShowsIff(s: PowerUi, devices: seq<InputDevice>)
    ensures var s' := AfterRefresh(s, devices);
      && (s'.notification.Some? <==> !s.suppressed && !HasConnectedStylus(devices) && s.batteryCapacity <= LowBatteryThreshold)
      && (s'.notification.Some? ==> s'.notification.value == s.batteryCapacity)
      && s'.batteryCapacity == s.batteryCapacity
  {
  }

  /** refresh clears the suppression exactly when the battery is above the threshold and
      keeps it as it was otherwise. */
  lemma RefreshSuppression(s: PowerUi, devices: seq<InputDevice>)
    ensures AfterRefresh(s, devices).suppressed == (s.suppressed && s.batteryCapacity <= LowBatteryThreshold)
  {
  }

  /** A second refresh with the same devices changes nothing. */
  lemma RefreshIdempotent(s: PowerUi, devices: seq<InputDevice>)
    ensures AfterRefresh(AfterRefresh(s, devices), devices) == AfterRefresh(s, devices)
  {
  }

  /** Updates that carry the stored value change nothing and do not refresh. */
  lemma UnchangedUpdatesAreNoOps(s: PowerUi, devices: seq<InputDevice>)
    ensures AfterUpdateBattery(s, s.batteryCapacity, devices) == s
    ensures AfterUpdateSuppression(s, s.suppressed, devices) == s
  {
  }

  /** What holds between any two events: a battery above the threshold is never
      suppressed, and a posted notification is unsuppressed and shows the stored low
      capacity. */
  predicate Consistent(s: PowerUi)
  {
    && (s.batteryCapacity > LowBatteryThreshold ==> !s.suppressed)
    && (s.notification.Some? ==>
          s.notification.value == s.batteryCapacity && BelowThreshold(s) && !s.suppressed)
  }

  /** Every refresh establishes the invariant, and every event preserves it. */
  lemma ConsistentPreserved(s: PowerUi, devices: seq<InputDevice>, capacity: real, suppress: bool, action: string)
    ensures Consistent(Initial)
    ensures Consistent(AfterRefresh(s, devices))
    ensures Consistent(s) ==> Consistent(AfterUpdateBattery(s, capacity, devices))
    ensures Consistent(s) ==> Consistent(AfterUpdateSuppression(s, suppress, devices))
    ensures Consistent(s) ==> Consistent(AfterReceive(s, action, devices))
  {
  }

  /** Dismissing or clicking cancels the notification and keeps it suppressed while the
      battery stays low; other broadcasts are ignored. */
  lemma ReceiveEffect(s: PowerUi, action: string, devices: seq<InputDevice>)
    requires Consistent(s)
    ensures var s' := AfterReceive(s, action, devices);
      if action == ActionDismissed || action == ActionClicked then
        s'.notification.None? && s'.suppressed == BelowThreshold(s) && s'.batteryCapacity == s.batteryCapacity
      else s' == s
  {
  }

  /** A suppressed notification stays hidden through further low readings. */
  lemma SuppressedStaysHidden(s: PowerUi, capacity: real, devices: seq<InputDevice>)
    requires Consistent(s) && s.suppressed && capacity <= LowBatteryThreshold
    ensures AfterUpdateBattery(s, capacity, devices).notification.None?
    ensures AfterUpdateBattery(s, capacity, devices).suppressed
  {
  }

  /** A recharge above the threshold re-arms the notification: the next low reading posts
      it again when no stylus is connected. */
  lemma RechargeRearms(s: PowerUi, high: real, low: real, devices: seq<InputDevice>)
    requires Consistent(s)
    requires high > LowBatteryThreshold && low <= LowBatteryThreshold
    requires !HasConnectedStylus(devices)
    ensures !AfterUpdateBattery(s, high, devices).suppressed
    ensures AfterUpdateBattery(AfterUpdateBattery(s, high, devices), low, devices).notification == Some(low)
  {
  }

  class StylusUsiPowerUi {
    var batteryCapacity: real
    var suppressed: bool
    /** The notification manager's entry for the low-battery id. */
    var notification: Option<real>
    /** The input manager's connected devices. */
    var inputDevices: seq<InputDevice>

    function State(): PowerUi
      reads this
    {
      PowerUi(batteryCapacity, suppressed, notification)
    }

    constructor (devices: seq<InputDevice>)
      ensures State() == Initial && inputDevices == devices
    {
      batteryCapacity := 1.0;
      suppressed := false;
      notification := None;
      inputDevices := devices;
    }

    /** isBatteryBelowThreshold, on the controller's fields. */
    function IsBatteryBelowThreshold(): (below: bool)
      reads this
      ensures below <==> BelowThreshold(State())
    {
      batteryCapacity <= LowBatteryThreshold
    }

    method HasConnectedBluetoothStylus() returns (found: bool)
      ensures found == HasConnectedStylus(inputDevices)
    {
      found := false;
      var i := 0;
      while i < |inputDevices|
        invariant 0 <= i <= |inputDevices|
        invariant found <==> exists k :: 0 <= k < i && SupportsSource(inputDevices[k], SourceStylus)
      {
        if SupportsSource(inputDevices[i], SourceStylus) {
          found := true;
        }
        i := i + 1;
      }
    }

    method Refresh()
      modifies this
      ensures State() == AfterRefresh(old(State()), inputDevices)
      ensures inputDevices == old(inputDevices)
    {
      var stylus := HasConnectedBluetoothStylus();
      if !suppressed && !stylus && IsBatteryBelowThreshold() {
        notification := Some(batteryCapacity);
        return;
      }
      if !IsBatteryBelowThreshold() {
        suppressed := false;
      }
      notification := None;
    }

    method UpdateBatteryState(capacity: real)
      modifies this
      ensures State() == AfterUpdateBattery(old(State()), capacity, inputDevices)
      ensures inputDevices == old(inputDevices)
    {
      if capacity == batteryCapacity {
        return;
      }
      batteryCapacity := capacity;
      Refresh();
    }

    method UpdateSuppression(suppress: bool)
      modifies this
      ensures State() == AfterUpdateSuppression(old(State()), suppress, inputDevices)
      ensures inputDevices == old(inputDevices)
    {
      if suppressed == suppress {
        return;
      }
      suppressed := suppress;
      Refresh();
    }

    method OnReceive(action: string)
      modifies this
      ensures State() == AfterReceive(old(State()), action, inputDevices)
      ensures inputDevices == old(inputDevices)
    {
      if action == ActionDismissed {
        UpdateSuppression(true);
      } else if action == ActionClicked {
        UpdateSuppression(true);
      }
    }
  }
}
