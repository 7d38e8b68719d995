/** The shake-gesture system service. On every shake it reads the setting
    `shake_gestures_enabled`; when that is exactly 1 it reads `shake_gestures_action` and
    runs the action that id selects. The platform services it calls (settings, camera,
    audio, power, status bar, media session) are the abstract value `Device`, which the
    service holds and which records the requests it receives.

    Each operation is a pure function from the old state to the new one (named After...),
    the class's methods are proved to perform exactly that function, and the lemmas state
    what the source promises about it. */
module ShakeGesture {
  import opened Platform

  const EnabledKey: string := "shake_gestures_enabled"
  const ActionKey: string := "shake_gestures_action"

  /** KeyEvent.KEYCODE_MEDIA_PLAY_PAUSE and KeyEvent.KEYCODE_MEDIA_NEXT. */
  const KeycodeMediaPlayPause: int := 85
  const KeycodeMediaNext: int := 87

  /** NotificationManager.INTERRUPTION_FILTER_PRIORITY. */
  const InterruptionFilterPriority: int := 2

  datatype KeyAction = Down | Up
  datatype KeyEvent = KeyEvent(action: KeyAction, keycode: int)

  /** A request the service made of the platform, in the order made. */
  datatype Effect =
    | MediaButton(event: KeyEvent)    // MediaSessionLegacyHelper.sendMediaButtonEvent
    | VolumePanel                     // adjustVolume(ADJUST_SAME, FLAG_SHOW_UI)
    | GoToSleep                       // PowerManager.goToSleep
    | WakeUp                          // PowerManager.wakeUp
    | NotificationsCleared(user: int)  // onClearAllNotifications
    | ScreenshotTaken(callback: nat)  // the registered callback was called

  /** The platform as the service sees it.
      - wakeLocks: one entry per wake lock ever created, true while it is held; its length
        is the number of acquisitions and an index is a lock's identity.
      - torchAccessible: setTorchMode returns normally (it throws otherwise).
      - mediaHelperAvailable: MediaSessionLegacyHelper.getHelper is not null.
      - statusBarLookup: what the "statusbar" binder lookup yields (None for null).
      - statusBarResponds: onClearAllNotifications does not throw RemoteException. */
  datatype Device = Device(
    settings: map<string, int>,
    interactive: bool,
    ringerMode: int,
    interruptionFilter: int,
    hasVibrator: bool,
    musicActive: bool,
    torchOn: bool,
    torchAccessible: bool,
    mediaHelperAvailable: bool,
    statusBarLookup: Option<nat>,
    statusBarResponds: bool,
    currentUser: int,
    wakeLocks: seq<bool>,
    effects: seq<Effect>)

  /** The service's own fields together with the platform. */
  datatype Service = Service(
    isFlashOn: bool,
    screenshotCallback: Option<nat>,
    statusBarService: Option<nat>,
    device: Device)

  /** The actions of doAction's switch. */
  datatype Action =
    | NoAction
    | ToggleTorch
    | SkipOrPlayPause
    | ShowVolumePanel
    | ScreenOnOff
    | ClearNotifications
    | ToggleRinger
    | TakeScreenshot

  /** The id under which each action is stored in `shake_gestures_action`. */
  function ActionId(a: Action): int
  {
    match a
    case NoAction => 0
    case ToggleTorch => 1
    case SkipOrPlayPause => 2
    case ShowVolumePanel => 3
    case ScreenOnOff => 4
    case ClearNotifications => 5
    case ToggleRinger => 6
    case TakeScreenshot => 7
  }

  /** doAction's case labels: ids 1 to 7 select an action; 0 and every other integer
      (there is no case 8) select none. */
  function ActionOf(id: int): (a: Action)
    ensures a == NoAction <==> !(1 <= id <= 7)
    ensures a != NoAction ==> ActionId(a) == id
  {
    if id == 1 then ToggleTorch
    else if id == 2 then SkipOrPlayPause
    else if id == 3 then ShowVolumePanel
    else if id == 4 then ScreenOnOff
    else if id == 5 then ClearNotifications
    else if id == 6 then ToggleRinger
    else if id == 7 then TakeScreenshot
    else NoAction
  }

  lemma ActionOfActionId(a: Action)
    ensures ActionOf(ActionId(a)) == a
  {
  }

  /** isShakeGestureEnabled: the stored value (default 0) equals 1. */
  predicate ShakeGestureEnabled(d: Device)
  {
    GetInt(d.settings, EnabledKey, 0) == 1
  }

  /** getShakeGestureAction: the stored action id, default 0. */
  function GestureAction(d: Device): int
  {
    GetInt(d.settings, ActionKey, 0)
  }

  // ---------------------------------------------------------------- wake locks

  /** The number of wake locks currently held. */
  function HeldCount(locks: seq<bool>): nat
  {
    if |locks| == 0 then 0 else HeldCount(locks[..|locks| - 1]) + (if locks[|locks| - 1] then 1 else 0)
  }

  lemma HeldCountAppend(locks: seq<bool>, b: bool)
    ensures HeldCount(locks + [b]) == HeldCount(locks) + (if b then 1 else 0)
  {
    assert (locks + [b])[..|locks|] == locks;
  }

  /** Changing one lock's flag changes the held count by exactly that lock. */
  lemma {:induction false} HeldCountUpdate(locks: seq<bool>, i: nat, b: bool)
    requires i < |locks|
    ensures HeldCount(locks[i := b]) == HeldCount(locks) - (if locks[i] then 1 else 0) + (if b then 1 else 0)
    decreases |locks|
  {
    var n := |locks| - 1;
    if i == n {
      assert locks[i := b][..n] == locks[..n];
    } else {
      HeldCountUpdate(locks[..n], i, b);
      assert locks[i := b][..n] == locks[..n][i := b];
    }
  }

  /** A handle the service may hold: null, or a lock that was created. */
  predicate ValidLock(d: Device, lock: Option<nat>)
  {
    lock.Some? ==> lock.value < |d.wakeLocks|
  }

  datatype Acquired = Acquired(device: Device, lock: Option<nat>)

  /** acquireWakelock: a new partial wake lock is created and acquired; the handle comes
      back only when the device is not interactive, otherwise null comes back. */
  function AfterAcquire(d: Device): Acquired
  {
    var d' := d.(wakeLocks := d.wakeLocks + [true]);
    Acquired(d', if d'.interactive then None else Some(|d.wakeLocks|))
  }

  /** releaseWakelock: a non-null lock that is still held is released. */
  function AfterRelease(d: Device, lock: Option<nat>): Device
    requires ValidLock(d, lock)
  {
    if lock.Some? && d.wakeLocks[lock.value] then d.(wakeLocks := d.wakeLocks[lock.value := false]) else d
  }

  /** An acquisition always adds one held lock, and it returns that lock exactly when the
      device is not interactive. */
  lemma AcquireEffect(d: Device)
    ensures var a := AfterAcquire(d);
      && a.device == d.(wakeLocks := d.wakeLocks + [true])
      && HeldCount(a.device.wakeLocks) == HeldCount(d.wakeLocks) + 1
      && ValidLock(a.device, a.lock)
      && (a.lock.None? <==> d.interactive)
      && (a.lock.Some? ==> a.lock.value == |d.wakeLocks| && a.device.wakeLocks[a.lock.value])
  {
    HeldCountAppend(d.wakeLocks, true);
  }

  /** A release drops the held count by one exactly when it is given a held lock, and
      leaves every other lock and the rest of the device alone. */
  lemma ReleaseEffect(d: Device, lock: Option<nat>)
    requires ValidLock(d, lock)
    ensures var d' := AfterRelease(d, lock);
      && |d'.wakeLocks| == |d.wakeLocks|
      && d'.(wakeLocks := d.wakeLocks) == d
      && (forall k :: 0 <= k < |d.wakeLocks| && lock != Some(k) ==> d'.wakeLocks[k] == d.wakeLocks[k])
      && (lock.Some? ==> !d'.wakeLocks[lock.value])
      && HeldCount(d'.wakeLocks) == HeldCount(d.wakeLocks) - (if lock.Some? && d.wakeLocks[lock.value] then 1 else 0)
  {
    if lock.Some? && d.wakeLocks[lock.value] {
      HeldCountUpdate(d.wakeLocks, lock.value, false);
    }
  }

  /** Releasing the same handle again, or releasing null, is a no-op. */
  lemma ReleaseIdempotent(d: Device, lock: Option<nat>)
    requires ValidLock(d, lock)
    ensures AfterRelease(AfterRelease(d, lock), lock) == AfterRelease(d, lock)
    ensures AfterRelease(d, None) == d
  {
  }

  // ---------------------------------------------------------------- the actions

  /** toggleFlashlight: under a wake lock, ask for the torch in the opposite of the
      remembered state; only when that call returns normally is the flag flipped. */
  function AfterToggleFlashlight(s: Service): Service
  {
    var a := AfterAcquire(s.device);
    var ok := s.device.torchAccessible;
    var d := if ok then a.device.(torchOn := !s.isFlashOn) else a.device;
    s.(isFlashOn := if ok then !s.isFlashOn else s.isFlashOn, device := AfterRelease(d, a.lock))
  }

  /** The torch flag flips exactly when the torch call succeeds, the torch is then in the
      new remembered state, and nothing else but the wake locks changes. */
  lemma ToggleFlashlightEffect(s: Service)
    ensures var s' := AfterToggleFlashlight(s);
      && (s'.isFlashOn != s.isFlashOn <==> s.device.torchAccessible)
      && s'.device.torchOn == (if s.device.torchAccessible then s'.isFlashOn else s.device.torchOn)
      && s'.screenshotCallback == s.screenshotCallback
      && s'.statusBarService == s.statusBarService
      && s'.device.(torchOn := s.device.torchOn, wakeLocks := s.device.wakeLocks) == s.device
  {
    var a := AfterAcquire(s.device);
    var d := if s.device.torchAccessible then a.device.(torchOn := !s.isFlashOn) else a.device;
    ReleaseEffect(d, a.lock);
  }

  /** The torch action's wake lock is released on both paths (success or exception),
      except that on an interactive device the lock was never handed back and stays held. */
  lemma ToggleFlashlightWakeLock(s: Service)
    ensures var s' := AfterToggleFlashlight(s); var n := |s.device.wakeLocks|;
      && |s'.device.wakeLocks| == n + 1
      && s'.device.wakeLocks[..n] == s.device.wakeLocks
      && (s'.device.wakeLocks[n] <==> s.device.interactive)
      && HeldCount(s'.device.wakeLocks) == HeldCount(s.device.wakeLocks) + (if s.device.interactive then 1 else 0)
  {
    var a := AfterAcquire(s.device);
    AcquireEffect(s.device);
    var d := if s.device.torchAccessible then a.device.(torchOn := !s.isFlashOn) else a.device;
    assert d.wakeLocks == s.device.wakeLocks + [true];
    ReleaseEffect(d, a.lock);
    var locks := AfterToggleFlashlight(s).device.wakeLocks;
    assert locks == AfterRelease(d, a.lock).wakeLocks;
    var n := |s.device.wakeLocks|;
    if s.device.interactive {
      assert locks == s.device.wakeLocks + [true];
    } else {
      assert locks == (s.device.wakeLocks + [true])[n := false];
    }
    assert locks[..n] == s.device.wakeLocks;
  }

  /** The media key: NEXT while music plays, PLAY_PAUSE otherwise. */
  function MediaKeyFor(d: Device): int
  {
    if d.musicActive then KeycodeMediaNext else KeycodeMediaPlayPause
  }

  /** dispatchMediaKeyWithWakeLockToMediaSession: nothing without a helper, otherwise a
      DOWN event followed by an UP event for the key. */
  function AfterMediaKey(d: Device, keycode: int): Device
  {
    if !d.mediaHelperAvailable then d
    else d.(effects := d.effects + [MediaButton(KeyEvent(Down, keycode)), MediaButton(KeyEvent(Up, keycode))])
  }

  /** turnScreenOnOrOff: an interactive device is put to sleep without a wake lock; any
      other is woken up between an acquisition and a release. */
  function AfterScreenToggle(d: Device): Device
  {
    if d.interactive then d.(interactive := false, effects := d.effects + [GoToSleep])
    else
      var a := AfterAcquire(d);
      AfterRelease(a.device.(interactive := true, effects := a.device.effects + [WakeUp]), a.lock)
  }

  /** The screen action flips the interactive state. Going to sleep takes no wake lock;
      waking up takes one and releases it, so the held count is unchanged. */
  lemma ScreenToggleEffect(d: Device)
    ensures var d' := AfterScreenToggle(d); var n := |d.wakeLocks|;
      && d'.interactive == !d.interactive
      && d'.effects == d.effects + [if d.interactive then GoToSleep else WakeUp]
      && d'.(interactive := d.interactive, effects := d.effects, wakeLocks := d.wakeLocks) == d
      && |d'.wakeLocks| == n + (if d.interactive then 0 else 1)
      && d'.wakeLocks[..n] == d.wakeLocks
      && (!d.interactive ==> !d'.wakeLocks[n])
      && HeldCount(d'.wakeLocks) == HeldCount(d.wakeLocks)
  {
    if !d.interactive {
      var a := AfterAcquire(d);
      AcquireEffect(d);
      var woken := a.device.(interactive := true, effects := a.device.effects + [WakeUp]);
      ReleaseEffect(woken, a.lock);
      var d' := AfterScreenToggle(d);
      var n := |d.wakeLocks|;
      assert d'.wakeLocks[..n] == d.wakeLocks by {
        forall k | 0 <= k < n ensures d'.wakeLocks[k] == d.wakeLocks[k] {
          assert woken.wakeLocks[k] == d.wakeLocks[k];
        }
      }
    } else {
      assert d.wakeLocks[..|d.wakeLocks|] == d.wakeLocks;
    }
  }

  /** getStatusBarService: the binder is looked up while the cached reference is null. */
  function AfterGetStatusBar(s: Service): Service
  {
    if s.statusBarService.None? then s.(statusBarService := s.device.statusBarLookup) else s
  }

  /** Once the status-bar reference is cached it is never replaced. */
  lemma StatusBarCacheStable(s: Service)
    requires s.statusBarService.Some?
    ensures AfterGetStatusBar(s) == s
  {
  }

  /** clearAllNotifications: through the (possibly newly cached) status bar, when there is
      one; a RemoteException is swallowed. */
  function AfterClearNotifications(s: Service): Service
  {
    var s1 := AfterGetStatusBar(s);
    if s1.statusBarService.Some? && s1.device.statusBarResponds then
      s1.(device := s1.device.(effects := s1.device.effects + [NotificationsCleared(s1.device.currentUser)]))
    else s1
  }

  /** toggleRingerModes: NORMAL becomes VIBRATE on a device with a vibrator, VIBRATE
      becomes NORMAL with the priority interruption filter, SILENT becomes NORMAL. */
  function AfterToggleRinger(d: Device): Device
  {
    if d.ringerMode == RingerNormal then
      (if d.hasVibrator then d.(ringerMode := RingerVibrate) else d)
    else if d.ringerMode == RingerVibrate then
      d.(ringerMode := RingerNormal, interruptionFilter := InterruptionFilterPriority)
    else if d.ringerMode == RingerSilent then
      d.(ringerMode := RingerNormal)
    else d
  }

  /** The ringer toggle's transitions, both directions: the mode changes exactly in the
      three listed cases, the filter exactly when leaving VIBRATE, and nothing else. */
  lemma ToggleRingerTransitions(d: Device)
    ensures var d' := AfterToggleRinger(d);
      && d'.(ringerMode := d.ringerMode, interruptionFilter := d.interruptionFilter) == d
      && (d'.ringerMode != d.ringerMode <==>
            (d.ringerMode == RingerNormal && d.hasVibrator) || d.ringerMode == RingerVibrate || d.ringerMode == RingerSilent)
      && (d'.ringerMode != d.ringerMode ==>
            d'.ringerMode == (if d.ringerMode == RingerNormal then RingerVibrate else RingerNormal))
      && d'.interruptionFilter == (if d.ringerMode == RingerVibrate then InterruptionFilterPriority else d.interruptionFilter)
  {
    if d.ringerMode == RingerNormal {
    } else if d.ringerMode == RingerVibrate {
    } else if d.ringerMode == RingerSilent {
    }
  }

  /** Case 7: the registered screenshot callback is called, if there is one. */
  function AfterScreenshot(s: Service): Service
  {
    if s.screenshotCallback.Some? then
      s.(device := s.device.(effects := s.device.effects + [ScreenshotTaken(s.screenshotCallback.value)]))
    else s
  }

  /** doAction. */
  function AfterDoAction(s: Service, id: int): Service
  {
    match ActionOf(id)
    case NoAction => s
    case ToggleTorch => AfterToggleFlashlight(s)
    case SkipOrPlayPause => s.(device := AfterMediaKey(s.device, MediaKeyFor(s.device)))
    case ShowVolumePanel => s.(device := s.device.(effects := s.device.effects + [VolumePanel]))
    case ScreenOnOff => s.(device := AfterScreenToggle(s.device))
    case ClearNotifications => AfterClearNotifications(s)
    case ToggleRinger => s.(device := AfterToggleRinger(s.device))
    case TakeScreenshot => AfterScreenshot(s)
  }

  /** The shake listener: the configured action runs only when shaking is enabled. */
  function AfterShake(s: Service): Service
  {
    if ShakeGestureEnabled(s.device) then AfterDoAction(s, GestureAction(s.device)) else s
  }

  /** A shake does nothing unless the enabled setting is exactly 1 (absent counts as 0). */
  lemma ShakeRequiresEnabled(s: Service)
    ensures GetInt(s.device.settings, EnabledKey, 0) != 1 ==> AfterShake(s) == s
    ensures EnabledKey !in s.device.settings ==> AfterShake(s) == s
    ensures GetInt(s.device.settings, EnabledKey, 0) == 1 ==>
      AfterShake(s) == AfterDoAction(s, GetInt(s.device.settings, ActionKey, 0))
  {
  }

  /** 0, 8 and every other id outside 1..7 change nothing. */
  lemma UnknownActionIsNoOp(s: Service, id: int)
    requires !(1 <= id <= 7)
    ensures AfterDoAction(s, id) == s
  {
  }

  /** The media action sends the DOWN/UP pair for NEXT while music plays and for
      PLAY_PAUSE otherwise, and nothing at all without a media-session helper. */
  lemma MediaActionEffect(s: Service)
    ensures var s' := AfterDoAction(s, 2);
      var key := if s.device.musicActive then KeycodeMediaNext else KeycodeMediaPlayPause;
      s' == s.(device := s.device.(effects :=
        if s.device.mediaHelperAvailable
        then s.device.effects + [MediaButton(KeyEvent(Down, key)), MediaButton(KeyEvent(Up, key))]
        else s.device.effects))
  {
  }

  /** The screenshot action calls the callback set last, and nothing happens while none
      is set: after setting `cb1` and then `cb2`, action 7 records `cb2` alone. */
  lemma ScreenshotUsesLastCallback(s: Service, cb1: Option<nat>, cb2: Option<nat>)
    ensures var s1 := s.(screenshotCallback := cb1).(screenshotCallback := cb2);
      AfterDoAction(s1, 7) ==
        if cb2.Some? then s1.(device := s1.device.(effects := s1.device.effects + [ScreenshotTaken(cb2.value)]))
        else s1
  {
  }

  /** The volume-panel action makes exactly one adjustVolume request; the clear action
      caches the status bar if it was not cached yet and, when there is one that answers,
      clears the notifications of the current user, once. */
  lemma VolumeAndClearEffects(s: Service)
    ensures AfterDoAction(s, 3) == s.(device := s.device.(effects := s.device.effects + [VolumePanel]))
    ensures var bar := if s.statusBarService.Some? then s.statusBarService else s.device.statusBarLookup;
      var cleared := if bar.Some? && s.device.statusBarResponds then [NotificationsCleared(s.device.currentUser)] else [];
      AfterDoAction(s, 5) == s.(statusBarService := bar, device := s.device.(effects := s.device.effects + cleared))
  {
    var bar := if s.statusBarService.Some? then s.statusBarService else s.device.statusBarLookup;
    assert s.device.effects + [] == s.device.effects;
  }

  /** Wake-lock accounting of one dispatch, as the code is written: the torch always
      acquires one lock, the screen action one only when waking the device, every other
      action none; earlier locks are untouched; and a lock stays held afterwards exactly
      in the torch action on an interactive device (it was acquired but never handed back). */
  lemma DispatchWakeLocks(s: Service, id: int)
    ensures var s' := AfterDoAction(s, id); var n := |s.device.wakeLocks|;
      var acquired := if ActionOf(id) == ToggleTorch || (ActionOf(id) == ScreenOnOff && !s.device.interactive) then 1 else 0;
      var leaked := if ActionOf(id) == ToggleTorch && s.device.interactive then 1 else 0;
      && |s'.device.wakeLocks| == n + acquired
      && s'.device.wakeLocks[..n] == s.device.wakeLocks
      && HeldCount(s'.device.wakeLocks) == HeldCount(s.device.wakeLocks) + leaked
  {
    var n := |s.device.wakeLocks|;
    assert s.device.wakeLocks[..n] == s.device.wakeLocks;
    var a := ActionOf(id);
    if a == ToggleTorch {
      ToggleFlashlightWakeLock(s);
    } else if a == ScreenOnOff {
      ScreenToggleEffect(s.device);
    } else {
      OtherActionsKeepWakeLocks(s, id);
    }
  }

  lemma OtherActionsKeepWakeLocks(s: Service, id: int)
    requires ActionOf(id) != ToggleTorch && ActionOf(id) != ScreenOnOff
    ensures AfterDoAction(s, id).device.wakeLocks == s.device.wakeLocks
  {
    var d := AfterDoAction(s, id).device;
    if id == 2 {
      assert d == AfterMediaKey(s.device, MediaKeyFor(s.device));
    } else if id == 5 {
      assert d == AfterClearNotifications(s).device;
    } else if id == 6 {
      assert d == AfterToggleRinger(s.device);
      assert d.wakeLocks == s.device.wakeLocks;
    } else if id == 7 {
      assert d == AfterScreenshot(s).device;
    }
  }

  // ---------------------------------------------------------------- the service object

  class ShakeGestureService {
    var isFlashOn: bool
    var screenshotCallback: Option<nat>
    var statusBarService: Option<nat>
    var device: Device

    function State(): Service
      reads this
    {
      Service(isFlashOn, screenshotCallback, statusBarService, device)
    }

    /** The private constructor: torch off, no callback, no cached status bar. */
    constructor (platform: Device)
      ensures State() == Service(false, None, None, platform)
    {
      isFlashOn := false;
      screenshotCallback := None;
      statusBarService := None;
      device := platform;
    }

    method AcquireWakelock() returns (lock: Option<nat>)
      modifies this
      ensures State() == old(State()).(device := AfterAcquire(old(device)).device)
      ensures lock == AfterAcquire(old(device)).lock
    {
      device := device.(wakeLocks := device.wakeLocks + [true]);
      lock := if device.interactive then None else Some(|device.wakeLocks| - 1);
    }

    method ReleaseWakelock(lock: Option<nat>)
      requires ValidLock(device, lock)
      modifies this
      ensures State() == old(State()).(device := AfterRelease(old(device), lock))
    {
      if lock.Some? && device.wakeLocks[lock.value] {
        device := device.(wakeLocks := device.wakeLocks[lock.value := false]);
      }
    }

    method ToggleFlashlight()
      modifies this
      ensures State() == AfterToggleFlashlight(old(State()))
    {
      var wakeLock := AcquireWakelock();
      if device.torchAccessible {
        device := device.(torchOn := !isFlashOn);
        isFlashOn := !isFlashOn;
      }
      ReleaseWakelock(wakeLock);
    }

    method DispatchMediaKey(keycode: int)
      modifies this
      ensures State() == old(State()).(device := AfterMediaKey(old(device), keycode))
    {
      if !device.mediaHelperAvailable {
        return;
      }
      device := device.(effects := device.effects + [MediaButton(KeyEvent(Down, keycode))]);
      device := device.(effects := device.effects + [MediaButton(KeyEvent(Up, keycode))]);
    }

    method TurnScreenOnOrOff()
      modifies this
      ensures State() == old(State()).(device := AfterScreenToggle(old(device)))
    {
      if device.interactive {
        device := device.(interactive := false, effects := device.effects + [GoToSleep]);
      } else {
        var wakeLock := AcquireWakelock();
        device := device.(interactive := true, effects := device.effects + [WakeUp]);
        ReleaseWakelock(wakeLock);
      }
    }

    method GetStatusBarService() returns (statusBar: Option<nat>)
      modifies this
      ensures State() == AfterGetStatusBar(old(State()))
      ensures statusBar == statusBarService
    {
      if statusBarService.None? {
        statusBarService := device.statusBarLookup;
      }
      statusBar := statusBarService;
    }

    method ClearAllNotifications()
      modifies this
      ensures State() == AfterClearNotifications(old(State()))
    {
      var statusBar := GetStatusBarService();
      if statusBar.Some? && device.statusBarResponds {
        device := device.(effects := device.effects + [NotificationsCleared(device.currentUser)]);
      }
    }

    method ToggleRingerModes()
      modifies this
      ensures State() == old(State()).(device := AfterToggleRinger(old(device)))
    {
      var mode := device.ringerMode;
      if mode == RingerNormal {
        if device.hasVibrator {
          device := device.(ringerMode := RingerVibrate);
        }
      } else if mode == RingerVibrate {
        device := device.(ringerMode := RingerNormal);
        device := device.(interruptionFilter := InterruptionFilterPriority);
      } else if mode == RingerSilent {
        device := device.(ringerMode := RingerNormal);
      }
    }

    /** The last callback set is the one case 7 calls. */
    method SetScreenshotCallback(callback: Option<nat>)
      modifies this
      ensures State() == old(State()).(screenshotCallback := callback)
    {
      screenshotCallback := callback;
    }

    method DoAction(gestureAction: int)
      modifies this
      ensures State() == AfterDoAction(old(State()), gestureAction)
    {
      match ActionOf(gestureAction)
      case ToggleTorch =>
        ToggleFlashlight();
      case SkipOrPlayPause =>
        DispatchMediaKey(if device.musicActive then KeycodeMediaNext else KeycodeMediaPlayPause);
      case ShowVolumePanel =>
        device := device.(effects := device.effects + [VolumePanel]);
      case ScreenOnOff =>
        TurnScreenOnOrOff();
      case ClearNotifications =>
        ClearAllNotifications();
      case ToggleRinger =>
        ToggleRingerModes();
      case TakeScreenshot =>
        if screenshotCallback.Some? {
          device := device.(effects := device.effects + [ScreenshotTaken(screenshotCallback.value)]);
        }
      case NoAction =>
    }

    /** The listener registered by onStart. */
    method OnShake()
      modifies this
      ensures State() == AfterShake(old(State()))
    {
      if GetInt(device.settings, EnabledKey, 0) == 1 {
        var action := GetInt(device.settings, ActionKey, 0);
        DoAction(action);
      }
    }
  }

  /** The static `instance` field and getInstance: the first call constructs the service,
      every later call returns that same object whatever platform it is given. */
  class ServiceInstance {
    var instance: ShakeGestureService?

    constructor ()
      ensures instance == null
    {
      instance := null;
    }

    method GetInstance(platform: Device) returns (service: ShakeGestureService)
      modifies this
      ensures instance == service
      ensures old(instance) != null ==> service == old(instance)
      ensures old(instance) == null ==> fresh(service) && service.State() == Service(false, None, None, platform)
    {
      if instance == null {
        instance := new ShakeGestureService(platform);
      }
      service := instance;
    }
  }
}
