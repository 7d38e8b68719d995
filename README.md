# Blackiron shake gestures and SystemUI widgets, modelled in Dafny

This project models five small components of the Blackiron Android system. Each is a
sequential decision rule over its own fields and the platform state it reads.

- **Shake-gesture service** (`shake_gesture.dfy`, module `ShakeGesture`). When
  `shake_gestures_enabled` is exactly 1, a shake runs the action that
  `shake_gestures_action` names: torch, media key, volume panel, screen on/off, clear
  notifications, ringer toggle or screenshot.
  - Ids outside 1..7 do nothing.
  - Wake locks are a sequence of held flags: its length counts the acquisitions, and one
    entry per lock records whether that lock is held.
  - On an interactive device `acquireWakelock` acquires a lock but returns null, so the
    later release cannot release it. The model keeps that behaviour.
- **Stylus low-battery notification** (`stylus_power.dfy`, module `StylusPower`). It holds
  the last battery capacity and a suppression flag.
  - `refresh` posts the notification only when it is not suppressed, no stylus is
    connected and the capacity is at most 0.16.
  - Otherwise `refresh` cancels it, and clears the suppression once the battery is above
    the threshold.
- **Emergency/carrier text** (`emergency_text.dfy`, module `EmergencyText`). This is the
  text shown on the encryption screen. It is the carrier name of the last subscription
  whose card exists and whose carrier name is not empty. The fallbacks, in order, are the
  first subscription's name, the sticky PLMN, and the "emergency calls only" string.
- **Lock-screen widgets** (`lockscreen_widgets.dfy`, module `LockScreenWidgets`). Two
  large and four small placeholders are filled from two comma-separated tuner lists.
  The module also models:
  - the container visibility rules;
  - the theme colour table;
  - the weather caption, including its keyword table and its underscore-splitting
    formatter;
  - `removeDoubleQuotes`;
  - the media, torch and ringer buttons.
- **Volume arc** (`volume_progress.dfy`, module `VolumeProgress`). This is
  `currentVolume * 100 / maxVolume` in Java `int` arithmetic, with the "N%" label.

Two shared modules support these:
- `Platform` (`platform.dfy`): nullable values, view visibility, the settings lookup,
  `TextUtils.isEmpty` and the ringer modes.
- `JavaStrings` (`java_strings.dfy`): the `java.lang.String` operations used here, which are
  `toLowerCase`, `contains`, `split` around one char (dropping trailing empty strings),
  `trim` and `String.valueOf(int)`.

`ShakeGestureService`, `StylusUsiPowerUi` and `LockScreenWidgetsView` follow the same
pattern:
- Their fields mirror the source's fields.
- `State()` packs the fields into a value.
- Every method that changes them is proved to turn `old(State())` into a pure `After...`
  function of it.

`EmergencyCryptkeeperText` and `VolumeProgressImageView` have only a field or two. Their
methods state the new field values directly, in terms of `DisplayText` and
`VolumePercent`/`Label`. `ServiceInstance` holds the singleton reference.

The lemmas about those functions state what the source promises. Platform services (the
settings provider, camera, audio, power, status bar, input devices, weather client) are
parameters or the abstract `Device`/`Env` values (which also carry the "play" and
"weather data unavailable" labels), and handler posts run at once.

Facts about the shake service's code:
- shaking is on only when `shake_gestures_enabled` is exactly 1 (`ShakeGestureService.java:111-114`);
- `doAction` has cases 1 to 7 and no case 8 (`ShakeGestureService.java:126-156`);
- nothing guards against one dispatch starting while another runs (`ShakeGestureService.java:90-99`);
- the ringer toggle runs without a wake lock (`ShakeGestureService.java:144-146`);
- both settings are read again on every shake (`ShakeGestureService.java:111-124`).

## Model

| member | source | states |
|---|---|---|
| ShakeGesture.ActionOf | services/core/java/org/blackiron/server/ShakeGestureService.java:126-156 | ids 1 to 7, and only they, select an action; a selected action's stored id is the id it came from |
| ShakeGesture.ActionOfActionId | services/core/java/org/blackiron/server/ShakeGestureService.java:126-156 | every action is selected again by its own id |
| ShakeGesture.ShakeRequiresEnabled | services/core/java/org/blackiron/server/ShakeGestureService.java:90-124 | a shake does nothing unless `shake_gestures_enabled` is exactly 1 (absent counts as 0); when it is 1 the stored action runs |
| ShakeGesture.UnknownActionIsNoOp | services/core/java/org/blackiron/server/ShakeGestureService.java:126-156 | 0, 8 and every id outside 1..7 change nothing |
| ShakeGesture.AcquireEffect | services/core/java/org/blackiron/server/ShakeGestureService.java:197-202 | acquiring always adds one held lock, and the lock is returned exactly when the device is not interactive |
| ShakeGesture.ReleaseEffect | services/core/java/org/blackiron/server/ShakeGestureService.java:204-208 | a release drops the held count by one exactly for a non-null, held lock, and touches nothing else |
| ShakeGesture.ReleaseIdempotent | services/core/java/org/blackiron/server/ShakeGestureService.java:204-208 | releasing the same handle twice is the same as once; releasing null is a no-op |
| ShakeGesture.ToggleFlashlightEffect | services/core/java/org/blackiron/server/ShakeGestureService.java:158-170 | `isFlashOn` flips exactly when setTorchMode succeeds; on failure flag and torch are unchanged |
| ShakeGesture.ToggleFlashlightWakeLock | services/core/java/org/blackiron/server/ShakeGestureService.java:158-170 | the torch action's lock is released on both paths when it was returned, and stays held (leaked) on an interactive device |
| ShakeGesture.MediaActionEffect | services/core/java/org/blackiron/server/ShakeGestureService.java:172-182 | action 2 sends a DOWN then UP pair of NEXT while music plays and of PLAY_PAUSE otherwise, and nothing without a media helper |
| ShakeGesture.ScreenshotUsesLastCallback | services/core/java/org/blackiron/server/ShakeGestureService.java:147-150 | action 7 calls the callback set last, once, and does nothing while none is set |
| ShakeGesture.VolumeAndClearEffects | services/core/java/org/blackiron/server/ShakeGestureService.java:135-143 | action 3 makes exactly one volume-panel request; action 5 caches the status bar if needed and clears the current user's notifications when a status bar answers |
| ShakeGesture.ScreenToggleEffect | services/core/java/org/blackiron/server/ShakeGestureService.java:184-195 | the screen action flips the interactive state; sleeping takes no lock, waking is bracketed by an acquire and its release |
| ShakeGesture.StatusBarCacheStable | services/core/java/org/blackiron/server/ShakeGestureService.java:101-109 | once the status-bar reference is cached it is never looked up or replaced again |
| ShakeGesture.ToggleRingerTransitions | services/core/java/org/blackiron/server/ShakeGestureService.java:219-237 | NORMAL goes to VIBRATE only with a vibrator; VIBRATE goes to NORMAL with the PRIORITY filter; SILENT goes to NORMAL; other modes stay |
| ShakeGesture.DispatchWakeLocks | services/core/java/org/blackiron/server/ShakeGestureService.java:126-195 | the wake-lock accounting of one dispatch: which actions create a lock and which of those stay held |
| ShakeGesture.OtherActionsKeepWakeLocks | services/core/java/org/blackiron/server/ShakeGestureService.java:126-156 | actions other than torch and screen leave the wake locks as they were |
| ShakeGesture.ShakeGestureService.constructor | services/core/java/org/blackiron/server/ShakeGestureService.java:64-76 | torch flag off, no screenshot callback, no cached status bar |
| ShakeGesture.ShakeGestureService.AcquireWakelock | services/core/java/org/blackiron/server/ShakeGestureService.java:197-202 | performs the acquire step and returns its handle |
| ShakeGesture.ShakeGestureService.ReleaseWakelock | services/core/java/org/blackiron/server/ShakeGestureService.java:204-208 | performs the release step |
| ShakeGesture.ShakeGestureService.ToggleFlashlight | services/core/java/org/blackiron/server/ShakeGestureService.java:158-170 | performs the torch toggle under its wake lock |
| ShakeGesture.ShakeGestureService.DispatchMediaKey | services/core/java/org/blackiron/server/ShakeGestureService.java:172-182 | sends the key's DOWN/UP pair through the media helper, if there is one |
| ShakeGesture.ShakeGestureService.TurnScreenOnOrOff | services/core/java/org/blackiron/server/ShakeGestureService.java:184-195 | performs the screen toggle |
| ShakeGesture.ShakeGestureService.GetStatusBarService | services/core/java/org/blackiron/server/ShakeGestureService.java:101-109 | returns the cached status bar, looking it up only while none is cached |
| ShakeGesture.ShakeGestureService.ClearAllNotifications | services/core/java/org/blackiron/server/ShakeGestureService.java:210-217 | clears notifications for the current user through the status bar, if it is there and answers |
| ShakeGesture.ShakeGestureService.ToggleRingerModes | services/core/java/org/blackiron/server/ShakeGestureService.java:219-237 | performs the ringer transition |
| ShakeGesture.ShakeGestureService.SetScreenshotCallback | services/core/java/org/blackiron/server/ShakeGestureService.java:239-241 | the last callback set replaces any earlier one and nothing else changes |
| ShakeGesture.ShakeGestureService.DoAction | services/core/java/org/blackiron/server/ShakeGestureService.java:126-156 | runs exactly the action the id selects |
| ShakeGesture.ShakeGestureService.OnShake | services/core/java/org/blackiron/server/ShakeGestureService.java:90-99 | runs the configured action only when shaking is enabled |
| ShakeGesture.ServiceInstance.GetInstance | services/core/java/org/blackiron/server/ShakeGestureService.java:78-83 | the first call creates the service; later calls return that same instance |
| StylusPower.RefreshShowsIff | packages/SystemUI/src/com/android/systemui/stylus/StylusUsiPowerUI.kt:74-88 | refresh posts exactly when not suppressed, no stylus is connected and capacity is at most 0.16; the notification shows the stored capacity |
| StylusPower.RefreshSuppression | packages/SystemUI/src/com/android/systemui/stylus/StylusUsiPowerUI.kt:81-86 | refresh clears the suppression exactly when capacity is above 0.16 and otherwise leaves it |
| StylusPower.RefreshIdempotent | packages/SystemUI/src/com/android/systemui/stylus/StylusUsiPowerUI.kt:74-88 | a second refresh with the same devices changes nothing |
| StylusPower.UnchangedUpdatesAreNoOps | packages/SystemUI/src/com/android/systemui/stylus/StylusUsiPowerUI.kt:90-114 | updating capacity or suppression to its stored value changes nothing |
| StylusPower.ConsistentPreserved | packages/SystemUI/src/com/android/systemui/stylus/StylusUsiPowerUI.kt:54-114 | the initial state and every refresh satisfy the invariant, and every update and broadcast keeps it: a high battery is never suppressed, and a posted notification is unsuppressed and low |
| StylusPower.ReceiveEffect | packages/SystemUI/src/com/android/systemui/stylus/StylusUsiPowerUI.kt:162-173 | dismiss and click cancel the notification and suppress it while the battery is low; other actions are ignored |
| StylusPower.SuppressedStaysHidden | packages/SystemUI/src/com/android/systemui/stylus/StylusUsiPowerUI.kt:90-97 | a suppressed notification stays hidden through further low readings |
| StylusPower.RechargeRearms | packages/SystemUI/src/com/android/systemui/stylus/StylusUsiPowerUI.kt:74-97 | a reading above the threshold clears the suppression, so the next low reading posts again |
| StylusPower.StylusUsiPowerUi.constructor | packages/SystemUI/src/com/android/systemui/stylus/StylusUsiPowerUI.kt:54-72 | capacity 1.0, not suppressed, nothing posted |
| StylusPower.StylusUsiPowerUi.HasConnectedBluetoothStylus | packages/SystemUI/src/com/android/systemui/stylus/StylusUsiPowerUI.kt:145-150 | true exactly when some input device supports SOURCE_STYLUS |
| StylusPower.StylusUsiPowerUi.IsBatteryBelowThreshold | packages/SystemUI/src/com/android/systemui/stylus/StylusUsiPowerUI.kt:141-143 | true exactly when the stored capacity is at or below the threshold of the state |
| StylusPower.StylusUsiPowerUi.Refresh | packages/SystemUI/src/com/android/systemui/stylus/StylusUsiPowerUI.kt:74-88 | performs the refresh rule |
| StylusPower.StylusUsiPowerUi.UpdateBatteryState | packages/SystemUI/src/com/android/systemui/stylus/StylusUsiPowerUI.kt:90-97 | performs the capacity update |
| StylusPower.StylusUsiPowerUi.UpdateSuppression | packages/SystemUI/src/com/android/systemui/stylus/StylusUsiPowerUI.kt:107-114 | performs the suppression update |
| StylusPower.StylusUsiPowerUi.OnReceive | packages/SystemUI/src/com/android/systemui/stylus/StylusUsiPowerUI.kt:162-173 | performs the broadcast rule |
| EmergencyText.IccCardExist | packages/SystemUI/src/com/android/systemui/statusbar/policy/EmergencyCryptkeeperText.java:84-94 | true exactly for the nine states from PIN_REQUIRED to LOADED; PRESENT is not among them |
| EmergencyText.LastQualifying | packages/SystemUI/src/com/android/systemui/statusbar/policy/EmergencyCryptkeeperText.java:107-120 | the name of the last subscription with an existing card and a nonempty name, and None exactly when there is none |
| EmergencyText.DisplayText | packages/SystemUI/src/com/android/systemui/statusbar/policy/EmergencyCryptkeeperText.java:96-145 | a qualifying carrier name is never empty; the text is null exactly without mobile service or when the fallback taken (first subscription's name, sticky PLMN extra) is null |
| EmergencyText.TextOf | packages/SystemUI/src/com/android/systemui/statusbar/policy/EmergencyCryptkeeperText.java:144-145 | the text set is empty exactly when the chosen text is null or empty |
| EmergencyText.NoMobileShowsNothing | packages/SystemUI/src/com/android/systemui/statusbar/policy/EmergencyCryptkeeperText.java:97-105 | without data capability or in airplane mode the text is null |
| EmergencyText.CarrierNameShown | packages/SystemUI/src/com/android/systemui/statusbar/policy/EmergencyCryptkeeperText.java:107-120 | when some subscription qualifies, the text is the name of a qualifying one with none after it |
| EmergencyText.FallbackShown | packages/SystemUI/src/com/android/systemui/statusbar/policy/EmergencyCryptkeeperText.java:121-142 | without a qualifying subscription: the first subscription's name, otherwise the sticky PLMN (even null), otherwise the emergency-calls string |
| EmergencyText.AbsentFirstCardStillNamed | packages/SystemUI/src/com/android/systemui/statusbar/policy/EmergencyCryptkeeperText.java:116-128 | when nothing qualifies, the first subscription is named even though its card is absent |
| EmergencyText.EmergencyCryptkeeperText.constructor | packages/SystemUI/src/com/android/systemui/statusbar/policy/EmergencyCryptkeeperText.java:60-63 | the view starts empty and gone |
| EmergencyText.EmergencyCryptkeeperText.Update | packages/SystemUI/src/com/android/systemui/statusbar/policy/EmergencyCryptkeeperText.java:96-146 | the text set is the selected text, and the view is visible exactly when it is nonempty |
| VolumeProgress.JavaDiv | packages/SystemUI/src/com/android/systemui/volume/VolumeProgressImageView.java:60 | Java `/` on int: Integer.MIN_VALUE / -1 wraps to Integer.MIN_VALUE; otherwise the quotient's magnitude is the quotient of the magnitudes and it is negative only for operands of opposite signs |
| VolumeProgress.JavaDivRemainder | packages/SystemUI/src/com/android/systemui/volume/VolumeProgressImageView.java:60 | outside the overflow, the remainder a - (a / b) * b is smaller than b in magnitude and is zero or has the sign of a |
| VolumeProgress.VolumePercent | packages/SystemUI/src/com/android/systemui/volume/VolumeProgressImageView.java:56-62 | a division error exactly when the maximum is 0 |
| VolumeProgress.PercentIsFloor | packages/SystemUI/src/com/android/systemui/volume/VolumeProgressImageView.java:60 | without overflow, the percent is floor(current * 100 / max) |
| VolumeProgress.PercentBounds | packages/SystemUI/src/com/android/systemui/volume/VolumeProgressImageView.java:60 | for 0 <= current <= max, when current * 100 fits in an int, the percent is in [0, 100], 0 when muted and 100 exactly at the maximum |
| VolumeProgress.PercentMonotone | packages/SystemUI/src/com/android/systemui/volume/VolumeProgressImageView.java:60 | for 0 <= c1 <= c2 <= max, when c2 * 100 fits in an int, a louder volume never gives a smaller percent |
| VolumeProgress.Label | packages/SystemUI/src/com/android/systemui/volume/VolumeProgressImageView.java:68 | the label ends in '%' and what precedes it reads back as the percent |
| VolumeProgress.Wrap32 | packages/SystemUI/src/com/android/systemui/volume/VolumeProgressImageView.java:60 | Java int wrap-around: congruent modulo 2^32 and the identity on int values |
| VolumeProgress.VolumeProgressImageView.constructor | packages/SystemUI/src/com/android/systemui/volume/VolumeProgressImageView.java:20 | the percent starts at 0 and nothing is drawn |
| VolumeProgress.VolumeProgressImageView.UpdateVolumePercent | packages/SystemUI/src/com/android/systemui/volume/VolumeProgressImageView.java:56-62 | a zero maximum throws and changes nothing; otherwise the field holds the percent and the label shows it |
| VolumeProgress.VolumeProgressImageView.UpdateImageView | packages/SystemUI/src/com/android/systemui/volume/VolumeProgressImageView.java:64-74 | the arc's label is the current percent followed by '%' |
| JavaStrings.ToLower | packages/SystemUI/src/com/android/systemui/lockscreen/LockScreenWidgets.java:273-291 | lower-cases each char and keeps the length |
| JavaStrings.Split | packages/SystemUI/src/com/android/systemui/lockscreen/LockScreenWidgets.java:292 | no piece holds the separator; without a separator the whole string is the one piece; no pieces exactly for a nonempty string of separators; the last piece is not empty; the first is empty iff the string starts with the separator |
| JavaStrings.Trim | packages/SystemUI/src/com/android/systemui/lockscreen/LockScreenWidgets.java:298 | the result sits in the string with only chars at most U+0020 around it, and its two ends are above U+0020 |
| JavaStrings.SplitJoin | packages/SystemUI/src/com/android/systemui/lockscreen/LockScreenWidgets.java:439-449 | split(",") gives back the words that were joined, when no word holds the separator and the last word is not empty |
| JavaStrings.TrimSpaced | packages/SystemUI/src/com/android/systemui/lockscreen/LockScreenWidgets.java:298 | trim removes the builder's trailing space and nothing else from printable text |
| JavaStrings.IntToString | packages/SystemUI/src/com/android/systemui/volume/VolumeProgressImageView.java:68 | a decimal with a minus sign exactly for negative values and no leading zero |
| JavaStrings.IntToStringRoundTrip | packages/SystemUI/src/com/android/systemui/volume/VolumeProgressImageView.java:68 | the decimal rendering of an int reads back as that int |
| LockScreenWidgets.RemoveDoubleQuotes | packages/SystemUI/src/com/android/systemui/lockscreen/LockScreenWidgets.java:970-977 | null maps to null; otherwise the result is the input or the input with one pair of surrounding quotes removed |
| LockScreenWidgets.QuotedRoundTrip | packages/SystemUI/src/com/android/systemui/lockscreen/LockScreenWidgets.java:970-977 | a quoted string loses exactly its surrounding pair of quotes |
| LockScreenWidgets.UnquotedKept | packages/SystemUI/src/com/android/systemui/lockscreen/LockScreenWidgets.java:970-977 | a string of length at most one, or not quoted at both ends, is returned unchanged |
| LockScreenWidgets.FirstMatch | packages/SystemUI/src/com/android/systemui/lockscreen/LockScreenWidgets.java:273-288 | the first condition in the given order whose keyword occurs, and None exactly when no keyword occurs |
| LockScreenWidgets.FirstKeywordDecides | packages/SystemUI/src/com/android/systemui/lockscreen/LockScreenWidgets.java:273-288 | the first keyword, in the order clouds, rain, clear, storm, snow, wind, mist, that the lower-cased condition contains selects the label |
| LockScreenWidgets.FormatWords | packages/SystemUI/src/com/android/systemui/lockscreen/LockScreenWidgets.java:291-299 | the StringBuilder loop yields the underscore format of the condition, or None when a word is empty and substring throws |
| LockScreenWidgets.SpacedWordsJoined | packages/SystemUI/src/com/android/systemui/lockscreen/LockScreenWidgets.java:293-298 | the builder holds the capitalized words joined by spaces plus one trailing space |
| LockScreenWidgets.TrimSpacedWords | packages/SystemUI/src/com/android/systemui/lockscreen/LockScreenWidgets.java:298 | after trim, the builder holds the capitalized words joined by single spaces |
| LockScreenWidgets.UnderscoreFormatJoined | packages/SystemUI/src/com/android/systemui/lockscreen/LockScreenWidgets.java:291-299 | for nonempty words joined by '_', the result is the same words capitalized and joined by spaces |
| LockScreenWidgets.FormatJoinedWords | packages/SystemUI/src/com/android/systemui/lockscreen/LockScreenWidgets.java:273-299 | a condition of underscore-joined words that matches no keyword becomes its capitalized words separated by single spaces |
| LockScreenWidgets.LeadingUnderscoreThrows | packages/SystemUI/src/com/android/systemui/lockscreen/LockScreenWidgets.java:291-314 | a text (after keyword replacement) that starts with '_' and holds some other char splits with an empty first word, so substring throws and no condition text results |
| LockScreenWidgets.UnderscoresOnlyFormatEmpty | packages/SystemUI/src/com/android/systemui/lockscreen/LockScreenWidgets.java:273-299 | a condition made of underscores only matches no keyword and splits into no words, so nothing throws and the condition text is empty |
| LockScreenWidgets.FormatWeatherCondition | packages/SystemUI/src/com/android/systemui/lockscreen/LockScreenWidgets.java:270-299 | the keyword replacement followed by the underscore loop yields exactly `FormatCondition` of the condition, None when the loop throws |
| LockScreenWidgets.KindNameRoundTrip | packages/SystemUI/src/com/android/systemui/lockscreen/LockScreenWidgets.java:551-632 | each widget kind is recognised by its type string, and a recognised string is that kind's name |
| LockScreenWidgets.ColorTableRelations | packages/SystemUI/src/com/android/systemui/lockscreen/LockScreenWidgets.java:690-699 | active: the mode's active background with the mode's base tint; inactive: the base background with the other mode's base tint |
| LockScreenWidgets.RingerToggleCycle | packages/SystemUI/src/com/android/systemui/lockscreen/LockScreenWidgets.java:844-854 | NORMAL goes to VIBRATE and every other mode to NORMAL; the toggle is undone by a second one on those two modes |
| LockScreenWidgets.ConfiguredSlotRules | packages/SystemUI/src/com/android/systemui/lockscreen/LockScreenWidgets.java:501-527 | found slots stay found; slot i is visible iff i < list size; only the first min(size, slots) are set up, with the inactive background and the listed kind; the rest keep kind and colours |
| LockScreenWidgets.RefsAfterWeather | packages/SystemUI/src/com/android/systemui/lockscreen/LockScreenWidgets.java:551-632 | the weather button after setup is the previous one or a found slot listed as "weather" |
| LockScreenWidgets.WeatherSlotUntinted | packages/SystemUI/src/com/android/systemui/lockscreen/LockScreenWidgets.java:700-716 | a slot set up as weather gets no icon tint; any other slot not already the weather button gets the foreground tint |
| LockScreenWidgets.PaintedTouchesOneButton | packages/SystemUI/src/com/android/systemui/lockscreen/LockScreenWidgets.java:856-878 | a repaint changes only the colours of the one button it names |
| LockScreenWidgets.MediaCaptionRules | packages/SystemUI/src/com/android/systemui/lockscreen/LockScreenWidgets.java:763-777 | the media caption is the track title while playing with a client or when a title is known; otherwise it is the play label |
| LockScreenWidgets.ContainerRules | packages/SystemUI/src/com/android/systemui/lockscreen/LockScreenWidgets.java:476-497 | the bar is shown iff not dozing, the setting is on and a container is shown; each container is shown iff its list string is nonempty |
| LockScreenWidgets.UpdateWidgetViewsRules | packages/SystemUI/src/com/android/systemui/lockscreen/LockScreenWidgets.java:499-531 | after inflation each main slot follows the slot rules; a found main slot listed as "weather" makes a weather button whose caption is the "weather data unavailable" label, and without one the caption stays; the containers follow the rules, and lists, dozing and platform stay unchanged |
| LockScreenWidgets.RefsAfterHasWeather | packages/SystemUI/src/com/android/systemui/lockscreen/LockScreenWidgets.java:620-626 | once a found slot is set up as "weather", a weather button stays recorded through the rest of the loop |
| LockScreenWidgets.TuningListRoundTrip | packages/SystemUI/src/com/android/systemui/lockscreen/LockScreenWidgets.java:436-455 | a comma-joined list is read back as its names; a null value keeps the old list; unknown keys change nothing |
| LockScreenWidgets.TuningBeforeInflation | packages/SystemUI/src/com/android/systemui/lockscreen/LockScreenWidgets.java:499-500 | before inflation a tuning change touches neither views nor containers |
| LockScreenWidgets.TuningAppliesSlotRules | packages/SystemUI/src/com/android/systemui/lockscreen/LockScreenWidgets.java:436-455 | after inflation every list change reapplies the slot and container rules to the new list |
| LockScreenWidgets.DetachKeepsWeather | packages/SystemUI/src/com/android/systemui/lockscreen/LockScreenWidgets.java:410-418 | weather updates keep running when either list string is null or either list names "weather" |
| LockScreenWidgets.DozingHidesBar | packages/SystemUI/src/com/android/systemui/lockscreen/LockScreenWidgets.java:323-329 | starting to doze hides the bar; repeating the current value changes nothing |
| LockScreenWidgets.PlaybackActiveIffPlaying | packages/SystemUI/src/com/android/systemui/lockscreen/LockScreenWidgets.java:457-474 | with a media button, media is active iff the state is PLAYING; without one, or when nothing changes, the state is left as it was |
| LockScreenWidgets.PlaybackRefreshIgnoresState | packages/SystemUI/src/com/android/systemui/lockscreen/LockScreenWidgets.java:373-376 | the one-argument update revives the client but keeps the active flag, so the info is current iff media was active |
| LockScreenWidgets.ClientLifecycle | packages/SystemUI/src/com/android/systemui/lockscreen/LockScreenWidgets.java:356-370 | a clearing client change expires the info; a later PLAYING update with a media button makes it current again |
| LockScreenWidgets.ToggleFlashlightRules | packages/SystemUI/src/com/android/systemui/lockscreen/LockScreenWidgets.java:808-815 | the flag flips only when a torch button exists and the call succeeds; otherwise nothing changes; two successful toggles restore it |
| LockScreenWidgets.RingerButtonShowsVibrate | packages/SystemUI/src/com/android/systemui/lockscreen/LockScreenWidgets.java:844-922 | after the toggle the mode is VIBRATE iff it was NORMAL; both ringer buttons show the active background exactly then, and the large one the matching text colour |
| LockScreenWidgets.WeatherCaptionUsesLabel | packages/SystemUI/src/com/android/systemui/lockscreen/LockScreenWidgets.java:264-310 | a matching keyword puts its label into the weather caption after the temperature and the bullet |
| LockScreenWidgets.ConfigureViews | packages/SystemUI/src/com/android/systemui/lockscreen/LockScreenWidgets.java:501-527 | the two loops over one view array give the configured slots and button fields, and report whether some found slot was set up as "weather" |
| LockScreenWidgets.FindViews | packages/SystemUI/src/com/android/systemui/lockscreen/LockScreenWidgets.java:421-430 | one slot per placeholder id, present when findViewById found it |
| LockScreenWidgets.Paint | packages/SystemUI/src/com/android/systemui/lockscreen/LockScreenWidgets.java:856-878 | applies the colours to the named button, if it was found |
| LockScreenWidgets.LockScreenWidgetsView.constructor | packages/SystemUI/src/com/android/systemui/lockscreen/LockScreenWidgets.java:190-232 | no lists, no views, the client lost, then the dozing listener runs with the initial state |
| LockScreenWidgets.LockScreenWidgetsView.UpdateContainerVisibility | packages/SystemUI/src/com/android/systemui/lockscreen/LockScreenWidgets.java:476-497 | performs the container rule |
| LockScreenWidgets.LockScreenWidgetsView.OnDozingChanged | packages/SystemUI/src/com/android/systemui/lockscreen/LockScreenWidgets.java:323-329 | performs the dozing rule |
| LockScreenWidgets.LockScreenWidgetsView.PaintButtons | packages/SystemUI/src/com/android/systemui/lockscreen/LockScreenWidgets.java:856-878 | repaints the large and small button of one kind |
| LockScreenWidgets.LockScreenWidgetsView.UpdateMediaState | packages/SystemUI/src/com/android/systemui/lockscreen/LockScreenWidgets.java:723-728 | repaints the media buttons and recaptions the large one |
| LockScreenWidgets.LockScreenWidgetsView.UpdateWidgetViews | packages/SystemUI/src/com/android/systemui/lockscreen/LockScreenWidgets.java:499-531 | does nothing before inflation; then runs both loops, writing the "weather data unavailable" caption when a main slot is set up as weather (LockScreenWidgets.java:620-627, 639), then the containers, then the media state |
| LockScreenWidgets.LockScreenWidgetsView.OnFinishInflate | packages/SystemUI/src/com/android/systemui/lockscreen/LockScreenWidgets.java:421-433 | finds the 2 + 4 placeholders, marks the view inflated and updates it |
| LockScreenWidgets.LockScreenWidgetsView.OnTuningChanged | packages/SystemUI/src/com/android/systemui/lockscreen/LockScreenWidgets.java:436-455 | performs the tuning rule |
| LockScreenWidgets.LockScreenWidgetsView.PlaybackStateUpdate | packages/SystemUI/src/com/android/systemui/lockscreen/LockScreenWidgets.java:457-474 | performs the playback rule |
| LockScreenWidgets.LockScreenWidgetsView.OnClientPlaybackStateUpdate | packages/SystemUI/src/com/android/systemui/lockscreen/LockScreenWidgets.java:366-370 | revives the client, then applies the playback rule |
| LockScreenWidgets.LockScreenWidgetsView.OnClientPlaybackStateRefresh | packages/SystemUI/src/com/android/systemui/lockscreen/LockScreenWidgets.java:373-376 | revives the client and repaints |
| LockScreenWidgets.LockScreenWidgetsView.OnClientChange | packages/SystemUI/src/com/android/systemui/lockscreen/LockScreenWidgets.java:356-363 | on a clearing change, forgets the title, stops and loses the client; either way it repaints |
| LockScreenWidgets.LockScreenWidgetsView.OnClientMetadataUpdate | packages/SystemUI/src/com/android/systemui/lockscreen/LockScreenWidgets.java:379-384 | adopts the reported title (the old one when none is reported), revives the client and repaints |
| LockScreenWidgets.LockScreenWidgetsView.IsInfoExpired | packages/SystemUI/src/com/android/systemui/lockscreen/LockScreenWidgets.java:719-721 | true iff media is inactive or the client is lost |
| LockScreenWidgets.LockScreenWidgetsView.ToggleFlashlight | packages/SystemUI/src/com/android/systemui/lockscreen/LockScreenWidgets.java:808-815 | performs the torch rule |
| LockScreenWidgets.LockScreenWidgetsView.OnFlashlightChanged | packages/SystemUI/src/com/android/systemui/lockscreen/LockScreenWidgets.java:336-339 | adopts the controller's state and repaints the torch buttons |
| LockScreenWidgets.LockScreenWidgetsView.OnFlashlightAvailabilityChanged | packages/SystemUI/src/com/android/systemui/lockscreen/LockScreenWidgets.java:346-349 | on only while the controller is enabled and available; repaints the torch buttons |
| LockScreenWidgets.LockScreenWidgetsView.ToggleRingerMode | packages/SystemUI/src/com/android/systemui/lockscreen/LockScreenWidgets.java:844-854 | performs the ringer toggle and repaints the ringer buttons |
| LockScreenWidgets.LockScreenWidgetsView.QueryAndUpdateWeather | packages/SystemUI/src/com/android/systemui/lockscreen/LockScreenWidgets.java:264-315 | stores the info; sets the caption when the condition formats and a large weather button exists; on a swallowed exception the caption is left as it was |

## Left out

- Sensor handling (the shake detector itself), `synchronized` blocks, broadcast-receiver and listener registration, and handler scheduling: posted and delayed work is taken to run at once, in order, and the second, delayed `updateMediaPlaybackState` of `updateMediaState` repeats the first.
- Toasts, dialogs, activity launches, notification building (with its formatted battery percent), icons, drawables, texts other than the media and weather captions, bitmaps of the volume arc, elevation and the swipe gesture of the media button.
- The wifi, mobile-data and Bluetooth tiles of the lock-screen widgets (their button fields and state updates), `weatherError`, the weather condition icon, and the observer registration done by `enableWeatherUpdates`/`disableWeatherUpdates`.
- LockScreenWidgets.LockScreenWidgetsView.UpdateWidgetViews: the weather query that setting up a "weather" slot starts is not part of this member; `QueryAndUpdateWeather` models that query as its own call. When the large slot that was the weather button is set up as another kind, its text becomes that kind's label; the model keeps only the weather caption and leaves it unchanged in that case.
- LockScreenWidgets.LockScreenWidgetsView.QueryAndUpdateWeather: the null icon tint it sets on the weather buttons is not modelled, and `isOmniJawsEnabled`, `queryWeather` and `getWeatherInfo` are inputs (an enabled flag and the returned info); a null temperature or unit, which Java would print as "null", is not modelled.
- LockScreenWidgets.LockScreenWidgetsView.constructor: the tuner's initial callbacks are separate `OnTuningChanged` calls, and the camera id lookup is folded into the success flag of `ToggleFlashlight`.
- LockScreenWidgets.LockScreenWidgetsView.UpdateContainerVisibility: the two container views are taken to exist (the source skips a container `findViewById` does not find).
- JavaStrings.ToLower: case mapping covers the ASCII letters only; the locale rules of `toLowerCase`/`toUpperCase` (and length-changing mappings) are not modelled.
- StylusPower.RefreshShowsIff: the battery capacity is an exact real compared with 0.16, not a 32-bit float.
- ShakeGesture.ShakeGestureService.TurnScreenOnOrOff: `goToSleep` and `wakeUp` take effect at once; their timestamps are not modelled.
- The Dagger modules and the rest of the repository are not part of this model.
