/** The carrier / emergency-calls text shown on the encryption screen. On every phone
    state change, carrier refresh or airplane-mode change the view recomputes its text
    from the telephony state: nothing without mobile data or in airplane mode, else the
    carrier name of the last subscription whose SIM card exists and whose carrier name is
    not empty, else the first
    subscription's carrier name, else the PLMN of the sticky service-providers broadcast
    or the "emergency calls only" string. It is shown exactly when the text is nonempty. */
module EmergencyText {
  import opened Platform

  /** TelephonyManager SIM states. */
  const SimStateUnknown: int := 0
  const SimStateAbsent: int := 1
  const SimStatePinRequired: int := 2
  const SimStatePukRequired: int := 3
  const SimStateNetworkLocked: int := 4
  const SimStateReady: int := 5
  const SimStateNotReady: int := 6
  const SimStatePermDisabled: int := 7
  const SimStateCardIoError: int := 8
  const SimStateCardRestricted: int := 9
  const SimStateLoaded: int := 10
  const SimStatePresent: int := 11

  /** Settings.Global.AIRPLANE_MODE_ON. */
  const AirplaneModeKey: string := "airplane_mode_on"

  /** iccCardExist: the nine states in which a card is in the slot, locked or not.
      SIM_STATE_PRESENT is not among them. */
  function IccCardExist(simState: int): (b: bool)
    ensures b <==> SimStatePinRequired <= simState <= SimStateLoaded
  {
    || simState == SimStatePinRequired
    || simState == SimStatePukRequired
    || simState == SimStateNetworkLocked
    || simState == SimStateReady
    || simState == SimStateNotReady
    || simState == SimStatePermDisabled
    || simState == SimStateCardIoError
    || simState == SimStateCardRestricted
    || simState == SimStateLoaded
  }

  /** A filtered subscription with the SIM state the keyguard monitor reports for it. */
  datatype Subscription = Subscription(subId: int, simState: int, carrierName: Option<string>)

  /** What update reads: whether the device is data capable, the global settings, the
      filtered subscriptions, the sticky broadcast (None when there is none; its PLMN
      extra may itself be null) and the localized "emergency calls only" text. */
  datatype Telephony = Telephony(
    dataCapable: bool,
    globalSettings: map<string, int>,
    subs: seq<Subscription>,
    stickyPlmn: Option<Option<string>>,
    emergencyCallsOnly: string)

  /** A subscription whose card exists and whose carrier name is not empty. */
  predicate Qualifies(sub: Subscription)
  {
    IccCardExist(sub.simState) && !IsEmpty(sub.carrierName)
  }

  predicate AnyQualifies(subs: seq<Subscription>)
  {
    exists i :: 0 <= i < |subs| && Qualifies(subs[i])
  }

  /** The carrier name of the last qualifying subscription, None when there is none. */
  function LastQualifying(subs: seq<Subscription>): (r: Option<string>)
    ensures r.Some? <==> AnyQualifies(subs)
    ensures r.Some? ==>
      exists i :: 0 <= i < |subs| && Qualifies(subs[i]) && subs[i].carrierName == r
        && forall j :: i < j < |subs| ==> !Qualifies(subs[j])
    decreases |subs|
  {
    if |subs| == 0 then None
    else if Qualifies(subs[|subs| - 1]) then subs[|subs| - 1].carrierName
    else LastQualifying(subs[..|subs| - 1])
  }

  predicate AirplaneMode(t: Telephony)
  {
    GetInt(t.globalSettings, AirplaneModeKey, 0) == 1
  }

  /** The CharSequence update passes to setText (None is null). A qualifying carrier
      name is never empty; the text is null only without mobile service, or when a
      fallback is itself null: the first subscription's name, or the sticky PLMN extra. */
  function DisplayText(t: Telephony): (r: Option<string>)
    ensures t.dataCapable && !AirplaneMode(t) && AnyQualifies(t.subs) ==> !IsEmpty(r)
    ensures r.None? <==>
      || !t.dataCapable || AirplaneMode(t)
      || (!AnyQualifies(t.subs) && |t.subs| != 0 && t.subs[0].carrierName.None?)
      || (!AnyQualifies(t.subs) && |t.subs| == 0 && t.stickyPlmn == Some(None))
  {
    if !t.dataCapable || AirplaneMode(t) then None
    else if AnyQualifies(t.subs) then LastQualifying(t.subs)
    else if |t.subs| != 0 then t.subs[0].carrierName
    else if t.stickyPlmn.Some? then t.stickyPlmn.value
    else Some(t.emergencyCallsOnly)
  }

  /** TextView.setText stores null as the empty text. */
  function TextOf(cs: Option<string>): (text: string)
    ensures text == [] <==> IsEmpty(cs)
  {
    if cs.Some? then cs.value else []
  }

  /** Without mobile data or in airplane mode there is nothing to show. */
  lemma NoMobileShowsNothing(t: Telephony)
    requires !t.dataCapable || GetInt(t.globalSettings, AirplaneModeKey, 0) == 1
    ensures DisplayText(t) == None
  {
  }

  /** With mobile data and airplane mode off, a subscription with an existing card and a
      carrier name wins, and among several the last one in the list does. */
  lemma CarrierNameShown(t: Telephony)
    requires t.dataCapable && GetInt(t.globalSettings, AirplaneModeKey, 0) != 1
    requires AnyQualifies(t.subs)
    ensures exists i ::
              && 0 <= i < |t.subs| && Qualifies(t.subs[i])
              && DisplayText(t) == t.subs[i].carrierName
              && forall j :: i < j < |t.subs| ==> !Qualifies(t.subs[j])
  {
  }

  /** With no qualifying subscription the fallbacks apply in order: the first
      subscription's carrier name, the sticky PLMN, the emergency string. */
  lemma FallbackShown(t: Telephony)
    requires t.dataCapable && GetInt(t.globalSettings, AirplaneModeKey, 0) != 1
    requires forall i :: 0 <= i < |t.subs| ==> !Qualifies(t.subs[i])
    ensures |t.subs| > 0 ==> DisplayText(t) == t.subs[0].carrierName
    ensures |t.subs| == 0 && t.stickyPlmn.Some? ==> DisplayText(t) == t.stickyPlmn.value
    ensures |t.subs| == 0 && t.stickyPlmn.None? ==> DisplayText(t) == Some(t.emergencyCallsOnly)
  {
  }

  /** When nothing qualifies, the first subscription is named even though its card is
      absent (and even though the loop skipped it for that reason). */
  lemma AbsentFirstCardStillNamed(t: Telephony)
    requires t.dataCapable && GetInt(t.globalSettings, AirplaneModeKey, 0) != 1
    requires forall i :: 0 <= i < |t.subs| ==> !Qualifies(t.subs[i])
    requires |t.subs| > 0 && t.subs[0].simState == SimStateAbsent
    ensures !IccCardExist(t.subs[0].simState)
    ensures DisplayText(t) == t.subs[0].carrierName
  {
  }

  class EmergencyCryptkeeperText {
    var text: string
    var visibility: Visibility

    constructor ()
      ensures text == [] && visibility == Gone
    {
      text := [];
      visibility := Gone;
    }

    /** update: the loop over the subscriptions keeps the last qualifying carrier name. */
    method Update(t: Telephony)
      modifies this
      ensures text == TextOf(DisplayText(t))
      ensures visibility == (if IsEmpty(DisplayText(t)) then Gone else Visible)
    {
      if !t.dataCapable || GetInt(t.globalSettings, AirplaneModeKey, 0) == 1 {
        text := TextOf(None);
        visibility := Gone;
        return;
      }
      var allSimsMissing := true;
      var displayText: Option<string> := None;
      var subs := t.subs;
      var n := |subs|;
      var i := 0;
      while i < n
        invariant 0 <= i <= n
        invariant allSimsMissing <==> !AnyQualifies(subs[..i])
        invariant displayText == LastQualifying(subs[..i])
      {
        assert subs[..i + 1][..i] == subs[..i];
        if IccCardExist(subs[i].simState) && !IsEmpty(subs[i].carrierName) {
          allSimsMissing := false;
          displayText := subs[i].carrierName;
        }
        i := i + 1;
      }
      assert subs[..n] == subs;
      if allSimsMissing {
        if n != 0 {
          displayText := subs[0].carrierName;
        } else {
          displayText := Some(t.emergencyCallsOnly);
          if t.stickyPlmn.Some? {
            displayText := t.stickyPlmn.value;
          }
        }
      }
      text := TextOf(displayText);
      visibility := if IsEmpty(displayText) then Gone else Visible;
    }
  }
}
