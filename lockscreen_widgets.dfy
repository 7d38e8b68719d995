/** The lock-screen widget bar: two large buttons (the main slots) and four small ones
    (the secondary slots), each showing the widget named at its position in a
    comma-separated tuner setting, plus the weather caption, the media button and the
    torch and ringer toggles. Handler work runs at once, in order. */
module LockScreenWidgets {
  import opened Platform
  import opened JavaStrings

  /** Tuner keys of the two comma-separated widget lists. */
  const MainWidgetsKey: string := "system:lockscreen_widgets"
  const SecondaryWidgetsKey: string := "system:lockscreen_widgets_extras"

  /** The user setting that switches the widget bar on. */
  const WidgetsEnabledKey: string := "lockscreen_widgets_enabled"

  /** The layout's placeholders: MAIN_WIDGETS_VIEW_IDS and WIDGETS_VIEW_IDS. */
  const MainSlotCount: nat := 2
  const SecondarySlotCount: nat := 4

  /** RemoteControlClient.PLAYSTATE_PLAYING. */
  const PlaystatePlaying: int := 3

  /** Configuration.UI_MODE_NIGHT_MASK and UI_MODE_NIGHT_YES. */
  const UiModeNightMask: bv32 := 0x30
  const UiModeNightYes: bv32 := 0x20

  // ---------------------------------------------------------------------------------
  // removeDoubleQuotes

  /** removeDoubleQuotes: one pair of surrounding double quotes is removed from a string
      longer than one char; anything else, null included, is returned as it is. */
  function RemoveDoubleQuotes(s: Option<string>): (r: Option<string>)
    ensures r.None? <==> s.None?
    ensures r.Some? ==> r.value == s.value || "\"" + r.value + "\"" == s.value
  {
    if s.None? then None
    else
      var t := s.value;
      if |t| > 1 && t[0] == '"' && t[|t| - 1] == '"' then Some(t[1..|t| - 1]) else s
  }

  /** A quoted SSID loses exactly its surrounding pair of quotes. */
  lemma QuotedRoundTrip(t: string)
    ensures RemoveDoubleQuotes(Some("\"" + t + "\"")) == Some(t)
  {
    var q := "\"" + t + "\"";
    assert q[1..|q| - 1] == t;
  }

  /** A string that does not both start and end with a quote, or is one char long, is
      kept. */
  lemma UnquotedKept(t: string)
    requires |t| <= 1 || t[0] != '"' || t[|t| - 1] != '"'
    ensures RemoveDoubleQuotes(Some(t)) == Some(t)
  {
  }

  // ---------------------------------------------------------------------------------
  // Weather condition

  /** The condition keywords of the OpenWeatherMap provider, in the order they are tried. */
  datatype Condition = Clouds | Rain | Clear | Storm | Snow | Wind | Mist

  function Keyword(c: Condition): string
  {
    match c
    case Clouds => "clouds"
    case Rain => "rain"
    case Clear => "clear"
    case Storm => "storm"
    case Snow => "snow"
    case Wind => "wind"
    case Mist => "mist"
  }

  const ConditionOrder: seq<Condition> := [Clouds, Rain, Clear, Storm, Snow, Wind, Mist]

  /** The first condition in `order` whose keyword occurs in `lower`. */
  function FirstMatch(lower: string, order: seq<Condition>): (r: Option<Condition>)
    ensures r.None? <==> forall k :: 0 <= k < |order| ==> !Contains(lower, Keyword(order[k]))
    ensures r.Some? ==>
      exists i :: 0 <= i < |order| && order[i] == r.value && Contains(lower, Keyword(order[i]))
        && forall j :: 0 <= j < i ==> !Contains(lower, Keyword(order[j]))
    decreases |order|
  {
    if |order| == 0 then None
    else if Contains(lower, Keyword(order[0])) then Some(order[0])
    else
      var r := FirstMatch(lower, order[1..]);
      assert forall k :: 1 <= k < |order| ==> order[k] == order[1..][k - 1];
      r
  }

  /** The lower-cased condition's first keyword selects its localized label
      (`labels`, the weather_condition_* strings); without one the condition is kept. */
  function KeywordReplaced(condition: string, labels: Condition -> string): string
  {
    match FirstMatch(ToLower(condition), ConditionOrder)
    case Some(c) => labels(c)
    case None => condition
  }

  /** The first keyword that occurs decides, whatever later keywords occur too. */
  lemma FirstKeywordDecides(condition: string, labels: Condition -> string, i: nat)
    requires i < |ConditionOrder|
    requires Contains(ToLower(condition), Keyword(ConditionOrder[i]))
    requires forall j :: 0 <= j < i ==> !Contains(ToLower(condition), Keyword(ConditionOrder[j]))
    ensures KeywordReplaced(condition, labels) == labels(ConditionOrder[i])
  {
    var r := FirstMatch(ToLower(condition), ConditionOrder);
    var i' :| 0 <= i' < |ConditionOrder| && ConditionOrder[i'] == r.value
      && Contains(ToLower(condition), Keyword(ConditionOrder[i']))
      && forall j :: 0 <= j < i' ==> !Contains(ToLower(condition), Keyword(ConditionOrder[j]));
    assert i' == i;
  }

  /** word.substring(0, 1).toUpperCase() + word.substring(1) on a nonempty word. */
  function Capitalize(w: string): string
    requires |w| > 0
  {
    [UpperChar(w[0])] + w[1..]
  }

  predicate NonEmptyWords(ws: seq<string>)
  {
    forall k :: 0 <= k < |ws| ==> |ws[k]| > 0
  }

  function Capitalized(ws: seq<string>): (r: seq<string>)
    requires NonEmptyWords(ws)
  {
    seq(|ws|, k requires 0 <= k < |ws| => Capitalize(ws[k]))
  }

  /** What the StringBuilder holds after the words: each capitalized word followed by a
      space. */
  function SpacedWords(ws: seq<string>): string
    requires NonEmptyWords(ws)
    decreases |ws|
  {
    if |ws| == 0 then [] else Capitalize(ws[0]) + " " + SpacedWords(ws[1..])
  }

  lemma {:induction false} SpacedWordsAppend(ws: seq<string>, w: string)
    requires NonEmptyWords(ws) && |w| > 0
    ensures NonEmptyWords(ws + [w])
    ensures SpacedWords(ws + [w]) == SpacedWords(ws) + Capitalize(w) + " "
    decreases |ws|
  {
    assert NonEmptyWords(ws + [w]);
    if |ws| == 0 {
      assert ws + [w] == [w];
      assert [w][1..] == [];
    } else {
      assert (ws + [w])[1..] == ws[1..] + [w];
      SpacedWordsAppend(ws[1..], w);
      assert (ws + [w])[0] == ws[0];
    }
  }

  /** The words of a condition split at '_' formatted as the builder loop does; None when
      a word is empty, where substring throws and the exception is swallowed. */
  function UnderscoreFormat(f: string): Option<string>
  {
    var ws := Split(f, '_');
    if NonEmptyWords(ws) then Some(Trim(SpacedWords(ws))) else None
  }

  /** The condition text shown after the temperature; None when formatting throws (a
      null condition, or an empty word around an underscore). */
  function FormatCondition(condition: Option<string>, labels: Condition -> string): Option<string>
  {
    if condition.None? then None
    else
      var f := KeywordReplaced(condition.value, labels);
      if Contains(ToLower(f), "_") then UnderscoreFormat(f) else Some(f)
  }

  /** The MET Norway branch: the StringBuilder loop over the words of `f` split at '_'. */
  method FormatWords(f: string) returns (r: Option<string>)
    ensures r == UnderscoreFormat(f)
  {
    var words := Split(f, '_');
    var builder: string := [];
    var i := 0;
    while i < |words|
      invariant 0 <= i <= |words|
      invariant NonEmptyWords(words[..i])
      invariant builder == SpacedWords(words[..i])
    {
      if |words[i]| == 0 {
        assert !NonEmptyWords(words);
        return None;
      }
      SpacedWordsAppend(words[..i], words[i]);
      assert words[..i + 1] == words[..i] + [words[i]];
      builder := builder + Capitalize(words[i]) + " ";
      i := i + 1;
    }
    assert words[..i] == words;
    return Some(Trim(builder));
  }

  /** The condition text of queryAndUpdateWeather: the keyword replacement, then the
      underscore loop when the text holds '_'; None when that loop throws. */
  method FormatWeatherCondition(condition: string, labels: Condition -> string) returns (r: Option<string>)
    ensures r == FormatCondition(Some(condition), labels)
  {
    var formatted := KeywordReplaced(condition, labels);
    if Contains(ToLower(formatted), "_") {
      r := FormatWords(formatted);
    } else {
      r := Some(formatted);
    }
  }

  /** The separator-joined words, capitalized and spaced: the builder's contents. */
  lemma {:induction false} SpacedWordsJoined(ws: seq<string>)
    requires |ws| >= 1 && NonEmptyWords(ws)
    ensures SpacedWords(ws) == Join(Capitalized(ws), " ") + " "
    decreases |ws|
  {
    if |ws| >= 2 {
      SpacedWordsJoined(ws[1..]);
      assert Capitalized(ws)[1..] == Capitalized(ws[1..]);
    }
  }

  lemma JoinFirstChar(ws: seq<string>, sep: string)
    requires |ws| >= 1 && |ws[0]| > 0
    ensures |Join(ws, sep)| > 0 && Join(ws, sep)[0] == ws[0][0]
  {
  }

  lemma {:induction false} JoinLastChar(ws: seq<string>, sep: string)
    requires |ws| >= 1 && |ws[|ws| - 1]| > 0
    ensures |Join(ws, sep)| > 0
    ensures Join(ws, sep)[|Join(ws, sep)| - 1] == ws[|ws| - 1][|ws[|ws| - 1]| - 1]
    decreases |ws|
  {
    if |ws| >= 2 {
      JoinLastChar(ws[1..], sep);
    }
  }

  /** A word of printable chars stays printable at both ends when capitalized. */
  lemma CapitalizePrintable(w: string)
    requires |w| > 0 && forall j :: 0 <= j < |w| ==> w[j] > ' '
    ensures |Capitalize(w)| == |w|
    ensures Capitalize(w)[0] > ' ' && Capitalize(w)[|w| - 1] > ' '
  {
  }

  /** Words of printable chars: the spaced builder contents trim to the words joined
      by single spaces. */
  lemma TrimSpacedWords(ws: seq<string>)
    requires |ws| >= 1 && NonEmptyWords(ws)
    requires forall k, j :: 0 <= k < |ws| && 0 <= j < |ws[k]| ==> ws[k][j] > ' '
    ensures Trim(SpacedWords(ws)) == Join(Capitalized(ws), " ")
  {
    SpacedWordsJoined(ws);
    var caps := Capitalized(ws);
    CapitalizePrintable(ws[0]);
    CapitalizePrintable(ws[|ws| - 1]);
    JoinFirstChar(caps, " ");
    JoinLastChar(caps, " ");
    TrimSpaced(Join(caps, " "));
  }

  /** The underscore branch undoes a join at '_' of nonempty words. */
  lemma UnderscoreFormatJoined(ws: seq<string>)
    requires |ws| >= 2 && NonEmptyWords(ws)
    requires forall k :: 0 <= k < |ws| ==> '_' !in ws[k]
    requires forall k, j :: 0 <= k < |ws| && 0 <= j < |ws[k]| ==> ws[k][j] > ' '
    ensures UnderscoreFormat(Join(ws, "_")) == Some(Join(Capitalized(ws), " "))
  {
    SplitJoin(ws, '_');
    TrimSpacedWords(ws);
  }

  /** ToLower keeps an underscore where it is. */
  lemma LowerKeepsUnderscore(f: string, p: nat)
    requires p < |f| && f[p] == '_'
    ensures Contains(ToLower(f), "_")
  {
    assert ToLower(f)[p] == '_';
    ContainsChar(ToLower(f), '_');
  }

  /** MET Norway conditions such as "partly_cloudy_night": words of printable chars joined
      by '_' that match no keyword become their capitalized words joined by single
      spaces, with nothing trailing. */
  lemma FormatJoinedWords(ws: seq<string>, labels: Condition -> string)
    requires |ws| >= 2 && NonEmptyWords(ws)
    requires forall k :: 0 <= k < |ws| ==> '_' !in ws[k]
    requires forall k, j :: 0 <= k < |ws| && 0 <= j < |ws[k]| ==> ws[k][j] > ' '
    requires FirstMatch(ToLower(Join(ws, "_")), ConditionOrder).None?
    ensures FormatCondition(Some(Join(ws, "_")), labels) == Some(Join(Capitalized(ws), " "))
  {
    var f := Join(ws, "_");
    assert KeywordReplaced(f, labels) == f;
    JoinHasSeparator(ws, '_');
    var p :| 0 <= p < |f| && f[p] == '_';
    LowerKeepsUnderscore(f, p);
    UnderscoreFormatJoined(ws);
  }


  /** A text (after keyword replacement) that starts with '_' and holds some other char
      splits with an empty first word: substring throws and formatting fails. */
  lemma LeadingUnderscoreThrows(condition: string, labels: Condition -> string)
    requires var f := KeywordReplaced(condition, labels);
      |f| > 0 && f[0] == '_' && exists p :: 0 <= p < |f| && f[p] != '_'
    ensures FormatCondition(Some(condition), labels) == None
  {
    var f := KeywordReplaced(condition, labels);
    LowerKeepsUnderscore(f, 0);
    var ws := Split(f, '_');
    assert '_' in f;
    assert |ws| > 0;
    assert ws[0] == [];
  }

  /** A condition made of underscores only splits into no words at all (String.split
      drops every trailing empty string): nothing throws and the condition becomes
      empty. */
  lemma UnderscoresOnlyFormatEmpty(condition: string, labels: Condition -> string)
    requires |condition| > 0 && forall i :: 0 <= i < |condition| ==> condition[i] == '_'
    ensures FormatCondition(Some(condition), labels) == Some("")
  {
    var lower := ToLower(condition);
    forall k | 0 <= k < |ConditionOrder|
      ensures !Contains(lower, Keyword(ConditionOrder[k]))
    {
      if Contains(lower, Keyword(ConditionOrder[k])) {
        ContainsFirstChar(lower, Keyword(ConditionOrder[k]));
        assert false;
      }
    }
    assert KeywordReplaced(condition, labels) == condition;
    LowerKeepsUnderscore(condition, 0);
    assert Split(condition, '_') == [];
  }

  /** Weather data from the provider; a null condition is None. */
  datatype WeatherInfo = WeatherInfo(temp: string, tempUnits: string, condition: Option<string>)

  /** The weather button's text: temperature, units, a bullet and the condition. */
  function WeatherCaption(info: WeatherInfo, condition: string): string
  {
    info.temp + info.tempUnits + " • " + condition
  }

  // ---------------------------------------------------------------------------------
  // Widget kinds, colours and the small state rules

  /** The widget types setUpWidgetWiews knows. */
  datatype WidgetKind = Wifi | Data | Ringer | Bluetooth | Torch | Timer | Calculator | Media | Weather

  function KindName(k: WidgetKind): string
  {
    match k
    case Wifi => "wifi"
    case Data => "data"
    case Ringer => "ringer"
    case Bluetooth => "bt"
    case Torch => "torch"
    case Timer => "timer"
    case Calculator => "calculator"
    case Media => "media"
    case Weather => "weather"
  }

  /** The switch of setUpWidgetWiews: a known type string names its kind; any other
      string is ignored. */
  function KindOf(t: string): Option<WidgetKind>
  {
    if t == "wifi" then Some(Wifi)
    else if t == "data" then Some(Data)
    else if t == "ringer" then Some(Ringer)
    else if t == "bt" then Some(Bluetooth)
    else if t == "torch" then Some(Torch)
    else if t == "timer" then Some(Timer)
    else if t == "calculator" then Some(Calculator)
    else if t == "media" then Some(Media)
    else if t == "weather" then Some(Weather)
    else None
  }

  /** Every kind is recognised by its name, and only by it. */
  lemma KindNameRoundTrip(k: WidgetKind, t: string)
    ensures KindOf(KindName(k)) == Some(k)
    ensures KindOf(t).Some? ==> KindName(KindOf(t).value) == t
  {
  }

  /** The four theme colours read at construction. */
  datatype Palette = Palette(dark: int, darkActive: int, light: int, lightActive: int)

  /** isNightMode: the night bits of the configuration's ui mode say "night". */
  predicate IsNightMode(uiMode: bv32)
  {
    uiMode & UiModeNightMask == UiModeNightYes
  }

  /** The colour choice of setButtonActiveState: (background tint, foreground tint). */
  function ColorTable(active: bool, night: bool, p: Palette): (int, int)
  {
    if active then
      (if night then p.darkActive else p.lightActive, if night then p.dark else p.light)
    else
      (if night then p.dark else p.light, if night then p.light else p.dark)
  }

  /** An active button's foreground is the inactive background of the same mode; an
      inactive button's foreground is the inactive background of the other mode; the
      active background is the mode's active colour. */
  lemma ColorTableRelations(night: bool, p: Palette)
    ensures ColorTable(true, night, p).1 == ColorTable(false, night, p).0
    ensures ColorTable(false, night, p).1 == ColorTable(false, !night, p).0
    ensures ColorTable(true, night, p).0 == (if night then p.darkActive else p.lightActive)
    ensures ColorTable(false, night, p).0 == (if night then p.dark else p.light)
  {
  }

  /** What setButtonActiveState leaves on one button: the background tint, the icon
      tint (null on the weather button) and, on the large buttons, the text colour. */
  datatype ButtonColors = ButtonColors(background: int, tint: Option<int>, textColor: Option<int>)

  function StateColors(active: bool, night: bool, p: Palette, large: bool, isWeatherButton: bool): ButtonColors
  {
    var (bg, fg) := ColorTable(active, night, p);
    ButtonColors(bg, if isWeatherButton then None else Some(fg), if large then Some(fg) else None)
  }

  /** toggleRingerMode: normal goes to vibrate, every other mode to normal. */
  function RingerToggle(mode: int): int
  {
    if mode == RingerNormal then RingerVibrate else RingerNormal
  }

  /** The toggle lands in normal or vibrate, leaves silent for normal, and is an
      involution on those two modes. */
  lemma RingerToggleCycle(mode: int)
    ensures RingerToggle(mode) == RingerNormal || RingerToggle(mode) == RingerVibrate
    ensures RingerToggle(mode) == RingerVibrate <==> mode == RingerNormal
    ensures mode == RingerNormal || mode == RingerVibrate ==> RingerToggle(RingerToggle(mode)) == mode
  {
  }

  // ---------------------------------------------------------------------------------
  // State

  /** One placeholder view: Absent when findViewById found nothing. A found view has a
      visibility, the kind it was last set up as and the colours last applied. */
  datatype Slot = Absent | Present(visibility: Visibility, kind: Option<WidgetKind>, colors: Option<ButtonColors>)

  /** The button fields (torchButton, mediaButton, weatherButton, ringerButton and
      their large twins) as slot indexes; once set they are never cleared. */
  datatype Refs = Refs(torch: Option<nat>, media: Option<nat>, weather: Option<nat>, ringer: Option<nat>)

  const NoRefs: Refs := Refs(None, None, None, None)

  function NoteRef(refs: Refs, kind: Option<WidgetKind>, i: nat): Refs
  {
    match kind
    case Some(Torch) => refs.(torch := Some(i))
    case Some(Media) => refs.(media := Some(i))
    case Some(Weather) => refs.(weather := Some(i))
    case Some(Ringer) => refs.(ringer := Some(i))
    case _ => refs
  }

  /** The platform state the widgets read: settings, the ui mode, the theme colours, the
      audio manager's ringer mode (and whether there is an audio manager), the "play"
      label and the "weather data unavailable" label. */
  datatype Env = Env(
    settings: map<string, int>,
    uiMode: bv32,
    palette: Palette,
    hasAudioManager: bool,
    ringerMode: int,
    playLabel: string,
    weatherUnavailableLabel: string)

  datatype Tuning = Tuning(mainList: Option<string>, secondaryList: Option<string>,
                           mainWidgets: seq<string>, secondaryWidgets: seq<string>)

  datatype Views = Views(inflated: bool, main: seq<Slot>, secondary: seq<Slot>, mainRefs: Refs, secondaryRefs: Refs)

  /** mMediaActive, mClientLost, the metadata's track title and the media button's
      caption. */
  datatype MediaState = MediaState(active: bool, clientLost: bool, trackTitle: Option<string>, caption: Option<string>)

  /** The whole bar and its two containers. */
  datatype Containers = Containers(whole: Visibility, main: Visibility, secondary: Visibility)

  datatype Widgets = Widgets(
    tuning: Tuning,
    views: Views,
    isFlashOn: bool,
    media: MediaState,
    dozing: bool,
    containers: Containers,
    weatherInfo: Option<WeatherInfo>,
    weatherCaption: Option<string>,
    env: Env)

  // ---------------------------------------------------------------------------------
  // updateWidgetViews

  /** First loop: a found slot is visible exactly when the list has a widget for it. */
  function SlotShown(s: Slot, i: nat, n: nat): Slot
  {
    if s.Present? then s.(visibility := if i < n then Visible else Gone) else s
  }

  /** setUpWidgetWiews followed by the inactive colours. */
  function SetUpSlot(s: Slot, kind: Option<WidgetKind>, colors: ButtonColors): Slot
    requires s.Present?
  {
    s.(kind := if kind.Some? then kind else s.kind, colors := Some(colors))
  }

  function Min(a: nat, b: nat): nat
  {
    if a < b then a else b
  }

  /** The button fields after the second loop has set up slots 0 .. k-1. */
  function RefsAfter(refs: Refs, slots: seq<Slot>, list: seq<string>, k: nat): Refs
    requires k <= |slots| && k <= |list|
    decreases k
  {
    if k == 0 then refs
    else
      var r := RefsAfter(refs, slots, list, k - 1);
      if slots[k - 1].Present? then NoteRef(r, KindOf(list[k - 1]), k - 1) else r
  }

  /** Some found main slot is listed as "weather": setting it up writes the "weather
      data unavailable" label on its large button. */
  predicate SetsUpWeather(slots: seq<Slot>, list: seq<string>)
  {
    exists i :: 0 <= i < |slots| && i < |list| && slots[i].Present? && KindOf(list[i]) == Some(Weather)
  }

  /** Slot i after both loops: shown or hidden, then, if listed and found, set up with
      the inactive colours, untinted when it is the weather button at that moment. */
  function ConfiguredSlot(slots: seq<Slot>, list: seq<string>, refs: Refs, i: nat, large: bool, night: bool, p: Palette): Slot
    requires i < |slots|
  {
    var s := SlotShown(slots[i], i, |list|);
    if i < |list| && s.Present? then
      SetUpSlot(s, KindOf(list[i]), StateColors(false, night, p, large, RefsAfter(refs, slots, list, i + 1).weather == Some(i)))
    else s
  }

  function ConfiguredSlots(slots: seq<Slot>, list: seq<string>, refs: Refs, large: bool, night: bool, p: Palette): seq<Slot>
  {
    seq(|slots|, i requires 0 <= i < |slots| => ConfiguredSlot(slots, list, refs, i, large, night, p))
  }

  /** Slot i is visible iff i < list size; only the first min(size, slots) found slots
      are set up, with the inactive background of the current mode and the listed kind
      when it is known; the others keep their kind and colours. */
  lemma ConfiguredSlotRules(slots: seq<Slot>, list: seq<string>, refs: Refs, large: bool, night: bool, p: Palette, i: nat)
    requires i < |slots|
    ensures var s' := ConfiguredSlots(slots, list, refs, large, night, p)[i];
      && |ConfiguredSlots(slots, list, refs, large, night, p)| == |slots|
      && (s'.Present? <==> slots[i].Present?)
      && (s'.Present? ==> (s'.visibility == Visible <==> i < |list|))
      && (s'.Present? && i >= |list| ==> s'.kind == slots[i].kind && s'.colors == slots[i].colors)
      && (s'.Present? && i < |list| ==>
            s'.colors.Some? && s'.colors.value.background == ColorTable(false, night, p).0
            && (KindOf(list[i]).Some? ==> s'.kind == KindOf(list[i])))
  {
  }

  /** The weather button recorded after the first k slots is the incoming one or a
      found slot below k that was listed as "weather". */
  lemma {:induction false} RefsAfterWeather(refs: Refs, slots: seq<Slot>, list: seq<string>, k: nat)
    requires k <= |slots| && k <= |list|
    ensures var w := RefsAfter(refs, slots, list, k).weather;
      w == refs.weather || (w.Some? && w.value < k && slots[w.value].Present? && KindOf(list[w.value]) == Some(Weather))
    decreases k
  {
    if k > 0 {
      RefsAfterWeather(refs, slots, list, k - 1);
    }
  }

  /** A slot set up as "weather" has no icon tint; a slot set up as anything else has
      the foreground colour unless it was already the weather button. */
  lemma WeatherSlotUntinted(slots: seq<Slot>, list: seq<string>, refs: Refs, large: bool, night: bool, p: Palette, i: nat)
    requires i < |slots| && i < |list| && slots[i].Present?
    ensures var s' := ConfiguredSlots(slots, list, refs, large, night, p)[i];
      && (KindOf(list[i]) == Some(Weather) ==> s'.colors.value.tint.None?)
      && (KindOf(list[i]) != Some(Weather) && refs.weather != Some(i) ==>
            s'.colors.value.tint == Some(ColorTable(false, night, p).1))
  {
    RefsAfterWeather(refs, slots, list, i);
  }

  /** The current weather, media, torch or ringer button gets the colours for `active`. */
  function Painted(slots: seq<Slot>, at: Option<nat>, colors: ButtonColors): (r: seq<Slot>)
  {
    if at.Some? && at.value < |slots| && slots[at.value].Present? then
      slots[at.value := slots[at.value].(colors := Some(colors))]
    else slots
  }

  /** Painting touches the one button and only its colours. */
  lemma PaintedTouchesOneButton(slots: seq<Slot>, at: Option<nat>, colors: ButtonColors, i: nat)
    requires i < |slots|
    ensures |Painted(slots, at, colors)| == |slots|
    ensures at != Some(i) ==> Painted(slots, at, colors)[i] == slots[i]
    ensures at == Some(i) && slots[i].Present? ==> Painted(slots, at, colors)[i] == slots[i].(colors := Some(colors))
  {
  }

  function Night(w: Widgets): bool
  {
    IsNightMode(w.env.uiMode)
  }

  /** updateTileButtonState for one pair of buttons (large, small). */
  function ButtonsPainted(w: Widgets, mainAt: Option<nat>, secondaryAt: Option<nat>, active: bool): Widgets
  {
    var v := w.views;
    w.(views := v.(
      main := Painted(v.main, mainAt, StateColors(active, Night(w), w.env.palette, true, v.mainRefs.weather == mainAt)),
      secondary := Painted(v.secondary, secondaryAt, StateColors(active, Night(w), w.env.palette, false, v.secondaryRefs.weather == secondaryAt))))
  }

  /** isInfoExpired. */
  predicate InfoExpired(m: MediaState)
  {
    !m.active || m.clientLost
  }

  /** The media button's caption: the track title while the info is current or a title
      is known, else the play label. */
  function MediaCaption(m: MediaState, playLabel: string): Option<string>
  {
    if !InfoExpired(m) || m.trackTitle.Some? then m.trackTitle else Some(playLabel)
  }

  /** Playing with a live client shows the title (even a null one); otherwise the title
      when known and the play label when not. */
  lemma MediaCaptionRules(m: MediaState, playLabel: string)
    ensures m.active && !m.clientLost ==> MediaCaption(m, playLabel) == m.trackTitle
    ensures m.trackTitle.Some? ==> MediaCaption(m, playLabel) == m.trackTitle
    ensures MediaCaption(m, playLabel) == Some(playLabel) <==>
      (m.trackTitle == Some(playLabel) || (m.trackTitle.None? && (!m.active || m.clientLost)))
  {
  }

  /** updateMediaState: both media buttons painted active iff media is active, and the
      large one captioned. */
  function AfterUpdateMediaState(w: Widgets): Widgets
  {
    var w' := ButtonsPainted(w, w.views.mainRefs.media, w.views.secondaryRefs.media, w.media.active);
    if w.views.mainRefs.media.Some? then
      w'.(media := w.media.(caption := MediaCaption(w.media, w.env.playLabel)))
    else w'
  }

  function VisibleUnless(hidden: bool): Visibility
  {
    if hidden then Gone else Visible
  }

  /** updateContainerVisibility. */
  function ContainersFor(t: Tuning, dozing: bool, settings: map<string, int>): Containers
  {
    var mainEmpty := IsEmpty(t.mainList);
    var secondaryEmpty := IsEmpty(t.secondaryList);
    var hidden := (mainEmpty && secondaryEmpty) || dozing || GetInt(settings, WidgetsEnabledKey, 0) == 0;
    Containers(VisibleUnless(hidden), VisibleUnless(mainEmpty), VisibleUnless(secondaryEmpty))
  }

  function AfterUpdateContainerVisibility(w: Widgets): Widgets
  {
    w.(containers := ContainersFor(w.tuning, w.dozing, w.env.settings))
  }

  /** The bar is shown exactly when the device is awake, the setting is on and at least
      one of the two containers is shown; a container is shown exactly when its list
      string is nonempty. */
  lemma ContainerRules(t: Tuning, dozing: bool, settings: map<string, int>)
    ensures var c := ContainersFor(t, dozing, settings);
      && (c.whole == Visible <==>
            !dozing && GetInt(settings, WidgetsEnabledKey, 0) != 0 && (c.main == Visible || c.secondary == Visible))
      && (c.main == Visible <==> t.mainList.Some? && |t.mainList.value| > 0)
      && (c.secondary == Visible <==> t.secondaryList.Some? && |t.secondaryList.value| > 0)
  {
  }

  /** Both arrays after the two loops of updateWidgetViews. */
  function ConfiguredViews(v: Views, t: Tuning, night: bool, p: Palette): Views
  {
    v.(main := ConfiguredSlots(v.main, t.mainWidgets, v.mainRefs, true, night, p),
       mainRefs := RefsAfter(v.mainRefs, v.main, t.mainWidgets, Min(|t.mainWidgets|, |v.main|)),
       secondary := ConfiguredSlots(v.secondary, t.secondaryWidgets, v.secondaryRefs, false, night, p),
       secondaryRefs := RefsAfter(v.secondaryRefs, v.secondary, t.secondaryWidgets, Min(|t.secondaryWidgets|, |v.secondary|)))
  }

  /** updateWidgetViews: nothing before inflation; then both loops, the containers and
      the media buttons. */
  function AfterUpdateWidgetViews(w: Widgets): Widgets
  {
    if !w.views.inflated then w
    else
      var caption := if SetsUpWeather(w.views.main, w.tuning.mainWidgets) then Some(w.env.weatherUnavailableLabel)
                     else w.weatherCaption;
      var w1 := w.(views := ConfiguredViews(w.views, w.tuning, Night(w), w.env.palette), weatherCaption := caption);
      AfterUpdateMediaState(AfterUpdateContainerVisibility(w1))
  }

  /** Painting changes colours only: which slots exist and their visibility stay. */
  lemma PaintedKeepsSlots(slots: seq<Slot>, at: Option<nat>, colors: ButtonColors)
    ensures |Painted(slots, at, colors)| == |slots|
    ensures forall i :: 0 <= i < |slots| ==>
      Painted(slots, at, colors)[i].Present? == slots[i].Present?
      && (slots[i].Present? ==> Painted(slots, at, colors)[i].visibility == slots[i].visibility)
  {
  }

  /** Once a found slot below k is listed as "weather", there is a weather button
      after the first k slots. */
  lemma {:induction false} RefsAfterHasWeather(refs: Refs, slots: seq<Slot>, list: seq<string>, k: nat, i: nat)
    requires k <= |slots| && k <= |list| && i < k
    requires slots[i].Present? && KindOf(list[i]) == Some(Weather)
    ensures RefsAfter(refs, slots, list, k).weather.Some?
    decreases k
  {
    if i < k - 1 {
      RefsAfterHasWeather(refs, slots, list, k - 1, i);
    }
  }

  /** updateWidgetViews after inflation: each main slot obeys the slot rules, the
      containers follow the lists and the setting, and the lists, the flags and the
      platform state stay. A found main slot listed as "weather" becomes a weather
      button captioned with the "weather data unavailable" label; without such a slot
      the weather caption stays. */
  lemma UpdateWidgetViewsRules(w: Widgets, i: nat)
    requires w.views.inflated && i < |w.views.main|
    ensures var w' := AfterUpdateWidgetViews(w);
      && |w'.views.main| == |w.views.main|
      && (w'.views.main[i].Present? <==> w.views.main[i].Present?)
      && (w'.views.main[i].Present? ==> (w'.views.main[i].visibility == Visible <==> i < |w.tuning.mainWidgets|))
      && (w.views.main[i].Present? && i < |w.tuning.mainWidgets| && KindOf(w.tuning.mainWidgets[i]) == Some(Weather) ==>
            w'.views.mainRefs.weather.Some? && w'.weatherCaption == Some(w.env.weatherUnavailableLabel))
      && (w'.weatherCaption != w.weatherCaption ==>
            w'.weatherCaption == Some(w.env.weatherUnavailableLabel) && SetsUpWeather(w.views.main, w.tuning.mainWidgets))
      && w'.containers == ContainersFor(w.tuning, w.dozing, w.env.settings)
      && w'.tuning == w.tuning && w'.dozing == w.dozing && w'.env == w.env
  {
    var v1 := ConfiguredViews(w.views, w.tuning, Night(w), w.env.palette);
    ConfiguredSlotRules(w.views.main, w.tuning.mainWidgets, w.views.mainRefs, true, Night(w), w.env.palette, i);
    if w.views.main[i].Present? && i < |w.tuning.mainWidgets| && KindOf(w.tuning.mainWidgets[i]) == Some(Weather) {
      RefsAfterHasWeather(w.views.mainRefs, w.views.main, w.tuning.mainWidgets,
        Min(|w.tuning.mainWidgets|, |w.views.main|), i);
    }
    PaintedKeepsSlots(v1.main, v1.mainRefs.media,
      StateColors(w.media.active, Night(w), w.env.palette, true, v1.mainRefs.weather == v1.mainRefs.media));
  }

  /** updateWidgetViews never changes the lists. */
  lemma UpdateWidgetViewsKeepsTuning(w: Widgets)
    ensures AfterUpdateWidgetViews(w).tuning == w.tuning
  {
  }

  /** onTuningChanged: a known key stores the raw value and, when it is not null, its
      comma split as the list, then updates the views; other keys are ignored. */
  function AfterTuningChanged(w: Widgets, key: string, value: Option<string>): Widgets
  {
    var t := w.tuning;
    if key == MainWidgetsKey then
      AfterUpdateWidgetViews(w.(tuning := t.(mainList := value,
        mainWidgets := if value.Some? then Split(value.value, ',') else t.mainWidgets)))
    else if key == SecondaryWidgetsKey then
      AfterUpdateWidgetViews(w.(tuning := t.(secondaryList := value,
        secondaryWidgets := if value.Some? then Split(value.value, ',') else t.secondaryWidgets)))
    else w
  }

  /** A list written as its widget names joined by commas is read back as those names;
      a null value keeps the previous list; an unknown key changes nothing. */
  lemma TuningListRoundTrip(w: Widgets, key: string, names: seq<string>)
    requires |names| >= 1 && forall k :: 0 <= k < |names| ==> ',' !in names[k]
    requires |names| == 1 || names[|names| - 1] != []
    ensures key == MainWidgetsKey ==>
      AfterTuningChanged(w, key, Some(Join(names, ","))).tuning ==
        w.tuning.(mainList := Some(Join(names, ",")), mainWidgets := names)
    ensures key == SecondaryWidgetsKey ==>
      AfterTuningChanged(w, key, Some(Join(names, ","))).tuning ==
        w.tuning.(secondaryList := Some(Join(names, ",")), secondaryWidgets := names)
    ensures key == MainWidgetsKey ==>
      AfterTuningChanged(w, key, None).tuning == w.tuning.(mainList := None)
    ensures key != MainWidgetsKey && key != SecondaryWidgetsKey ==>
      AfterTuningChanged(w, key, Some(Join(names, ","))) == w
  {
    SplitJoin(names, ',');
    var t := w.tuning;
    if key == MainWidgetsKey {
      UpdateWidgetViewsKeepsTuning(w.(tuning := t.(mainList := Some(Join(names, ",")), mainWidgets := names)));
      UpdateWidgetViewsKeepsTuning(w.(tuning := t.(mainList := None)));
    } else if key == SecondaryWidgetsKey {
      UpdateWidgetViewsKeepsTuning(w.(tuning := t.(secondaryList := Some(Join(names, ",")), secondaryWidgets := names)));
    }
  }

  /** onDetachedFromWindow stops weather updates only when both list strings are set and
      neither mentions "weather". */
  predicate StopsWeatherOnDetach(t: Tuning)
  {
    && t.mainList.Some? && !Contains(t.mainList.value, "weather")
    && t.secondaryList.Some? && !Contains(t.secondaryList.value, "weather")
  }

  /** A list naming the weather widget keeps the updates running, and so does a list
      that was never set, whatever the other list holds. */
  lemma DetachKeepsWeather(t: Tuning, names: seq<string>, k: nat)
    requires k < |names| && names[k] == "weather" && |names| >= 1
    ensures t.mainList.None? || t.secondaryList.None? ==> !StopsWeatherOnDetach(t)
    ensures t.mainList == Some(Join(names, ",")) ==> !StopsWeatherOnDetach(t)
    ensures t.secondaryList == Some(Join(names, ",")) ==> !StopsWeatherOnDetach(t)
  {
    JoinContainsWord(names, ",", k);
  }

  /** Where each word sits in the joined string. */
  lemma {:induction false} JoinWordAt(ws: seq<string>, sep: string, k: nat) returns (pos: nat)
    requires k < |ws|
    ensures pos + |ws[k]| <= |Join(ws, sep)| && Join(ws, sep)[pos..pos + |ws[k]|] == ws[k]
    decreases |ws|
  {
    if k == 0 {
      pos := 0;
      if |ws| > 1 {
        assert Join(ws, sep) == ws[0] + (sep + Join(ws[1..], sep));
      }
      assert Join(ws, sep)[..|ws[0]|] == ws[0];
    } else {
      var rest := ws[1..];
      assert rest[k - 1] == ws[k];
      var p := JoinWordAt(rest, sep, k - 1);
      var tail := Join(rest, sep);
      var head := ws[0] + sep;
      assert Join(ws, sep) == head + tail;
      pos := |head| + p;
      assert (head + tail)[pos..pos + |ws[k]|] == tail[p..p + |ws[k]|];
    }
  }

  /** Each word occurs in the joined string. */
  lemma JoinContainsWord(ws: seq<string>, sep: string, k: nat)
    requires k < |ws|
    ensures Contains(Join(ws, sep), ws[k])
  {
    var pos := JoinWordAt(ws, sep, k);
    ContainsAt(Join(ws, sep), ws[k], pos);
  }


  /** The placeholders found at inflation, none of them set up yet. */
  function FoundSlots(found: seq<bool>): seq<Slot>
  {
    seq(|found|, i requires 0 <= i < |found| => if found[i] then Present(Visible, None, None) else Absent)
  }

  function AfterFinishInflate(w: Widgets, mainFound: seq<bool>, secondaryFound: seq<bool>): Widgets
  {
    AfterUpdateWidgetViews(w.(views := w.views.(inflated := true, main := FoundSlots(mainFound), secondary := FoundSlots(secondaryFound))))
  }

  /** Before inflation the views are not touched: tuning only records the lists. */
  lemma TuningBeforeInflation(w: Widgets, key: string, value: Option<string>)
    requires !w.views.inflated
    ensures AfterTuningChanged(w, key, value).views == w.views
    ensures AfterTuningChanged(w, key, value).containers == w.containers
  {
  }

  /** After inflation every change of a list re-applies the slot and container rules. */
  lemma TuningAppliesSlotRules(w: Widgets, value: Option<string>, i: nat)
    requires w.views.inflated && i < |w.views.main|
    ensures var w' := AfterTuningChanged(w, MainWidgetsKey, value);
      && |w'.views.main| == |w.views.main|
      && (w'.views.main[i].Present? <==> w.views.main[i].Present?)
      && (w'.views.main[i].Present? ==> (w'.views.main[i].visibility == Visible <==> i < |w'.tuning.mainWidgets|))
      && w'.containers == ContainersFor(w'.tuning, w.dozing, w.env.settings)
  {
    var t := w.tuning.(mainList := value, mainWidgets := if value.Some? then Split(value.value, ',') else w.tuning.mainWidgets);
    UpdateWidgetViewsRules(w.(tuning := t), i);
  }


  /** onDozingChanged: an unchanged value is ignored; a new one is stored and the
      containers are re-evaluated. */
  function AfterDozingChanged(w: Widgets, dozing: bool): Widgets
  {
    if w.dozing == dozing then w else AfterUpdateContainerVisibility(w.(dozing := dozing))
  }

  /** Starting to doze hides the bar; a repeated value changes nothing. */
  lemma DozingHidesBar(w: Widgets)
    ensures !w.dozing ==> AfterDozingChanged(w, true).containers.whole == Gone
    ensures AfterDozingChanged(w, w.dozing) == w
  {
  }

  /** playbackStateUpdate: without a media button nothing happens; otherwise media is
      active iff the state is PLAYING, and a change repaints the media buttons. */
  function AfterPlaybackStateUpdate(w: Widgets, state: int): Widgets
  {
    if w.views.mainRefs.media.None? && w.views.secondaryRefs.media.None? then w
    else
      var active := state == PlaystatePlaying;
      if active != w.media.active then AfterUpdateMediaState(w.(media := w.media.(active := active))) else w
  }

  /** The four-argument onClientPlaybackStateUpdate: the client is back, then
      playbackStateUpdate. */
  function AfterClientPlaybackState(w: Widgets, state: int): Widgets
  {
    AfterPlaybackStateUpdate(w.(media := w.media.(clientLost := false)), state)
  }

  /** The one-argument onClientPlaybackStateUpdate: the client is back and the media
      buttons are repainted; the state itself is not looked at. */
  function AfterClientPlaybackRefresh(w: Widgets): Widgets
  {
    AfterUpdateMediaState(w.(media := w.media.(clientLost := false)))
  }

  /** After the one-argument update the info is current exactly when media was already
      active, whatever the reported state. */
  lemma PlaybackRefreshIgnoresState(w: Widgets)
    ensures !InfoExpired(AfterClientPlaybackRefresh(w).media) <==> w.media.active
    ensures AfterClientPlaybackRefresh(w).media.active == w.media.active
  {
  }

  /** onClientChange: a clearing change forgets the title, stops and loses the client;
      either way the media buttons are repainted. */
  function AfterClientChange(w: Widgets, clearing: bool): Widgets
  {
    if clearing then
      AfterUpdateMediaState(w.(media := w.media.(trackTitle := None, active := false, clientLost := true)))
    else AfterUpdateMediaState(w)
  }

  /** onClientMetadataUpdate: the reported title (the previous one when the metadata
      has none); the client is back. */
  function AfterClientMetadata(w: Widgets, title: Option<string>): Widgets
  {
    AfterUpdateMediaState(w.(media := w.media.(trackTitle := if title.Some? then title else w.media.trackTitle, clientLost := false)))
  }

  /** With a media button, media is active exactly when the last state was PLAYING; the
      flag and everything else stay as they were when the state agrees with it. */
  lemma PlaybackActiveIffPlaying(w: Widgets, state: int)
    ensures w.views.mainRefs.media.Some? || w.views.secondaryRefs.media.Some? ==>
      AfterPlaybackStateUpdate(w, state).media.active == (state == PlaystatePlaying)
    ensures w.views.mainRefs.media.None? && w.views.secondaryRefs.media.None? ==>
      AfterPlaybackStateUpdate(w, state) == w
    ensures (state == PlaystatePlaying) == w.media.active ==> AfterPlaybackStateUpdate(w, state) == w
  {
  }

  /** A cleared client makes the info expire; a PLAYING update with a media button makes
      it current again. */
  lemma ClientLifecycle(w: Widgets)
    ensures InfoExpired(AfterClientChange(w, true).media)
    ensures AfterClientChange(w, true).media.trackTitle.None?
    ensures w.views.mainRefs.media.Some? || w.views.secondaryRefs.media.Some? ==>
      !InfoExpired(AfterClientPlaybackState(AfterClientChange(w, true), PlaystatePlaying).media)
  {
  }

  /** updateTorchButtonState. */
  function TorchPainted(w: Widgets): Widgets
  {
    ButtonsPainted(w, w.views.mainRefs.torch, w.views.secondaryRefs.torch, w.isFlashOn)
  }

  /** toggleFlashlight: without a torch button nothing happens; otherwise the flag flips
      and the torch buttons are repainted exactly when setTorchMode succeeds. */
  function AfterToggleFlashlight(w: Widgets, torchCallSucceeds: bool): Widgets
  {
    if w.views.mainRefs.torch.None? && w.views.secondaryRefs.torch.None? then w
    else if !torchCallSucceeds then w
    else TorchPainted(w.(isFlashOn := !w.isFlashOn))
  }

  /** The flag flips only on a successful call with a torch button, and two successful
      toggles restore it. */
  lemma ToggleFlashlightRules(w: Widgets, ok: bool)
    ensures AfterToggleFlashlight(w, ok).isFlashOn ==
      (if ok && (w.views.mainRefs.torch.Some? || w.views.secondaryRefs.torch.Some?) then !w.isFlashOn else w.isFlashOn)
    ensures !ok ==> AfterToggleFlashlight(w, ok) == w
    ensures w.views.mainRefs.torch.None? && w.views.secondaryRefs.torch.None? ==> AfterToggleFlashlight(w, ok) == w
    ensures AfterToggleFlashlight(AfterToggleFlashlight(w, true), true).isFlashOn == w.isFlashOn
  {
  }

  /** onFlashlightChanged: the controller's state is adopted. */
  function AfterFlashlightChanged(w: Widgets, enabled: bool): Widgets
  {
    TorchPainted(w.(isFlashOn := enabled))
  }

  /** onFlashlightAvailabilityChanged: on only while enabled and available. */
  function AfterFlashlightAvailability(w: Widgets, controllerEnabled: bool, available: bool): Widgets
  {
    TorchPainted(w.(isFlashOn := controllerEnabled && available))
  }

  /** toggleRingerMode with updateRingerButtonState: the ringer buttons are active iff
      the new mode is vibrate. */
  function AfterToggleRingerMode(w: Widgets): Widgets
  {
    if !w.env.hasAudioManager then w
    else
      var mode := RingerToggle(w.env.ringerMode);
      ButtonsPainted(w.(env := w.env.(ringerMode := mode)), w.views.mainRefs.ringer, w.views.secondaryRefs.ringer, mode == RingerVibrate)
  }

  /** The ringer buttons show vibrate exactly after toggling away from normal: each
      found ringer button gets the active or inactive background, and the large one the
      matching text colour. */
  lemma RingerButtonShowsVibrate(w: Widgets)
    requires w.env.hasAudioManager
    ensures AfterToggleRingerMode(w).env.ringerMode == RingerVibrate <==> w.env.ringerMode == RingerNormal
    ensures var at := w.views.secondaryRefs.ringer;
      at.Some? && at.value < |w.views.secondary| && w.views.secondary[at.value].Present? ==>
        var s := AfterToggleRingerMode(w).views.secondary[at.value];
        && s.Present? && s.colors.Some?
        && s.colors.value.background == ColorTable(w.env.ringerMode == RingerNormal, Night(w), w.env.palette).0
        && s.colors.value.textColor.None?
    ensures var at := w.views.mainRefs.ringer;
      at.Some? && at.value < |w.views.main| && w.views.main[at.value].Present? ==>
        var s := AfterToggleRingerMode(w).views.main[at.value];
        var (bg, fg) := ColorTable(w.env.ringerMode == RingerNormal, Night(w), w.env.palette);
        && s.Present? && s.colors.Some?
        && s.colors.value.background == bg
        && s.colors.value.textColor == Some(fg)
  {
  }

  /** queryAndUpdateWeather with an enabled client reporting `info`: the info is stored;
      when present and its condition formats, the large weather button shows the
      caption. A swallowed exception leaves the caption as it was. */
  function AfterQueryWeather(w: Widgets, clientEnabled: bool, info: Option<WeatherInfo>, labels: Condition -> string): Widgets
  {
    if !clientEnabled then w
    else
      var w1 := w.(weatherInfo := info);
      if info.None? then w1
      else
        match FormatCondition(info.value.condition, labels)
        case None => w1
        case Some(c) =>
          if w.views.mainRefs.weather.Some? then w1.(weatherCaption := Some(WeatherCaption(info.value, c))) else w1
  }

  /** A condition that is a keyword labels the caption with that keyword's label (when
      no earlier keyword occurs and the label has no underscore). */
  lemma WeatherCaptionUsesLabel(w: Widgets, info: WeatherInfo, labels: Condition -> string, i: nat)
    requires w.views.mainRefs.weather.Some? && info.condition.Some?
    requires i < |ConditionOrder|
    requires Contains(ToLower(info.condition.value), Keyword(ConditionOrder[i]))
    requires forall j :: 0 <= j < i ==> !Contains(ToLower(info.condition.value), Keyword(ConditionOrder[j]))
    requires !Contains(ToLower(labels(ConditionOrder[i])), "_")
    ensures AfterQueryWeather(w, true, Some(info), labels).weatherCaption ==
      Some(WeatherCaption(info, labels(ConditionOrder[i])))
  {
    FirstKeywordDecides(info.condition.value, labels, i);
  }

  // ---------------------------------------------------------------------------------
  // The view

  /** updateWidgetViews' two loops over one array of placeholders. */
  method ConfigureViews(views: array<Slot>, list: seq<string>, refs: Refs, large: bool, night: bool, p: Palette)
    returns (refs': Refs, weatherSetUp: bool)
    modifies views
    ensures views[..] == ConfiguredSlots(old(views[..]), list, refs, large, night, p)
    ensures refs' == RefsAfter(refs, old(views[..]), list, Min(|list|, views.Length))
    ensures weatherSetUp == SetsUpWeather(old(views[..]), list)
  {
    ghost var before := views[..];
    for i := 0 to views.Length
      invariant forall k :: 0 <= k < i ==> views[k] == SlotShown(before[k], k, |list|)
      invariant forall k :: i <= k < views.Length ==> views[k] == before[k]
    {
      if views[i].Present? {
        views[i] := views[i].(visibility := if i < |list| then Visible else Gone);
      }
    }
    refs' := refs;
    weatherSetUp := false;
    var bound := Min(|list|, views.Length);
    for i := 0 to bound
      invariant forall k :: 0 <= k < i ==> views[k] == ConfiguredSlot(before, list, refs, k, large, night, p)
      invariant forall k :: i <= k < views.Length ==> views[k] == SlotShown(before[k], k, |list|)
      invariant refs' == RefsAfter(refs, before, list, i)
      invariant weatherSetUp <==> exists k :: 0 <= k < i && before[k].Present? && KindOf(list[k]) == Some(Weather)
    {
      var widgetType := list[i];
      if views[i].Present? {
        weatherSetUp := weatherSetUp || KindOf(widgetType) == Some(Weather);
        refs' := NoteRef(refs', KindOf(widgetType), i);
        views[i] := SetUpSlot(views[i], KindOf(widgetType), StateColors(false, night, p, large, refs'.weather == Some(i)));
      }
    }
    assert views[..] == ConfiguredSlots(before, list, refs, large, night, p);
  }

  /** The placeholders findViewById returns at inflation. */
  method FindViews(found: seq<bool>) returns (views: array<Slot>)
    ensures fresh(views) && views[..] == FoundSlots(found)
  {
    views := new Slot[|found|](i requires 0 <= i < |found| => if found[i] then Present(Visible, None, None) else Absent);
  }

  /** Applies `colors` to the button at `at`, when there is one. */
  method Paint(views: array<Slot>, at: Option<nat>, colors: ButtonColors)
    modifies views
    ensures views[..] == Painted(old(views[..]), at, colors)
  {
    if at.Some? && at.value < views.Length && views[at.value].Present? {
      views[at.value] := views[at.value].(colors := Some(colors));
    }
  }

  class LockScreenWidgetsView {
    var mainLockscreenWidgetsList: Option<string>
    var secondaryLockscreenWidgetsList: Option<string>
    var mainWidgetsList: seq<string>
    var secondaryWidgetsList: seq<string>
    var isInflated: bool
    var mainWidgetViews: array<Slot>
    var secondaryWidgetViews: array<Slot>
    var mainRefs: Refs
    var secondaryRefs: Refs
    var isFlashOn: bool
    var mediaActive: bool
    var clientLost: bool
    var trackTitle: Option<string>
    var mediaCaption: Option<string>
    var dozing: bool
    var visibility: Visibility
    var mainContainerVisibility: Visibility
    var secondaryContainerVisibility: Visibility
    var weatherInfo: Option<WeatherInfo>
    var weatherCaption: Option<string>
    var env: Env

    /** The two placeholder arrays are distinct. */
    predicate Valid()
      reads this
    {
      mainWidgetViews != secondaryWidgetViews
    }

    function State(): Widgets
      reads this, mainWidgetViews, secondaryWidgetViews
    {
      Widgets(
        Tuning(mainLockscreenWidgetsList, secondaryLockscreenWidgetsList, mainWidgetsList, secondaryWidgetsList),
        Views(isInflated, mainWidgetViews[..], secondaryWidgetViews[..], mainRefs, secondaryRefs),
        isFlashOn,
        MediaState(mediaActive, clientLost, trackTitle, mediaCaption),
        dozing,
        Containers(visibility, mainContainerVisibility, secondaryContainerVisibility),
        weatherInfo,
        weatherCaption,
        env)
    }

    /** The constructor, ending with the dozing listener called with the current state.
        Before inflation there are no placeholders. */
    constructor (platform: Env, isDozing: bool)
      ensures Valid() && fresh(mainWidgetViews) && fresh(secondaryWidgetViews)
      ensures State() == AfterDozingChanged(
        Widgets(Tuning(None, None, [], []), Views(false, [], [], NoRefs, NoRefs), false,
                MediaState(false, true, None, None), false, Containers(Visible, Visible, Visible), None, None, platform),
        isDozing)
    {
      mainLockscreenWidgetsList := None;
      secondaryLockscreenWidgetsList := None;
      mainWidgetsList := [];
      secondaryWidgetsList := [];
      isInflated := false;
      mainWidgetViews := new Slot[0];
      secondaryWidgetViews := new Slot[0];
      mainRefs := NoRefs;
      secondaryRefs := NoRefs;
      isFlashOn := false;
      mediaActive := false;
      clientLost := true;
      trackTitle := None;
      mediaCaption := None;
      dozing := false;
      visibility := Visible;
      mainContainerVisibility := Visible;
      secondaryContainerVisibility := Visible;
      weatherInfo := None;
      weatherCaption := None;
      env := platform;
      new;
      OnDozingChanged(isDozing);
    }

    method UpdateContainerVisibility()
      requires Valid()
      modifies this
      ensures Valid() && mainWidgetViews == old(mainWidgetViews) && secondaryWidgetViews == old(secondaryWidgetViews)
      ensures State() == AfterUpdateContainerVisibility(old(State()))
    {
      var isMainWidgetsEmpty := IsEmpty(mainLockscreenWidgetsList);
      var isSecondaryWidgetsEmpty := IsEmpty(secondaryLockscreenWidgetsList);
      var isEmpty := isMainWidgetsEmpty && isSecondaryWidgetsEmpty;
      var enabled := GetInt(env.settings, WidgetsEnabledKey, 0) != 0;
      mainContainerVisibility := if isMainWidgetsEmpty then Gone else Visible;
      secondaryContainerVisibility := if isSecondaryWidgetsEmpty then Gone else Visible;
      var shouldHide := isEmpty || dozing || !enabled;
      visibility := if shouldHide then Gone else Visible;
    }

    method OnDozingChanged(isDozing: bool)
      requires Valid()
      modifies this
      ensures Valid() && mainWidgetViews == old(mainWidgetViews) && secondaryWidgetViews == old(secondaryWidgetViews)
      ensures State() == AfterDozingChanged(old(State()), isDozing)
    {
      if dozing == isDozing {
        return;
      }
      dozing := isDozing;
      UpdateContainerVisibility();
    }

    /** Paints the large and the small button of one kind. */
    method PaintButtons(mainAt: Option<nat>, secondaryAt: Option<nat>, active: bool)
      requires Valid()
      modifies mainWidgetViews, secondaryWidgetViews
      ensures State() == ButtonsPainted(old(State()), mainAt, secondaryAt, active)
    {
      var night := IsNightMode(env.uiMode);
      Paint(mainWidgetViews, mainAt, StateColors(active, night, env.palette, true, mainRefs.weather == mainAt));
      Paint(secondaryWidgetViews, secondaryAt, StateColors(active, night, env.palette, false, secondaryRefs.weather == secondaryAt));
    }

    method UpdateMediaState()
      requires Valid()
      modifies this, mainWidgetViews, secondaryWidgetViews
      ensures Valid() && mainWidgetViews == old(mainWidgetViews) && secondaryWidgetViews == old(secondaryWidgetViews)
      ensures State() == AfterUpdateMediaState(old(State()))
    {
      PaintButtons(mainRefs.media, secondaryRefs.media, mediaActive);
      if mainRefs.media.Some? {
        var canShowTrackTitle := !(!mediaActive || clientLost) || trackTitle.Some?;
        mediaCaption := if canShowTrackTitle then trackTitle else Some(env.playLabel);
      }
    }

    method UpdateWidgetViews()
      requires Valid()
      modifies this, mainWidgetViews, secondaryWidgetViews
      ensures Valid() && mainWidgetViews == old(mainWidgetViews) && secondaryWidgetViews == old(secondaryWidgetViews)
      ensures State() == AfterUpdateWidgetViews(old(State()))
    {
      if !isInflated {
        return;
      }
      ghost var before := State();
      var night := IsNightMode(env.uiMode);
      var weatherSetUp;
      mainRefs, weatherSetUp := ConfigureViews(mainWidgetViews, mainWidgetsList, mainRefs, true, night, env.palette);
      if weatherSetUp {
        weatherCaption := Some(env.weatherUnavailableLabel);
      }
      var secondaryWeather;
      secondaryRefs, secondaryWeather := ConfigureViews(secondaryWidgetViews, secondaryWidgetsList, secondaryRefs, false, night, env.palette);
      assert State() == before.(views := ConfiguredViews(before.views, before.tuning, Night(before), before.env.palette),
        weatherCaption := if SetsUpWeather(before.views.main, before.tuning.mainWidgets) then Some(before.env.weatherUnavailableLabel)
                          else before.weatherCaption);
      UpdateContainerVisibility();
      UpdateMediaState();
    }

    method OnFinishInflate(mainFound: seq<bool>, secondaryFound: seq<bool>)
      requires Valid()
      requires |mainFound| == MainSlotCount && |secondaryFound| == SecondarySlotCount
      modifies this
      ensures Valid() && fresh(mainWidgetViews) && fresh(secondaryWidgetViews)
      ensures mainWidgetViews.Length == MainSlotCount && secondaryWidgetViews.Length == SecondarySlotCount
      ensures State() == AfterFinishInflate(old(State()), mainFound, secondaryFound)
    {
      ghost var before := State();
      mainWidgetViews := FindViews(mainFound);
      secondaryWidgetViews := FindViews(secondaryFound);
      isInflated := true;
      assert State() == before.(views := before.views.(inflated := true, main := FoundSlots(mainFound), secondary := FoundSlots(secondaryFound)));
      UpdateWidgetViews();
    }

    method OnTuningChanged(key: string, newValue: Option<string>)
      requires Valid()
      modifies this, mainWidgetViews, secondaryWidgetViews
      ensures Valid() && mainWidgetViews == old(mainWidgetViews) && secondaryWidgetViews == old(secondaryWidgetViews)
      ensures State() == AfterTuningChanged(old(State()), key, newValue)
    {
      if key == MainWidgetsKey {
        mainLockscreenWidgetsList := newValue;
        if newValue.Some? {
          mainWidgetsList := Split(newValue.value, ',');
        }
        UpdateWidgetViews();
      } else if key == SecondaryWidgetsKey {
        secondaryLockscreenWidgetsList := newValue;
        if newValue.Some? {
          secondaryWidgetsList := Split(newValue.value, ',');
        }
        UpdateWidgetViews();
      }
    }

    method PlaybackStateUpdate(state: int)
      requires Valid()
      modifies this, mainWidgetViews, secondaryWidgetViews
      ensures Valid() && mainWidgetViews == old(mainWidgetViews) && secondaryWidgetViews == old(secondaryWidgetViews)
      ensures State() == AfterPlaybackStateUpdate(old(State()), state)
    {
      if mainRefs.media.None? && secondaryRefs.media.None? {
        return;
      }
      var active := state == PlaystatePlaying;
      if active != mediaActive {
        mediaActive := active;
        UpdateMediaState();
      }
    }

    method OnClientPlaybackStateUpdate(state: int)
      requires Valid()
      modifies this, mainWidgetViews, secondaryWidgetViews
      ensures Valid() && mainWidgetViews == old(mainWidgetViews) && secondaryWidgetViews == old(secondaryWidgetViews)
      ensures State() == AfterClientPlaybackState(old(State()), state)
    {
      clientLost := false;
      PlaybackStateUpdate(state);
    }

    method OnClientPlaybackStateRefresh()
      requires Valid()
      modifies this, mainWidgetViews, secondaryWidgetViews
      ensures Valid() && mainWidgetViews == old(mainWidgetViews) && secondaryWidgetViews == old(secondaryWidgetViews)
      ensures State() == AfterClientPlaybackRefresh(old(State()))
    {
      clientLost := false;
      UpdateMediaState();
    }

    method OnClientChange(clearing: bool)
      requires Valid()
      modifies this, mainWidgetViews, secondaryWidgetViews
      ensures Valid() && mainWidgetViews == old(mainWidgetViews) && secondaryWidgetViews == old(secondaryWidgetViews)
      ensures State() == AfterClientChange(old(State()), clearing)
    {
      if clearing {
        trackTitle := None;
        mediaActive := false;
        clientLost := true;
      }
      UpdateMediaState();
    }

    method OnClientMetadataUpdate(title: Option<string>)
      requires Valid()
      modifies this, mainWidgetViews, secondaryWidgetViews
      ensures Valid() && mainWidgetViews == old(mainWidgetViews) && secondaryWidgetViews == old(secondaryWidgetViews)
      ensures State() == AfterClientMetadata(old(State()), title)
    {
      if title.Some? {
        trackTitle := title;
      }
      clientLost := false;
      UpdateMediaState();
    }

    function IsInfoExpired(): (expired: bool)
      reads this
      ensures expired == InfoExpired(State().media)
    {
      !mediaActive || clientLost
    }

    method ToggleFlashlight(torchCallSucceeds: bool)
      requires Valid()
      modifies this, mainWidgetViews, secondaryWidgetViews
      ensures Valid() && mainWidgetViews == old(mainWidgetViews) && secondaryWidgetViews == old(secondaryWidgetViews)
      ensures State() == AfterToggleFlashlight(old(State()), torchCallSucceeds)
    {
      if mainRefs.torch.None? && secondaryRefs.torch.None? {
        return;
      }
      if !torchCallSucceeds {
        return;
      }
      isFlashOn := !isFlashOn;
      PaintButtons(mainRefs.torch, secondaryRefs.torch, isFlashOn);
    }

    method OnFlashlightChanged(enabled: bool)
      requires Valid()
      modifies this, mainWidgetViews, secondaryWidgetViews
      ensures Valid() && mainWidgetViews == old(mainWidgetViews) && secondaryWidgetViews == old(secondaryWidgetViews)
      ensures State() == AfterFlashlightChanged(old(State()), enabled)
    {
      isFlashOn := enabled;
      PaintButtons(mainRefs.torch, secondaryRefs.torch, isFlashOn);
    }

    method OnFlashlightAvailabilityChanged(controllerEnabled: bool, available: bool)
      requires Valid()
      modifies this, mainWidgetViews, secondaryWidgetViews
      ensures Valid() && mainWidgetViews == old(mainWidgetViews) && secondaryWidgetViews == old(secondaryWidgetViews)
      ensures State() == AfterFlashlightAvailability(old(State()), controllerEnabled, available)
    {
      isFlashOn := controllerEnabled && available;
      PaintButtons(mainRefs.torch, secondaryRefs.torch, isFlashOn);
    }

    method ToggleRingerMode()
      requires Valid()
      modifies this, mainWidgetViews, secondaryWidgetViews
      ensures Valid() && mainWidgetViews == old(mainWidgetViews) && secondaryWidgetViews == old(secondaryWidgetViews)
      ensures State() == AfterToggleRingerMode(old(State()))
    {
      if !env.hasAudioManager {
        return;
      }
      var mode := env.ringerMode;
      if mode == RingerNormal {
        env := env.(ringerMode := RingerVibrate);
      } else {
        env := env.(ringerMode := RingerNormal);
      }
      PaintButtons(mainRefs.ringer, secondaryRefs.ringer, env.ringerMode == RingerVibrate);
    }

    method QueryAndUpdateWeather(clientEnabled: bool, info: Option<WeatherInfo>, labels: Condition -> string)
      requires Valid()
      modifies this
      ensures Valid() && mainWidgetViews == old(mainWidgetViews) && secondaryWidgetViews == old(secondaryWidgetViews)
      ensures State() == AfterQueryWeather(old(State()), clientEnabled, info, labels)
    {
      if !clientEnabled {
        return;
      }
      ghost var before := State();
      weatherInfo := info;
      assert State() == before.(weatherInfo := info);
      if info.None? {
        return;
      }
      if info.value.condition.None? {
        return;
      }
      var formatted := FormatWeatherCondition(info.value.condition.value, labels);
      if formatted.None? {
        return;
      }
      if mainRefs.weather.Some? {
        weatherCaption := Some(WeatherCaption(info.value, formatted.value));
      }
    }
  }
}
