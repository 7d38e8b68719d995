/** Values shared by the components: nullable references, view visibility, the settings
    store, TextUtils.isEmpty and the audio manager's ringer modes. Platform services are
    not modelled beyond the values they hand back. */
module Platform {

  /** A Java reference that may be null. */
  datatype Option<+T> = None | Some(value: T)

  /** View.VISIBLE and View.GONE, the two visibilities these components set. */
  datatype Visibility = Visible | Gone

  /** Settings.System.getInt(resolver, key, def): the stored integer, or `def` when
      the key has no (integer) value. */
  function GetInt(settings: map<string, int>, key: string, def: int): int
  {
    if key in settings then settings[key] else def
  }

  /** TextUtils.isEmpty: null or of length zero. */
  predicate IsEmpty(s: Option<string>)
  {
    s.None? || |s.value| == 0
  }

  /** AudioManager.RINGER_MODE_SILENT, RINGER_MODE_VIBRATE and RINGER_MODE_NORMAL. */
  const RingerSilent: int := 0
  const RingerVibrate: int := 1
  const RingerNormal: int := 2
}
