/** The user-preference store: four typed keys, per-key defaults, whole-profile saves. */
module Preferences {
  import opened Wrappers

  datatype UserProfile = UserProfile(
    name: string := "",
    email: string := "",
    notificationsEnabled: bool := true,
    darkModeEnabled: bool := false)

  /** A stored preference value. */
  datatype Pref = PString(s: string) | PBool(b: bool)

  /** The preference file: key name to value. */
  type Store = map<string, Pref>

  const KEY_NAME: string := "name"
  const KEY_EMAIL: string := "email"
  const KEY_NOTIFICATIONS: string := "notifications"
  const KEY_DARK_MODE: string := "dark_mode"

  /**
   * Reading a string key: absent gives the default; a value of the other
   * type cannot be cast and fails the read (the outer `None`).
   */
  function GetString(s: Store, key: string, default: string): (r: Option<string>)
    ensures key !in s ==> r == Some(default)
    ensures key in s ==> (r.Some? <==> s[key].PString?)
    ensures key in s && s[key].PString? ==> r == Some(s[key].s)
  {
    if key !in s then Some(default)
    else match s[key]
      case PString(v) => Some(v)
      case PBool(_) => None
  }

  function GetBool(s: Store, key: string, default: bool): (r: Option<bool>)
    ensures key !in s ==> r == Some(default)
    ensures key in s ==> (r.Some? <==> s[key].PBool?)
    ensures key in s && s[key].PBool? ==> r == Some(s[key].b)
  {
    if key !in s then Some(default)
    else match s[key]
      case PBool(v) => Some(v)
      case PString(_) => None
  }

  /** `profile`: each field read from its key, or its own default when the key is missing. */
  function ReadProfile(s: Store): (r: Option<UserProfile>)
    ensures r.Some? <==> && (KEY_NAME in s ==> s[KEY_NAME].PString?)
                         && (KEY_EMAIL in s ==> s[KEY_EMAIL].PString?)
                         && (KEY_NOTIFICATIONS in s ==> s[KEY_NOTIFICATIONS].PBool?)
                         && (KEY_DARK_MODE in s ==> s[KEY_DARK_MODE].PBool?)
    ensures KEY_NAME !in s && r.Some? ==> r.value.name == ""
    ensures KEY_EMAIL !in s && r.Some? ==> r.value.email == ""
    ensures KEY_NOTIFICATIONS !in s && r.Some? ==> r.value.notificationsEnabled
    ensures KEY_DARK_MODE !in s && r.Some? ==> !r.value.darkModeEnabled
    ensures r.Some? && KEY_NAME in s ==> s[KEY_NAME] == PString(r.value.name)
    ensures r.Some? && KEY_EMAIL in s ==> s[KEY_EMAIL] == PString(r.value.email)
    ensures r.Some? && KEY_NOTIFICATIONS in s ==> s[KEY_NOTIFICATIONS] == PBool(r.value.notificationsEnabled)
    ensures r.Some? && KEY_DARK_MODE in s ==> s[KEY_DARK_MODE] == PBool(r.value.darkModeEnabled)
  {
    match (GetString(s, KEY_NAME, ""), GetString(s, KEY_EMAIL, ""),
           GetBool(s, KEY_NOTIFICATIONS, true), GetBool(s, KEY_DARK_MODE, false))
    case (Some(n), Some(e), Some(notify), Some(dark)) => Some(UserProfile(n, e, notify, dark))
    case _ => None
  }

  /** `saveProfile`: writes all four keys in one edit; other keys are kept. */
  function SaveProfile(s: Store, p: UserProfile): (s': Store)
    ensures s'.Keys == s.Keys + {KEY_NAME, KEY_EMAIL, KEY_NOTIFICATIONS, KEY_DARK_MODE}
    ensures forall k | k in s && k !in {KEY_NAME, KEY_EMAIL, KEY_NOTIFICATIONS, KEY_DARK_MODE} :: s'[k] == s[k]
  {
    s[KEY_NAME := PString(p.name)]
     [KEY_EMAIL := PString(p.email)]
     [KEY_NOTIFICATIONS := PBool(p.notificationsEnabled)]
     [KEY_DARK_MODE := PBool(p.darkModeEnabled)]
  }

  /** The four key names are pairwise distinct. */
  lemma KeysDistinct()
    ensures |{KEY_NAME, KEY_EMAIL, KEY_NOTIFICATIONS, KEY_DARK_MODE}| == 4
  {
  }

  /** An empty store reads as the default profile. */
  lemma EmptyReadsDefault()
    ensures ReadProfile(map[]) == Some(UserProfile())
    ensures UserProfile() == UserProfile("", "", true, false)
  {
  }

  /** Reading after a save gives back the saved profile, whatever was stored before. */
  lemma SaveThenRead(s: Store, p: UserProfile)
    ensures ReadProfile(SaveProfile(s, p)) == Some(p)
  {
  }

  /** A save overwrites every field, so the last of two saves wins completely. */
  lemma LastSaveWins(s: Store, p: UserProfile, q: UserProfile)
    ensures SaveProfile(SaveProfile(s, p), q) == SaveProfile(s, q)
  {
  }
}
