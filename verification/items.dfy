/** The items the query offers (`SteamExtensionItem`), the localised strings
    they are labelled with (`get_lang_string`) and the per-item readings the
    query makes of them: the name shown, the description searched, the action
    string handed to the launcher, and the launch history read from a cache
    record (`get_launches`). */
module Items {
  import opened Wrappers
  import opened Text
  import opened Json
  import Const
  import Datetimes

  /** lang.json: language code to key to text. */
  type Lang = map<string, map<string, string>>

  datatype Kind = App | Nav | Action

  /** A `SteamExtensionItem`. `lastLaunched` is in epoch seconds; `icon` is the
      path the constructor settled on. `location`, `sizeOnDisk`,
      `totalPlaytime` and `timesLaunched` hold what the cache record gave
      (Null for None): the query stores them unchecked, and only the
      description and the sort list use them as a string or a number. */
  datatype Item = Item(
    kind: Kind,
    id: Option<int>,
    nonSteam: bool,
    name: Option<string>,
    displayName: Option<string>,
    description: Option<string>,
    location: Json,
    sizeOnDisk: Json,
    totalPlaytime: Json,
    icon: string,
    lastLaunched: Option<int>,
    timesLaunched: Json)

  /** What the query reaches outside itself for: the preferences, the loaded
      lang.json, `EXTENSION_PATH`, the platform, `isfile`, the float-formatting
      description of an app item, and `str()` of a JSON list or object. */
  datatype Env = Env(
    preferences: map<string, string>,
    lang: Lang,
    extensionPath: string,
    isNt: bool,
    iconExists: string -> bool,
    describeApp: Item -> string,
    repr: Json -> string)

  /** The exceptions the query lets escape. */
  datatype QueryError =
    | RequiredPreference(key: string)  // ValueError from check_required_preferences
    | MissingPreference(key: string)   // KeyError on preferences[key]
    | InvalidAppId(key: string)        // ValueError from int(app_id) outside a try
    | InvalidRecord(key: string)       // a cache record of the wrong shape
    | UnknownApp(key: string)          // KeyError on cache["steam_apps"][str(id)]
    | InvalidValue(field: string)      // TypeError or AttributeError on an item attribute of the wrong type

  /** `preferences[key]`. */
  function Pref(env: Env, key: string): (r: Result<string, QueryError>)
    ensures r.Ok? <==> key in env.preferences
    ensures r.Ok? ==> r.value == env.preferences[key]
    ensures r.Err? ==> r.error == MissingPreference(key)
  {
    if key in env.preferences then Ok(env.preferences[key]) else Err(MissingPreference(key))
  }

  predicate HasString(lang: Lang, language: string, key: string) {
    language in lang && key in lang[language]
  }

  /** `get_lang_string(lang, language, key, strict)`: the text in the wanted
      language, else in the default language, else the key itself, or None
      (KeyError) when strict. */
  function LangString(lang: Lang, language: string, key: string, strict: bool): (r: Option<string>)
    ensures HasString(lang, language, key) ==> r == Some(lang[language][key])
    ensures !HasString(lang, language, key) && HasString(lang, Const.DEFAULT_LANGUAGE, key) ==>
              r == Some(lang[Const.DEFAULT_LANGUAGE][key])
    ensures !HasString(lang, language, key) && !HasString(lang, Const.DEFAULT_LANGUAGE, key) ==>
              r == if strict then None else Some(key)
  {
    if HasString(lang, language, key) then Some(lang[language][key])
    else if Const.DEFAULT_LANGUAGE !in lang then (if strict then None else Some(key))
    else if key !in lang[Const.DEFAULT_LANGUAGE] then (if strict then None else Some(key))
    else Some(lang[Const.DEFAULT_LANGUAGE][key])
  }

  /** The lenient lookup never fails; the strict one fails exactly when neither
      language has the key, and otherwise agrees with the lenient one. */
  lemma LangStrictness(lang: Lang, language: string, key: string)
    ensures LangString(lang, language, key, false).Some?
    ensures LangString(lang, language, key, true).None? <==>
              !HasString(lang, language, key) && !HasString(lang, Const.DEFAULT_LANGUAGE, key)
    ensures LangString(lang, language, key, true).Some? ==>
              LangString(lang, language, key, true) == LangString(lang, language, key, false)
    ensures LangString(lang, language, key, true).None? ==> LangString(lang, language, key, false) == Some(key)
  {
  }

  /** `get_lang_string(lang, preferences["LANGUAGE_CODE"], key)`. */
  function Localised(env: Env, key: string): (r: Result<string, QueryError>)
    ensures r.Err? <==> "LANGUAGE_CODE" !in env.preferences
    ensures r.Ok? ==> Some(r.value) == LangString(env.lang, env.preferences["LANGUAGE_CODE"], key, false)
  {
    var code :- Pref(env, "LANGUAGE_CODE");
    Ok(LangString(env.lang, code, key, false).value)
  }

  /** `get_name()`: the display name, else the name, else the localised
      "name_missing". */
  function GetName(env: Env, item: Item): (r: Result<string, QueryError>)
    ensures item.displayName.Some? ==> r == Ok(item.displayName.value)
    ensures item.displayName.None? && item.name.Some? ==> r == Ok(item.name.value)
    ensures item.displayName.None? && item.name.None? ==> r == Localised(env, "name_missing")
  {
    if item.displayName.Some? then Ok(item.displayName.value)
    else if item.name.Some? then Ok(item.name.value)
    else Localised(env, "name_missing")
  }

  /** A number Python can compare and negate: an int, or a bool as 0 or 1. */
  function Number(v: Json): Option<int> {
    match v
    case Int(i) => Some(i)
    case Bool(b) => Some(if b then 1 else 0)
    case _ => None
  }

  /** A value `str` methods can be called on, or None. */
  predicate IsText(v: Json) {
    v.Null? || v.Str?
  }

  /** The first attribute `get_description()` cannot use on an app item: it
      compares the playtime with 0, strips the location when there is one,
      and compares the size with 0. */
  function DescriptionFault(item: Item): (r: Option<string>)
    ensures r.None? <==> Number(item.totalPlaytime).Some? && IsText(item.location) && Number(item.sizeOnDisk).Some?
    ensures r.Some? ==> r.value in ["total_playtime", "location", "size_on_disk"]
  {
    if Number(item.totalPlaytime).None? then Some("total_playtime")
    else if !IsText(item.location) then Some("location")
    else if Number(item.sizeOnDisk).None? then Some("size_on_disk")
    else None
  }

  /** `get_description()`: an app's description is built from its playtime,
      last launch, location and size with float formatting (`describeApp`),
      and raises on the first of them of the wrong type; any other item shows
      its own description, or nothing. */
  function Description(env: Env, item: Item): (r: Result<string, QueryError>)
    ensures item.kind != App ==> r == Ok(item.description.GetOr(""))
    ensures item.kind == App ==> (r.Err? <==> DescriptionFault(item).Some?)
    ensures r.Err? ==> r.error == InvalidValue(DescriptionFault(item).value)
  {
    if item.kind != App then Ok(item.description.GetOr(""))
    else match DescriptionFault(item)
      case Some(field) => Err(InvalidValue(field))
      case None => Ok(env.describeApp(item))
  }

  /** `str(x)` of an optional string or integer. */
  function OptText(s: Option<string>): string {
    if s.Some? then s.value else "None"
  }

  function IdText(id: Option<int>): string {
    if id.Some? then IntToString(id.value) else "None"
  }

  /** The Steam URI that runs a game, before its ID. */
  const RUN_GAME_URI: string := "steam://rungameid/"
  const APP_ACTION_PREFIX: string := "APP" + RUN_GAME_URI
  const NAV_ACTION_PREFIX: string := "NAVsteam://"

  /** `get_action()`: the launcher string, prefixed by the upper-cased type for
      apps and navigations. */
  function GetAction(item: Item): (r: string)
    ensures item.kind == App ==> r == APP_ACTION_PREFIX + IdText(item.id)
    ensures item.kind == Nav ==> r == NAV_ACTION_PREFIX + OptText(item.name)
    ensures item.kind == Action ==> r == OptText(item.name)
  {
    match item.kind
    case App => "APP" + RUN_GAME_URI + IdText(item.id)
    case Nav => "NAV" + "steam://" + OptText(item.name)
    case Action => OptText(item.name)
  }

  /** The item icon: a given path under the extension directory, else the
      default icon. */
  function ItemIcon(env: Env, icon: Option<string>): (r: string)
    ensures icon.Some? && StartsWith(icon.value, env.extensionPath) ==> r == icon.value
    ensures !(icon.Some? && StartsWith(icon.value, env.extensionPath)) ==> r == Const.DefaultIcon(env.extensionPath, env.isNt)
  {
    if icon.Some? && StartsWith(icon.value, env.extensionPath) then icon.value
    else Const.DefaultIcon(env.extensionPath, env.isNt)
  }

  /** `<EXTENSION_PATH>images/apps/<id>.jpg` when `isfile` finds it. */
  function AppIcon(env: Env, id: int): (r: Option<string>)
    ensures r.Some? <==> env.iconExists(AppIconPath(env, id))
    ensures r.Some? ==> r.value == AppIconPath(env, id) && StartsWith(r.value, env.extensionPath)
  {
    var path := AppIconPath(env, id);
    assert path[..|env.extensionPath|] == env.extensionPath;
    if env.iconExists(path) then Some(path) else None
  }

  /** `f"{EXTENSION_PATH}images{DIR_SEP}apps{DIR_SEP}{app_id_int}.jpg"`. */
  function AppIconPath(env: Env, id: int): string {
    env.extensionPath + "images" + Const.DirSep(env.isNt) + "apps" + Const.DirSep(env.isNt) + IntToString(id) + ".jpg"
  }

  /** `info.get(field, default)`. */
  function Get(info: Dict, field: string, default: Json): Json {
    if field in info then info[field] else default
  }

  /** `get_launches(info)`: the last launch, read with
      `datetime.fromtimestamp` (which raises on a value that is not a number
      or lies outside the years 1 to 9999), and the launch count as stored, 0
      when absent. */
  function Launches(info: Dict, key: string): (r: Result<(Option<int>, Json), QueryError>)
    ensures r.Err? <==> Get(info, "last_launched", Null) != Null && Datetimes.Seconds(info["last_launched"]).None?
    ensures r.Err? ==> r.error == InvalidRecord(key)
    ensures r.Ok? ==> r.value.1 == Get(info, "times_launched", Int(0))
    ensures r.Ok? && r.value.0.None? ==> Get(info, "last_launched", Null) == Null
    ensures r.Ok? && r.value.0.Some? ==>
              "last_launched" in info && Datetimes.Seconds(info["last_launched"]) == r.value.0
  {
    var last := Get(info, "last_launched", Null);
    if last == Null then Ok((None, Get(info, "times_launched", Int(0))))
    else match Datetimes.Seconds(last)
      case Some(t) => Ok((Some(t), Get(info, "times_launched", Int(0))))
      case None => Err(InvalidRecord(key))
  }
}
