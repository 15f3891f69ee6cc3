/** `execute_action`: what the launcher does with the action string of a
    chosen item. App and friend actions are looked up in the cache, navigation
    and cache actions get a record under `navs`; a found item has its launch
    recorded and the cache saved, and the cache is then rebuilt unless the
    action says otherwise. The processes started, the cache and image
    clearing, the save and the rebuild are returned as a list of effects, in
    the order the function causes them, together with the exception that
    ended the call, if one did.

    `Execute` is the function with three defects of the source corrected: its
    imports resolve, a "w:" action runs `xdg-open` away from Windows, and the
    launch is recorded in the fields `get_launches` reads back.
    `ExecuteAsWritten`, `WebCommandAsWritten` and `BumpedAsWritten` keep the
    source's own behaviour. */
module Enter {
  import opened Wrappers
  import opened Text
  import opened Json
  import Items
  import Cache
  import Datetimes

  /** What the function does outside itself. */
  datatype Effect =
    | Spawn(command: string)   // Popen(command, shell=True)
    | ClearCache               // clear_cache()
    | ClearImages              // clear_images()
    | BuildCache(force: bool)  // build_cache(preferences, force=force)
    | SaveCache(cache: Dict)   // save_cache(cache, preferences)

  /** The exceptions that escape. */
  datatype EnterError =
    | ImportFailed(name: string)     // ImportError at the start of the function
    | MissingPreference(key: string) // KeyError on preferences[key]
    | InvalidId(text: string)        // ValueError from int()
    | NotADict(key: string)          // AttributeError on .keys() of a section that is not a dict
    | InvalidRecord(key: string)     // get_launches on a record it cannot read

  /** What a call did before it returned or raised: the effects in order, and
      the exception that ended it, if any. */
  datatype Outcome = Outcome(effects: seq<Effect>, raised: Option<EnterError>)

  /** `force_cache`: False, True or "skip". */
  datatype Force = Plain | Forced | Skip

  /** Where the dispatch leaves off: return with the effects so far, or record
      a launch of `cache[section][key]` after them. */
  datatype Step =
    | Stop(effects: seq<Effect>)
    | Record(cache: Dict, section: string, key: string, effects: seq<Effect>, force: Force)

  function Pref(prefs: map<string, string>, key: string): (r: Result<string, EnterError>)
    ensures r.Ok? <==> key in prefs
    ensures r.Ok? ==> r.value == prefs[key]
  {
    if key in prefs then Ok(prefs[key]) else Err(MissingPreference(key))
  }

  // The command.

  /** A folder with the separator appended when it is missing. */
  function WithSep(folder: string, sep: string): (r: string)
    ensures EndsWith(r, sep)
    ensures r == folder || r == folder + sep
    ensures EndsWith(folder, sep) ==> r == folder
  {
    if EndsWith(folder, sep) then folder
    else
      assert (folder + sep)[|folder + sep| - |sep|..] == sep;
      folder + sep
  }

  /** "steam", or on Windows the quoted `steam.exe` in `STEAM_FOLDER`. */
  function Command(prefs: map<string, string>, isNt: bool): (r: Result<string, EnterError>)
    ensures !isNt ==> r == Ok("steam")
    ensures isNt ==> (r.Ok? <==> "STEAM_FOLDER" in prefs)
    ensures isNt && r.Ok? ==> r.value == "\"" + WithSep(prefs["STEAM_FOLDER"], "\\") + "steam.exe\""
  {
    if !isNt then Ok("steam")
    else
      var folder :- Pref(prefs, "STEAM_FOLDER");
      Ok("\"" + WithSep(folder, "\\") + "steam.exe\"")
  }

  // Finding the item.

  /** `section in cache.keys() and key in cache[section].keys()`. */
  function HasKey(cache: Dict, section: string, key: string): (r: Result<bool, EnterError>)
    ensures r.Err? <==> section in cache && !cache[section].Obj?
    ensures r.Ok? ==> (r.value <==> section in cache && key in cache[section].fields)
  {
    if section !in cache then Ok(false)
    else if !cache[section].Obj? then Err(NotADict(section))
    else Ok(key in cache[section].fields)
  }

  /** `action.split("/")[-1]`. */
  function LastPiece(action: string): string {
    var pieces := Split(action, '/');
    pieces[|pieces| - 1]
  }

  /** An app action: the ID after the last "/", looked up in `apps` and then
      in `nonSteam`; launched with what follows "APP". */
  function AppStep(action: string, command: string, cache: Dict, execute: bool): (r: Result<Step, EnterError>)
    requires StartsWith(action, "APP")
    ensures r.Ok? && r.value.Record? ==> Locates(r.value) && Early(r.value.effects)
    ensures r.Ok? && !execute ==> r.value.effects == []
  {
    var text := LastPiece(action);
    var id := ParseInt(text);
    if id.None? then Err(InvalidId(text))
    else
      var key := IntToString(id.value);
      var spawn := if execute then [Spawn(command + " " + action[3..])] else [];
      var inApps :- HasKey(cache, "apps", key);
      if inApps then Ok(Record(cache, "apps", key, spawn, Plain))
      else
        var inNonSteam :- HasKey(cache, "nonSteam", key);
        if inNonSteam then Ok(Record(cache, "nonSteam", key, spawn, Plain))
        else Ok(Stop([]))
  }

  /** The URI `FRIEND_ACTION` names, if it names one: the chat page for
      "chat", the profile page for "profile", none for anything else. */
  function FriendUri(how: string, key: string): (r: Option<string>)
    ensures how == "chat" ==> r == Some("steam://friends/message/" + key)
    ensures how == "profile" ==> r == Some("steam://url/SteamIDPage/" + key)
    ensures how != "chat" && how != "profile" ==> r.None?
  {
    if how == "chat" then Some("steam://friends/message/" + key)
    else if how == "profile" then Some("steam://url/SteamIDPage/" + key)
    else None
  }

  /** A friend action: the ID after "FRIEND", looked up in `friends`; when
      executing, opened the way `FRIEND_ACTION` says. */
  function FriendStep(action: string, prefs: map<string, string>, command: string, cache: Dict, execute: bool)
    : (r: Result<Step, EnterError>)
    requires StartsWith(action, "FRIEND")
    ensures r.Ok? && r.value.Record? ==> Locates(r.value) && Early(r.value.effects)
    ensures r.Ok? && !execute ==> r.value.effects == []
  {
    var text := action[6..];
    var id := ParseInt(text);
    if id.None? then Err(InvalidId(text))
    else
      var key := IntToString(id.value);
      var found :- HasKey(cache, "friends", key);
      if !found then Ok(Stop([]))
      else if !execute then Ok(Record(cache, "friends", key, [], Plain))
      else
        var how :- Pref(prefs, "FRIEND_ACTION");
        var uri := FriendUri(how, key);
        if uri.None? then Ok(Stop([]))
        else Ok(Record(cache, "friends", key, [Spawn(command + " " + uri.value)], Plain))
  }

  /** The cache after `ensure_dict_key_is_dict(cache, "navs")` and
      `ensure_dict_key_is_dict(cache["navs"], action)`. */
  function WithNav(cache: Dict, action: string): (r: Dict)
    ensures "navs" in r && r["navs"].Obj? && action in r["navs"].fields && r["navs"].fields[action].Obj?
    ensures forall k :: k != "navs" ==> (k in r <==> k in cache) && (k in cache ==> r[k] == cache[k])
    ensures "navs" in cache && cache["navs"].Obj? ==>
              forall a :: a != action ==> (a in r["navs"].fields <==> a in cache["navs"].fields) &&
                                          (a in cache["navs"].fields ==> r["navs"].fields[a] == cache["navs"].fields[a])
    ensures "navs" in cache && cache["navs"].Obj? && action in cache["navs"].fields && cache["navs"].fields[action].Obj? ==>
              r == cache
  {
    var withNavs := Cache.EnsureDict(cache, "navs").0;
    withNavs["navs" := Obj(Cache.EnsureDict(withNavs["navs"].fields, action).0)]
  }

  /** Record a launch under `navs[action]`. */
  function NavRecord(cache: Dict, action: string, effects: seq<Effect>, force: Force): (r: Step)
    ensures r.Record? && Locates(r)
  {
    Record(WithNav(cache, action), "navs", action, effects, force)
  }

  /** The command for a "w:" action. The branch condition is inverted in the
      source; this is the behaviour its own comment describes: `xdg-open`
      away from Windows, nothing on Windows. */
  function WebCommand(isNt: bool, rest: string): (r: Option<string>)
    ensures r.Some? <==> !isNt
    ensures r.Some? ==> r.value == "xdg-open https://" + rest
  {
    if isNt then None else Some("xdg-open https://" + rest)
  }

  /** The "w:" command as the source chooses it: `xdg-open` only on Windows. */
  function WebCommandAsWritten(isNt: bool, rest: string): (r: Option<string>)
    ensures r.Some? <==> isNt
    ensures r.Some? ==> r.value == "xdg-open https://" + rest
  {
    if isNt then Some("xdg-open https://" + rest) else None
  }

  /** The source opens a web address with the Linux `xdg-open` only on
      Windows, and refuses everywhere else. */
  lemma WebAsWrittenInverted(rest: string)
    ensures WebCommandAsWritten(false, rest).None? && WebCommandAsWritten(true, rest).Some?
    ensures WebCommand(false, rest) == WebCommandAsWritten(true, rest)
    ensures WebCommand(true, rest) == WebCommandAsWritten(false, rest)
  {
  }

  /** A Steam ("s:") or web ("w:") navigation. */
  function NavStep(action: string, isNt: bool, command: string, cache: Dict, execute: bool): (r: Step)
    requires StartsWith(action, "s:") || StartsWith(action, "w:")
    ensures r.Record? ==> Locates(r) && Early(r.effects)
    ensures !execute ==> r.effects == []
  {
    var rest := action[2..];
    var toRun := if StartsWith(action, "s:") then Some(command + " steam://" + rest) else WebCommand(isNt, rest);
    if toRun.None? then Stop([])
    else NavRecord(cache, action, if execute then [Spawn(toRun.value)] else [], Plain)
  }

  /** The `if`/`elif` chain on the action. */
  function Dispatch(action: string, prefs: map<string, string>, isNt: bool, command: string, cache: Dict, execute: bool)
    : (r: Result<Step, EnterError>)
    ensures r.Ok? && r.value.Record? ==> Locates(r.value)
    ensures r.Ok? && r.value.Record? ==> Early(r.value.effects)
  {
    if StartsWith(action, "APP") then AppStep(action, command, cache, execute)
    else if StartsWith(action, "FRIEND") then FriendStep(action, prefs, command, cache, execute)
    else if StartsWith(action, "s:") || StartsWith(action, "w:") then Ok(NavStep(action, isNt, command, cache, execute))
    else if action == "update_cache" then Ok(NavRecord(cache, action, [], if execute then Forced else Plain))
    else if action == "clear_cache" then
      Ok(if execute then Stop([ClearCache]) else NavRecord(cache, action, [], Plain))
    else if action == "clear_images" then
      Ok(NavRecord(cache, action, if execute then [ClearImages] else [], if execute then Skip else Plain))
    else if action == "rebuild_cache" then
      Ok(if execute then Stop([ClearCache, ClearImages, BuildCache(false)]) else NavRecord(cache, action, [], Plain))
    else Ok(Stop([]))  // "no_results", "error" and any other action
  }

  /** Effects that may precede the reading of the record: a started process
      and cleared images, never a save or a rebuild. */
  predicate Early(effects: seq<Effect>) {
    forall e | e in effects :: e.Spawn? || e.ClearImages?
  }

  /** The item a record step names is in the cache, in a dict. */
  predicate Locates(step: Step)
    requires step.Record?
  {
    step.section in step.cache && step.cache[step.section].Obj? && step.key in step.cache[step.section].fields
  }

  // Recording the launch.

  /** `get_launches(cache_item)` on a record that must be a dict, then
      `times += 1`, which raises unless the count is a number. */
  function LaunchesOf(record: Json, key: string): (r: Result<(Option<int>, int), EnterError>)
    ensures r.Ok? <==> record.Obj? && Items.Launches(record.fields, key).Ok? &&
                       Items.Number(Items.Launches(record.fields, key).value.1).Some?
    ensures r.Ok? ==> r.value == (Items.Launches(record.fields, key).value.0,
                                  Items.Number(Items.Launches(record.fields, key).value.1).value)
  {
    if !record.Obj? then Err(InvalidRecord(key))
    else match Items.Launches(record.fields, key)
      case Ok((last, times)) =>
        if Items.Number(times).None? then Err(InvalidRecord(key)) else Ok((last, Items.Number(times).value))
      case Err(_) => Err(InvalidRecord(key))
  }

  /** `datetime_to_timestamp(launched)`: the last launch, or now. */
  function Stamp(last: Option<int>, now: int): int {
    last.GetOr(now)
  }

  /** Replace the record at `cache[section][key]`. */
  function Put(cache: Dict, section: string, key: string, record: Dict): (r: Dict)
    requires section in cache && cache[section].Obj?
    ensures section in r && r[section].Obj? && key in r[section].fields && r[section].fields[key] == Obj(record)
    ensures forall s :: s != section ==> (s in r <==> s in cache) && (s in cache ==> r[s] == cache[s])
    ensures forall k :: k != key ==> (k in r[section].fields <==> k in cache[section].fields) &&
                                     (k in cache[section].fields ==> r[section].fields[k] == cache[section].fields[k])
  {
    cache[section := Obj(cache[section].fields[key := Obj(record)])]
  }

  /** The launch recorded in the fields `get_launches` reads: the count one
      higher and the last launch kept (or set to now when there was none). */
  function Bumped(cache: Dict, section: string, key: string, now: int): (r: Result<Dict, EnterError>)
    requires section in cache && cache[section].Obj? && key in cache[section].fields
    ensures r.Ok? <==> LaunchesOf(cache[section].fields[key], key).Ok?
    ensures r.Ok? ==> SameElsewhere(cache, r.value, section, key)
    ensures r.Ok? ==> cache[section].fields[key].Obj? &&
                      var before, after := RecordFields(cache, section, key), RecordFields(r.value, section, key);
                      var launches := LaunchesOf(cache[section].fields[key], key).value;
                        "last_launched" in after && after["last_launched"] == Int(Stamp(launches.0, now)) &&
                        "times_launched" in after && after["times_launched"] == Int(launches.1 + 1) &&
                        forall f :: f != "last_launched" && f != "times_launched" ==>
                                      (f in after <==> f in before) && (f in before ==> after[f] == before[f])
  {
    var launches :- LaunchesOf(cache[section].fields[key], key);
    var fields := cache[section].fields[key].fields;
    var updated := fields["last_launched" := Int(Stamp(launches.0, now))]["times_launched" := Int(launches.1 + 1)];
    Ok(Put(cache, section, key, updated))
  }

  /** The launch as the source records it: one string `"<ts>x<count>"` under
      "launched", a field `get_launches` never reads. */
  function BumpedAsWritten(cache: Dict, section: string, key: string, now: int): (r: Result<Dict, EnterError>)
    requires section in cache && cache[section].Obj? && key in cache[section].fields
    ensures r.Ok? <==> LaunchesOf(cache[section].fields[key], key).Ok?
    ensures r.Ok? ==> SameElsewhere(cache, r.value, section, key)
    ensures r.Ok? ==> cache[section].fields[key].Obj? &&
                      var before, after := RecordFields(cache, section, key), RecordFields(r.value, section, key);
                        "launched" in after &&
                        after["launched"] == Str(IntToString(Stamp(LaunchesOf(cache[section].fields[key], key).value.0, now)) + "x" +
                                                 IntToString(LaunchesOf(cache[section].fields[key], key).value.1 + 1)) &&
                        forall f :: f != "launched" ==> (f in after <==> f in before) && (f in before ==> after[f] == before[f])
  {
    var launches :- LaunchesOf(cache[section].fields[key], key);
    var fields := cache[section].fields[key].fields;
    var updated := fields["launched" := Str(IntToString(Stamp(launches.0, now)) + "x" + IntToString(launches.1 + 1))];
    Ok(Put(cache, section, key, updated))
  }

  /** `after` differs from `before` at most in the record `before[section][key]`,
      which it holds as a dict. */
  ghost predicate SameElsewhere(before: Dict, after: Dict, section: string, key: string)
    requires section in before && before[section].Obj?
  {
    section in after && after[section].Obj? && key in after[section].fields && after[section].fields[key].Obj? &&
    (forall s :: s != section ==> (s in after <==> s in before) && (s in before ==> after[s] == before[s])) &&
    (forall k :: k != key ==> (k in after[section].fields <==> k in before[section].fields) &&
                              (k in before[section].fields ==> after[section].fields[k] == before[section].fields[k]))
  }

  /** The record at `cache[section][key]`, as a dict. */
  function RecordFields(cache: Dict, section: string, key: string): Dict
    requires section in cache && cache[section].Obj? && key in cache[section].fields && cache[section].fields[key].Obj?
  {
    cache[section].fields[key].fields
  }

  /** Recorded the source's way, the launch count `get_launches` reads back
      never moves. */
  lemma CounterStuckAsWritten(cache: Dict, section: string, key: string, now: int)
    requires section in cache && cache[section].Obj? && key in cache[section].fields
    requires BumpedAsWritten(cache, section, key, now).Ok?
    ensures cache[section].fields[key].Obj?
    ensures var saved := BumpedAsWritten(cache, section, key, now).value;
              Items.Launches(RecordFields(saved, section, key), key) == Items.Launches(RecordFields(cache, section, key), key)
  {
    var fields := RecordFields(cache, section, key);
    var saved := BumpedAsWritten(cache, section, key, now).value;
    var updated := RecordFields(saved, section, key);
    assert updated == fields["launched" := updated["launched"]];
    assert "launched" != "last_launched" && "launched" != "times_launched";
    assert forall f :: f != "launched" ==> (f in updated <==> f in fields) && (f in fields ==> updated[f] == fields[f]);
  }

  /** Recorded in the fields `get_launches` reads, the count goes up by one
      and the last launch is the one before, or now when there was none. */
  lemma CounterAdvances(cache: Dict, section: string, key: string, now: int)
    requires section in cache && cache[section].Obj? && key in cache[section].fields
    requires Datetimes.InRange(now)
    requires Bumped(cache, section, key, now).Ok?
    ensures cache[section].fields[key].Obj? && Items.Launches(RecordFields(cache, section, key), key).Ok?
    ensures Items.Number(Items.Launches(RecordFields(cache, section, key), key).value.1).Some?
    ensures var before := Items.Launches(RecordFields(cache, section, key), key).value;
            var saved := Bumped(cache, section, key, now).value;
              Items.Launches(RecordFields(saved, section, key), key).Ok? &&
              Items.Launches(RecordFields(saved, section, key), key).value.1 == Int(Items.Number(before.1).value + 1) &&
              Items.Launches(RecordFields(saved, section, key), key).value.0 == Some(Stamp(before.0, now))
  {
  }

  /** As in the source, the stamp is the launch read before the bump: once a
      record has a last launch, launching it again leaves that time as it was,
      whatever the time now. */
  lemma LastLaunchStays(cache: Dict, section: string, key: string, now: int, t: int)
    requires section in cache && cache[section].Obj? && key in cache[section].fields
    requires Datetimes.InRange(now)
    requires Bumped(cache, section, key, now).Ok?
    requires Items.Launches(RecordFields(cache, section, key), key).value.0 == Some(t)
    ensures Items.Launches(RecordFields(Bumped(cache, section, key, now).value, section, key), key).Ok?
    ensures Items.Launches(RecordFields(Bumped(cache, section, key, now).value, section, key), key).value.0 == Some(t)
  {
    CounterAdvances(cache, section, key, now);
  }

  // The whole function.

  /** The rebuild at the end: none when not executing or when told to skip. */
  function Rebuild(execute: bool, force: Force): (r: seq<Effect>)
    ensures r == [] <==> !execute || force == Skip
    ensures r != [] ==> r == [BuildCache(force == Forced)]
  {
    if execute && force != Skip then [BuildCache(force == Forced)] else []
  }

  /** `execute_action(action, preferences, execute)`, corrected, on the loaded
      cache at time `now` (epoch seconds). Every lookup comes before the first
      effect, so only a record `get_launches` cannot read raises after
      something was done: after the process was started or the images
      cleared, and before anything is saved or rebuilt. */
  function Execute(action: string, prefs: map<string, string>, isNt: bool, cache: Dict, now: int, execute: bool)
    : (r: Outcome)
    ensures r.raised.Some? ==> Early(r.effects)
    ensures r.raised.Some? && !execute ==> r.effects == []
  {
    match Command(prefs, isNt)
    case Err(e) => Outcome([], Some(e))
    case Ok(command) =>
      match Dispatch(action, prefs, isNt, command, cache, execute)
      case Err(e) => Outcome([], Some(e))
      case Ok(step) =>
        match step
        case Stop(effects) => Outcome(effects, None)
        case Record(c, section, key, effects, force) =>
          assert Locates(step);
          DispatchQuiet(action, prefs, isNt, command, cache);
          match Bumped(c, section, key, now)
          case Err(e) => Outcome(effects, Some(e))
          case Ok(saved) => Outcome(effects + [SaveCache(saved)] + Rebuild(execute, force), None)
  }

  /** The names cache.py defines or imports at its top level; it has no
      `clear_images`. */
  const CACHE_NAMES: seq<string> := [
    "DIR_SEP", "EXTENSION_PATH", "get_logger", "datetime", "timedelta", "Logger", "makedirs", "remove", "isdir",
    "isfile", "Any", "Literal", "HTTPError", "urlretrieve", "log", "download_steam_app_icon",
    "download_steam_friend_icon", "load_cache", "get_blacklist", "str_to_timedelta", "ensure_dict_key_is_dict",
    "get_steam_folders", "datetime_to_timestamp", "save_cache", "clear_cache", "build_cache"]

  /** The names `execute_action` imports from cache.py, in order. */
  const CACHE_IMPORTS: seq<string> := [
    "build_cache", "clear_cache", "clear_images", "datetime_to_timestamp", "ensure_dict_key_is_dict", "load_cache",
    "save_cache"]

  /** The names query.py defines at its top level; `get_launches` is local to
      `query_cache`. */
  const QUERY_NAMES: seq<string> := [
    "DEFAULT_ICON", "DIR_SEP", "EXTENSION_PATH", "get_logger", "datetime", "Logger", "Any", "Literal",
    "log", "SteamExtensionItem", "get_lang_string", "query_cache"]

  /** `from query import <name>`. */
  function ImportFrom(names: seq<string>, name: string): (r: Result<(), EnterError>)
    ensures r.Ok? <==> name in names
  {
    if name in names then Ok(()) else Err(ImportFailed(name))
  }

  /** `from <module> import (<names>)`: ImportError on the first name the
      module lacks. */
  function ImportAll(defined: seq<string>, names: seq<string>): (r: Result<(), EnterError>)
    ensures r.Ok? <==> forall k :: 0 <= k < |names| ==> names[k] in defined
    ensures r.Err? ==> exists j :: 0 <= j < |names| && r.error == ImportFailed(names[j]) && names[j] !in defined &&
                                   forall k :: 0 <= k < j ==> names[k] in defined
  {
    if names == [] then Ok(())
    else
      var _ :- ImportFrom(defined, names[0]);
      var rest := ImportAll(defined, names[1..]);
      assert forall k :: 1 <= k < |names| ==> names[k] == names[1..][k - 1];
      rest
  }

  /** The function as written: its imports come first, and two of them name
      something the module does not define at its top level. */
  function ExecuteAsWritten(action: string, prefs: map<string, string>, isNt: bool, cache: Dict, now: int, execute: bool)
    : (r: Outcome)
    ensures ImportAll(CACHE_NAMES, CACHE_IMPORTS).Err? ==> r == Outcome([], Some(ImportAll(CACHE_NAMES, CACHE_IMPORTS).error))
  {
    match ImportAll(CACHE_NAMES, CACHE_IMPORTS)
    case Err(e) => Outcome([], Some(e))
    case Ok(_) =>
      match ImportFrom(QUERY_NAMES, "get_launches")
      case Err(e) => Outcome([], Some(e))
      case Ok(_) => Execute(action, prefs, isNt, cache, now, execute)
  }

  /** As written, every call raises ImportError on `clear_images` before doing
      anything; `get_launches` would fail next. */
  lemma AsWrittenAlwaysFails(action: string, prefs: map<string, string>, isNt: bool, cache: Dict, now: int, execute: bool)
    ensures ExecuteAsWritten(action, prefs, isNt, cache, now, execute) == Outcome([], Some(ImportFailed("clear_images")))
    ensures ImportFrom(QUERY_NAMES, "get_launches").Err?
  {
    assert CACHE_IMPORTS[0] in CACHE_NAMES && CACHE_IMPORTS[1] in CACHE_NAMES;
    assert "clear_images" !in CACHE_NAMES by {
      forall i | 0 <= i < |CACHE_NAMES| ensures CACHE_NAMES[i] != "clear_images" {
        assert |CACHE_NAMES[i]| != 12;
      }
    }
    assert "get_launches" !in QUERY_NAMES by {
      forall i | 0 <= i < |QUERY_NAMES| ensures QUERY_NAMES[i] != "get_launches" {
        assert |QUERY_NAMES[i]| != 12 || QUERY_NAMES[i][0] != 'g';
      }
    }
  }

  // The function step by step.

  /** The app branch: find the ID in `apps`, else in `nonSteam`. */
  method AppRoute(action: string, command: string, cache: Dict, execute: bool) returns (r: Result<Step, EnterError>)
    requires StartsWith(action, "APP")
    ensures r == AppStep(action, command, cache, execute)
  {
    var text := LastPiece(action);
    var id := ParseInt(text);
    if id.None? {
      return Err(InvalidId(text));
    }
    var key := IntToString(id.value);
    var effects: seq<Effect> := [];
    if execute {
      effects := [Spawn(command + " " + action[3..])];
    }
    var section := "apps";
    var found :- HasKey(cache, section, key);
    if !found {
      section := "nonSteam";
      found :- HasKey(cache, section, key);
      if !found {
        return Ok(Stop([]));
      }
    }
    return Ok(Record(cache, section, key, effects, Plain));
  }

  /** The friend branch: find the ID in `friends`, then open the page
      `FRIEND_ACTION` names. */
  method FriendRoute(action: string, prefs: map<string, string>, command: string, cache: Dict, execute: bool)
    returns (r: Result<Step, EnterError>)
    requires StartsWith(action, "FRIEND")
    ensures r == FriendStep(action, prefs, command, cache, execute)
  {
    var text := action[6..];
    var id := ParseInt(text);
    if id.None? {
      return Err(InvalidId(text));
    }
    var key := IntToString(id.value);
    var found :- HasKey(cache, "friends", key);
    if !found {
      return Ok(Stop([]));
    }
    var effects: seq<Effect> := [];
    if execute {
      var how :- Pref(prefs, "FRIEND_ACTION");
      var uri := FriendUri(how, key);
      if uri.None? {
        return Ok(Stop([]));
      }
      effects := [Spawn(command + " " + uri.value)];
    }
    return Ok(Record(cache, "friends", key, effects, Plain));
  }

  /** The `if`/`elif` chain, with the working copy of the cache, the effects
      so far and `force_cache` updated as each branch says. */
  method Route(action: string, prefs: map<string, string>, isNt: bool, command: string, loaded: Dict, execute: bool)
    returns (r: Result<Step, EnterError>)
    ensures r == Dispatch(action, prefs, isNt, command, loaded, execute)
  {
    if StartsWith(action, "APP") {
      r := AppRoute(action, command, loaded, execute);
      return;
    }
    if StartsWith(action, "FRIEND") {
      r := FriendRoute(action, prefs, command, loaded, execute);
      return;
    }
    var cache := loaded;
    var effects: seq<Effect> := [];
    var force := Plain;
    if StartsWith(action, "s:") || StartsWith(action, "w:") {
      var rest := action[2..];
      var toRun := if StartsWith(action, "s:") then Some(command + " steam://" + rest) else WebCommand(isNt, rest);
      if toRun.None? {
        return Ok(Stop([]));
      }
      if execute {
        effects := [Spawn(toRun.value)];
      }
    } else if action == "update_cache" {
      if execute {
        force := Forced;
      }
    } else if action == "clear_cache" {
      if execute {
        return Ok(Stop([ClearCache]));
      }
    } else if action == "clear_images" {
      if execute {
        effects := [ClearImages];
        force := Skip;
      }
    } else if action == "rebuild_cache" {
      if execute {
        return Ok(Stop([ClearCache, ClearImages, BuildCache(false)]));
      }
    } else {
      return Ok(Stop([]));
    }
    cache := WithNav(cache, action);
    return Ok(Record(cache, "navs", action, effects, force));
  }

  /** `execute_action`: route the action, then record the launch, save the
      cache and rebuild it as `force_cache` says. */
  method ExecuteAction(action: string, prefs: map<string, string>, isNt: bool, loaded: Dict, now: int, execute: bool)
    returns (r: Outcome)
    ensures r == Execute(action, prefs, isNt, loaded, now, execute)
  {
    var command := Command(prefs, isNt);
    if command.Err? {
      return Outcome([], Some(command.error));
    }
    var routed := Route(action, prefs, isNt, command.value, loaded, execute);
    if routed.Err? {
      return Outcome([], Some(routed.error));
    }
    var step := routed.value;
    if step.Stop? {
      return Outcome(step.effects, None);
    }
    var saved := Bumped(step.cache, step.section, step.key, now);
    if saved.Err? {
      return Outcome(step.effects, Some(saved.error));
    }
    var rebuild: seq<Effect> := [];
    if execute && step.force != Skip {
      rebuild := [BuildCache(step.force == Forced)];
    }
    return Outcome(step.effects + [SaveCache(saved.value)] + rebuild, None);
  }

  // Properties.

  /** The action an app item carries leads back to its ID, and what follows
      "APP" is the Steam URI that runs it. */
  lemma AppActionRoundTrip(id: int)
    ensures var action := Items.APP_ACTION_PREFIX + IntToString(id);
              StartsWith(action, "APP") && ParseInt(LastPiece(action)) == Some(id) &&
              action[3..] == Items.RUN_GAME_URI + IntToString(id)
  {
    var digits := IntToString(id);
    var action := Items.APP_ACTION_PREFIX + digits;
    assert LastPiece(action) == digits by {
      IntToStringPlain(id);
      assert Items.RUN_GAME_URI == "steam://rungameid" + ['/'];
      assert action == "APP" + "steam://rungameid" + ['/'] + digits;
      SplitLast("APP" + "steam://rungameid", '/', digits);
    }
    assert ParseInt(digits) == Some(id) by {
      ParseIntToString(id);
    }
    assert action == "APP" + (Items.RUN_GAME_URI + digits) by {
      Regroup("APP", Items.RUN_GAME_URI, digits);
    }
    Prefixed("APP", Items.RUN_GAME_URI + digits);
  }

  lemma Regroup<T>(a: seq<T>, b: seq<T>, c: seq<T>)
    ensures a + b + c == a + (b + c)
  {
  }

  lemma Prefixed<T>(a: seq<T>, b: seq<T>)
    ensures (a + b)[..|a|] == a && (a + b)[|a|..] == b
  {
  }

  /** Choosing an app item runs it through Steam when it is still in `apps`
      or `nonSteam`, and records its launch there; an app in neither is
      dropped without a trace. */
  lemma AppDispatch(item: Items.Item, prefs: map<string, string>, isNt: bool, command: string, cache: Dict, execute: bool)
    requires item.kind == Items.App && item.id.Some?
    requires "apps" in cache ==> cache["apps"].Obj?
    requires "nonSteam" in cache ==> cache["nonSteam"].Obj?
    ensures var key := IntToString(item.id.value);
            var inApps := "apps" in cache && key in cache["apps"].fields;
            var r := Dispatch(Items.GetAction(item), prefs, isNt, command, cache, execute);
              r.Ok? &&
              (r.value.Record? <==> inApps || ("nonSteam" in cache && key in cache["nonSteam"].fields)) &&
              (r.value.Stop? ==> r.value.effects == []) &&
              (r.value.Record? ==>
                 r.value.cache == cache && r.value.key == key && r.value.force == Plain &&
                 r.value.section == (if inApps then "apps" else "nonSteam") &&
                 r.value.effects == if execute then [Spawn(command + " " + (Items.RUN_GAME_URI + key))] else [])
  {
    var key := IntToString(item.id.value);
    var action := Items.GetAction(item);
    assert action == Items.APP_ACTION_PREFIX + key;
    AppActionRoundTrip(item.id.value);
    assert Dispatch(action, prefs, isNt, command, cache, execute) == AppStep(action, command, cache, execute);
    assert action[3..] == Items.RUN_GAME_URI + key;
  }

  /** Choosing a friend opens the chat or the profile page that
      `FRIEND_ACTION` asks for; a friend no longer cached, or any other
      `FRIEND_ACTION`, leads nowhere. */
  lemma FriendDispatch(id: int, prefs: map<string, string>, isNt: bool, command: string, cache: Dict, execute: bool)
    requires "friends" in cache ==> cache["friends"].Obj?
    ensures var key := IntToString(id);
            var found := "friends" in cache && key in cache["friends"].fields;
            var r := Dispatch("FRIEND" + key, prefs, isNt, command, cache, execute);
              (r.Err? <==> found && execute && "FRIEND_ACTION" !in prefs) &&
              (r.Ok? && r.value.Stop? ==> r.value.effects == []) &&
              (r.Ok? ==> (r.value.Record? <==> found && (!execute || FriendUri(prefs["FRIEND_ACTION"], key).Some?))) &&
              (r.Ok? && r.value.Record? ==>
                 r.value.cache == cache && r.value.section == "friends" && r.value.key == key && r.value.force == Plain &&
                 r.value.effects == if execute then [Spawn(command + " " + FriendUri(prefs["FRIEND_ACTION"], key).value)] else [])
  {
    var key := IntToString(id);
    var action := "FRIEND" + key;
    Prefixed("FRIEND", key);
    assert StartsWith(action, "FRIEND") && action[6..] == key;
    assert !StartsWith(action, "APP") by {
      assert action[0] == 'F';
    }
    ParseIntToString(id);
    assert Dispatch(action, prefs, isNt, command, cache, execute) == FriendStep(action, prefs, command, cache, execute);
    FriendStepParsed(action, id, prefs, command, cache, execute);
  }

  /** `FriendStep` once the ID after "FRIEND" has been read. */
  lemma FriendStepParsed(action: string, id: int, prefs: map<string, string>, command: string, cache: Dict, execute: bool)
    requires StartsWith(action, "FRIEND") && ParseInt(action[6..]) == Some(id)
    requires "friends" in cache ==> cache["friends"].Obj?
    ensures var key := IntToString(id);
            var found := "friends" in cache && key in cache["friends"].fields;
            var r := FriendStep(action, prefs, command, cache, execute);
              (r.Err? <==> found && execute && "FRIEND_ACTION" !in prefs) &&
              (r.Ok? && r.value.Stop? ==> r.value.effects == []) &&
              (r.Ok? ==> (r.value.Record? <==> found && (!execute || FriendUri(prefs["FRIEND_ACTION"], key).Some?))) &&
              (r.Ok? && r.value.Record? ==>
                 r.value.cache == cache && r.value.section == "friends" && r.value.key == key && r.value.force == Plain &&
                 r.value.effects == if execute then [Spawn(command + " " + FriendUri(prefs["FRIEND_ACTION"], key).value)] else [])
  {
  }

  /** A Steam navigation opens its URI through Steam; a web navigation opens
      its address with `xdg-open` away from Windows and does nothing on
      Windows. Either is recorded under `navs[action]`, created when missing. */
  lemma NavDispatch(action: string, prefs: map<string, string>, isNt: bool, command: string, cache: Dict, execute: bool)
    requires StartsWith(action, "s:") || StartsWith(action, "w:")
    ensures var r := Dispatch(action, prefs, isNt, command, cache, execute);
              r.Ok? &&
              (r.value.Record? <==> StartsWith(action, "s:") || !isNt) &&
              (r.value.Stop? ==> r.value.effects == []) &&
              (r.value.Record? ==>
                 r.value.cache == WithNav(cache, action) && r.value.section == "navs" && r.value.key == action &&
                 r.value.force == Plain &&
                 (!execute ==> r.value.effects == []) &&
                 (execute && StartsWith(action, "s:") ==> r.value.effects == [Spawn(command + " steam://" + action[2..])]) &&
                 (execute && !StartsWith(action, "s:") ==> r.value.effects == [Spawn("xdg-open https://" + action[2..])]))
  {
    assert !StartsWith(action, "APP") && !StartsWith(action, "FRIEND") by {
      assert action[0] == 's' || action[0] == 'w';
    }
    assert Dispatch(action, prefs, isNt, command, cache, execute) == Ok(NavStep(action, isNt, command, cache, execute));
  }

  /** An action no branch handles, "no_results" and "error" among them. */
  predicate Unhandled(action: string) {
    !StartsWith(action, "APP") && !StartsWith(action, "FRIEND") && !StartsWith(action, "s:") && !StartsWith(action, "w:") &&
    action != "update_cache" && action != "clear_cache" && action != "clear_images" && action != "rebuild_cache"
  }

  /** Such an action changes nothing and saves nothing. */
  lemma SilentActions(action: string, prefs: map<string, string>, isNt: bool, cache: Dict, now: int, execute: bool)
    requires action == "no_results" || action == "error" || Unhandled(action)
    ensures Unhandled(action)
    ensures Execute(action, prefs, isNt, cache, now, execute) ==
              Outcome([], if Command(prefs, isNt).Err? then Some(Command(prefs, isNt).error) else None)
  {
    if action == "no_results" || action == "error" {
      assert action[0] == 'n' || action[0] == 'e';
    }
  }

  /** `Execute` once the dispatch is known. */
  lemma ExecuteSteps(action: string, prefs: map<string, string>, isNt: bool, cache: Dict, now: int, execute: bool,
                     command: string, step: Step)
    requires Command(prefs, isNt) == Ok(command)
    requires Dispatch(action, prefs, isNt, command, cache, execute) == Ok(step)
    ensures step.Stop? ==> Execute(action, prefs, isNt, cache, now, execute) == Outcome(step.effects, None)
    ensures step.Record? ==> Locates(step)
    ensures step.Record? ==>
              var saved := Bumped(step.cache, step.section, step.key, now);
                Execute(action, prefs, isNt, cache, now, execute) ==
                  if saved.Err? then Outcome(step.effects, Some(saved.error))
                  else Outcome(step.effects + [SaveCache(saved.value)] + Rebuild(execute, step.force), None)
  {
  }

  /** The cache actions are told apart by name alone. */
  lemma CacheActionNames(action: string)
    requires action in ["update_cache", "clear_cache", "clear_images", "rebuild_cache"]
    ensures !StartsWith(action, "APP") && !StartsWith(action, "FRIEND") && !StartsWith(action, "s:") && !StartsWith(action, "w:")
  {
    assert action[0] == 'u' || action[0] == 'c' || action[0] == 'r';
  }

  /** Clearing the cache or rebuilding it, when executed, saves nothing. */
  lemma ClearingSavesNothing(prefs: map<string, string>, isNt: bool, cache: Dict, now: int)
    requires Command(prefs, isNt).Ok?
    ensures Execute("clear_cache", prefs, isNt, cache, now, true) == Outcome([ClearCache], None)
    ensures Execute("rebuild_cache", prefs, isNt, cache, now, true) == Outcome([ClearCache, ClearImages, BuildCache(false)], None)
  {
    CacheActionNames("clear_cache");
    CacheActionNames("rebuild_cache");
  }

  /** Updating the cache, when executed, records the action and forces a
      rebuild. */
  lemma UpdateForcesRebuild(prefs: map<string, string>, isNt: bool, cache: Dict, now: int)
    requires Command(prefs, isNt).Ok?
    ensures var r := Execute("update_cache", prefs, isNt, cache, now, true);
              (r.raised.None? ==> |r.effects| == 2 && r.effects[0].SaveCache? && r.effects[1] == BuildCache(true)) &&
              (r.raised.Some? ==> r.effects == [])
  {
    var command := Command(prefs, isNt).value;
    var step := NavRecord(cache, "update_cache", [], Forced);
    assert Dispatch("update_cache", prefs, isNt, command, cache, true) == Ok(step) by {
      CacheActionNames("update_cache");
    }
    ExecuteSteps("update_cache", prefs, isNt, cache, now, true, command, step);
  }

  /** Clearing the images, when executed, records the action and skips the
      rebuild; when the record cannot be read the images are gone all the
      same. */
  lemma ClearImagesSkipsRebuild(prefs: map<string, string>, isNt: bool, cache: Dict, now: int)
    requires Command(prefs, isNt).Ok?
    ensures var r := Execute("clear_images", prefs, isNt, cache, now, true);
              (r.raised.None? ==> |r.effects| == 2 && r.effects[0] == ClearImages && r.effects[1].SaveCache?) &&
              (r.raised.Some? ==> r.effects == [ClearImages])
  {
    var command := Command(prefs, isNt).value;
    var step := NavRecord(cache, "clear_images", [ClearImages], Skip);
    assert Dispatch("clear_images", prefs, isNt, command, cache, true) == Ok(step) by {
      CacheActionNames("clear_images");
    }
    ExecuteSteps("clear_images", prefs, isNt, cache, now, true, command, step);
    var out := Execute("clear_images", prefs, isNt, cache, now, true);
    if out.raised.None? {
      var saved := Bumped(step.cache, step.section, step.key, now).value;
      assert out.effects == [ClearImages] + [SaveCache(saved)] + Rebuild(true, Skip);
    }
  }

  /** Without `execute` no branch starts a process or touches the cache
      files. */
  lemma DispatchQuiet(action: string, prefs: map<string, string>, isNt: bool, command: string, cache: Dict)
    ensures var r := Dispatch(action, prefs, isNt, command, cache, false);
              r.Ok? ==> r.value.effects == []
  {
    var r := Dispatch(action, prefs, isNt, command, cache, false);
    if StartsWith(action, "APP") {
      assert r == AppStep(action, command, cache, false);
    } else if StartsWith(action, "FRIEND") {
      assert r == FriendStep(action, prefs, command, cache, false);
    } else if StartsWith(action, "s:") || StartsWith(action, "w:") {
      assert r == Ok(NavStep(action, isNt, command, cache, false));
    }
  }

  /** Without `execute` the function at most records the launch and saves
      the cache: nothing is started, cleared or rebuilt. */
  lemma DryRun(action: string, prefs: map<string, string>, isNt: bool, cache: Dict, now: int)
    ensures var r := Execute(action, prefs, isNt, cache, now, false);
              |r.effects| <= 1 && forall e | e in r.effects :: e.SaveCache?
  {
    var command := Command(prefs, isNt);
    if command.Ok? {
      DispatchQuiet(action, prefs, isNt, command.value, cache);
    }
  }

  /** Whenever the function records a launch, it saves the cache holding
      the bumped record right after the effects of the branch taken. */
  lemma LaunchSaved(action: string, prefs: map<string, string>, isNt: bool, cache: Dict, now: int, execute: bool)
    requires Command(prefs, isNt).Ok?
    requires Dispatch(action, prefs, isNt, Command(prefs, isNt).value, cache, execute).Ok?
    requires Dispatch(action, prefs, isNt, Command(prefs, isNt).value, cache, execute).value.Record?
    requires Execute(action, prefs, isNt, cache, now, execute).raised.None?
    ensures var step := Dispatch(action, prefs, isNt, Command(prefs, isNt).value, cache, execute).value;
            var out := Execute(action, prefs, isNt, cache, now, execute).effects;
              |out| > |step.effects| && out[..|step.effects|] == step.effects &&
              out[|step.effects|] == SaveCache(Bumped(step.cache, step.section, step.key, now).value)
  {
    var step := Dispatch(action, prefs, isNt, Command(prefs, isNt).value, cache, execute).value;
    assert Locates(step);
    var saved := Bumped(step.cache, step.section, step.key, now).value;
    var out := Execute(action, prefs, isNt, cache, now, execute).effects;
    assert out == step.effects + [SaveCache(saved)] + Rebuild(execute, step.force);
    assert out[..|step.effects|] == step.effects;
  }

  /** Whenever the function records a launch, the record it saves reads back
      with one launch more, last launched when it was before (or now). */
  lemma LaunchCounted(action: string, prefs: map<string, string>, isNt: bool, cache: Dict, now: int, execute: bool)
    requires Datetimes.InRange(now)
    requires Command(prefs, isNt).Ok?
    requires Dispatch(action, prefs, isNt, Command(prefs, isNt).value, cache, execute).Ok?
    requires Dispatch(action, prefs, isNt, Command(prefs, isNt).value, cache, execute).value.Record?
    requires Execute(action, prefs, isNt, cache, now, execute).raised.None?
    ensures var step := Dispatch(action, prefs, isNt, Command(prefs, isNt).value, cache, execute).value;
            var saved := Bumped(step.cache, step.section, step.key, now).value;
              step.cache[step.section].fields[step.key].Obj? &&
              Items.Launches(RecordFields(saved, step.section, step.key), step.key).Ok? &&
              Items.Number(Items.Launches(RecordFields(saved, step.section, step.key), step.key).value.1) ==
                Some(Items.Number(Items.Launches(RecordFields(step.cache, step.section, step.key), step.key).value.1).value + 1)
  {
    var step := Dispatch(action, prefs, isNt, Command(prefs, isNt).value, cache, execute).value;
    assert Locates(step);
    var saved := Bumped(step.cache, step.section, step.key, now).value;
    assert Bumped(step.cache, step.section, step.key, now).Ok?;
    CounterAdvances(step.cache, step.section, step.key, now);
  }
}
