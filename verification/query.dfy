/** `query_cache`: the items offered for a keyword and a search. App items come
    from the `steam_apps` and `non_steam_apps` sections of the cache,
    navigation items from the `STEAM_NAVIGATIONS` table (a `%a` template once
    per Steam app), action items from three fixed names. Without a search the
    items are sorted by their sort lists; with one they are filtered on every
    search word and ranked. At most `MAX_ITEMS` are kept, and an empty result
    becomes the single "no_results" item. */
module Query {
  import opened Wrappers
  import opened Text
  import opened Json
  import opened Items
  import Sorting
  import Const
  import Cache

  /** The cache as loaded, with the order in which Python's dicts list the keys
      of the two app sections. */
  datatype Loaded = Loaded(cache: Dict, steamAppKeys: seq<string>, nonSteamAppKeys: seq<string>)

  /** `keys` lists the keys of `d`, each once. */
  ghost predicate Lists(keys: seq<string>, d: Dict) {
    (forall i, j :: 0 <= i < j < |keys| ==> keys[i] != keys[j]) &&
    (forall k :: k in d <==> k in keys)
  }

  /** `cache[name]` when it is present and a dict. */
  function Section(cache: Dict, name: string): Option<Dict> {
    if name in cache && cache[name].Obj? then Some(cache[name].fields) else None
  }

  ghost predicate WellListed(loaded: Loaded) {
    (Section(loaded.cache, "steam_apps").Some? ==> Lists(loaded.steamAppKeys, Section(loaded.cache, "steam_apps").value)) &&
    (Section(loaded.cache, "non_steam_apps").Some? ==> Lists(loaded.nonSteamAppKeys, Section(loaded.cache, "non_steam_apps").value))
  }

  /** `str()` of a JSON value. */
  function JsonText(env: Env, v: Json): string {
    match v
    case Null => "None"
    case Bool(b) => if b then "True" else "False"
    case Int(i) => IntToString(i)
    case Str(s) => s
    case _ => env.repr(v)
  }

  // Collecting items section by section.

  /** A `for` loop that appends the items each element gives, stopping at the
      first exception. */
  function Gather<A>(xs: seq<A>, f: A -> Result<seq<Item>, QueryError>): Result<seq<Item>, QueryError> {
    if xs == [] then Ok([])
    else
      var front :- Gather(xs[..|xs| - 1], f);
      var more :- f(xs[|xs| - 1]);
      Ok(front + more)
  }

  /** An exception in a prefix is the exception of the whole loop. */
  lemma {:induction false} GatherStops<A>(xs: seq<A>, f: A -> Result<seq<Item>, QueryError>, i: int)
    requires 0 <= i <= |xs| && Gather(xs[..i], f).Err?
    ensures Gather(xs, f) == Gather(xs[..i], f)
    decreases |xs| - i
  {
    if i < |xs| {
      var n := |xs|;
      assert xs[..n - 1][..i] == xs[..i];
      GatherStops(xs[..n - 1], f, i);
      GatherStep(xs, f);
    } else {
      assert xs[..i] == xs;
    }
  }

  lemma GatherStep<A>(xs: seq<A>, f: A -> Result<seq<Item>, QueryError>)
    requires xs != [] && Gather(xs[..|xs| - 1], f).Err?
    ensures Gather(xs, f) == Gather(xs[..|xs| - 1], f)
  {
  }

  /** The loop itself. */
  method GatherEach<A>(xs: seq<A>, f: A -> Result<seq<Item>, QueryError>) returns (r: Result<seq<Item>, QueryError>)
    ensures r == Gather(xs, f)
  {
    var items: seq<Item> := [];
    for i := 0 to |xs|
      invariant Gather(xs[..i], f) == Ok(items)
    {
      assert xs[..i + 1][..i] == xs[..i];
      var more := f(xs[i]);
      if more.Err? {
        GatherStops(xs, f, i + 1);
        return Err(more.error);
      }
      items := items + more.value;
    }
    assert xs[..|xs|] == xs;
    return Ok(items);
  }

  /** When no element's items carry a blacklisted ID, the gathered items do
      not either. */
  lemma {:induction false} GatherAllowed<A>(xs: seq<A>, f: A -> Result<seq<Item>, QueryError>, blacklist: seq<int>)
    requires forall j :: 0 <= j < |xs| && f(xs[j]).Ok? ==> AllAllowed(blacklist, f(xs[j]).value)
    ensures Gather(xs, f).Ok? ==> AllAllowed(blacklist, Gather(xs, f).value)
  {
    if xs != [] {
      var n := |xs|;
      var front := xs[..n - 1];
      GatherAllowed(front, f, blacklist) by {
        forall j | 0 <= j < n - 1 && f(front[j]).Ok?
          ensures AllAllowed(blacklist, f(front[j]).value)
        {
          assert front[j] == xs[j];
        }
      }
    }
  }

  /** When every element gives exactly one item, the loop gives one item per
      element, in order. */
  lemma {:induction false} GatherSingles<A>(xs: seq<A>, f: A -> Result<seq<Item>, QueryError>)
    requires forall j :: 0 <= j < |xs| && f(xs[j]).Ok? ==> |f(xs[j]).value| == 1
    requires Gather(xs, f).Ok?
    ensures |Gather(xs, f).value| == |xs|
    ensures forall j :: 0 <= j < |xs| ==> f(xs[j]).Ok? && Gather(xs, f).value[j] == f(xs[j]).value[0]
  {
    if xs != [] {
      var n := |xs|;
      var front := xs[..n - 1];
      GatherSingles(front, f) by {
        forall j | 0 <= j < n - 1 && f(front[j]).Ok? ensures |f(front[j]).value| == 1 {
          assert front[j] == xs[j];
        }
      }
      forall j | 0 <= j < n ensures f(xs[j]).Ok? && Gather(xs, f).value[j] == f(xs[j]).value[0] {
        if j < n - 1 {
          assert front[j] == xs[j];
        }
      }
    }
  }

  // Apps.

  /** `preferences["STEAM_FOLDER"]` with the separator appended when missing. */
  function SteamFolder(env: Env): (r: Result<string, QueryError>)
    ensures r.Ok? <==> "STEAM_FOLDER" in env.preferences
    ensures r.Err? ==> r.error == MissingPreference("STEAM_FOLDER")
    ensures r.Ok? ==> EndsWith(r.value, Const.DirSep(env.isNt))
    ensures r.Ok? ==> r.value == (if EndsWith(env.preferences["STEAM_FOLDER"], Const.DirSep(env.isNt))
                                  then env.preferences["STEAM_FOLDER"]
                                  else env.preferences["STEAM_FOLDER"] + Const.DirSep(env.isNt))
  {
    var folder :- Pref(env, "STEAM_FOLDER");
    var sep := Const.DirSep(env.isNt);
    if EndsWith(folder, sep) then Ok(folder)
    else
      assert (folder + sep)[|folder + sep| - |sep|..] == sep;
      Ok(folder + sep)
  }

  /** An item that is not blacklisted: an ID, if it has one, outside the list. */
  predicate Allowed(blacklist: seq<int>, item: Item) {
    item.id.Some? ==> item.id.value !in blacklist
  }

  /** The loop body over `steam_apps`: `int(app_id)` outside its `try` (so a
      bad key escapes), blacklisted IDs and non-dict records skipped, then the
      item with the localised launch or install caption. The size is compared
      with 0 only when there is no install directory; the size, the playtime
      and the launch count are stored as read. */
  function SteamAppItem(env: Env, folder: string, blacklist: seq<int>, key: string, info: Json): (r: Result<seq<Item>, QueryError>)
    ensures ParseInt(key).None? ==> r == Err(InvalidAppId(key))
    ensures ParseInt(key).Some? && (ParseInt(key).value in blacklist || !info.Obj?) ==> r == Ok([])
    ensures r.Ok? && r.value != [] ==>
              |r.value| == 1 && r.value[0].kind == App && !r.value[0].nonSteam &&
              r.value[0].id == ParseInt(key) && ParseInt(key).value !in blacklist
    ensures r.Ok? ==> AllAllowed(blacklist, r.value)
    ensures ParseInt(key).Some? && ParseInt(key).value !in blacklist && info.Obj? ==>
              (r.Ok? <==> "name" in info.fields && "LANGUAGE_CODE" in env.preferences && info.fields["name"].Str? &&
                          (Get(info.fields, "install_dir", Null) != Null ||
                           Number(Get(info.fields, "size_on_disk", Int(0))).Some?) &&
                          Launches(info.fields, key).Ok?)
    ensures r.Ok? && r.value != [] ==>
              r.value[0].sizeOnDisk == Get(info.fields, "size_on_disk", Int(0)) &&
              r.value[0].totalPlaytime == Get(info.fields, "total_playtime", Int(0)) &&
              r.value[0].timesLaunched == Get(info.fields, "times_launched", Int(0)) &&
              (r.value[0].location == Null <==> Get(info.fields, "install_dir", Null) == Null)
  {
    match ParseInt(key)
    case None => Err(InvalidAppId(key))
    case Some(id) =>
      if id in blacklist || !info.Obj? then Ok([])
      else if "name" !in info.fields then Err(InvalidRecord(key))
      else
        var fields := info.fields;
        var sep := Const.DirSep(env.isNt);
        var location :=
          if Get(fields, "install_dir", Null) != Null
          then Str(folder + "steamapps" + sep + "common" + sep + JsonText(env, fields["install_dir"]))
          else Null;
        var size := Get(fields, "size_on_disk", Int(0));
        var installed :-
          if location != Null then Ok(true)
          else if Number(size).None? then Err(InvalidRecord(key))
          else Ok(Number(size).value > 0);
        var caption :- Localised(env, if installed then "launch_%a" else "install_%a");
        if !fields["name"].Str? then Err(InvalidRecord(key))
        else
          var name := fields["name"].s;
          var launches :- Launches(fields, key);
          Ok([Item(App, Some(id), false, Some(name), Some(Replace(caption, "%a", name)), None, location,
                   size, Get(fields, "total_playtime", Int(0)), ItemIcon(env, AppIcon(env, id)), launches.0, launches.1)])
  }

  /** The loop body over `non_steam_apps`: here `int(app_id)` is caught and the
      key skipped, but a record that is not a dict is only logged, so reading
      its name raises. The executable, the size and the launch count are
      stored as read. */
  function NonSteamAppItem(env: Env, blacklist: seq<int>, key: string, info: Json): (r: Result<seq<Item>, QueryError>)
    ensures ParseInt(key).None? ==> r == Ok([])
    ensures ParseInt(key).Some? && ParseInt(key).value in blacklist ==> r == Ok([])
    ensures ParseInt(key).Some? && ParseInt(key).value !in blacklist && !info.Obj? ==> r == Err(InvalidRecord(key))
    ensures r.Ok? && r.value != [] ==>
              |r.value| == 1 && r.value[0].kind == App && r.value[0].nonSteam &&
              r.value[0].id == ParseInt(key) && ParseInt(key).value !in blacklist
    ensures r.Ok? ==> AllAllowed(blacklist, r.value)
    ensures ParseInt(key).Some? && ParseInt(key).value !in blacklist ==>
              (r.Ok? <==> info.Obj? && "name" in info.fields && "LANGUAGE_CODE" in env.preferences &&
                          info.fields["name"].Str? && Launches(info.fields, key).Ok?)
    ensures r.Ok? && r.value != [] ==>
              r.value[0].location == Get(info.fields, "exe", Null) &&
              r.value[0].sizeOnDisk == Get(info.fields, "size_on_disk", Int(0)) &&
              r.value[0].totalPlaytime == Int(0) &&
              r.value[0].timesLaunched == Get(info.fields, "times_launched", Int(0))
  {
    match ParseInt(key)
    case None => Ok([])
    case Some(id) =>
      if id in blacklist then Ok([])
      else if !info.Obj? || "name" !in info.fields then Err(InvalidRecord(key))
      else
        var fields := info.fields;
        var caption :- Localised(env, "launch_%a");
        if !fields["name"].Str? then Err(InvalidRecord(key))
        else
          var name := fields["name"].s;
          var launches :- Launches(fields, key);
          Ok([Item(App, Some(id), true, Some(name), Some(Replace(caption, "%a", name)), None,
                   Get(fields, "exe", Null), Get(fields, "size_on_disk", Int(0)), Int(0), ItemIcon(env, None),
                   launches.0, launches.1)])
  }

  /** The loop over `steam_apps`, when it is present and a dict. */
  function SteamAppItems(env: Env, loaded: Loaded, blacklist: seq<int>): Result<seq<Item>, QueryError> {
    match Section(loaded.cache, "steam_apps")
    case None => Ok([])
    case Some(apps) =>
      var folder :- SteamFolder(env);
      Gather(loaded.steamAppKeys, SteamAppEach(env, folder, blacklist, apps))
  }

  function SteamAppEach(env: Env, folder: string, blacklist: seq<int>, apps: Dict): string -> Result<seq<Item>, QueryError> {
    (k: string) => SteamAppItem(env, folder, blacklist, k, if k in apps then apps[k] else Null)
  }

  /** The loop over `non_steam_apps`, when it is present and a dict. */
  function NonSteamAppItems(env: Env, loaded: Loaded, blacklist: seq<int>): Result<seq<Item>, QueryError> {
    match Section(loaded.cache, "non_steam_apps")
    case None => Ok([])
    case Some(apps) =>
      Gather(loaded.nonSteamAppKeys, NonSteamAppEach(env, blacklist, apps))
  }

  function NonSteamAppEach(env: Env, blacklist: seq<int>, apps: Dict): string -> Result<seq<Item>, QueryError> {
    (k: string) => NonSteamAppItem(env, blacklist, k, if k in apps then apps[k] else Null)
  }

  /** The app items: the Steam apps, then the non-Steam apps. */
  function AppItems(env: Env, loaded: Loaded, blacklist: seq<int>): Result<seq<Item>, QueryError> {
    var steam :- SteamAppItems(env, loaded, blacklist);
    var nonSteam :- NonSteamAppItems(env, loaded, blacklist);
    Ok(steam + nonSteam)
  }

  // Navigations.

  /** `[int(k) for k in keys]`, with the parser (`int`, here `ParseInt`) as a
      parameter so that the proofs below need not look inside it. */
  function ParseIds(keys: seq<string>, parse: string -> Option<int>): Result<seq<Option<int>>, QueryError> {
    if keys == [] then Ok([])
    else
      var front :- ParseIds(keys[..|keys| - 1], parse);
      var id :- ParseKey(keys[|keys| - 1], parse);
      Ok(front + [id])
  }

  function ParseKey(key: string, parse: string -> Option<int>): Result<Option<int>, QueryError> {
    if parse(key).Some? then Ok(parse(key)) else Err(InvalidAppId(key))
  }

  /** The comprehension raises exactly when some key is not an integer. */
  lemma {:induction false} ParseIdsFails(keys: seq<string>, parse: string -> Option<int>)
    ensures ParseIds(keys, parse).Ok? <==> forall j :: 0 <= j < |keys| ==> parse(keys[j]).Some?
  {
    if keys != [] {
      var n := |keys|;
      var front := keys[..n - 1];
      ParseIdsFails(front, parse);
      assert forall j :: 0 <= j < n - 1 ==> front[j] == keys[j];
    }
  }

  /** Otherwise it gives every key's integer, in key order. */
  lemma {:induction false} ParseIdsValues(keys: seq<string>, parse: string -> Option<int>)
    requires ParseIds(keys, parse).Ok?
    ensures |ParseIds(keys, parse).value| == |keys|
    ensures forall j :: 0 <= j < |keys| ==> ParseIds(keys, parse).value[j] == parse(keys[j])
  {
    if keys != [] {
      var n := |keys|;
      var front := keys[..n - 1];
      ParseIdsValues(front, parse);
      assert forall j :: 0 <= j < n - 1 ==> front[j] == keys[j];
    }
  }

  /** The IDs a navigation expands to: every Steam app for a `%a` template
      (none without a `steam_apps` dict); one item with no ID otherwise, or none
      under the apps keyword. */
  function NavIds(loaded: Loaded, name: string, keyword: string, keywordApps: string): Result<Option<seq<Option<int>>>, QueryError> {
    if Contains(name, "%a") then
      if Section(loaded.cache, "steam_apps").None? then Ok(Some([]))
      else
        var ids :- ParseIds(loaded.steamAppKeys, ParseInt);
        Ok(Some(ids))
    else if keyword == keywordApps then Ok(None)
    else Ok(Some([None]))
  }

  /** For a `%a` template: the captions with the app's cached name (or its ID)
      put in, and the app's icon. */
  function AppLabels(env: Env, apps: Dict, id: Option<int>, caption: string, description: Option<string>)
    : Result<(string, Option<string>, Option<string>), QueryError>
  {
    var key := IdText(id);
    if key !in apps then Err(UnknownApp(key))
    else if !apps[key].Obj? then Err(InvalidRecord(key))
    else
      var appName := if "name" in apps[key].fields then JsonText(env, apps[key].fields["name"]) else key;
      var described := if description.Some? then Some(Replace(description.value, "%a", appName)) else None;
      Ok((Replace(caption, "%a", appName), described, if id.Some? then AppIcon(env, id.value) else None))
  }

  /** One navigation item, with the launches recorded under its name in
      `steam_navs`. */
  function NavItem(env: Env, apps: Dict, navs: Dict, blacklist: seq<int>, name: string, caption: string,
                   description: Option<string>, id: Option<int>): (r: Result<seq<Item>, QueryError>)
    ensures id.Some? && id.value in blacklist ==> r == Ok([])
    ensures r.Ok? && !(id.Some? && id.value in blacklist) ==>
              |r.value| == 1 && r.value[0].kind == Nav && r.value[0].id == id &&
              r.value[0].name == Some(Replace(name, "%a", IdText(id)))
    ensures r.Ok? ==> AllAllowed(blacklist, r.value)
  {
    if id.Some? && id.value in blacklist then Ok([])
    else
      var idName := Replace(name, "%a", IdText(id));
      var captions :- if Contains(name, "%a") then AppLabels(env, apps, id, caption, description) else Ok((caption, description, None));
      var launches :- if idName in navs && navs[idName].Obj? then Launches(navs[idName].fields, idName) else Ok((None, Int(0)));
      Ok([Item(Nav, id, false, Some(idName), Some(captions.0), captions.1, Null, Int(0), Int(0), ItemIcon(env, captions.2),
               launches.0, launches.1)])
  }

  /** The `steam_apps` dict, or nothing. */
  function AppsSection(loaded: Loaded): Dict {
    Section(loaded.cache, "steam_apps").GetOr(map[])
  }

  /** The `steam_navs` dict, reset to `{}` when missing or not a dict. */
  function NavsSection(loaded: Loaded): Dict {
    Section(loaded.cache, "steam_navs").GetOr(map[])
  }

  /** The items of one navigation: its localised caption, its strict localised
      description (None when missing), then one item per ID. */
  function NavItems(env: Env, loaded: Loaded, blacklist: seq<int>, keyword: string, keywordApps: string, name: string)
    : Result<seq<Item>, QueryError>
  {
    var code :- Pref(env, "LANGUAGE_CODE");
    var caption := Lookup(env, code, name);
    var description := LangString(env.lang, code, name + "%d", true);
    var ids :- NavIds(loaded, name, keyword, keywordApps);
    match ids
    case None => Ok([])
    case Some(ids) => Gather(ids, NavEach(env, loaded, blacklist, name, caption, description))
  }

  function NavEach(env: Env, loaded: Loaded, blacklist: seq<int>, name: string, caption: string, description: Option<string>)
    : Option<int> -> Result<seq<Item>, QueryError>
  {
    (id: Option<int>) => NavItem(env, AppsSection(loaded), NavsSection(loaded), blacklist, name, caption, description, id)
  }

  function NavigationItems(env: Env, loaded: Loaded, blacklist: seq<int>, keyword: string, keywordApps: string)
    : Result<seq<Item>, QueryError>
  {
    Gather(Const.STEAM_NAVIGATIONS, NavigationEach(env, loaded, blacklist, keyword, keywordApps))
  }

  function NavigationEach(env: Env, loaded: Loaded, blacklist: seq<int>, keyword: string, keywordApps: string)
    : string -> Result<seq<Item>, QueryError>
  {
    (name: string) => NavItems(env, loaded, blacklist, keyword, keywordApps, name)
  }

  // Actions.

  const ACTIONS: seq<string> := ["update_cache", "clear_cache", "rebuild_cache"]

  /** `get_lang_string` for a language code already read. */
  function Lookup(env: Env, code: string, key: string): string {
    LangString(env.lang, code, key, false).GetOr(key)
  }

  /** An action item labelled and described from lang.json. */
  function ActionItem(env: Env, name: string): (r: Result<Item, QueryError>)
    ensures r.Ok? <==> "LANGUAGE_CODE" in env.preferences
    ensures r.Ok? ==> r.value.kind == Action && r.value.name == Some(name) && r.value.id.None?
  {
    var code :- Pref(env, "LANGUAGE_CODE");
    Ok(Item(Action, None, false, Some(name), Some(Lookup(env, code, name)), Some(Lookup(env, code, name + "%d")),
            Null, Int(0), Int(0), ItemIcon(env, None), None, Int(0)))
  }

  function ActionItems(env: Env): Result<seq<Item>, QueryError> {
    Gather(ACTIONS, ActionEach(env))
  }

  function ActionEach(env: Env): string -> Result<seq<Item>, QueryError> {
    (name: string) => ActionStep(env, name)
  }

  /** One action item, appended. */
  function ActionStep(env: Env, name: string): (r: Result<seq<Item>, QueryError>)
    ensures r.Ok? ==> |r.value| == 1 && r.value[0].kind == Action && r.value[0].id.None?
  {
    var item :- ActionItem(env, name);
    Ok([item])
  }

  // The candidates.

  /** `check_required_preferences(preferences)`. */
  function Required(env: Env, required: seq<string>): Result<(), QueryError> {
    match Const.CheckRequiredPreferences(required, env.preferences)
    case Ok(_) => Ok(())
    case Err(key) => Err(RequiredPreference(key))
  }

  /** `get_blacklist("app", preferences)`. */
  function AppBlacklist(env: Env): Result<seq<int>, QueryError> {
    match Cache.GetBlacklist("app", env.preferences)
    case Some(b) => Ok(b)
    case None => Err(MissingPreference("APP_BLACKLIST"))
  }

  /** Every item the keyword admits, before searching: apps and navigations
      for the main or the apps keyword, actions for the main or the actions
      keyword. */
  function Candidates(env: Env, required: seq<string>, loaded: Loaded, keyword: string): (r: Result<seq<Item>, QueryError>)
    ensures r.Ok? ==> "KEYWORD" in env.preferences && "KEYWORD_APPS" in env.preferences && "KEYWORD_ACTIONS" in env.preferences
    ensures r.Ok? && keyword !in [env.preferences["KEYWORD"], env.preferences["KEYWORD_APPS"], env.preferences["KEYWORD_ACTIONS"]] ==>
              r.value == []
  {
    var _ :- Required(env, required);
    var blacklist :- AppBlacklist(env);
    var main :- Pref(env, "KEYWORD");
    var apps :- Pref(env, "KEYWORD_APPS");
    var listed :- if keyword == main || keyword == apps then Listed(env, loaded, blacklist, keyword, apps) else Ok([]);
    var actions :- Pref(env, "KEYWORD_ACTIONS");
    if keyword == main || keyword == actions then
      var actionItems :- ActionItems(env);
      Ok(listed + actionItems)
    else Ok(listed)
  }

  /** The app items and then the navigation items. */
  function Listed(env: Env, loaded: Loaded, blacklist: seq<int>, keyword: string, keywordApps: string)
    : Result<seq<Item>, QueryError>
  {
    var appItems :- AppItems(env, loaded, blacklist);
    var navItems :- NavigationItems(env, loaded, blacklist, keyword, keywordApps);
    Ok(appItems + navItems)
  }

  // Searching, truncating and the fallback.

  /** The search as used: "" for None, else stripped and lower-cased. */
  function SearchText(search: Option<string>): string {
    if search.None? then "" else Lower(Strip(search.value))
  }

  /** The length of the run of non-space characters `t` starts with. */
  function WordEnd(t: string, i: nat): (n: nat)
    requires i <= |t| && NoSpace(t[..i])
    ensures i <= n <= |t| && NoSpace(t[..n]) && (n == |t| || IsSpace(t[n]))
    decreases |t| - i
  {
    if i == |t| || IsSpace(t[i]) then i
    else
      assert t[..i + 1] == t[..i] + [t[i]];
      WordEnd(t, i + 1)
  }

  /** `str.split()` with no separator: the maximal runs of non-space text. */
  function Words(s: string): seq<string>
    decreases |s|
  {
    var t := LStrip(s);
    if t == [] then []
    else
      var n := WordEnd(t, 0);
      assert n != 0 by { assert !IsSpace(t[0]); }
      [t[..n]] + Words(t[n..])
  }

  /** Text that does not start with white space is left alone by `lstrip`. */
  lemma LStripNone(s: string)
    requires s == [] || !IsSpace(s[0])
    ensures LStrip(s) == s
  {
  }

  /** A word followed by nothing or by white space is split off first. */
  lemma WordsStep(w: string, tail: string)
    requires w != [] && NoSpace(w) && (tail == [] || IsSpace(tail[0]))
    ensures Words(w + tail) == [w] + Words(tail)
  {
    var s := w + tail;
    LStripNone(s);
    WordEndAt(s, w, tail);
    assert s[..|w|] == w && s[|w|..] == tail;
  }

  /** Splitting words joined by single spaces gives the words back. */
  lemma {:induction false} WordsOfJoin(words: seq<string>)
    requires forall k :: 0 <= k < |words| ==> words[k] != [] && NoSpace(words[k])
    ensures Words(Join(words, ' ')) == words
  {
    if |words| == 0 {
      assert Words("") == [];
    } else if |words| == 1 {
      WordsStep(words[0], []);
      assert words[0] + [] == words[0];
      assert Words([]) == [];
      assert [words[0]] == words;
    } else {
      WordsOfJoin(words[1..]);
      WordsJoinCons(words);
      HeadTail(words);
    }
  }

  lemma WordsJoinCons(words: seq<string>)
    requires |words| > 1 && words[0] != [] && NoSpace(words[0]) && words[1] != [] && !IsSpace(words[1][0])
    ensures Words(Join(words, ' ')) == [words[0]] + Words(Join(words[1..], ' '))
  {
    var rest := Join(words[1..], ' ');
    var tail := [' '] + rest;
    JoinCons(words);
    JoinStart(words[1..]);
    WordsAfterSpace(rest);
    WordsStep(words[0], tail);
  }

  lemma JoinCons(words: seq<string>)
    requires |words| > 1
    ensures Join(words, ' ') == words[0] + ([' '] + Join(words[1..], ' '))
  {
  }

  lemma HeadTail<T>(s: seq<T>)
    requires s != []
    ensures [s[0]] + s[1..] == s
  {
  }

  /** Joined non-empty words start with the first word's first character. */
  lemma JoinStart(words: seq<string>)
    requires |words| >= 1 && words[0] != []
    ensures Join(words, ' ') != [] && Join(words, ' ')[0] == words[0][0]
  {
  }

  /** One leading space is skipped. */
  lemma WordsAfterSpace(rest: string)
    requires rest == [] || !IsSpace(rest[0])
    ensures Words([' '] + rest) == Words(rest)
  {
    assert ([' '] + rest)[1..] == rest;
    LStripNone(rest);
  }

  /** A word followed by nothing or by a space ends there. */
  lemma WordEndAt(s: string, w: string, tail: string)
    requires s == w + tail && w != [] && NoSpace(w) && (tail == [] || IsSpace(tail[0]))
    ensures WordEnd(s, 0) == |w|
  {
    WordEndFrom(s, |w|, 0);
  }

  lemma {:induction false} WordEndFrom(s: string, e: nat, i: nat)
    requires i <= e <= |s| && NoSpace(s[..e]) && (e == |s| || IsSpace(s[e]))
    ensures WordEnd(s, i) == e
    decreases e - i
  {
    assert s[..e][..i] == s[..i];
    if i < e {
      assert s[i] == s[..e][i];
      WordEndFrom(s, e, i + 1);
    }
  }

  /** The text a search word must occur in: the name and the description,
      lower-cased, with a space between. */
  function SearchedText(env: Env, item: Item): Result<string, QueryError> {
    var name :- GetName(env, item);
    var description :- Description(env, item);
    Ok(Lower(name) + " " + Lower(description))
  }

  /** Every word occurs in the text. */
  predicate AllWordsIn(text: string, words: seq<string>) {
    forall k :: 0 <= k < |words| ==> Contains(text, words[k])
  }

  /** The list comprehension that keeps the items every word matches. */
  function Filter(env: Env, words: seq<string>, items: seq<Item>): (r: Result<seq<Item>, QueryError>)
    ensures r.Ok? ==> |r.value| <= |items|
  {
    if items == [] then Ok([])
    else
      var front :- Filter(env, words, items[..|items| - 1]);
      var text :- SearchedText(env, items[|items| - 1]);
      Ok(if AllWordsIn(text, words) then front + [items[|items| - 1]] else front)
  }

  /** The items kept are exactly those whose text holds every word. */
  lemma {:induction false} FilterKeeps(env: Env, words: seq<string>, items: seq<Item>)
    requires Filter(env, words, items).Ok?
    ensures forall x :: x in Filter(env, words, items).value <==>
              x in items && SearchedText(env, x).Ok? && AllWordsIn(SearchedText(env, x).value, words)
    ensures multiset(Filter(env, words, items).value) <= multiset(items)
  {
    if items != [] {
      var n := |items|;
      var front, last := items[..n - 1], items[n - 1];
      var kept := Filter(env, words, front).value;
      FilterKeeps(env, words, front);
      var text := SearchedText(env, last).value;
      var r := Filter(env, words, items).value;
      var matches := AllWordsIn(text, words);
      assert r == if matches then kept + [last] else kept;
      assert items == front + [last];
      assert multiset(items) == multiset(front) + multiset{last};
      forall x ensures x in r <==> x in items && SearchedText(env, x).Ok? && AllWordsIn(SearchedText(env, x).value, words)
      {
        assert x in items <==> x in front || x == last;
        assert x in r <==> x in kept || (matches && x == last);
      }
    }
  }

  /** `a` is `b` with some elements left out, the rest in their order. */
  predicate Subsequence(a: seq<Item>, b: seq<Item>)
    decreases |b|
  {
    if a == [] then true
    else if b == [] then false
    else (a[|a| - 1] == b[|b| - 1] && Subsequence(a[..|a| - 1], b[..|b| - 1])) || Subsequence(a, b[..|b| - 1])
  }

  /** The kept items keep their original order. */
  lemma {:induction false} FilterInOrder(env: Env, words: seq<string>, items: seq<Item>)
    requires Filter(env, words, items).Ok?
    ensures Subsequence(Filter(env, words, items).value, items)
  {
    if items != [] {
      var n := |items|;
      var front, last := items[..n - 1], items[n - 1];
      var kept := Filter(env, words, front).value;
      FilterInOrder(env, words, front);
      var r := Filter(env, words, items).value;
      if AllWordsIn(SearchedText(env, last).value, words) {
        assert r == kept + [last];
        assert r[..|r| - 1] == kept;
      } else {
        assert r == kept;
      }
    }
  }

  /** The filter raises exactly when some item has no text to search in:
      no name and no language code, or an app attribute of the wrong type. */
  lemma {:induction false} FilterSucceeds(env: Env, words: seq<string>, items: seq<Item>)
    ensures Filter(env, words, items).Ok? <==> forall k :: 0 <= k < |items| ==> SearchedText(env, items[k]).Ok?
  {
    if items != [] {
      var front, last := items[..|items| - 1], items[|items| - 1];
      FilterSucceeds(env, words, front);
      assert forall k :: 0 <= k < |front| ==> front[k] == items[k];
      if Filter(env, words, front).Ok? {
        assert Filter(env, words, items).Ok? <==> SearchedText(env, last).Ok?;
      } else {
        assert Filter(env, words, items).Err?;
      }
    }
  }

  /** An item whose display name is set and whose attributes have the types
      the description needs can always be searched. */
  lemma SearchableItem(env: Env, item: Item)
    requires item.displayName.Some? && (item.kind == App ==> DescriptionFault(item).None?)
    ensures SearchedText(env, item).Ok?
  {
  }

  /** `MAX_ITEMS` as used: its integer value, or 10 when it does not parse or
      is not positive. */
  function MaxItems(maxItems: string): (n: int)
    ensures n >= 1
    ensures n == 10 || ParseInt(maxItems) == Some(n)
    ensures ParseInt(maxItems).Some? && ParseInt(maxItems).value >= 1 ==> n == ParseInt(maxItems).value
  {
    match ParseInt(maxItems)
    case Some(n) => if n <= 0 then 10 else n
    case None => 10
  }

  /** The "no_results" action item. */
  function NoResults(env: Env): (r: Result<Item, QueryError>)
    ensures r.Ok? ==> r.value.kind == Action && r.value.name == Some("no_results")
  {
    ActionItem(env, "no_results")
  }

  /** The candidates put in order: sorted by sort list without a search,
      filtered on the search words and ranked with one. The sort computes
      every item's sort list and raises with the first that cannot be built. */
  function Ordered(env: Env, items: seq<Item>, search: string, rank: seq<Item> -> seq<Item>): (r: Result<seq<Item>, QueryError>)
    ensures search == "" && r.Ok? ==> multiset(r.value) == multiset(items)
    ensures search == "" && items != [] ==>
              (r.Ok? <==> "SORT_KEYS" in env.preferences &&
                          forall k :: 0 <= k < |items| ==>
                            Sorting.SortListOf(items[k], Sorting.SortKeys(env.preferences["SORT_KEYS"])).Ok?)
  {
    if search == "" then
      if items == [] then Ok([])
      else
        var sortKeys :- Pref(env, "SORT_KEYS");
        Sorting.SortedPermutes(items, Sorting.SortKeys(sortKeys));
        Sorting.ListsFaultFirst(items, Sorting.SortKeys(sortKeys));
        Sorting.SortedBy(items, Sorting.SortKeys(sortKeys))
    else
      var kept :- Filter(env, Words(search), items);
      Ok(rank(kept))
  }

  /** The end of the query: the first `MAX_ITEMS` items, or the single
      "no_results" item when there are none. */
  function Shown(env: Env, ordered: seq<Item>): (r: Result<seq<Item>, QueryError>)
    ensures r.Err? <==> "MAX_ITEMS" !in env.preferences || (ordered == [] && "LANGUAGE_CODE" !in env.preferences)
    ensures r.Ok? ==> 1 <= |r.value| <= MaxItems(env.preferences["MAX_ITEMS"])
    ensures r.Ok? && ordered != [] ==>
              r.value <= ordered && (|r.value| == |ordered| || |r.value| == MaxItems(env.preferences["MAX_ITEMS"]))
    ensures r.Ok? && ordered == [] ==> |r.value| == 1 && r.value[0].kind == Action && r.value[0].name == Some("no_results")
  {
    var maxItems :- Pref(env, "MAX_ITEMS");
    var n := MaxItems(maxItems);
    var shown := ordered[..if n < |ordered| then n else |ordered|];
    if shown == [] then
      var item :- NoResults(env);
      Ok([item])
    else Ok(shown)
  }

  /** The part of the query after the candidates are built: order them,
      then keep the first `MAX_ITEMS` or fall back to "no_results". */
  function Finish(env: Env, items: seq<Item>, search: Option<string>, rank: seq<Item> -> seq<Item>): (r: Result<seq<Item>, QueryError>)
    ensures r.Ok? ==> "MAX_ITEMS" in env.preferences && 1 <= |r.value| <= MaxItems(env.preferences["MAX_ITEMS"])
  {
    var ordered :- Ordered(env, items, SearchText(search), rank);
    Shown(env, ordered)
  }

  /** `query_cache(keyword, preferences, search)`; `rank` is the
      `SequenceMatcher` ordering used with a search. */
  function QueryCache(env: Env, required: seq<string>, loaded: Loaded, keyword: string, search: Option<string>,
                      rank: seq<Item> -> seq<Item>): (r: Result<seq<Item>, QueryError>)
    ensures r.Ok? ==> "MAX_ITEMS" in env.preferences && 1 <= |r.value| <= MaxItems(env.preferences["MAX_ITEMS"])
  {
    var items :- Candidates(env, required, loaded, keyword);
    Finish(env, items, search, rank)
  }

  // The query as the loops that compute it.

  /** The filter stops at the first item with no name to search in. */
  lemma {:induction false} FilterStops(env: Env, words: seq<string>, items: seq<Item>, i: int)
    requires 0 <= i <= |items| && Filter(env, words, items[..i]).Err?
    ensures Filter(env, words, items) == Filter(env, words, items[..i])
    decreases |items| - i
  {
    if i == |items| {
      assert items[..i] == items;
    } else {
      var front := items[..|items| - 1];
      assert front[..i] == items[..i];
      FilterStops(env, words, front, i);
      FilterStep(env, words, items);
    }
  }

  lemma FilterStep(env: Env, words: seq<string>, items: seq<Item>)
    requires items != [] && Filter(env, words, items[..|items| - 1]).Err?
    ensures Filter(env, words, items) == Filter(env, words, items[..|items| - 1])
  {
  }

  /** The list comprehension over the candidates. */
  method FilterEach(env: Env, words: seq<string>, items: seq<Item>) returns (r: Result<seq<Item>, QueryError>)
    ensures r == Filter(env, words, items)
  {
    var kept: seq<Item> := [];
    for i := 0 to |items|
      invariant Filter(env, words, items[..i]) == Ok(kept)
    {
      assert items[..i + 1][..i] == items[..i];
      var text := SearchedText(env, items[i]);
      if text.Err? {
        FilterStops(env, words, items, i + 1);
        return Err(text.error);
      }
      if AllWordsIn(text.value, words) {
        kept := kept + [items[i]];
      }
    }
    assert items[..|items|] == items;
    return Ok(kept);
  }

  /** The inner loop over one navigation's IDs. */
  method NavItemsLoop(env: Env, loaded: Loaded, blacklist: seq<int>, keyword: string, keywordApps: string, name: string)
    returns (r: Result<seq<Item>, QueryError>)
    ensures r == NavItems(env, loaded, blacklist, keyword, keywordApps, name)
  {
    var code :- Pref(env, "LANGUAGE_CODE");
    var caption := Lookup(env, code, name);
    var description := LangString(env.lang, code, name + "%d", true);
    var ids :- NavIds(loaded, name, keyword, keywordApps);
    if ids.None? {
      return Ok([]);
    }
    r := GatherEach(ids.value, NavEach(env, loaded, blacklist, name, caption, description));
  }

  /** The outer loop over `STEAM_NAVIGATIONS`. */
  method NavigationLoop(env: Env, loaded: Loaded, blacklist: seq<int>, keyword: string, keywordApps: string)
    returns (r: Result<seq<Item>, QueryError>)
    ensures r == NavigationItems(env, loaded, blacklist, keyword, keywordApps)
  {
    r := NavigationsLoop(env, loaded, blacklist, keyword, keywordApps, Const.STEAM_NAVIGATIONS);
  }

  /** The loop over the navigation names. */
  method NavigationsLoop(env: Env, loaded: Loaded, blacklist: seq<int>, keyword: string, keywordApps: string,
                         names: seq<string>)
    returns (r: Result<seq<Item>, QueryError>)
    ensures r == Gather(names, NavigationEach(env, loaded, blacklist, keyword, keywordApps))
  {
    var f := NavigationEach(env, loaded, blacklist, keyword, keywordApps);
    var items: seq<Item> := [];
    for i := 0 to |names|
      invariant Gather(names[..i], f) == Ok(items)
    {
      assert names[..i + 1][..i] == names[..i];
      var more := NavItemsLoop(env, loaded, blacklist, keyword, keywordApps, names[i]);
      if more.Err? {
        GatherStops(names, f, i + 1);
        return Err(more.error);
      }
      items := items + more.value;
    }
    assert names[..|names|] == names;
    return Ok(items);
  }

  /** The app loops and then the navigation loops. */
  method ListedLoop(env: Env, loaded: Loaded, blacklist: seq<int>, keyword: string, keywordApps: string)
    returns (r: Result<seq<Item>, QueryError>)
    ensures r == Listed(env, loaded, blacklist, keyword, keywordApps)
  {
    var steam: seq<Item> := [];
    var apps := Section(loaded.cache, "steam_apps");
    if apps.Some? {
      var folder :- SteamFolder(env);
      steam :- GatherEach(loaded.steamAppKeys, SteamAppEach(env, folder, blacklist, apps.value));
    }
    var nonSteam: seq<Item> := [];
    var others := Section(loaded.cache, "non_steam_apps");
    if others.Some? {
      nonSteam :- GatherEach(loaded.nonSteamAppKeys, NonSteamAppEach(env, blacklist, others.value));
    }
    var navs :- NavigationLoop(env, loaded, blacklist, keyword, keywordApps);
    return Ok(steam + nonSteam + navs);
  }

  /** `items` built section by section. */
  method CollectCandidates(env: Env, required: seq<string>, loaded: Loaded, keyword: string)
    returns (r: Result<seq<Item>, QueryError>)
    ensures r == Candidates(env, required, loaded, keyword)
  {
    var checked :- Required(env, required);
    var blacklist :- AppBlacklist(env);
    var main :- Pref(env, "KEYWORD");
    var apps :- Pref(env, "KEYWORD_APPS");
    var items: seq<Item> := [];
    if keyword == main || keyword == apps {
      items :- ListedLoop(env, loaded, blacklist, keyword, apps);
    }
    var actions :- Pref(env, "KEYWORD_ACTIONS");
    if keyword == main || keyword == actions {
      var actionItems :- GatherEach(ACTIONS, ActionEach(env));
      items := items + actionItems;
    }
    return Ok(items);
  }

  /** `query_cache` step by step: collect, sort or filter and rank, truncate,
      fall back. */
  method RunQuery(env: Env, required: seq<string>, loaded: Loaded, keyword: string, search: Option<string>,
                  rank: seq<Item> -> seq<Item>) returns (r: Result<seq<Item>, QueryError>)
    ensures r == QueryCache(env, required, loaded, keyword, search, rank)
  {
    var items :- CollectCandidates(env, required, loaded, keyword);
    r := FinishSteps(env, items, search, rank);
  }

  /** Sort, or filter and rank; then truncate and fall back. */
  method FinishSteps(env: Env, items: seq<Item>, search: Option<string>, rank: seq<Item> -> seq<Item>)
    returns (r: Result<seq<Item>, QueryError>)
    ensures r == Finish(env, items, search, rank)
  {
    var ordered :- OrderSteps(env, items, SearchText(search), rank);
    var maxItems :- Pref(env, "MAX_ITEMS");
    var n := MaxItems(maxItems);
    var shown := ordered[..if n < |ordered| then n else |ordered|];
    if shown == [] {
      var item :- NoResults(env);
      shown := [item];
    }
    return Ok(shown);
  }

  /** `sorted(items, key=to_sort_list)` without a search; the comprehension
      and the ranking with one. */
  method OrderSteps(env: Env, items: seq<Item>, text: string, rank: seq<Item> -> seq<Item>)
    returns (r: Result<seq<Item>, QueryError>)
    ensures r == Ordered(env, items, text, rank)
  {
    if text == "" {
      if items == [] {
        return Ok([]);
      }
      var sortKeys :- Pref(env, "SORT_KEYS");
      r := Sorting.SortByLists(items, sortKeys);
      return;
    }
    var kept :- FilterEach(env, Words(text), items);
    return Ok(rank(kept));
  }

  // What the query promises.

  /** No item carries a blacklisted ID. */
  predicate AllAllowed(blacklist: seq<int>, items: seq<Item>) {
    forall k :: 0 <= k < |items| ==> Allowed(blacklist, items[k])
  }

  lemma SteamAppsAllowed(env: Env, loaded: Loaded, blacklist: seq<int>)
    requires SteamAppItems(env, loaded, blacklist).Ok?
    ensures AllAllowed(blacklist, SteamAppItems(env, loaded, blacklist).value)
  {
    var apps := Section(loaded.cache, "steam_apps");
    if apps.Some? {
      GatherAllowed(loaded.steamAppKeys, SteamAppEach(env, SteamFolder(env).value, blacklist, apps.value), blacklist);
    }
  }

  lemma NonSteamAppsAllowed(env: Env, loaded: Loaded, blacklist: seq<int>)
    requires NonSteamAppItems(env, loaded, blacklist).Ok?
    ensures AllAllowed(blacklist, NonSteamAppItems(env, loaded, blacklist).value)
  {
    var apps := Section(loaded.cache, "non_steam_apps");
    if apps.Some? {
      GatherAllowed(loaded.nonSteamAppKeys, NonSteamAppEach(env, blacklist, apps.value), blacklist);
    }
  }

  lemma NavItemsAllowed(env: Env, loaded: Loaded, blacklist: seq<int>, keyword: string, keywordApps: string, name: string)
    requires NavItems(env, loaded, blacklist, keyword, keywordApps, name).Ok?
    ensures AllAllowed(blacklist, NavItems(env, loaded, blacklist, keyword, keywordApps, name).value)
  {
    var code := env.preferences["LANGUAGE_CODE"];
    var ids := NavIds(loaded, name, keyword, keywordApps).value;
    if ids.Some? {
      var f := NavEach(env, loaded, blacklist, name, Lookup(env, code, name), LangString(env.lang, code, name + "%d", true));
      GatherAllowed(ids.value, f, blacklist);
    }
  }

  lemma NavigationAllowed(env: Env, loaded: Loaded, blacklist: seq<int>, keyword: string, keywordApps: string)
    requires NavigationItems(env, loaded, blacklist, keyword, keywordApps).Ok?
    ensures AllAllowed(blacklist, NavigationItems(env, loaded, blacklist, keyword, keywordApps).value)
  {
    var names := Const.STEAM_NAVIGATIONS;
    var f := NavigationEach(env, loaded, blacklist, keyword, keywordApps);
    forall j | 0 <= j < |names| && f(names[j]).Ok?
      ensures AllAllowed(blacklist, f(names[j]).value)
    {
      NavItemsAllowed(env, loaded, blacklist, keyword, keywordApps, names[j]);
    }
    GatherAllowed(names, f, blacklist);
  }

  lemma ActionsAllowed(env: Env, blacklist: seq<int>)
    requires ActionItems(env).Ok?
    ensures AllAllowed(blacklist, ActionItems(env).value)
  {
    GatherAllowed(ACTIONS, ActionEach(env), blacklist);
  }

  lemma AllAllowedJoin(blacklist: seq<int>, a: seq<Item>, b: seq<Item>)
    requires AllAllowed(blacklist, a) && AllAllowed(blacklist, b)
    ensures AllAllowed(blacklist, a + b)
  {
    forall k | 0 <= k < |a + b| ensures Allowed(blacklist, (a + b)[k]) {
      if k >= |a| {
        assert (a + b)[k] == b[k - |a|];
      }
    }
  }

  lemma ListedAllowed(env: Env, loaded: Loaded, blacklist: seq<int>, keyword: string, keywordApps: string)
    requires Listed(env, loaded, blacklist, keyword, keywordApps).Ok?
    ensures AllAllowed(blacklist, Listed(env, loaded, blacklist, keyword, keywordApps).value)
  {
    SteamAppsAllowed(env, loaded, blacklist);
    NonSteamAppsAllowed(env, loaded, blacklist);
    AllAllowedJoin(blacklist, SteamAppItems(env, loaded, blacklist).value, NonSteamAppItems(env, loaded, blacklist).value);
    NavigationAllowed(env, loaded, blacklist, keyword, keywordApps);
    AllAllowedJoin(blacklist, AppItems(env, loaded, blacklist).value, NavigationItems(env, loaded, blacklist, keyword, keywordApps).value);
  }

  /** A blacklisted app ID gives neither an app item nor a `%a` navigation
      item. */
  lemma {:induction false} CandidatesAllowed(env: Env, required: seq<string>, loaded: Loaded, keyword: string)
    requires Candidates(env, required, loaded, keyword).Ok?
    ensures Cache.GetBlacklist("app", env.preferences).Some?
    ensures AllAllowed(Cache.GetBlacklist("app", env.preferences).value, Candidates(env, required, loaded, keyword).value)
  {
    var blacklist := AppBlacklist(env).value;
    var main := env.preferences["KEYWORD"];
    var apps := env.preferences["KEYWORD_APPS"];
    var actions := env.preferences["KEYWORD_ACTIONS"];
    var listed: seq<Item> := [];
    if keyword == main || keyword == apps {
      ListedAllowed(env, loaded, blacklist, keyword, apps);
      listed := Listed(env, loaded, blacklist, keyword, apps).value;
    }
    if keyword == main || keyword == actions {
      ActionsAllowed(env, blacklist);
      AllAllowedJoin(blacklist, listed, ActionItems(env).value);
      assert Candidates(env, required, loaded, keyword).value == listed + ActionItems(env).value;
    } else {
      assert Candidates(env, required, loaded, keyword).value == listed;
    }
  }

  /** A `%a` template expands to one navigation per `steam_apps` key, in key
      order, each carrying that key's ID with `%a` replaced by it (here with
      nothing blacklisted). */
  lemma TemplateExpands(env: Env, loaded: Loaded, keyword: string, keywordApps: string, name: string)
    requires Contains(name, "%a") && Section(loaded.cache, "steam_apps").Some?
    requires NavItems(env, loaded, [], keyword, keywordApps, name).Ok?
    ensures |NavItems(env, loaded, [], keyword, keywordApps, name).value| == |loaded.steamAppKeys|
    ensures forall j :: 0 <= j < |loaded.steamAppKeys| ==>
              ParseInt(loaded.steamAppKeys[j]).Some? &&
              NavItems(env, loaded, [], keyword, keywordApps, name).value[j].kind == Nav &&
              NavItems(env, loaded, [], keyword, keywordApps, name).value[j].id == ParseInt(loaded.steamAppKeys[j]) &&
              NavItems(env, loaded, [], keyword, keywordApps, name).value[j].name ==
                Some(Replace(name, "%a", IntToString(ParseInt(loaded.steamAppKeys[j]).value)))
  {
    var keys := loaded.steamAppKeys;
    var items := NavItems(env, loaded, [], keyword, keywordApps, name);
    assert "LANGUAGE_CODE" in env.preferences && ParseIds(keys, ParseInt).Ok?;
    var ids := ParseIds(keys, ParseInt).value;
    var code := env.preferences["LANGUAGE_CODE"];
    var f := NavEach(env, loaded, [], name, Lookup(env, code, name), LangString(env.lang, code, name + "%d", true));
    assert items == Gather(ids, f);
    ParseIdsValues(keys, ParseInt);
    GatherSingles(ids, f);
    forall j | 0 <= j < |keys|
      ensures ParseInt(keys[j]).Some? && items.value[j].kind == Nav && items.value[j].id == ParseInt(keys[j]) &&
              items.value[j].name == Some(Replace(name, "%a", IntToString(ParseInt(keys[j]).value)))
    {
      assert ids[j] == ParseInt(keys[j]);
      assert ParseInt(keys[j]).Some? by {
        ParseIdsFails(keys, ParseInt);
      }
      assert items.value[j] == f(ids[j]).value[0];
    }
  }

  /** A template without `%a` gives one navigation item named after itself,
      and none under the apps keyword. */
  lemma PlainNavigation(env: Env, loaded: Loaded, blacklist: seq<int>, keyword: string, keywordApps: string, name: string)
    requires !Contains(name, "%a") && "LANGUAGE_CODE" in env.preferences
    ensures keyword == keywordApps ==> NavItems(env, loaded, blacklist, keyword, keywordApps, name) == Ok([])
    ensures keyword != keywordApps && NavItems(env, loaded, blacklist, keyword, keywordApps, name).Ok? ==>
              |NavItems(env, loaded, blacklist, keyword, keywordApps, name).value| == 1 &&
              NavItems(env, loaded, blacklist, keyword, keywordApps, name).value[0].kind == Nav &&
              NavItems(env, loaded, blacklist, keyword, keywordApps, name).value[0].id.None? &&
              NavItems(env, loaded, blacklist, keyword, keywordApps, name).value[0].name == Some(name)
  {
    if keyword != keywordApps && NavItems(env, loaded, blacklist, keyword, keywordApps, name).Ok? {
      var code := env.preferences["LANGUAGE_CODE"];
      var f := NavEach(env, loaded, blacklist, name, Lookup(env, code, name), LangString(env.lang, code, name + "%d", true));
      ReplaceAbsent(name, "%a", "None");
      GatherSingles([None], f);
    }
  }

  /** With a search, the items shown before truncation are exactly the
      candidates whose name and description hold every search word, provided
      the ranking only reorders. */
  lemma SearchKeeps(env: Env, items: seq<Item>, search: string, rank: seq<Item> -> seq<Item>)
    requires search != "" && Ordered(env, items, search, rank).Ok?
    requires forall s :: multiset(rank(s)) == multiset(s)
    ensures forall x :: x in Ordered(env, items, search, rank).value <==>
              x in items && SearchedText(env, x).Ok? && AllWordsIn(SearchedText(env, x).value, Words(search))
  {
    var kept := Filter(env, Words(search), items).value;
    FilterKeeps(env, Words(search), items);
    assert multiset(rank(kept)) == multiset(kept);
    forall x ensures x in rank(kept) <==> x in kept {
      assert x in rank(kept) <==> x in multiset(rank(kept));
      assert x in kept <==> x in multiset(kept);
    }
  }

  /** Without a search, the candidates are all kept, in sort-list order. */
  lemma NoSearchSorted(env: Env, items: seq<Item>, rank: seq<Item> -> seq<Item>)
    requires Ordered(env, items, "", rank).Ok?
    ensures multiset(Ordered(env, items, "", rank).value) == multiset(items)
    ensures items != [] ==>
              "SORT_KEYS" in env.preferences &&
              Sorting.Ordered(Ordered(env, items, "", rank).value, Sorting.SortKeys(env.preferences["SORT_KEYS"]))
    ensures items != [] ==>
              forall k :: Sorting.Tied(Ordered(env, items, "", rank).value, k, Sorting.SortKeys(env.preferences["SORT_KEYS"])) ==
                          Sorting.Tied(items, k, Sorting.SortKeys(env.preferences["SORT_KEYS"]))
  {
    if items != [] {
      var keys := Sorting.SortKeys(env.preferences["SORT_KEYS"]);
      Sorting.SortedPermutes(items, keys);
      Sorting.SortedOrdered(items, keys);
      forall k ensures Sorting.Tied(Sorting.Sorted(items, keys), k, keys) == Sorting.Tied(items, k, keys) {
        Sorting.SortedStable(items, k, keys);
      }
    }
  }

  /** Every item shown is one of the candidates, or the "no_results" item
      when none is left. */
  lemma FinishShows(env: Env, items: seq<Item>, search: Option<string>, rank: seq<Item> -> seq<Item>)
    requires Finish(env, items, search, rank).Ok?
    requires forall s :: multiset(rank(s)) == multiset(s)
    ensures NoResultsOr(Finish(env, items, search, rank).value, items)
  {
    var ordered := Ordered(env, items, SearchText(search), rank).value;
    OrderedWithin(env, items, SearchText(search), rank);
    ShownWithin(env, ordered, items);
  }

  /** Ordering only drops or reorders candidates. */
  lemma OrderedWithin(env: Env, items: seq<Item>, search: string, rank: seq<Item> -> seq<Item>)
    requires Ordered(env, items, search, rank).Ok?
    requires forall s :: multiset(rank(s)) == multiset(s)
    ensures forall x :: x in Ordered(env, items, search, rank).value ==> x in items
  {
    var ordered := Ordered(env, items, search, rank).value;
    if search == "" {
      NoSearchSorted(env, items, rank);
      forall x | x in ordered ensures x in items {
        assert x in multiset(ordered);
      }
    } else {
      SearchKeeps(env, items, search, rank);
    }
  }

  /** Truncation keeps a prefix; an empty list becomes "no_results". */
  lemma ShownWithin(env: Env, ordered: seq<Item>, items: seq<Item>)
    requires Shown(env, ordered).Ok?
    requires forall x :: x in ordered ==> x in items
    ensures NoResultsOr(Shown(env, ordered).value, items)
  {
    var shown := Shown(env, ordered).value;
    if ordered != [] {
      forall x | x in shown ensures x in items {
        var k :| 0 <= k < |shown| && shown[k] == x;
        assert ordered[k] == x;
      }
    }
  }

  /** `shown` holds only items of `items`, or is the lone "no_results" item. */
  predicate NoResultsOr(shown: seq<Item>, items: seq<Item>) {
    (forall x :: x in shown ==> x in items) ||
    (|shown| == 1 && shown[0].kind == Action && shown[0].name == Some("no_results") && shown[0].id.None?)
  }

  /** Every item the query shows is one of the candidates, or the
      "no_results" item when none is left. */
  lemma QueryShowsCandidates(env: Env, required: seq<string>, loaded: Loaded, keyword: string,
                             search: Option<string>, rank: seq<Item> -> seq<Item>)
    requires QueryCache(env, required, loaded, keyword, search, rank).Ok?
    requires forall s :: multiset(rank(s)) == multiset(s)
    ensures NoResultsOr(QueryCache(env, required, loaded, keyword, search, rank).value, Candidates(env, required, loaded, keyword).value)
  {
    FinishShows(env, Candidates(env, required, loaded, keyword).value, search, rank);
  }

  /** No item the query shows carries a blacklisted app ID. */
  lemma QueryAllowed(env: Env, required: seq<string>, loaded: Loaded, keyword: string,
                     search: Option<string>, rank: seq<Item> -> seq<Item>)
    requires QueryCache(env, required, loaded, keyword, search, rank).Ok?
    requires forall s :: multiset(rank(s)) == multiset(s)
    ensures Cache.GetBlacklist("app", env.preferences).Some?
    ensures AllAllowed(Cache.GetBlacklist("app", env.preferences).value, QueryCache(env, required, loaded, keyword, search, rank).value)
  {
    var items := Candidates(env, required, loaded, keyword).value;
    var shown := QueryCache(env, required, loaded, keyword, search, rank).value;
    CandidatesAllowed(env, required, loaded, keyword);
    FinishShows(env, items, search, rank);
    AllowedWithin(Cache.GetBlacklist("app", env.preferences).value, items, shown);
  }

  lemma AllowedWithin(blacklist: seq<int>, s: seq<Item>, t: seq<Item>)
    requires AllAllowed(blacklist, s) && NoResultsOr(t, s)
    ensures AllAllowed(blacklist, t)
  {
    forall k | 0 <= k < |t| ensures Allowed(blacklist, t[k]) {
      if t[k] in s {
        var i :| 0 <= i < |s| && s[i] == t[k];
      }
    }
  }
}
