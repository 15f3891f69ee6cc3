/** `cache.py`: the plugin's cache, a JSON object of sections ("updated",
    "apps", "nonSteam", "friends", "countries", ...) each mapping an ID, as
    text, to a record. `build_cache` decides which sections are due for a
    refresh, then merges what the collectors found into the records field by
    field. Times are whole seconds in the records and microseconds in the
    refresh decision, the resolution of Python's `datetime`. */
module Cache {
  import opened Wrappers
  import opened Text
  import opened Json
  import opened Dicts
  import Const
  import Datetimes
  import Durations
  import Manifests
  import Shortcuts
  import SteamApi

  // ---------------------------------------------------------------------------
  // get_blacklist

  /** `get_blacklist` once the preference value has been read: blank gives no
      IDs, otherwise every comma-separated piece must be an integer, and one
      that is not gives no IDs at all. */
  function Blacklist(value: string): (r: seq<int>)
    ensures Strip(value) == "" ==> r == []
  {
    var s := Strip(value);
    if s == "" then []
    else match AllSome(Map(ParseInt, Split(s, ',')))
      case None => []
      case Some(ids) => ids
  }

  /** `get_blacklist(type, preferences)`: the preference `<TYPE>_BLACKLIST`,
      which must exist (None stands for the KeyError). */
  function GetBlacklist(kind: string, preferences: map<string, string>): (r: Option<seq<int>>)
    ensures r.Some? <==> Const.Upper(kind) + "_BLACKLIST" in preferences
  {
    var key := Const.Upper(kind) + "_BLACKLIST";
    if key in preferences then Some(Blacklist(preferences[key])) else None
  }

  /** A non-blank list keeps every piece, in order, when all of them parse. */
  lemma BlacklistParsed(value: string)
    requires Strip(value) != ""
    requires forall k :: 0 <= k < |Split(Strip(value), ',')| ==> ParseInt(Split(Strip(value), ',')[k]).Some?
    ensures |Blacklist(value)| == |Split(Strip(value), ',')|
    ensures forall k :: 0 <= k < |Blacklist(value)| ==> Some(Blacklist(value)[k]) == ParseInt(Split(Strip(value), ',')[k])
  {
    var pieces := Split(Strip(value), ',');
    MapAllSome(ParseInt, pieces);
    assert Blacklist(value) == AllSome(Map(ParseInt, pieces)).value;
  }

  /** One piece that is not an integer empties the whole list. */
  lemma BlacklistRejected(value: string, k: int)
    requires Strip(value) != "" && 0 <= k < |Split(Strip(value), ',')|
    requires ParseInt(Split(Strip(value), ',')[k]).None?
    ensures Blacklist(value) == []
  {
    MapSomeNone(ParseInt, Split(Strip(value), ','), k);
  }

  /** IDs written comma-separated: nothing to strip, not blank, and split at
      the commas into the written IDs. */
  lemma JoinedIdsPlain(ids: seq<int>)
    requires |ids| >= 1
    ensures Strip(Join(Map(IntToString, ids), ',')) == Join(Map(IntToString, ids), ',')
    ensures Split(Join(Map(IntToString, ids), ','), ',') == Map(IntToString, ids)
    ensures Join(Map(IntToString, ids), ',') != ""
  {
    var parts := Map(IntToString, ids);
    forall k | 0 <= k < |parts| ensures NoSpace(parts[k]) && ',' !in parts[k] {
      IntToStringPlain(ids[k]);
    }
    JoinNoSpace(parts, ',');
    StripNoSpace(Join(parts, ','));
    SplitJoin(parts, ',');
    ParseIntToString(ids[0]);
    assert ParseInt(parts[0]).Some?;
  }

  /** Every written ID reads back. */
  lemma ParseWrittenIds(ids: seq<int>)
    ensures AllSome(Map(ParseInt, Map(IntToString, ids))) == Some(ids)
  {
    var parsed := Map(ParseInt, Map(IntToString, ids));
    forall k | 0 <= k < |ids| ensures parsed[k] == Some(ids[k]) {
      ParseIntToString(ids[k]);
    }
    assert AllSome(parsed).value == ids;
  }

  /** Writing IDs comma-separated and reading them back gives the IDs. */
  lemma BlacklistRoundTrip(ids: seq<int>)
    requires |ids| >= 1
    ensures Blacklist(Join(Map(IntToString, ids), ',')) == ids
  {
    var written := Join(Map(IntToString, ids), ',');
    JoinedIdsPlain(ids);
    ParseWrittenIds(ids);
    assert Strip(written) == written != "";
    assert AllSome(Map(ParseInt, Split(Strip(written), ','))) == Some(ids);
  }

  // ---------------------------------------------------------------------------
  // ensure_dict_key_is_dict

  /** `ensure_dict_key_is_dict(d, key)`: the dict afterwards and whether the
      key already held a dict. */
  function EnsureDict(d: Dict, key: string): (r: (Dict, bool))
    ensures key in r.0 && r.0[key].Obj?
    ensures r.1 <==> key in d && d[key].Obj?
    ensures r.1 ==> r.0 == d
    ensures !r.1 ==> r.0[key] == Obj(map[])
    ensures forall k :: k != key ==> (k in r.0 <==> k in d) && (k in d ==> r.0[k] == d[k])
  {
    if key in d && d[key].Obj? then (d, true) else (d[key := Obj(map[])], false)
  }

  /** The record a section holds under `key` once `ensure_dict_key_is_dict`
      has run on it. */
  function RecordAt(section: Dict, key: string): (r: Dict)
    ensures r == EnsureDict(section, key).0[key].fields
  {
    if key in section && section[key].Obj? then section[key].fields else map[]
  }

  // ---------------------------------------------------------------------------
  // Time

  const MICROS: nat := 1_000_000

  /** `datetime.min` and `datetime.max`, in microseconds. */
  const MIN_MICROS: int := -62_135_596_800_000_000
  const MAX_MICROS: int := 253_402_300_799_999_999

  /** `datetime_to_timestamp`: whole seconds, rounded down. */
  function Timestamp(micros: int): (t: int)
    ensures t * MICROS <= micros < t * MICROS + MICROS
  {
    micros / MICROS
  }

  /** A time read from whole seconds converts back to those seconds. */
  lemma TimestampOfSeconds(t: int, f: int)
    requires 0 <= f < MICROS
    ensures Timestamp(t * MICROS + f) == t
  {
  }

  /** `datetime.fromtimestamp(v)` for a value read from the cache, in
      microseconds, or None when it raises: a value that is not a number, or
      one outside the years `datetime` can hold. */
  function FromTimestamp(v: Json): (r: Option<int>)
    ensures r.Some? ==> MIN_MICROS <= r.value <= MAX_MICROS
  {
    match Datetimes.Seconds(v)
    case Some(t) => Some(t * MICROS)
    case None => None
  }

  // ---------------------------------------------------------------------------
  // Refresh decision

  datatype BuildError = MissingPreference(key: string) | DateOverflow

  /** The preferences holding the refresh delays, `UPDATE_FROM_<KEY>_DELAY`
      with "Api" written "_Api" and the key upper-cased. */
  const FILES_DELAY: string := "UPDATE_FROM_FILES_DELAY"
  const STEAM_API_DELAY: string := "UPDATE_FROM_STEAM_API_DELAY"

  /** `compare_last_updated(key)`: a missing key is due; an unreadable time
      counts as `datetime.min`; otherwise the section is due once its time
      plus the delay is strictly before `now`. Adding past the years a
      `datetime` can hold raises. */
  function Outdated(updated: Dict, key: string, pref: string, preferences: map<string, string>, now: int): (r: Result<bool, BuildError>)
    ensures key !in updated ==> r == Ok(true)
    ensures r.Err? && r.error.MissingPreference? ==> r.error.key == pref && pref !in preferences
  {
    if key !in updated then Ok(true)
    else
      var last := FromTimestamp(updated[key]).GetOr(MIN_MICROS);
      if pref !in preferences then Err(MissingPreference(pref))
      else
        var due := last + Durations.Duration(preferences[pref]);
        if due < MIN_MICROS || due > MAX_MICROS then Err(DateOverflow)
        else Ok(due < now)
  }

  /** A section that is due stays due as time goes on. */
  lemma OutdatedLater(updated: Dict, key: string, pref: string, preferences: map<string, string>, now: int, later: int)
    requires now <= later && Outdated(updated, key, pref, preferences, now) == Ok(true)
    ensures Outdated(updated, key, pref, preferences, later) == Ok(true)
  {
  }

  /** A readable time plus the delay against `now`, strictly. */
  lemma OutdatedAt(updated: Dict, key: string, pref: string, preferences: map<string, string>, now: int, t: int)
    requires key in updated && updated[key] == Int(t) && Datetimes.MIN_SECONDS <= t <= Datetimes.MAX_SECONDS
    requires pref in preferences
    requires MIN_MICROS <= t * MICROS + Durations.Duration(preferences[pref]) <= MAX_MICROS
    ensures Outdated(updated, key, pref, preferences, now) == Ok(t * MICROS + Durations.Duration(preferences[pref]) < now)
  {
  }

  /** An unreadable time is as old as `datetime.min`. */
  lemma OutdatedUnreadable(updated: Dict, key: string, pref: string, preferences: map<string, string>, now: int)
    requires key in updated && FromTimestamp(updated[key]).None?
    requires pref in preferences
    requires MIN_MICROS <= MIN_MICROS + Durations.Duration(preferences[pref]) <= MAX_MICROS
    ensures Outdated(updated, key, pref, preferences, now) == Ok(MIN_MICROS + Durations.Duration(preferences[pref]) < now)
  {
  }

  /** Which parts of the cache `build_cache` refreshes: from the files on disk
      and from the Steam Web API. */
  datatype Refresh = Refresh(files: bool, steamApi: bool)

  /** Lines 303-337: everything is due when forced or when "updated" is missing
      or not a dict; otherwise each part by its own time. */
  function RefreshDecision(cache: Dict, force: bool, preferences: map<string, string>, now: int): (r: Result<Refresh, BuildError>)
    ensures force || "updated" !in cache || !cache["updated"].Obj? ==> r == Ok(Refresh(true, true))
    ensures r.Err? && r.error.MissingPreference? ==> r.error.key !in preferences
  {
    if "updated" !in cache || !cache["updated"].Obj? || force then Ok(Refresh(true, true))
    else
      var updated := cache["updated"].fields;
      match Outdated(updated, "files", FILES_DELAY, preferences, now)
      case Err(e) => Err(e)
      case Ok(files) =>
        match Outdated(updated, "steamApi", STEAM_API_DELAY, preferences, now)
        case Err(e) => Err(e)
        case Ok(api) => Ok(Refresh(files, api))
  }

  /** Without force, each part is refreshed exactly when its own time says so. */
  lemma RefreshByTime(cache: Dict, preferences: map<string, string>, now: int)
    requires "updated" in cache && cache["updated"].Obj?
    requires RefreshDecision(cache, false, preferences, now).Ok?
    ensures Outdated(cache["updated"].fields, "files", FILES_DELAY, preferences, now).Ok?
    ensures Outdated(cache["updated"].fields, "steamApi", STEAM_API_DELAY, preferences, now).Ok?
    ensures RefreshDecision(cache, false, preferences, now).value
            == Refresh(Outdated(cache["updated"].fields, "files", FILES_DELAY, preferences, now).value,
                       Outdated(cache["updated"].fields, "steamApi", STEAM_API_DELAY, preferences, now).value)
  {
  }

  // ---------------------------------------------------------------------------
  // Records merged by build_cache

  /** What the collectors hand to `build_cache`, under the key names it reads;
      times are whole seconds, None where the collector found nothing. */
  datatype NonSteamEntry = NonSteamEntry(name: string, exe: Option<string>, sizeOnDisk: Option<int>, lastLaunched: Option<int>)
  datatype InstalledEntry = InstalledEntry(name: string, installDir: string, sizeOnDisk: int, lastUpdated: Option<int>, lastLaunched: Option<int>)
  datatype OwnedEntry = OwnedEntry(name: string, totalPlaytime: int, iconHash: Option<string>)
  datatype FriendEntry = FriendEntry(name: Json, iconHash: Option<string>, lastUpdated: Option<int>, realName: Option<string>,
                                     timeCreated: Option<int>, countryCode: Option<string>, stateCode: Option<string>,
                                     cityCode: Option<int>)

  /** `compare_last_launched` answering False: the cached time reads as a
      `datetime` and the incoming one is strictly earlier. */
  predicate CachedIsLater(launched: int, record: Dict) {
    "last_launched" in record && FromTimestamp(record["last_launched"]).Some?
    && launched * MICROS < FromTimestamp(record["last_launched"]).value
  }

  /** The `last_launched` update shared by the non-Steam and installed merges:
      written only when the incoming time is present and not older than a
      readable cached one. */
  function WithLaunch(record: Dict, launched: Option<int>): (r: Dict)
    ensures r.Keys == record.Keys + (if r == record then {} else {"last_launched"})
    ensures forall k :: k in record && k != "last_launched" ==> r[k] == record[k]
  {
    if launched.Some? && !CachedIsLater(launched.value, record) then record["last_launched" := Int(launched.value)]
    else record
  }

  /** Comparing whole seconds as microseconds keeps their order. */
  lemma MicrosOrder(x: int, y: int)
    ensures x * MICROS < y * MICROS <==> x < y
  {
    if x < y {
      assert y * MICROS == x * MICROS + (y - x) * MICROS;
    } else {
      assert x * MICROS == y * MICROS + (x - y) * MICROS;
    }
  }

  /** A readable cached `last_launched` never goes back: afterwards it holds
      the later of the cached and the incoming time. */
  lemma LaunchNeverRegresses(record: Dict, cached: int, launched: int)
    requires "last_launched" in record && record["last_launched"] == Int(cached)
    requires Datetimes.MIN_SECONDS <= cached <= Datetimes.MAX_SECONDS
    ensures WithLaunch(record, Some(launched))["last_launched"] == Int(if launched < cached then cached else launched)
  {
    MicrosOrder(launched, cached);
  }

  /** An unreadable cached time is replaced by any incoming one. */
  lemma LaunchOverUnreadable(record: Dict, launched: int)
    requires "last_launched" !in record || FromTimestamp(record["last_launched"]).None?
    ensures WithLaunch(record, Some(launched))["last_launched"] == Int(launched)
  {
  }

  /** `compare_last_launched` and the assignment after it, as written: a
      cached time `fromtimestamp` refuses sends it to the handler, whose
      warning reads `app['app_id']`, a key no collector record has; the
      KeyError, named here by its key, escapes `build_cache`. */
  function WithLaunchAsWritten(record: Dict, launched: Option<int>): (r: Result<Dict, string>)
    ensures r.Err? <==> launched.Some? && "last_launched" in record && FromTimestamp(record["last_launched"]).None?
    ensures r.Err? ==> r.error == "app_id"
    ensures r.Ok? ==> r.value == WithLaunch(record, launched)
  {
    if launched.Some? && "last_launched" in record && FromTimestamp(record["last_launched"]).None? then Err("app_id")
    else Ok(WithLaunch(record, launched))
  }

  /** A cached launch time saved as text: as written the merge raises, where
      the corrected merge logs it and stores the incoming time. */
  lemma UnreadableLaunchRaisesAsWritten()
    ensures WithLaunchAsWritten(map["last_launched" := Str("abc")], Some(0)) == Err("app_id")
    ensures WithLaunch(map["last_launched" := Str("abc")], Some(0))["last_launched"] == Int(0)
  {
    var record: Dict := map["last_launched" := Str("abc")];
    assert FromTimestamp(record["last_launched"]).None?;
    LaunchOverUnreadable(record, 0);
  }

  /** `d[key] = v` when v is present, otherwise the key removed. */
  function SetOrDelete(d: Dict, key: string, v: Option<Json>): (r: Dict)
    ensures v.Some? ==> key in r && r[key] == v.value
    ensures v.None? ==> key !in r
    ensures forall k :: k != key ==> (k in r <==> k in d) && (k in d ==> r[k] == d[k])
  {
    if v.Some? then d[key := v.value] else d - {key}
  }

  /** `d[key] = v` when v is present, otherwise `d` untouched. */
  function SetIfSome(d: Dict, key: string, v: Option<Json>): (r: Dict)
    ensures v.Some? ==> key in r && r[key] == v.value
    ensures v.None? ==> r == d
    ensures forall k :: k != key ==> (k in r <==> k in d) && (k in d ==> r[k] == d[k])
  {
    if v.Some? then d[key := v.value] else d
  }

  function StrOf(v: Option<string>): Option<Json> {
    if v.Some? then Some(Str(v.value)) else None
  }

  function IntOf(v: Option<int>): Option<Json> {
    if v.Some? then Some(Int(v.value)) else None
  }

  /** The keys `get.py` gives the records its collectors return
      (get.py:150-156, 275-280, 370-374, 414, 489-498). */
  const INSTALLED_FIELDS: set<string> := {"name", "dir", "size", "updated", "launched"}
  const NON_STEAM_FIELDS: set<string> := {"name", "exe", "size", "launched"}
  const OWNED_FIELDS: set<string> := {"name", "playtime", "icon_hash"}
  const FRIEND_LISTED_FIELDS: set<string> := {"since"}
  const FRIEND_INFO_FIELDS: set<string> :=
    {"name", "icon_hash", "updated", "real_name", "created", "country_code", "state_code", "city_code"}

  /** The keys the merges of `build_cache` read from those records, in the
      order they read them (lines 396-406, 440-446, 481-483, 511-513,
      527-547 then 576-592). */
  const NON_STEAM_READS: seq<string> := ["name", "exe", "size_on_disk", "last_launched"]
  const INSTALLED_READS: seq<string> := ["name", "install_dir", "size_on_disk", "last_updated", "last_launched"]
  const OWNED_READS: seq<string> := ["name", "total_playtime", "icon_hash"]
  const FRIEND_LISTED_READS: seq<string> := ["friend_since"]
  const FRIEND_INFO_READS: seq<string> :=
    ["country_code", "state_code", "city_code", "name", "icon_hash", "last_updated", "real_name", "time_created"]

  /** The first of the keys read that a record lacks: the KeyError its
      merge raises, None when every read finds its key. */
  function FirstMissing(fields: set<string>, keys: seq<string>): (r: Option<string>)
    ensures r.None? <==> forall i :: 0 <= i < |keys| ==> keys[i] in fields
    ensures r.Some? ==> exists i :: 0 <= i < |keys| && keys[i] == r.value && keys[i] !in fields
                                    && forall j :: 0 <= j < i ==> keys[j] in fields
  {
    if keys == [] then None
    else if keys[0] !in fields then Some(keys[0])
    else
      var rest := FirstMissing(fields, keys[1..]);
      if rest.Some? then
        var i :| 0 <= i < |keys[1..]| && keys[1..][i] == rest.value && keys[1..][i] !in fields
                 && forall j :: 0 <= j < i ==> keys[1..][j] in fields;
        assert keys[i + 1] == rest.value;
        rest
      else rest
  }

  /** The key at `i` is the first one missing. */
  lemma {:induction false} FirstMissingAt(fields: set<string>, keys: seq<string>, i: int)
    requires 0 <= i < |keys| && keys[i] !in fields && forall j :: 0 <= j < i ==> keys[j] in fields
    ensures FirstMissing(fields, keys) == Some(keys[i])
  {
    if i > 0 {
      FirstMissingAt(fields, keys[1..], i - 1);
    }
  }

  /** As written, every merge raises KeyError on the first record its
      collector returns: each reads a key under another name than the one
      the collector wrote. */
  lemma CollectorKeysMismatch()
    ensures FirstMissing(NON_STEAM_FIELDS, NON_STEAM_READS) == Some("size_on_disk")
    ensures FirstMissing(INSTALLED_FIELDS, INSTALLED_READS) == Some("install_dir")
    ensures FirstMissing(OWNED_FIELDS, OWNED_READS) == Some("total_playtime")
    ensures FirstMissing(FRIEND_LISTED_FIELDS, FRIEND_LISTED_READS) == Some("friend_since")
    ensures FirstMissing(FRIEND_INFO_FIELDS, FRIEND_INFO_READS) == Some("last_updated")
  {
    FirstMissingAt(NON_STEAM_FIELDS, NON_STEAM_READS, 2);
    FirstMissingAt(INSTALLED_FIELDS, INSTALLED_READS, 1);
    FirstMissingAt(OWNED_FIELDS, OWNED_READS, 1);
    FirstMissingAt(FRIEND_LISTED_FIELDS, FRIEND_LISTED_READS, 0);
    FirstMissingAt(FRIEND_INFO_FIELDS, FRIEND_INFO_READS, 5);
  }

  /** Lines 396-410: the name overwritten, `exe` and `size_on_disk` set or
      deleted, `last_launched` by the launch rule. */
  function NonSteamRecord(record: Dict, app: NonSteamEntry): (r: Dict)
    ensures "name" in r && r["name"] == Str(app.name)
    ensures "exe" in r <==> app.exe.Some?
    ensures app.exe.Some? ==> r["exe"] == Str(app.exe.value)
    ensures "size_on_disk" in r <==> app.sizeOnDisk.Some?
    ensures app.sizeOnDisk.Some? ==> r["size_on_disk"] == Int(app.sizeOnDisk.value)
  {
    var named := record["name" := Str(app.name)];
    WithLaunch(SetOrDelete(SetOrDelete(named, "exe", StrOf(app.exe)), "size_on_disk", IntOf(app.sizeOnDisk)), app.lastLaunched)
  }

  /** Lines 441-455: name, install folder and size overwritten,
      `last_updated` only when known, `last_launched` by the launch rule. */
  function InstalledRecord(record: Dict, app: InstalledEntry): (r: Dict)
    ensures "name" in r && r["name"] == Str(app.name)
    ensures "install_dir" in r && r["install_dir"] == Str(app.installDir)
    ensures "size_on_disk" in r && r["size_on_disk"] == Int(app.sizeOnDisk)
    ensures app.lastUpdated.Some? ==> "last_updated" in r && r["last_updated"] == Int(app.lastUpdated.value)
    ensures app.lastUpdated.None? ==> ("last_updated" in r <==> "last_updated" in record)
  {
    var written := record["name" := Str(app.name)]["install_dir" := Str(app.installDir)]["size_on_disk" := Int(app.sizeOnDisk)];
    WithLaunch(SetIfSome(written, "last_updated", IntOf(app.lastUpdated)), app.lastLaunched)
  }

  /** Lines 478-483: name and playtime overwritten, the icon only when known. */
  function OwnedRecord(record: Dict, app: OwnedEntry): (r: Dict)
    ensures "name" in r && r["name"] == Str(app.name)
    ensures "total_playtime" in r && r["total_playtime"] == Int(app.totalPlaytime)
    ensures app.iconHash.Some? ==> "icon_hash" in r && r["icon_hash"] == Str(app.iconHash.value)
    ensures app.iconHash.None? ==> ("icon_hash" in r <==> "icon_hash" in record)
  {
    SetIfSome(record["name" := Str(app.name)]["total_playtime" := Int(app.totalPlaytime)], "icon_hash", StrOf(app.iconHash))
  }

  /** The owned-app merge leaves what the installed-app merge wrote alone. */
  lemma OwnedKeepsInstallFields(record: Dict, app: OwnedEntry, k: string)
    requires k in {"install_dir", "size_on_disk", "last_updated", "last_launched"}
    ensures k in OwnedRecord(record, app) <==> k in record
    ensures k in record ==> OwnedRecord(record, app)[k] == record[k]
  {
  }

  /** Lines 513-515: the friendship time. */
  function FriendSinceRecord(record: Dict, since: int): (r: Dict)
    ensures "friend_since" in r && r["friend_since"] == Int(since)
    ensures forall k :: k in record && k != "friend_since" ==> k in r && r[k] == record[k]
  {
    record["friend_since" := Int(since)]
  }

  /** The optional profile fields, in the order lines 576-594 write them,
      each with the profile's value when it has one. */
  function ProfileFields(info: FriendEntry): seq<(string, Option<Json>)> {
    [("icon_hash", StrOf(info.iconHash)), ("last_updated", IntOf(info.lastUpdated)), ("real_name", StrOf(info.realName)),
     ("time_created", IntOf(info.timeCreated)), ("country", StrOf(info.countryCode)), ("state", StrOf(info.stateCode)),
     ("city", IntOf(info.cityCode))]
  }

  /** No two optional profile fields share a key, and none is "name". */
  lemma ProfileKeysDistinct(info: FriendEntry)
    ensures forall i, j :: 0 <= i < j < |ProfileFields(info)| ==> ProfileFields(info)[i].0 != ProfileFields(info)[j].0
    ensures forall i :: 0 <= i < |ProfileFields(info)| ==> ProfileFields(info)[i].0 != "name"
  {
    var fields := ProfileFields(info);
    forall i, j | 0 <= i < j < |fields| ensures fields[i].0 != fields[j].0 {
      assert |fields[i].0| != |fields[j].0| || fields[i].0[0] != fields[j].0[0];
    }
    forall i | 0 <= i < |fields| ensures fields[i].0 != "name" {
      assert |fields[i].0| != 4 || fields[i].0[0] != 'n';
    }
  }

  /** `d[key] = value` for each pair in turn whose value is present. */
  function SetEachIfSome(d: Dict, pairs: seq<(string, Option<Json>)>): Dict
    decreases |pairs|
  {
    if pairs == [] then d
    else SetIfSome(SetEachIfSome(d, pairs[..|pairs| - 1]), pairs[|pairs| - 1].0, pairs[|pairs| - 1].1)
  }

  /** Field `k` holds `v` when the profile knows it, and is as it was (there
      or not) when it does not. */
  predicate WrittenWhenKnown(before: Dict, after: Dict, k: string, v: Option<Json>) {
    match v
    case Some(x) => k in after && after[k] == x
    case None => SameAt(before, after, k)
  }

  /** A key no pair names is left as it was. */
  lemma {:induction false} SetEachKeeps(d: Dict, pairs: seq<(string, Option<Json>)>, k: string)
    requires forall j :: 0 <= j < |pairs| ==> pairs[j].0 != k
    ensures SameAt(d, SetEachIfSome(d, pairs), k)
    decreases |pairs|
  {
    if pairs != [] {
      SetEachKeeps(d, pairs[..|pairs| - 1], k);
    }
  }

  /** A key exactly one pair names holds that pair's value when present, and
      is as it was otherwise. */
  lemma {:induction false} SetEachWrites(d: Dict, pairs: seq<(string, Option<Json>)>, i: int)
    requires 0 <= i < |pairs|
    requires forall j :: 0 <= j < |pairs| && j != i ==> pairs[j].0 != pairs[i].0
    ensures WrittenWhenKnown(d, SetEachIfSome(d, pairs), pairs[i].0, pairs[i].1)
    decreases |pairs|
  {
    var n := |pairs| - 1;
    var front := pairs[..n];
    if i == n {
      SetEachKeeps(d, front, pairs[i].0);
    } else {
      assert front[i] == pairs[i];
      SetEachWrites(d, front, i);
    }
  }

  /** Lines 575-594: the name always, every other profile field only when
      known. */
  function FriendInfoRecord(record: Dict, info: FriendEntry): (r: Dict)
    ensures "name" in r && r["name"] == info.name
  {
    ProfileKeysDistinct(info);
    SetEachKeeps(record["name" := info.name], ProfileFields(info), "name");
    SetEachIfSome(record["name" := info.name], ProfileFields(info))
  }

  /** Each of the seven optional profile fields is written exactly when the
      profile has it. */
  lemma FriendInfoOptional(record: Dict, info: FriendEntry)
    ensures WrittenWhenKnown(record, FriendInfoRecord(record, info), "icon_hash", StrOf(info.iconHash))
    ensures WrittenWhenKnown(record, FriendInfoRecord(record, info), "last_updated", IntOf(info.lastUpdated))
    ensures WrittenWhenKnown(record, FriendInfoRecord(record, info), "real_name", StrOf(info.realName))
    ensures WrittenWhenKnown(record, FriendInfoRecord(record, info), "time_created", IntOf(info.timeCreated))
    ensures WrittenWhenKnown(record, FriendInfoRecord(record, info), "country", StrOf(info.countryCode))
    ensures WrittenWhenKnown(record, FriendInfoRecord(record, info), "state", StrOf(info.stateCode))
    ensures WrittenWhenKnown(record, FriendInfoRecord(record, info), "city", IntOf(info.cityCode))
  {
    var fields := ProfileFields(info);
    var named := record["name" := info.name];
    ProfileKeysDistinct(info);
    forall i | 0 <= i < |fields|
      ensures WrittenWhenKnown(record, FriendInfoRecord(record, info), fields[i].0, fields[i].1)
    {
      SetEachWrites(named, fields, i);
      assert fields[i].0 != "name";
      assert SameAt(record, named, fields[i].0);
    }
    assert fields[0].0 == "icon_hash" && fields[1].0 == "last_updated" && fields[2].0 == "real_name";
    assert fields[3].0 == "time_created" && fields[4].0 == "country" && fields[5].0 == "state" && fields[6].0 == "city";
  }

  /** The non-Steam merge touches no field but its own four. */
  lemma NonSteamKeepsOthers(record: Dict, app: NonSteamEntry, k: string)
    requires k in record && k != "name" && k != "exe" && k != "size_on_disk" && k != "last_launched"
    ensures k in NonSteamRecord(record, app) && NonSteamRecord(record, app)[k] == record[k]
  {
  }

  /** The installed-app merge touches no field but its own five. */
  lemma InstalledKeepsOthers(record: Dict, app: InstalledEntry, k: string)
    requires k in record && k != "name" && k != "install_dir" && k != "size_on_disk" && k != "last_updated" && k != "last_launched"
    ensures k in InstalledRecord(record, app) && InstalledRecord(record, app)[k] == record[k]
  {
  }

  /** The profile merge touches no field outside the profile. */
  lemma FriendInfoKeepsOthers(record: Dict, info: FriendEntry, k: string)
    requires k in record && k != "name" && k != "icon_hash" && k != "last_updated" && k != "real_name"
    requires k != "time_created" && k != "country" && k != "state" && k != "city"
    ensures k in FriendInfoRecord(record, info) && FriendInfoRecord(record, info)[k] == record[k]
  {
    var fields := ProfileFields(info);
    assert forall j :: 0 <= j < |fields| ==> fields[j].0 != k;
    SetEachKeeps(record["name" := info.name], fields, k);
  }

  // ---------------------------------------------------------------------------
  // Merging collector results into a section

  /** The keys `str(id)` of the entries a merge loop writes. */
  function NewKeys<E>(entries: map<int, E>, skip: seq<int>): set<string> {
    set id | id in entries && id !in skip :: IntToString(id)
  }

  /** The entry written under `k`, found by reading `k` back as an integer. */
  function EntryFor<E>(k: string, entries: map<int, E>, skip: seq<int>): (r: Option<int>)
    ensures r.Some? ==> r.value in entries && r.value !in skip && IntToString(r.value) == k
  {
    match ParseInt(k)
    case None => None
    case Some(id) => if id in entries && id !in skip && IntToString(id) == k then Some(id) else None
  }

  /** Each entry is found under its own key. */
  lemma EntryForId<E>(id: int, entries: map<int, E>, skip: seq<int>)
    requires id in entries && id !in skip
    ensures EntryFor(IntToString(id), entries, skip) == Some(id)
  {
    ParseIntToString(id);
  }

  /** A section after a merge loop over `entries`, skipping the IDs in `skip`:
      each entry's record, created empty when missing or not a dict, merged
      with `merge`; every other key as it was. */
  function MergeSection<E>(section: Dict, entries: map<int, E>, skip: seq<int>, merge: (Dict, E) -> Dict): (r: Dict)
    ensures forall k :: k in section ==> k in r
  {
    map k | k in section.Keys + NewKeys(entries, skip) && (k in section || EntryFor(k, entries, skip).Some?) ::
      match EntryFor(k, entries, skip)
      case Some(id) => Obj(merge(RecordAt(section, k), entries[id]))
      case None => section[k]
  }

  /** Every entry that is not skipped has its merged record under `str(id)`. */
  lemma MergeSectionWrites<E>(section: Dict, entries: map<int, E>, skip: seq<int>, merge: (Dict, E) -> Dict, id: int)
    requires id in entries && id !in skip
    ensures IntToString(id) in MergeSection(section, entries, skip, merge)
    ensures MergeSection(section, entries, skip, merge)[IntToString(id)]
            == Obj(merge(RecordAt(section, IntToString(id)), entries[id]))
  {
    EntryForId(id, entries, skip);
    assert IntToString(id) in NewKeys(entries, skip);
  }

  /** No key of the section is ever removed, and a key no entry writes keeps
      its value. */
  lemma MergeSectionKeeps<E>(section: Dict, entries: map<int, E>, skip: seq<int>, merge: (Dict, E) -> Dict, k: string)
    requires k in section
    ensures k in MergeSection(section, entries, skip, merge)
    ensures EntryFor(k, entries, skip).None? ==> MergeSection(section, entries, skip, merge)[k] == section[k]
  {
  }

  /** The section holds exactly its old keys and the keys of the entries not
      skipped. */
  lemma MergeSectionKeys<E>(section: Dict, entries: map<int, E>, skip: seq<int>, merge: (Dict, E) -> Dict, k: string)
    ensures k in MergeSection(section, entries, skip, merge) <==> k in section || k in NewKeys(entries, skip)
  {
    if k in NewKeys(entries, skip) {
      var id :| id in entries && id !in skip && IntToString(id) == k;
      EntryForId(id, entries, skip);
    }
  }

  /** A skipped ID's record is neither created nor changed. */
  lemma MergeSectionSkips<E>(section: Dict, entries: map<int, E>, skip: seq<int>, merge: (Dict, E) -> Dict, id: int)
    requires id in skip
    ensures IntToString(id) in MergeSection(section, entries, skip, merge) <==> IntToString(id) in section
    ensures IntToString(id) in section ==> MergeSection(section, entries, skip, merge)[IntToString(id)] == section[IntToString(id)]
  {
    var k := IntToString(id);
    ParseIntToString(id);
    assert EntryFor(k, entries, skip).None?;
    if k in NewKeys(entries, skip) {
      var other :| other in entries && other !in skip && IntToString(other) == k;
      ParseIntToString(other);
    }
  }

  /** One more entry merged into a section: the loop body. */
  function MergeOne<E>(section: Dict, id: int, e: E, skip: seq<int>, merge: (Dict, E) -> Dict): Dict {
    if id in skip then section
    else section[IntToString(id) := Obj(merge(RecordAt(section, IntToString(id)), e))]
  }

  /** What `MergeSection` holds under one key. */
  lemma MergeSectionAt<E>(section: Dict, entries: map<int, E>, skip: seq<int>, merge: (Dict, E) -> Dict, k: string)
    ensures k in MergeSection(section, entries, skip, merge) <==> k in section || EntryFor(k, entries, skip).Some?
    ensures EntryFor(k, entries, skip).Some? ==>
              MergeSection(section, entries, skip, merge)[k] == Obj(merge(RecordAt(section, k), entries[EntryFor(k, entries, skip).value]))
    ensures EntryFor(k, entries, skip).None? && k in section ==> MergeSection(section, entries, skip, merge)[k] == section[k]
  {
    if EntryFor(k, entries, skip).Some? {
      assert k in NewKeys(entries, skip);
    }
  }

  /** Adding an entry changes what is found under its own key only. */
  lemma EntryForAdded<E>(k: string, done: map<int, E>, skip: seq<int>, id: int, e: E)
    requires id !in done
    ensures k != IntToString(id) ==> EntryFor(k, done[id := e], skip) == EntryFor(k, done, skip)
    ensures EntryFor(IntToString(id), done, skip).None?
    ensures EntryFor(IntToString(id), done[id := e], skip) == if id in skip then None else Some(id)
  {
    ParseIntToString(id);
  }

  /** A key other than the new entry's is as before. */
  lemma MergeSectionStepOther<E>(section: Dict, done: map<int, E>, skip: seq<int>, merge: (Dict, E) -> Dict, id: int, e: E, k: string)
    requires id !in done && (k != IntToString(id) || id in skip)
    ensures k in MergeSection(section, done[id := e], skip, merge) <==> k in MergeSection(section, done, skip, merge)
    ensures k in MergeSection(section, done, skip, merge) ==>
              MergeSection(section, done[id := e], skip, merge)[k] == MergeSection(section, done, skip, merge)[k]
  {
    MergeSectionAt(section, done, skip, merge, k);
    MergeSectionAt(section, done[id := e], skip, merge, k);
    EntryForAdded(k, done, skip, id, e);
  }

  /** The new entry's key holds its record merged into what the section held
      before the loop, which is also what it held before this step. */
  lemma MergeSectionStepKey<E>(section: Dict, done: map<int, E>, skip: seq<int>, merge: (Dict, E) -> Dict, id: int, e: E)
    requires id !in done && id !in skip
    ensures IntToString(id) in MergeSection(section, done[id := e], skip, merge)
    ensures MergeSection(section, done[id := e], skip, merge)[IntToString(id)]
            == Obj(merge(RecordAt(MergeSection(section, done, skip, merge), IntToString(id)), e))
  {
    var k := IntToString(id);
    MergeSectionAt(section, done, skip, merge, k);
    MergeSectionAt(section, done[id := e], skip, merge, k);
    EntryForAdded(k, done, skip, id, e);
  }

  lemma MergeSectionStepSkipped<E>(section: Dict, done: map<int, E>, skip: seq<int>, merge: (Dict, E) -> Dict, id: int, e: E)
    requires id !in done && id in skip
    ensures MergeSection(section, done[id := e], skip, merge) == MergeSection(section, done, skip, merge)
  {
    var before := MergeSection(section, done, skip, merge);
    var after := MergeSection(section, done[id := e], skip, merge);
    forall k ensures (k in after <==> k in before) && (k in after ==> after[k] == before[k]) {
      MergeSectionStepOther(section, done, skip, merge, id, e, k);
    }
  }

  /** Two dicts that agree on every other key differ by one update. */
  lemma UpdatedOnlyAt(before: Dict, after: Dict, key: string, v: Json)
    requires key in after && after[key] == v
    requires forall k :: k != key ==> (k in after <==> k in before) && (k in after ==> after[k] == before[k])
    ensures after == before[key := v]
  {
  }

  /** Merging the entries one at a time, in any order, builds `MergeSection`. */
  lemma MergeSectionStep<E>(section: Dict, done: map<int, E>, skip: seq<int>, merge: (Dict, E) -> Dict, id: int, e: E)
    requires id !in done
    ensures MergeSection(section, done[id := e], skip, merge) == MergeOne(MergeSection(section, done, skip, merge), id, e, skip, merge)
  {
    if id in skip {
      MergeSectionStepSkipped(section, done, skip, merge, id, e);
    } else {
      var before := MergeSection(section, done, skip, merge);
      var after := MergeSection(section, done[id := e], skip, merge);
      var key := IntToString(id);
      MergeSectionStepKey(section, done, skip, merge, id, e);
      forall k | k != key ensures (k in after <==> k in before) && (k in after ==> after[k] == before[k]) {
        MergeSectionStepOther(section, done, skip, merge, id, e, k);
      }
      UpdatedOnlyAt(before, after, key, Obj(merge(RecordAt(before, key), e)));
    }
  }

  /** Before the loop nothing is merged. */
  lemma MergeSectionNothing<E>(section: Dict, skip: seq<int>, merge: (Dict, E) -> Dict)
    ensures MergeSection(section, map[], skip, merge) == section
  {
    forall k {
      MergeSectionAt(section, map[], skip, merge, k);
    }
  }

  /** A Python dict from IDs, as the `(key, value)` pairs it yields in order. */
  type Items<E> = seq<(int, E)>

  /** The keys of a dict are distinct. */
  predicate DistinctIds<E>(items: Items<E>) {
    forall i, j :: 0 <= i < j < |items| ==> items[i].0 != items[j].0
  }

  /** The dict the pairs make up. */
  function DictOf<E>(items: Items<E>): map<int, E> {
    InsertAll(map[], items)
  }

  /** The dict of one more pair, whose key is new. */
  lemma DictOfStep<E>(items: Items<E>, i: int)
    requires DistinctIds(items) && 0 <= i < |items|
    ensures DictOf(items[..i + 1]) == DictOf(items[..i])[items[i].0 := items[i].1]
    ensures items[i].0 !in DictOf(items[..i])
  {
    assert items[..i + 1][..i] == items[..i];
    InsertAllKeys(map[], items[..i], items[i].0);
  }

  /** One turn of the merge loop keeps its invariant. */
  lemma MergeEachStep<E>(section: Dict, items: Items<E>, skip: seq<int>, merge: (Dict, E) -> Dict, i: int)
    requires DistinctIds(items) && 0 <= i < |items|
    ensures MergeOne(MergeSection(section, DictOf(items[..i]), skip, merge), items[i].0, items[i].1, skip, merge)
            == MergeSection(section, DictOf(items[..i + 1]), skip, merge)
  {
    DictOfStep(items, i);
    MergeSectionStep(section, DictOf(items[..i]), skip, merge, items[i].0, items[i].1);
  }

  /** The merge loop of `build_cache`: for each entry, in the order the dict
      yields them, make sure its record is a dict and merge into it. */
  method MergeEach<E>(section: Dict, items: Items<E>, skip: seq<int>, merge: (Dict, E) -> Dict) returns (r: Dict)
    requires DistinctIds(items)
    ensures r == MergeSection(section, DictOf(items), skip, merge)
  {
    r := section;
    assert items[..0] == [];
    MergeSectionNothing(section, skip, merge);
    for i := 0 to |items|
      invariant r == MergeSection(section, DictOf(items[..i]), skip, merge)
    {
      var (id, e) := items[i];
      ghost var prev := r;
      if id !in skip {
        var key := IntToString(id);
        r := r[key := Obj(merge(RecordAt(r, key), e))];
      }
      assert r == MergeOne(prev, id, e, skip, merge);
      MergeEachStep(section, items, skip, merge, i);
    }
    assert items[..|items|] == items;
  }

  // ---------------------------------------------------------------------------
  // build_cache

  /** The cache with section `key` made a dict and the entries merged into it. */
  function Merged<E>(cache: Dict, key: string, entries: map<int, E>, skip: seq<int>, merge: (Dict, E) -> Dict): (r: Dict)
    ensures key in r && r[key] == Obj(MergeSection(RecordAt(cache, key), entries, skip, merge))
    ensures forall k :: k != key ==> SameAt(cache, r, k)
  {
    cache[key := Obj(MergeSection(RecordAt(cache, key), entries, skip, merge))]
  }

  /** `cache["updated"][key] = ts`, "updated" being a dict by then. */
  function Stamped(cache: Dict, key: string, ts: int): (r: Dict)
    ensures "updated" in r && r["updated"] == Obj(RecordAt(cache, "updated")[key := Int(ts)])
    ensures forall k :: k != "updated" ==> SameAt(cache, r, k)
  {
    cache["updated" := Obj(RecordAt(cache, "updated")[key := Int(ts)])]
  }

  // ---------------------------------------------------------------------------
  // The countries index

  /** `cache["countries"]` and `city_names_to_download` while the friend
      profiles are walked: by country code, the states whose city names are
      still to be fetched. */
  datatype CountryIndex = CountryIndex(countries: Dict, plan: map<string, seq<string>>)

  /** Every planned country is a dict in the index, and its planned states
      are distinct and missing from that dict. */
  predicate PlanValid(ix: CountryIndex) {
    (forall k :: k in ix.plan ==> k in ix.countries && ix.countries[k].Obj?)
    && (forall k, j :: k in ix.plan && 0 <= j < |ix.plan[k]| ==>
          k in ix.countries && ix.countries[k].Obj? && ix.plan[k][j] !in ix.countries[k].fields)
    && (forall k, i, j :: k in ix.plan && 0 <= i < j < |ix.plan[k]| ==> ix.plan[k][i] != ix.plan[k][j])
  }

  /** Lines 527-556 for one friend profile, the plan entry being created
      before the state is looked up in it. A profile without a country or a
      state is passed over. Otherwise its country becomes a dict in the
      index, and is planned when the index did not have it; with a city, its
      state is planned unless the country's dict or the plan has it. Dicts
      already in the index are kept as they are. */
  function IndexFriend(ix: CountryIndex, friend: FriendEntry): (r: CountryIndex)
    ensures friend.countryCode.None? || friend.stateCode.None? ==> r == ix
    ensures friend.countryCode.Some? && friend.stateCode.Some? ==>
              var cc := friend.countryCode.value;
              cc in r.countries && r.countries[cc].Obj?
              && (cc !in ix.countries ==> cc in r.plan)
              && (friend.cityCode.Some? && friend.stateCode.value !in r.countries[cc].fields ==>
                    cc in r.plan && friend.stateCode.value in r.plan[cc])
    ensures forall k :: k in r.countries ==> k in ix.countries || friend.countryCode == Some(k)
    ensures forall k :: k in ix.countries && ix.countries[k].Obj? ==> k in r.countries && r.countries[k] == ix.countries[k]
    ensures forall k :: k in ix.plan ==> k in r.plan && ix.plan[k] <= r.plan[k]
  {
    if friend.countryCode.None? || friend.stateCode.None? then ix
    else
      var (cc, st) := (friend.countryCode.value, friend.stateCode.value);
      var plan := if cc !in ix.countries && cc !in ix.plan then ix.plan[cc := []] else ix.plan;
      var countries := EnsureDict(ix.countries, cc).0;
      if friend.cityCode.Some? && st !in countries[cc].fields && (cc !in plan || st !in plan[cc]) then
        CountryIndex(countries, plan[cc := (if cc in plan then plan[cc] else []) + [st]])
      else CountryIndex(countries, plan)
  }

  /** One step keeps the plan valid. */
  lemma IndexFriendValid(ix: CountryIndex, friend: FriendEntry)
    requires PlanValid(ix)
    ensures PlanValid(IndexFriend(ix, friend))
  {
  }

  /** Lines 527-556 for one friend profile as written: the guard at lines
      544-548 reads `city_names_to_download[cc]` before lines 549-553 create
      it, so a profile with a city, whose country the index already had and
      the plan has not, and whose state the country's dict lacks, raises
      KeyError naming the country. Otherwise the step is IndexFriend. */
  function IndexFriendAsWritten(ix: CountryIndex, friend: FriendEntry): (r: Result<CountryIndex, string>)
    ensures r.Err? <==> friend.countryCode.Some? && friend.stateCode.Some? && friend.cityCode.Some?
                        && friend.countryCode.value in ix.countries && friend.countryCode.value !in ix.plan
                        && friend.stateCode.value !in RecordAt(ix.countries, friend.countryCode.value)
    ensures r.Err? ==> r.error == friend.countryCode.value
    ensures r.Ok? ==> r.value == IndexFriend(ix, friend)
  {
    if friend.countryCode.None? || friend.stateCode.None? then Ok(ix)
    else
      var (cc, st) := (friend.countryCode.value, friend.stateCode.value);
      var plan := if cc !in ix.countries && cc !in ix.plan then ix.plan[cc := []] else ix.plan;
      var countries := EnsureDict(ix.countries, cc).0;
      if friend.cityCode.None? || st in countries[cc].fields then Ok(CountryIndex(countries, plan))
      else if cc !in plan then Err(cc)
      else if st !in plan[cc] then Ok(CountryIndex(countries, plan[cc := plan[cc] + [st]]))
      else Ok(CountryIndex(countries, plan))
  }

  /** A country an earlier run saved empty (its state names could not be
      fetched) and a friend there with a state and a city: as written, the
      walk raises. */
  lemma IndexFriendAsWrittenRaises()
    ensures IndexFriendAsWritten(CountryIndex(map["SE" := Obj(map[])], map[]),
                                 FriendEntry(Str("a"), None, None, None, None, Some("SE"), Some("01"), Some(7)))
            == Err("SE")
    ensures IndexFriend(CountryIndex(map["SE" := Obj(map[])], map[]),
                        FriendEntry(Str("a"), None, None, None, None, Some("SE"), Some("01"), Some(7))).plan
            == map["SE" := ["01"]]
  {
    var ix := CountryIndex(map["SE" := Obj(map[])], map[]);
    assert EnsureDict(ix.countries, "SE").0 == ix.countries;
    assert "01" !in ix.countries["SE"].fields;
    assert [] + ["01"] == ["01"];
  }

  /** The walk over all friend profiles, blacklisted ones included, from the
      countries already cached and an empty plan. */
  function IndexCountries(countries: Dict, friends: Items<FriendEntry>): CountryIndex
    decreases |friends|
  {
    if friends == [] then CountryIndex(countries, map[])
    else IndexFriend(IndexCountries(countries, friends[..|friends| - 1]), friends[|friends| - 1].1)
  }

  /** The walk keeps the plan valid and the cached dicts as they were, and
      plans every country it adds. */
  lemma {:induction false} IndexCountriesValid(countries: Dict, friends: Items<FriendEntry>)
    ensures PlanValid(IndexCountries(countries, friends))
    ensures forall k :: k in countries && countries[k].Obj? ==>
              k in IndexCountries(countries, friends).countries && IndexCountries(countries, friends).countries[k] == countries[k]
    ensures forall k :: k in IndexCountries(countries, friends).countries && k !in countries ==>
              k in IndexCountries(countries, friends).plan
    decreases |friends|
  {
    if friends != [] {
      var before := IndexCountries(countries, friends[..|friends| - 1]);
      IndexCountriesValid(countries, friends[..|friends| - 1]);
      IndexFriendValid(before, friends[|friends| - 1].1);
    }
  }

  /** What the walk promises a profile with a country and a state: its
      country is a dict in the index, planned when it was not cached; and
      with a city, a state that dict lacks is planned. */
  predicate Covered(countries: Dict, r: CountryIndex, friend: FriendEntry)
    requires friend.countryCode.Some? && friend.stateCode.Some?
  {
    var (cc, st) := (friend.countryCode.value, friend.stateCode.value);
    cc in r.countries && r.countries[cc].Obj?
    && (cc !in countries ==> cc in r.plan)
    && (friend.cityCode.Some? && st !in r.countries[cc].fields ==> cc in r.plan && st in r.plan[cc])
  }

  /** A later step keeps an earlier profile covered. */
  lemma CoveredKept(countries: Dict, before: CountryIndex, friend: FriendEntry, next: FriendEntry)
    requires friend.countryCode.Some? && friend.stateCode.Some? && Covered(countries, before, friend)
    ensures Covered(countries, IndexFriend(before, next), friend)
  {
    var cc := friend.countryCode.value;
    var r := IndexFriend(before, next);
    assert r.countries[cc] == before.countries[cc];
    if cc in before.plan {
      assert before.plan[cc] <= r.plan[cc];
    }
  }

  /** A profile's own step covers it, once every country the index added is
      planned. */
  lemma CoveredNow(countries: Dict, before: CountryIndex, friend: FriendEntry)
    requires friend.countryCode.Some? && friend.stateCode.Some?
    requires forall k :: k in before.countries && k !in countries ==> k in before.plan
    ensures Covered(countries, IndexFriend(before, friend), friend)
  {
    var cc := friend.countryCode.value;
    if cc !in countries && cc in before.countries {
      assert cc in before.plan;
    }
  }

  /** After the walk every profile with a country and a state is covered. */
  lemma {:induction false} IndexCountriesCovers(countries: Dict, friends: Items<FriendEntry>, i: int)
    requires 0 <= i < |friends| && friends[i].1.countryCode.Some? && friends[i].1.stateCode.Some?
    ensures Covered(countries, IndexCountries(countries, friends), friends[i].1)
    decreases |friends|
  {
    var n := |friends| - 1;
    var before := IndexCountries(countries, friends[..n]);
    assert IndexCountries(countries, friends) == IndexFriend(before, friends[n].1);
    if i < n {
      assert friends[..n][i] == friends[i];
      IndexCountriesCovers(countries, friends[..n], i);
      CoveredKept(countries, before, friends[i].1, friends[n].1);
    } else {
      IndexCountriesValid(countries, friends[..n]);
      CoveredNow(countries, before, friends[i].1);
    }
  }

  /** One more profile extends the walk by one step. */
  lemma IndexCountriesNext(countries: Dict, friends: Items<FriendEntry>, i: int)
    requires 0 <= i < |friends|
    ensures IndexCountries(countries, friends[..i + 1]) == IndexFriend(IndexCountries(countries, friends[..i]), friends[i].1)
  {
    assert friends[..i + 1][..i] == friends[..i];
  }

  /** The body of the walk, lines 527-556, for one profile. */
  method IndexProfile(ix: CountryIndex, friend: FriendEntry) returns (r: CountryIndex)
    ensures r == IndexFriend(ix, friend)
  {
    r := ix;
    if friend.countryCode.Some? && friend.stateCode.Some? {
      var cc, st := friend.countryCode.value, friend.stateCode.value;
      var plan := ix.plan;
      if cc !in ix.countries && cc !in plan {
        plan := plan[cc := []];
      }
      var (c, _) := EnsureDict(ix.countries, cc);
      if friend.cityCode.Some? && st !in c[cc].fields && (cc !in plan || st !in plan[cc]) {
        var states := if cc in plan then plan[cc] else [];
        plan := plan[cc := states + [st]];
      }
      r := CountryIndex(c, plan);
    }
  }

  /** The walk of lines 526-556. */
  method IndexFriendCountries(countries: Dict, friends: Items<FriendEntry>) returns (r: CountryIndex)
    ensures r == IndexCountries(countries, friends)
  {
    r := CountryIndex(countries, map[]);
    assert friends[..0] == [];
    for i := 0 to |friends|
      invariant r == IndexCountries(countries, friends[..i])
    {
      IndexCountriesNext(countries, friends, i);
      r := IndexProfile(r, friends[i].1);
    }
    assert friends[..|friends|] == friends;
  }

  /** What one Steam folder yielded: the non-Steam apps of its shortcuts file
      (None when the userdata folder or the file is missing) and its
      installed apps (None when it has no steamapps folder). A collector that
      raised yields no apps. */
  datatype FolderScan = FolderScan(shortcuts: Option<Items<NonSteamEntry>>, installed: Option<Items<InstalledEntry>>)

  /** Everything the collectors return, taken as inputs. */
  datatype Collected = Collected(folders: seq<FolderScan>, owned: Items<OwnedEntry>,
                                 friendsList: Items<int>, friendsInfo: Items<FriendEntry>)

  /** Every collector result is a dict, so its keys are distinct. */
  predicate WellFormed(input: Collected) {
    (forall i :: 0 <= i < |input.folders| && input.folders[i].shortcuts.Some? ==> DistinctIds(input.folders[i].shortcuts.value))
    && (forall i :: 0 <= i < |input.folders| && input.folders[i].installed.Some? ==> DistinctIds(input.folders[i].installed.value))
    && DistinctIds(input.owned) && DistinctIds(input.friendsList) && DistinctIds(input.friendsInfo)
  }

  /** Lines 376-464 for one folder: the cache afterwards and whether this
      folder counts as an update from files. Only the first folder's
      shortcuts are read. */
  function FolderStep(cache: Dict, scan: FolderScan, first: bool): (r: (Dict, bool))
    ensures r.1 <==> (first && scan.shortcuts.Some?) || (scan.installed.Some? && |scan.installed.value| >= 1)
    ensures forall k :: k != "nonSteam" && k != "apps" ==> SameAt(cache, r.0, k)
    ensures !first || scan.shortcuts.None? ==> SameAt(cache, r.0, "nonSteam")
  {
    var (c, shortcutsRead) :=
      if first && scan.shortcuts.Some? then (Merged(cache, "nonSteam", DictOf(scan.shortcuts.value), [], NonSteamRecord), true)
      else (cache, false);
    match scan.installed
    case None => (c, shortcutsRead)
    case Some(apps) => (Merged(c, "apps", DictOf(apps), [], InstalledRecord), shortcutsRead || |apps| >= 1)
  }

  /** The folder loop: each folder in turn, the files time stamped at the end
      of every folder once any folder has counted. */
  function FilesLoop(cache: Dict, folders: seq<FolderScan>, ts: int): (r: (Dict, bool))
    decreases |folders|
  {
    if folders == [] then (cache, false)
    else
      var n := |folders| - 1;
      var (before, updated) := FilesLoop(cache, folders[..n], ts);
      var (after, counted) := FolderStep(before, folders[n], n == 0);
      if updated || counted then (Stamped(after, "files", ts), true) else (after, false)
  }

  /** Lines 469-497: the owned apps merged into "apps", the API time stamped
      when there were any. */
  function OwnedPart(cache: Dict, owned: Items<OwnedEntry>, ts: int): (r: Dict)
    ensures forall k :: k != "apps" && k != "updated" ==> SameAt(cache, r, k)
  {
    var merged := Merged(cache, "apps", DictOf(owned), [], OwnedRecord);
    if |owned| >= 1 then Stamped(merged, "steamApi", ts) else merged
  }

  /** Lines 498-594: the friends list merged into "friends", the countries
      index walked, then the friend profiles merged into "friends";
      blacklisted IDs are skipped by both merges. */
  function FriendsPart(cache: Dict, input: Collected, friendBlacklist: seq<int>): (r: Dict)
    ensures forall k :: k != "friends" && k != "countries" ==> SameAt(cache, r, k)
  {
    var listed := Merged(cache, "friends", DictOf(input.friendsList), friendBlacklist, FriendSinceRecord);
    var withCountries := EnsureDict(listed, "countries").0;
    var indexed := withCountries["countries" := Obj(IndexCountries(withCountries["countries"].fields, input.friendsInfo).countries)];
    Merged(indexed, "friends", DictOf(input.friendsInfo), friendBlacklist, FriendInfoRecord)
  }

  /** Lines 468-597: the Steam Web API part, the API time stamped when apps
      or friends were found. */
  function ApiPhase(cache: Dict, input: Collected, friendBlacklist: seq<int>, ts: int): (r: (Dict, bool))
    ensures r.1 <==> |input.owned| >= 1 || |input.friendsList| >= 1
    ensures r.1 ==> "steamApi" in RecordAt(r.0, "updated") && RecordAt(r.0, "updated")["steamApi"] == Int(ts)
  {
    var c := FriendsPart(OwnedPart(cache, input.owned, ts), input, friendBlacklist);
    if |input.owned| >= 1 || |input.friendsList| >= 1 then (Stamped(c, "steamApi", ts), true) else (c, false)
  }

  /** The API part writes only "apps", "friends", "countries" and "updated". */
  lemma ApiPhaseLeavesOthers(cache: Dict, input: Collected, friendBlacklist: seq<int>, ts: int, k: string)
    requires k != "apps" && k != "friends" && k != "countries" && k != "updated"
    ensures SameAt(cache, ApiPhase(cache, input, friendBlacklist, ts).0, k)
  {
    var owned := OwnedPart(cache, input.owned, ts);
    var c := FriendsPart(owned, input, friendBlacklist);
    assert SameAt(cache, owned, k);
    assert SameAt(owned, c, k);
    if |input.owned| >= 1 || |input.friendsList| >= 1 {
      assert SameAt(c, Stamped(c, "steamApi", ts), k);
    }
  }

  /** The cache in memory at the end, and what `save_cache` last wrote (None
      when nothing was saved). */
  datatype Built = Built(cache: Dict, saved: Option<Dict>)

  /** `build_cache(preferences, force)` over the loaded cache, the collector
      results and the clock `now` in microseconds. */
  function BuildCache(required: seq<string>, preferences: map<string, string>, force: bool, cache: Dict,
                      input: Collected, now: int): (r: Result<Built, BuildError>)
    ensures r.Ok? ==> forall i :: 0 <= i < |required| ==> required[i] in preferences
    ensures r.Err? && r.error.MissingPreference? ==> r.error.key !in preferences
    ensures force && r.Err? ==> r.error.MissingPreference?
  {
    match Const.CheckRequiredPreferences(required, preferences)
    case Err(key) => Err(MissingPreference(key))
    case Ok(_) =>
      if GetBlacklist("app", preferences).None? then Err(MissingPreference(Const.Upper("app") + "_BLACKLIST"))
      else if GetBlacklist("friend", preferences).None? then Err(MissingPreference(Const.Upper("friend") + "_BLACKLIST"))
      else match RefreshDecision(cache, force, preferences, now)
        case Err(e) => Err(e)
        case Ok(refresh) =>
          Refreshed(preferences, refresh.files || force, refresh.steamApi || force, EnsureDict(cache, "updated").0,
                    input, GetBlacklist("friend", preferences).value, Timestamp(now))
  }

  /** Lines 339-597 once the parts to refresh are known: the files part, then
      the Steam Web API part. */
  function Refreshed(preferences: map<string, string>, files: bool, steamApi: bool, cache: Dict,
                     input: Collected, friendBlacklist: seq<int>, ts: int): (r: Result<Built, BuildError>)
    ensures r.Err? <==> files && ("STEAM_FOLDERS" !in preferences
                                  || (|input.folders| >= 1 && "STEAM_USERDATA_ID" !in preferences))
    ensures r.Err? ==> r.error.MissingPreference? && r.error.key !in preferences
    ensures r.Ok? ==> (r.value.saved.Some? <==> (files && FilesLoop(cache, input.folders, ts).1)
                                                || (steamApi && (|input.owned| >= 1 || |input.friendsList| >= 1)))
    ensures r.Ok? && r.value.saved.Some? ==> files || steamApi
  {
    if files && "STEAM_FOLDERS" !in preferences then Err(MissingPreference("STEAM_FOLDERS"))
    else if files && |input.folders| >= 1 && "STEAM_USERDATA_ID" !in preferences then Err(MissingPreference("STEAM_USERDATA_ID"))
    else
      var (c1, filesSaved) := if files then FilesLoop(cache, input.folders, ts) else (cache, false);
      if steamApi then
        var (c2, apiSaved) := ApiPhase(c1, input, friendBlacklist, ts);
        Ok(Built(c2, if apiSaved then Some(c2) else if filesSaved then Some(c1) else None))
      else Ok(Built(c1, if filesSaved then Some(c1) else None))
  }

  /** `ensure_dict_key_is_dict(cache, key)` followed by the merge loop over
      the section. */
  method MergeInto<E>(cache: Dict, key: string, items: Items<E>, skip: seq<int>, merge: (Dict, E) -> Dict) returns (r: Dict)
    requires DistinctIds(items)
    ensures r == Merged(cache, key, DictOf(items), skip, merge)
  {
    var (c, _) := EnsureDict(cache, key);
    var section := MergeEach(c[key].fields, items, skip, merge);
    r := c[key := Obj(section)];
  }

  lemma FilesLoopStep(cache: Dict, folders: seq<FolderScan>, ts: int, i: int)
    requires 0 <= i < |folders|
    ensures FilesLoop(cache, folders[..i + 1], ts)
            == var (before, updated) := FilesLoop(cache, folders[..i], ts);
               var (after, counted) := FolderStep(before, folders[i], i == 0);
               if updated || counted then (Stamped(after, "files", ts), true) else (after, false)
  {
    assert folders[..i + 1][..i] == folders[..i];
  }

  /** The folder loop of lines 362-467. */
  method RefreshFromFiles(cache: Dict, folders: seq<FolderScan>, ts: int) returns (r: Dict, updated: bool)
    requires forall i :: 0 <= i < |folders| && folders[i].shortcuts.Some? ==> DistinctIds(folders[i].shortcuts.value)
    requires forall i :: 0 <= i < |folders| && folders[i].installed.Some? ==> DistinctIds(folders[i].installed.value)
    ensures (r, updated) == FilesLoop(cache, folders, ts)
  {
    r, updated := cache, false;
    assert folders[..0] == [];
    for i := 0 to |folders|
      invariant (r, updated) == FilesLoop(cache, folders[..i], ts)
    {
      FilesLoopStep(cache, folders, ts, i);
      var scan := folders[i];
      if i == 0 && scan.shortcuts.Some? {
        r := MergeInto(r, "nonSteam", scan.shortcuts.value, [], NonSteamRecord);
        updated := true;
      }
      if scan.installed.Some? {
        r := MergeInto(r, "apps", scan.installed.value, [], InstalledRecord);
        if |scan.installed.value| >= 1 {
          updated := true;
        }
      }
      if updated {
        r := r["updated" := Obj(RecordAt(r, "updated")["files" := Int(ts)])];
      }
    }
    assert folders[..|folders|] == folders;
  }

  /** Lines 468-597: the Steam Web API part. */
  method RefreshFromSteamApi(cache: Dict, input: Collected, friendBlacklist: seq<int>, ts: int) returns (r: Dict, updated: bool)
    requires DistinctIds(input.owned) && DistinctIds(input.friendsList) && DistinctIds(input.friendsInfo)
    ensures (r, updated) == ApiPhase(cache, input, friendBlacklist, ts)
  {
    updated := false;
    r := MergeInto(cache, "apps", input.owned, [], OwnedRecord);
    if |input.owned| >= 1 {
      updated := true;
      r := r["updated" := Obj(RecordAt(r, "updated")["steamApi" := Int(ts)])];
    }
    assert r == OwnedPart(cache, input.owned, ts);
    r := MergeInto(r, "friends", input.friendsList, friendBlacklist, FriendSinceRecord);
    if |input.friendsList| >= 1 {
      updated := true;
    }
    var (c, _) := EnsureDict(r, "countries");
    var index := IndexFriendCountries(c["countries"].fields, input.friendsInfo);
    r := MergeInto(c["countries" := Obj(index.countries)], "friends", input.friendsInfo, friendBlacklist, FriendInfoRecord);
    if updated {
      r := r["updated" := Obj(RecordAt(r, "updated")["steamApi" := Int(ts)])];
    }
  }

  /** `build_cache`, step by step. */
  method Build(required: seq<string>, preferences: map<string, string>, force: bool, cache: Dict,
               input: Collected, now: int) returns (r: Result<Built, BuildError>)
    requires WellFormed(input)
    ensures r == BuildCache(required, preferences, force, cache, input, now)
  {
    var check := Const.CheckRequiredPreferences(required, preferences);
    if check.Err? {
      return Err(MissingPreference(check.error));
    }
    var appBlacklist := GetBlacklist("app", preferences);
    if appBlacklist.None? {
      return Err(MissingPreference(Const.Upper("app") + "_BLACKLIST"));
    }
    var friendBlacklist := GetBlacklist("friend", preferences);
    if friendBlacklist.None? {
      return Err(MissingPreference(Const.Upper("friend") + "_BLACKLIST"));
    }
    var refresh := RefreshDecision(cache, force, preferences, now);
    if refresh.Err? {
      return Err(refresh.error);
    }
    var (c, _) := EnsureDict(cache, "updated");
    r := RunRefresh(preferences, refresh.value.files || force, refresh.value.steamApi || force, c, input,
                    friendBlacklist.value, Timestamp(now));
  }

  /** The parts of `build_cache` after the refresh decision. */
  method RunRefresh(preferences: map<string, string>, files: bool, steamApi: bool, cache: Dict,
                 input: Collected, friendBlacklist: seq<int>, ts: int) returns (r: Result<Built, BuildError>)
    requires WellFormed(input)
    ensures r == Refreshed(preferences, files, steamApi, cache, input, friendBlacklist, ts)
  {
    var c := cache;
    var saved: Option<Dict> := None;
    if files {
      if "STEAM_FOLDERS" !in preferences {
        return Err(MissingPreference("STEAM_FOLDERS"));
      }
      if |input.folders| >= 1 && "STEAM_USERDATA_ID" !in preferences {
        return Err(MissingPreference("STEAM_USERDATA_ID"));
      }
      var filesUpdated;
      c, filesUpdated := RefreshFromFiles(c, input.folders, ts);
      if filesUpdated {
        saved := Some(c);
      }
    }
    if steamApi {
      var apiUpdated;
      c, apiUpdated := RefreshFromSteamApi(c, input, friendBlacklist, ts);
      if apiUpdated {
        saved := Some(c);
      }
    }
    return Ok(Built(c, saved));
  }

  // ---------------------------------------------------------------------------
  // What build_cache promises

  /** The later of a readable cached launch time and an incoming one. */
  function LaterLaunch(cached: int, launched: Option<int>): int {
    if launched.Some? && launched.value >= cached then launched.value else cached
  }

  /** A non-Steam record's readable `last_launched` never goes back. */
  lemma NonSteamLaunchNeverRegresses(record: Dict, app: NonSteamEntry, cached: int)
    requires "last_launched" in record && record["last_launched"] == Int(cached)
    requires Datetimes.MIN_SECONDS <= cached <= Datetimes.MAX_SECONDS
    ensures "last_launched" in NonSteamRecord(record, app)
    ensures NonSteamRecord(record, app)["last_launched"] == Int(LaterLaunch(cached, app.lastLaunched))
  {
    var named := record["name" := Str(app.name)];
    var written := SetOrDelete(SetOrDelete(named, "exe", StrOf(app.exe)), "size_on_disk", IntOf(app.sizeOnDisk));
    assert written["last_launched"] == Int(cached);
    if app.lastLaunched.Some? {
      LaunchNeverRegresses(written, cached, app.lastLaunched.value);
    }
  }

  /** An installed app's readable `last_launched` never goes back. */
  lemma InstalledLaunchNeverRegresses(record: Dict, app: InstalledEntry, cached: int)
    requires "last_launched" in record && record["last_launched"] == Int(cached)
    requires Datetimes.MIN_SECONDS <= cached <= Datetimes.MAX_SECONDS
    ensures "last_launched" in InstalledRecord(record, app)
    ensures InstalledRecord(record, app)["last_launched"] == Int(LaterLaunch(cached, app.lastLaunched))
  {
    var written := record["name" := Str(app.name)]["install_dir" := Str(app.installDir)]["size_on_disk" := Int(app.sizeOnDisk)];
    var dated := SetIfSome(written, "last_updated", IntOf(app.lastUpdated));
    assert dated["last_launched"] == Int(cached);
    if app.lastLaunched.Some? {
      LaunchNeverRegresses(dated, cached, app.lastLaunched.value);
    }
  }

  /** Across the merge of a whole section, every app the collector returned
      keeps the later of its cached and incoming launch times. */
  lemma SectionLaunchNeverRegresses(cache: Dict, apps: map<int, NonSteamEntry>, id: int, cached: int)
    requires id in apps
    requires "last_launched" in RecordAt(RecordAt(cache, "nonSteam"), IntToString(id))
    requires RecordAt(RecordAt(cache, "nonSteam"), IntToString(id))["last_launched"] == Int(cached)
    requires Datetimes.MIN_SECONDS <= cached <= Datetimes.MAX_SECONDS
    ensures "last_launched" in RecordAt(RecordAt(Merged(cache, "nonSteam", apps, [], NonSteamRecord), "nonSteam"), IntToString(id))
    ensures RecordAt(RecordAt(Merged(cache, "nonSteam", apps, [], NonSteamRecord), "nonSteam"), IntToString(id))["last_launched"]
            == Int(LaterLaunch(cached, apps[id].lastLaunched))
  {
    var section := RecordAt(cache, "nonSteam");
    MergeSectionWrites(section, apps, [], NonSteamRecord, id);
    NonSteamLaunchNeverRegresses(RecordAt(section, IntToString(id)), apps[id], cached);
  }

  /** The pruning loops of lines 388-392 and 426-439 only ever run over a
      section that was just emptied, so a merge never drops a record. */
  lemma MergedNeverPrunes<E>(cache: Dict, key: string, entries: map<int, E>, skip: seq<int>, merge: (Dict, E) -> Dict, k: string)
    requires key in cache && cache[key].Obj? && k in cache[key].fields
    ensures k in RecordAt(Merged(cache, key, entries, skip, merge), key)
  {
    MergeSectionKeeps(cache[key].fields, entries, skip, merge, k);
  }

  /** `k` is present in both or neither, with the same value. */
  predicate SameAt(before: Dict, after: Dict, k: string) {
    (k in after <==> k in before) && (k in before ==> after[k] == before[k])
  }

  /** A skipped ID's record in a merged section is as it was. */
  lemma MergedSkips<E>(cache: Dict, key: string, entries: map<int, E>, skip: seq<int>, merge: (Dict, E) -> Dict, id: int)
    requires id in skip
    ensures SameAt(RecordAt(cache, key), RecordAt(Merged(cache, key, entries, skip, merge), key), IntToString(id))
  {
    MergeSectionSkips(RecordAt(cache, key), entries, skip, merge, id);
  }

  /** A blacklisted friend is neither created nor updated by the friends
      part. */
  lemma BlacklistedFriendUntouched(cache: Dict, input: Collected, friendBlacklist: seq<int>, id: int)
    requires id in friendBlacklist
    ensures SameAt(RecordAt(cache, "friends"), RecordAt(FriendsPart(cache, input, friendBlacklist), "friends"), IntToString(id))
  {
    var listed := Merged(cache, "friends", DictOf(input.friendsList), friendBlacklist, FriendSinceRecord);
    var ensured := EnsureDict(listed, "countries").0;
    var withCountries := ensured["countries" := Obj(IndexCountries(ensured["countries"].fields, input.friendsInfo).countries)];
    MergedSkips(cache, "friends", DictOf(input.friendsList), friendBlacklist, FriendSinceRecord, id);
    assert RecordAt(withCountries, "friends") == RecordAt(listed, "friends");
    MergedSkips(withCountries, "friends", DictOf(input.friendsInfo), friendBlacklist, FriendInfoRecord, id);
  }

  /** Nor by the whole API part. */
  lemma BlacklistedFriendUntouchedByApi(cache: Dict, input: Collected, friendBlacklist: seq<int>, ts: int, id: int)
    requires id in friendBlacklist
    ensures SameAt(RecordAt(cache, "friends"), RecordAt(ApiPhase(cache, input, friendBlacklist, ts).0, "friends"), IntToString(id))
  {
    var owned := OwnedPart(cache, input.owned, ts);
    assert SameAt(cache, owned, "friends");
    assert RecordAt(owned, "friends") == RecordAt(cache, "friends");
    BlacklistedFriendUntouched(owned, input, friendBlacklist, id);
  }

  /** The files time is stamped exactly when some folder counted. */
  lemma FilesStamped(cache: Dict, folders: seq<FolderScan>, ts: int)
    requires FilesLoop(cache, folders, ts).1
    ensures "files" in RecordAt(FilesLoop(cache, folders, ts).0, "updated")
    ensures RecordAt(FilesLoop(cache, folders, ts).0, "updated")["files"] == Int(ts)
  {
  }

  /** Whether one folder sets `from_files_updated`: shortcuts read in the
      first folder, or at least one installed app. */
  predicate FolderCounts(scan: FolderScan, first: bool) {
    (first && scan.shortcuts.Some?) || (scan.installed.Some? && |scan.installed.value| >= 1)
  }

  /** One more folder counts the files part iff it had counted or the folder counts. */
  lemma FilesCountedStep(cache: Dict, folders: seq<FolderScan>, ts: int)
    requires folders != []
    ensures FilesLoop(cache, folders, ts).1 <==>
              FilesLoop(cache, folders[..|folders| - 1], ts).1 || FolderCounts(folders[|folders| - 1], |folders| == 1)
  {
    var n := |folders| - 1;
    var before := FilesLoop(cache, folders[..n], ts).0;
    assert FolderStep(before, folders[n], n == 0).1 <==> FolderCounts(folders[n], n == 0);
  }

  /** The files part counts as an update exactly when some folder counts. */
  lemma {:induction false} FilesCounted(cache: Dict, folders: seq<FolderScan>, ts: int)
    ensures FilesLoop(cache, folders, ts).1 <==> exists n :: 0 <= n < |folders| && FolderCounts(folders[n], n == 0)
    decreases |folders|
  {
    if folders != [] {
      var n := |folders| - 1;
      var front := folders[..n];
      FilesCounted(cache, front, ts);
      FilesCountedStep(cache, folders, ts);
      assert forall k :: 0 <= k < n ==> front[k] == folders[k];
      if FilesLoop(cache, front, ts).1 {
        var k :| 0 <= k < n && FolderCounts(front[k], k == 0);
        assert FolderCounts(folders[k], k == 0);
      } else if !FolderCounts(folders[n], n == 0) {
        forall k | 0 <= k < |folders| ensures !FolderCounts(folders[k], k == 0) {
          if k < n {
            assert front[k] == folders[k];
          }
        }
      }
    }
  }

  /** When no folder counts, the files time is left as it was. */
  lemma {:induction false} FilesUnstamped(cache: Dict, folders: seq<FolderScan>, ts: int)
    requires !FilesLoop(cache, folders, ts).1
    ensures SameAt(cache, FilesLoop(cache, folders, ts).0, "updated")
    decreases |folders|
  {
    if folders != [] {
      var n := |folders| - 1;
      FilesUnstamped(cache, folders[..n], ts);
    }
  }

  /** When neither part is due, only "updated" is made a dict and nothing is
      saved. */
  lemma NothingDue(preferences: map<string, string>, cache: Dict, input: Collected, friendBlacklist: seq<int>, ts: int)
    ensures Refreshed(preferences, false, false, cache, input, friendBlacklist, ts) == Ok(Built(cache, None))
  {
  }
}
