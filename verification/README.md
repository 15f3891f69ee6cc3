# Steam launcher plugin core, modelled in Dafny

The plugin turns raw Steam data into a cached JSON map and turns that map into
ranked launcher items and launch commands. This project models that core:

- **Text manifests** (`vdf.dfy`, `manifests.dfy`): `_vdf_to_dict`, the
  line-by-line decoder of Steam's `appmanifest_*.acf` files with its stack of
  open keys, and `get_installed_steam_apps`, which extracts one record per
  manifest.
- **Binary shortcuts** (`shortcuts.dfy`, `shortcuts_format.dfy`): the cursor
  scanner of `get_non_steam_apps` over `shortcuts.vdf`, and the loop that
  assembles its records.
- **Steam Web API records** (`steam_api.dfy`): response classification, the
  owned-game, friend-list and player-summary loops, and the batching of
  profile requests in groups of 100.
- **Cache engine** (`cache.dfy`, `durations.dfy`): `get_blacklist`,
  `str_to_timedelta`, `ensure_dict_key_is_dict`, `datetime_to_timestamp`, the
  refresh decision of `build_cache` and its field-by-field merges. The cache is
  a value of type `map<string, Json>`.
- **Query and dispatch** (`items.dfy`, `sorting.dfy`, `query.dfy`,
  `enter.dfy`, `const.dfy`):
  - `get_lang_string` and the item methods `get_name`, `get_action` and
    `to_sort_list`;
  - `query_cache`, which builds the candidates, applies the blacklist,
    expands `%a` navigations, filters by search words, truncates and falls
    back to "no_results";
  - `execute_action`, which dispatches on the action string, records launches
    and chooses the rebuild policy;
  - the constants and checks of const.py.
- **Support modules** (`wrappers.dfy`, `text.dfy`, `json.dfy`, `dicts.dfy`):
  `Option`/`Result`, Python string built-ins on ASCII text, the JSON value
  type, and dict building by successive insertion.

Where the code changes things step by step, the model is a method with a loop,
proved equal to a specification function. The properties are proved about
that function. Examples:

- `Vdf.VdfToDict` is proved equal to `Vdf.Parse`;
- `Shortcuts.ScanShortcuts` is proved equal to `Shortcuts.ScanAll`;
- `Durations.SumTokens` is proved equal to `Durations.Total`;
- `Cache.MergeEach` is proved equal to `Cache.MergeSection`;
- `Sorting.SortItems` is proved equal to `Sorting.Sorted`;
- `Query.RunQuery` is proved equal to `Query.QueryCache`;
- `Enter.ExecuteAction` is proved equal to `Enter.Execute`.

Some inputs come from outside the code. Each is a parameter of the model:

- the clock (`now`, in epoch seconds or microseconds);
- the platform (`isNt`);
- directory listings and file contents;
- `isfile` / `which` / `getsize` (as `resolve` and `iconExists`);
- the UTF-8 decoding of shortcut names (`decode`);
- the Steam API responses and the collector results that `build_cache` merges;
- `abspath`;
- the `SequenceMatcher` ranking (`rank`);
- the float formatting of an app's description (`describeApp`).

The modules disagree about key names, for example `install_dir` against `dir`,
`steam_apps` against `apps`, and `launched` against `last_launched`. Each
function is therefore modelled against its own inputs, with the key names that
function uses. The records `build_cache` merges are typed values read under
the names cache.py uses; `Cache.CollectorKeysMismatch` records that get.py
writes them under other names (see "## Findings").

Where the source is wrong, the model keeps an as-written member beside the
corrected one, and the rest of the model uses the corrected one. In particular,
`Enter.Execute` is `execute_action` with the three enter.py findings fixed:
both imports resolve, the launch is stored where `get_launches` reads it, and
`xdg-open` runs away from Windows. Rows about corrected members say
"Corrected:".

## Model

| member | source | states |
|---|---|---|
| Const.DirSep | const.py:8-10 | The separator is a backslash exactly on nt and a slash otherwise, one character long. |
| Const.ExtensionPath | const.py:12-17 | Fails exactly when `abspath` of the directory part is empty (the `[-1]` index). Otherwise the path ends with `DIR_SEP`, starts with that `abspath` result and is at most one character longer. |
| Const.ExtensionDirIsParent | const.py:12 | When a separator follows the first character, the directory part plus the last component (which holds no separator) is the file path. |
| Const.ExtensionDirNoSeparator | const.py:12-14 | A path without a separator falls back to ".". |
| Const.CheckRequiredPreferences | const.py:64-83 | Succeeds iff every required key is present. Otherwise it names a missing key with all keys before it (in tuple order) present. |
| Const.Upper | const.py:54 | `str.upper()` keeps the length and upper-cases each character. |
| Const.PreferencesFromEnvKeys | const.py:54 | The keys are exactly the upper-cased keys of the file. |
| Const.PreferencesFromEnvLastWins | const.py:54 | Values are unchanged; a key carries the value of its last occurrence. |
| Datetimes.Seconds | cache.py:319 | `datetime.fromtimestamp` accepts an int inside years 1-9999 or a bool (0/1), and raises on anything else. |
| Text.Strip | cache.py:101 | `str.strip()` result equals stripping left and then right. |
| Text.StripSlice | cache.py:101 | The result is a slice of the input with only white space cut off at either end and none left at its ends. |
| Text.Split | cache.py:103 | `split(sep)` on one character. |
| Text.SplitLength | cache.py:103 | There is one more piece than there are separators. |
| Text.SplitPiecesFree | cache.py:103 | No piece contains the separator. |
| Text.JoinSplit | cache.py:103 | Joining the pieces with the separator gives the text back. |
| Text.SplitJoin | cache.py:103 | Splitting a join of separator-free pieces gives the pieces back. |
| Text.SplitLast | get.py:126 | The last piece of a split is what follows the last separator. |
| Text.Lower | query.py:514 | `str.lower()` keeps the length and lower-cases each character. |
| Text.ReplaceAbsent | query.py:461 | `replace` leaves text without the pattern unchanged. |
| Text.ParseIntToString | cache.py:105 | `int(str(n)) == n` for every integer. |
| Text.IntToStringPlain | cache.py:103-105 | `str(n)` holds no white space, comma or slash. |
| Dicts.InsertAllKeys | get.py:370 | After successive `d[k] = v`, a key is present iff it was before or some pair has it. |
| Dicts.InsertAllLastWins | get.py:370 | A key carries the value of the last pair that has it. |
| Dicts.InsertAllKeeps | get.py:370 | A key no pair has keeps its old value. |
| Dicts.InsertEach | get.py:363-374 | The loop that stores each element's pair, stopping at the first element that raises, equals `InsertEntries`. |
| Dicts.InsertEntriesKeys | get.py:363-374 | The keys of a successful loop are the old keys plus the elements' keys. |
| Dicts.InsertEntriesLastWins | get.py:363-374 | A key takes the value of the last element that yields it. |
| Dicts.InsertEntriesFails | get.py:363-374 | The loop raises iff some element cannot be turned into an entry. |
| Vdf.Classify | get.py:40-70 | A line is an opening key iff it has 2 quotes, and a key/value iff it has 4. Otherwise it is a closing brace iff it contains `}`. |
| Vdf.SetAtThenGet | get.py:52-56 | Storing under a key at a path keeps the path, and the value is found there afterwards. |
| Vdf.GetAtChild | get.py:52-55 | Looking up a path and then a key is looking up the longer path. |
| Vdf.Step | get.py:39-75 | One line keeps the stack valid. It fails exactly on a second top-level key, a key/value with no open block, or `}` with no open block. A `}` inside a block pops the innermost key and leaves the dictionary alone; any other line changes nothing. |
| Vdf.RunFrom | get.py:39-75 | Running the lines keeps the state valid. |
| Vdf.Parse | get.py:76-78 | A successful decode has a top-level key (ending without one is the fourth error). |
| Vdf.VdfToDict | get.py:18-78 | The in-place line loop (push, store, pop) returns exactly `Parse`. |
| Vdf.OpenKeyPushes | get.py:43-56 | A 2-quote line pushes its key and creates an empty block at the new path. |
| Vdf.KeyValueStores | get.py:58-68 | A 4-quote line stores the value under its key in the block the stack addresses, and leaves the stack alone. |
| Manifests.FolderWithSep | get.py:116-117 | The folder ends with the separator, which is appended only when missing. |
| Manifests.Field | get.py:133-144 | A field is found iff `AppState` is a block holding the key as a string value, and it is that value. |
| Manifests.FieldText | get.py:134 | The f-string accepts any node under `installdir` (a block through `str()`), and a string value as it is. |
| Manifests.TimeField | get.py:135-144 | "0" means never (None). Any other value must parse as an integer inside the years `datetime.fromtimestamp` accepts; otherwise the manifest is dropped (None). |
| Manifests.Extract | get.py:133-156 | The name is stripped and the folder is `folder + str(installdir)`, a block included. `LastUpdated`/`LastPlayed` are None iff "0" and otherwise in `datetime` range. With `SizeOnDisk` "0" the size is `BytesToStage`. |
| Manifests.ReadManifest | get.py:124-161 | An entry yields an app only when it is a manifest name, its ID is not blacklisted, the file decodes and the extraction succeeds. |
| Manifests.Outcomes | get.py:119-124 | One outcome per listing entry, in listing order. |
| Manifests.CollectedKeys | get.py:150-161 | An ID is collected iff some entry yields it. A bad manifest is skipped without aborting the others. |
| Manifests.CollectedLastWins | get.py:150 | An ID carries the record of the last entry that yields it. |
| Manifests.ReadManifestFile | get.py:125-161 | The loop body equals `ReadManifest`. |
| Manifests.GetInstalledSteamApps | get.py:100-162 | The loop over the listing collects exactly the outcomes. |
| Manifests.BlacklistedNotCollected | get.py:127-129 | Blacklisted IDs never appear in the result. |
| Shortcuts.Marker | get.py:223 | The record marker is NUL, the decimal index, NUL. |
| Shortcuts.NulEnd | get.py:233-234 | The first NUL at or after the cursor, or the buffer end. |
| Shortcuts.NulEndUnique | get.py:233-234 | Any position with no NUL before it and a NUL (or the end) at it is `NulEnd`. |
| Shortcuts.MarkerPhase | get.py:223-225 | Only the marker for index + 1 opens a new empty record and moves the cursor past it. Anything else changes nothing. |
| Shortcuts.Store | get.py:227 | A field is stored in the current record. It raises iff no record has been opened yet (the `[-1]` index). |
| Shortcuts.Step | get.py:208-269 | Every turn strictly advances the cursor. The record index grows only on the marker for the next index. |
| Shortcuts.ScanFrom | get.py:208-269 | The scan terminates with the cursor at or past the end. |
| Shortcuts.ScanAll | get.py:205-269 | A scan from offset 11 yields well-formed records. |
| Shortcuts.SkipToNul | get.py:233-234 | The inner loop stops at `NulEnd`. |
| Shortcuts.MarkerBlock | get.py:223-225 | The marker test equals `MarkerPhase` and reports a match iff the cursor moved. |
| Shortcuts.AppIdBlock | get.py:226-230 | The `appid` test equals `AppIdPhase` and reports a match iff the cursor moved. |
| Shortcuts.NameBlock | get.py:231-238 | The `AppName` test equals `NamePhase` and reports a match iff the cursor moved. |
| Shortcuts.ExeBlock | get.py:239-261 | The `Exe` test equals `ExePhase` and reports a match iff the cursor moved. |
| Shortcuts.LastPlayTimeBlock | get.py:262-267 | The `LastPlayTime` test equals `LastPlayTimePhase` and reports a match iff the cursor moved. |
| Shortcuts.Turn | get.py:209-269 | One turn of the loop (five tests, then one byte when nothing matched) equals `Step`. |
| Shortcuts.ScanShortcuts | get.py:201-269 | The cursor loop equals `ScanAll`. |
| Shortcuts.Assemble | get.py:270-285 | The assembly raises iff some record lacks `app_id`. |
| Shortcuts.AssembleErrorStays | get.py:271-273 | Once the loop raises, the whole call raises that error. |
| Shortcuts.AssembleAsWrittenIsEmpty | get.py:278 | Reading the size under "size" makes every record incomplete, so the result is always empty. |
| Shortcuts.AssembleCorrectedKeeps | get.py:274-285 | Read under "size_on_disk", a complete non-blacklisted record becomes an app under its ID unless a later record takes that ID. |
| Shortcuts.AssembleCorrectedSound | get.py:274-285 | Every app assembled under "size_on_disk" comes from a complete non-blacklisted record with that ID. |
| Shortcuts.AssembleApps | get.py:270-285 | The assembly loop equals `Assemble`. |
| Shortcuts.GetNonSteamApps | get.py:183-286 | As written: scan errors propagate; otherwise the result is the "size" assembly, which is empty whenever it does not raise. |
| Shortcuts.GetNonSteamAppsCorrected | get.py:183-286 | The same with the assembly reading "size_on_disk". |
| ShortcutsFormat.LE4RoundTrip | get.py:263 | Four little-endian bytes read back as their value. |
| ShortcutsFormat.ReadLE4 | get.py:263 | Reading 32 bits at the cursor gives the value encoded there. |
| ShortcutsFormat.NulAfter | get.py:233-234 | A NUL-free run followed by NUL ends at that NUL. |
| ShortcutsFormat.MarkerAt | get.py:223-225 | The next marker opens an empty record and moves the cursor past it. |
| ShortcutsFormat.AppIdAt | get.py:226-230 | `appid` then LE32 v stores `v * 2^32 + 0x02000000` and moves the cursor 4 bytes past the tag. |
| ShortcutsFormat.NameAt | get.py:231-238 | `AppName` stores the decoded bytes up to the NUL and moves the cursor one past it. |
| ShortcutsFormat.ExeAt | get.py:239-261 | `Exe` stores the resolved location and size of the bytes up to the NUL and moves the cursor one past it. |
| ShortcutsFormat.LastPlayTimeAt | get.py:262-267 | `LastPlayTime` stores the LE32 value, or None for 0, and moves the cursor 4 bytes past the tag. |
| SteamApi.ClassifyResponse | get.py:310-322 | The Unauthorized body is a key error and the Bad Request body a params error, each iff the body is exactly that. Any other `<html>` body is a connection error. Anything else is parsed as JSON. |
| SteamApi.KnownBodiesAreHtml | get.py:310-322 | Both named bodies start with `<html>`, so they must be recognised before the generic check. |
| SteamApi.ListAt | get.py:356-363 | A failed request or lookup gives an empty list. A non-empty list is `response[outer][inner]`. |
| SteamApi.OwnedEntry | get.py:364-374 | The key is `appid` (an int, or a bool as 0/1), the name is the stripped `name`, `playtime_forever` is stored as read, and an empty icon hash becomes None. It fails iff a field is missing, `name` is not a string, or `appid` is not an int or a bool. |
| SteamApi.IntKey | get.py:370 | An int is its own key and a bool keys as 0 or 1, as Python hashes them; nothing else is an int key. |
| SteamApi.GetOwnedSteamApps | get.py:340-375 | The loop equals `OwnedApps`. |
| SteamApi.OwnedAppsKeys | get.py:363-374 | The owned IDs are exactly the games' `appid` keys (ints, and bools as 0/1). |
| SteamApi.FriendEntry | get.py:411-414 | `int(steamid)` and `friend_since` read through `datetime.fromtimestamp` (an int in its range, or a bool). It fails iff either is missing or invalid. |
| SteamApi.GetSteamFriendsList | get.py:386-415 | The loop equals `FriendsList`. |
| SteamApi.FriendsListOnError | get.py:404-410 | A failed request gives an empty friend list, not an error. |
| SteamApi.PublicFields | get.py:477-488 | A public profile gives `timecreated` (required) and `lastlogoff` (None iff absent), each read through `datetime.fromtimestamp`, which rejects values outside years 1-9999. Real name, country, state and city are the values under `realname`, `loccountrycode`, `locstatecode` and `loccityid`, or None when absent. |
| SteamApi.FriendInfoEntry | get.py:461-498 | Raises iff `steamid` is missing or not an integer, `personaname`, `avatarhash` or `communityvisibilitystate` is missing, or a public profile lacks a readable `timecreated` or has an unreadable `lastlogoff`. Otherwise: the ID, the persona name and the icon hash (None for the default avatar); a public profile carries all six optional fields as `PublicFields` reads them, and any other profile has none. |
| SteamApi.BatchesCover | get.py:448-449 | The batches concatenate to the ID list in order, each holding 1 to 100 IDs. |
| SteamApi.Batches | get.py:448-449 | There are ceil(n / 100) batches. |
| SteamApi.NextBatch | get.py:448-449 | Batches from `i` are `ids[i..min(i+100, n)]` followed by the batches after it. |
| SteamApi.GetSteamFriendsInfo | get.py:433-499 | The batch loop stores every player of every response in order (equals `InfoFold` over `Batches`). |
| Cache.Blacklist | cache.py:101-111 | A blank value gives no IDs. |
| Cache.GetBlacklist | cache.py:88-111 | Succeeds iff the `<TYPE>_BLACKLIST` preference exists. |
| Cache.BlacklistParsed | cache.py:102-105 | When every comma piece parses, the result is the stripped pieces' integers, in order. |
| Cache.BlacklistRejected | cache.py:104-111 | One piece that does not parse empties the whole list. |
| Cache.BlacklistRoundTrip | cache.py:101-111 | Writing IDs comma-separated and reading them back gives the IDs. |
| Cache.EnsureDict | cache.py:174-188 | Afterwards `d[k]` is a dict. The flag is true iff it already was one, in which case nothing changed; otherwise it is `{}`. No other key changes. |
| Cache.RecordAt | cache.py:174-188 | The section as `ensure_dict_key_is_dict` leaves it. |
| Cache.Timestamp | cache.py:218-232 | `floor` of a time in microseconds, in whole seconds. |
| Cache.TimestampOfSeconds | cache.py:218-232 | A time read from whole seconds converts back to those seconds. |
| Cache.FromTimestamp | cache.py:319 | A readable cache time lies inside the years `datetime` allows. |
| Cache.Outdated | cache.py:311-334 | A missing key is due, and a missing delay preference is named. |
| Cache.OutdatedAt | cache.py:325-332 | A readable time is due iff time + delay < now, strictly. |
| Cache.OutdatedUnreadable | cache.py:317-324 | An unreadable time counts as `datetime.min`. |
| Cache.OutdatedLater | cache.py:328 | A section that is due stays due later. |
| Cache.RefreshDecision | cache.py:303-337 | Everything is due when forced or when "updated" is missing or not a dict. |
| Cache.RefreshByTime | cache.py:309-337 | Without force, each part is refreshed exactly when its own time says so. |
| Cache.WithLaunch | cache.py:343-360 | Corrected: only `last_launched` may change. |
| Cache.WithLaunchAsWritten | cache.py:343-360 | As written: raises KeyError on `app_id` iff an incoming launch meets a cached time `fromtimestamp` refuses; otherwise it is `WithLaunch`. |
| Cache.UnreadableLaunchRaisesAsWritten | cache.py:354-358 | A cached launch time `"abc"` with an incoming launch raises as written, and is overwritten by the corrected merge. |
| Cache.LaunchNeverRegresses | cache.py:343-360 | A readable cached `last_launched` becomes the later of the cached and incoming times. |
| Cache.LaunchOverUnreadable | cache.py:348-360 | Corrected: an unreadable cached time is logged and replaced by any incoming one. |
| Cache.NonSteamRecord | cache.py:393-410 | The name is overwritten. `exe` and `size_on_disk` are set when present and deleted when None. |
| Cache.NonSteamKeepsOthers | cache.py:393-410 | No field outside those four changes. |
| Cache.NonSteamLaunchNeverRegresses | cache.py:406-410 | The non-Steam `last_launched` never goes back. |
| Cache.InstalledRecord | cache.py:440-453 | Name, install dir and size are overwritten. `last_updated` is written only when present. |
| Cache.InstalledKeepsOthers | cache.py:440-453 | No field outside those five changes. |
| Cache.InstalledLaunchNeverRegresses | cache.py:449-453 | The installed `last_launched` never goes back. |
| Cache.OwnedRecord | cache.py:480-486 | Name and playtime are overwritten. The icon hash is set only when known. |
| Cache.OwnedKeepsInstallFields | cache.py:480-486 | The owned merge never touches the install fields. |
| Cache.FriendSinceRecord | cache.py:511-514 | `friend_since` is set and nothing else changes. |
| Cache.FriendInfoRecord | cache.py:574-594 | The name is always written. |
| Cache.FriendInfoOptional | cache.py:576-594 | Each of the seven optional profile fields (icon hash, last updated, real name, time created, country, state, city) holds the profile's value when it has one, and is as it was before (present or absent) when it does not. |
| Cache.ProfileKeysDistinct | cache.py:576-594 | The seven optional profile keys are distinct from each other and from "name". |
| Cache.SetEachKeeps | cache.py:576-594 | A key none of the optional fields names is left as it was. |
| Cache.SetEachWrites | cache.py:576-594 | A key exactly one optional field names is written iff that field is known, and otherwise left as it was. |
| Cache.FriendInfoKeepsOthers | cache.py:574-594 | No field outside the profile changes. |
| Cache.EntryForId | cache.py:393-396 | Each entry is found under `str(id)`. |
| Cache.MergeSectionWrites | cache.py:393-410 | Every entry that is not skipped has its merged record under `str(id)`. |
| Cache.MergeSectionKeeps | cache.py:388-392 | No key is removed, and a key no entry writes keeps its value. |
| Cache.MergeSection | cache.py:393-396 | Merging never removes a key of the section. |
| Cache.MergeSectionKeys | cache.py:393-396 | The section's keys are its old keys plus the keys of the entries that are not skipped. |
| Cache.MergeSectionSkips | cache.py:507-511 | A skipped ID's record is neither created nor changed. |
| Cache.MergeSectionStep | cache.py:440-441 | Merging entries one at a time, in dict order, builds `MergeSection`. |
| Cache.MergeEach | cache.py:440-453 | The merge loop equals `MergeSection`. |
| Cache.Merged | cache.py:426-453 | The section is made a dict and the entries are merged into it. |
| Cache.MergeInto | cache.py:426-453 | `ensure_dict_key_is_dict` then the loop equals `Merged`. |
| Cache.Stamped | cache.py:465-466 | `updated[key]` is set to the timestamp. |
| Cache.FolderStep | cache.py:362-464 | A folder counts iff it is the first with shortcuts or it has installed apps. It writes only "nonSteam" and "apps", and "nonSteam" only for the first folder's shortcuts. |
| Cache.OwnedPart | cache.py:469-497 | The owned apps write only "apps" and "updated". |
| Cache.FriendsPart | cache.py:498-594 | Corrected: The friends part writes only "friends" and "countries". |
| Cache.ApiPhase | cache.py:468-597 | Corrected: The API part counts iff there are owned apps or friends, and then stamps `updated.steamApi`. |
| Cache.ApiPhaseLeavesOthers | cache.py:468-597 | Corrected: The API part writes only "apps", "friends", "countries" and "updated". |
| Cache.IndexFriend | cache.py:527-556 | Corrected: a profile with a country and a state makes the country a dict, planned when it was not cached; with a city, a state the dict lacks is planned. Cached dicts are kept, and the plan stays valid. |
| Cache.IndexFriendAsWritten | cache.py:544-553 | As written: it raises KeyError exactly when the country was cached, is not planned, the friend has a city and the state is missing; otherwise it agrees with `IndexFriend`. |
| Cache.IndexFriendAsWrittenRaises | cache.py:544-553 | A country saved empty and a friend there with a state and a city: as written it raises; corrected, the state is planned. |
| Cache.IndexCountriesValid | cache.py:524-556 | Corrected: The plan is valid (planned countries are dicts, planned states distinct and missing), cached dicts are kept, and every new country is planned. |
| Cache.IndexCountriesCovers | cache.py:524-556 | Corrected: Every profile with a country and a state is covered by the index and the plan. |
| Cache.CoveredKept | cache.py:524-556 | Corrected: a later profile's step keeps an earlier profile covered. |
| Cache.CoveredNow | cache.py:527-556 | Corrected: a profile's own step covers it once every country the index added is planned. |
| Cache.IndexFriendCountries | cache.py:524-556 | Corrected: The walk over the profiles equals `IndexCountries`. |
| Cache.IndexProfile | cache.py:527-556 | Corrected: The loop body for one profile equals `IndexFriend`. |
| Cache.FirstMissing | cache.py:396-592 | A record's merge raises KeyError on the first key read that it lacks, and on none iff it has them all. |
| Cache.CollectorKeysMismatch | cache.py:396-592 | As written, every merge raises on the first record get.py returns: `size_on_disk`, `install_dir`, `total_playtime`, `friend_since` and `last_updated` are missing. |
| Cache.SectionLaunchNeverRegresses | cache.py:393-410 | Across a section merge, every collected app keeps the later of its cached and incoming launch times. |
| Cache.MergedNeverPrunes | cache.py:388-392 | The pruning loops only ever run on a section just reset to empty, so a merge never drops a record. |
| Cache.MergedSkips | cache.py:570-573 | A skipped ID's record is as it was. |
| Cache.BlacklistedFriendUntouched | cache.py:507-514 | A blacklisted friend is neither created nor updated by the friend-list merge. |
| Cache.BlacklistedFriendUntouchedByApi | cache.py:468-597 | Nor by the whole API part. |
| Cache.RefreshFromFiles | cache.py:362-467 | The folder loop equals `FilesLoop`. |
| Cache.FilesStamped | cache.py:465-466 | When the files part counts as an update, the files time is stamped with the timestamp. |
| Cache.FilesCounted | cache.py:362-466 | The files part counts as an update iff some folder counts: shortcuts read in the first folder, or at least one installed app in any folder. |
| Cache.FilesCountedStep | cache.py:362-464 | One more folder makes the files part count iff it counted already or that folder counts. |
| Cache.FilesUnstamped | cache.py:465-466 | When no folder counts, `updated` is left as it was. |
| Cache.RefreshFromSteamApi | cache.py:468-597 | Corrected: The API part equals `ApiPhase`. |
| Cache.Build | cache.py:273-606 | Corrected: `build_cache` step by step equals `BuildCache`. |
| Cache.RunRefresh | cache.py:338-597 | Corrected: The parts after the decision equal `Refreshed`. |
| Cache.Refreshed | cache.py:338-597 | Corrected: fails iff the files part is due and `STEAM_FOLDERS`, or `STEAM_USERDATA_ID` with some folder, is missing. It saves iff a part that ran found something. As written it can also raise KeyError on an unreadable cached launch time (see "## Findings"); the `CACHE_SORT` failure is listed under "## Left out". |
| Cache.BuildCache | cache.py:273-597 | Corrected: success needs every required preference, and every missing-preference error names a missing key. With the collector key names and the country plan corrected, a forced build fails only on a missing preference; as written it also raises KeyError (see "## Findings": the collector key names, the country plan and the unreadable cached launch time). The `CACHE_SORT` failure is listed under "## Left out". |
| Cache.NothingDue | cache.py:338-468 | When neither part is due, nothing is merged or saved. |
| Durations.Suffix | cache.py:126-171 | Each unit suffix is one or two lower-case letters. |
| Durations.DigitsEnd | cache.py:126-171 | The end of a digit run: all digits before it and none at it. |
| Durations.FirstFit | cache.py:126-171 | The first alternative (in pattern order) whose suffix fits. |
| Durations.TokenAt | cache.py:126-171 | A regex match ends with a unit suffix preceded by a digit. |
| Durations.Classify | cache.py:135-162 | The `endswith` chain picks a unit and a suffix length no longer than the text. |
| Durations.ClassifySuffix | cache.py:135-162 | A text ending in a digit and a suffix goes to that suffix's unit. |
| Durations.TokenClassified | cache.py:135-162 | Every matched text takes its unit's branch. |
| Durations.FindAllClassified | cache.py:159-162 | No text `findall` returns reaches the warning branch. |
| Durations.FindAll | cache.py:126-133 | Each match is at least two characters (a digit and a unit), so there are at most half as many matches as characters. |
| Durations.Total | cache.py:133-171 | Text without a minus sign never lasts a negative time. |
| Durations.LeadingValue | cache.py:147 | Reading more digits never lowers the value. |
| Durations.FirstFitSuffix | cache.py:126-171 | "m" is not taken for the start of "ms", nor "mo" for "m". |
| Durations.UnitTotalsStep | cache.py:133-162 | One more match adds its amount to its unit's total. |
| Durations.CombineTotalsIsTotal | cache.py:163-171 | Summing per unit and converting once equals converting each match and adding. |
| Durations.CombineTotalsStep | cache.py:163-171 | One more matched text adds exactly its own duration to the converted per-unit totals. |
| Durations.StrToTimedelta | cache.py:114-171 | The result equals `Duration(s)`. |
| Durations.SumTokens | cache.py:133-171 | The summing loop equals `Total`. |
| Durations.AmountOfNumber | cache.py:126-171 | The amount of a printed whole number is that number. |
| Durations.SingleToken | cache.py:126-171 | `n` followed by a unit is n of that unit (y = 365 d, mo = 30 d, w = 7 d). |
| Durations.TwoTokens | cache.py:126-171 | Two consecutive amount-unit pairs add up. |
| Durations.NoDigitsNoTime | cache.py:126-171 | Text without digits, the empty text included, lasts no time. |
| Durations.TwoDays | cache.py:126-171 | "2d" is 172800 seconds. |
| Durations.HourAndAHalf | cache.py:126-171 | "1h30m" is 5400 seconds. |
| Items.LangString | query.py:229-269 | Returns the wanted language's text, else the default language's, else the key (None when strict). |
| Items.LangStrictness | query.py:251-269 | The lenient lookup never fails. The strict one fails iff neither language has the key, and otherwise agrees with the lenient one. |
| Items.Localised | query.py:98-100 | Fails iff `LANGUAGE_CODE` is missing. |
| Items.GetName | query.py:85-102 | The display name, else the name, else the localised "name_missing". |
| Items.GetAction | query.py:211-226 | App: `APPsteam://rungameid/<id>`. Nav: `NAVsteam://<name>`. Action: the name. |
| Items.ItemIcon | query.py:61-68 | The given icon when it starts with `EXTENSION_PATH`, else the default icon. |
| Items.AppIcon | query.py:368-370 | The icon is found iff `isfile` holds for `<EXTENSION_PATH>images<sep>apps<sep><id>.jpg`, and is then that path, which lies under `EXTENSION_PATH`. |
| Items.DescriptionFault | query.py:120-139 | The app description can be built iff the playtime and the size are numbers and the location is a string or None; otherwise it names the first field that is not. |
| Items.Description | query.py:104-141 | A navigation or action keeps its description (empty when none). An app's raises exactly on a field `DescriptionFault` names. |
| Items.Launches | query.py:311-330 | A last launch lies in `datetime`'s range and comes from `last_launched`; an unreadable one is an invalid record. The count is `times_launched` (0 when absent) as read, unchecked. |
| Sorting.DefaultSortValues | query.py:208 | The default keys give the last launch, the playtime and the name. |
| Sorting.KeyName | query.py:156-203 | Every sort key has a name that selects it. |
| Sorting.SortList | query.py:156-209 | The sort list is never empty. |
| Sorting.SortListOf | query.py:146-209 | `to_sort_list()` raises iff a chosen key's value is not usable, naming it; otherwise it is `SortList`. |
| Sorting.ChosenKeysOnly | query.py:157-203 | With a recognised key and no faulty value, only the chosen keys are read. |
| Sorting.PassFaultFirst | query.py:157-203 | The first pass raises with the first chosen key whose value is faulty. |
| Sorting.SortListFallback | query.py:204-208 | With no recognised key, it falls back to `last_launched,total_playtime,name`. |
| Sorting.Unrecognised | query.py:202-203 | Unrecognised keys contribute nothing. |
| Sorting.SortValuesSkip | query.py:157-203 | Each recognised key gives its value, in order. |
| Sorting.SortPass | query.py:157-203 | The `for` pass equals `SortValues`. |
| Sorting.ToSortList | query.py:146-209 | The `while` retry loop equals `SortList`. |
| Sorting.KeyLessIrreflexive | query.py:516 | The list order is strict. |
| Sorting.KeyLessTransitive | query.py:516 | The list order is transitive. |
| Sorting.KeyLessTotal | query.py:516 | Two different lists are always ordered. |
| Sorting.KeyLessAsymmetric | query.py:516 | A list below another is not above it. |
| Sorting.InsertPermutes | query.py:516 | Insertion adds exactly the new item. |
| Sorting.InsertOrdered | query.py:516 | Insertion keeps the order. |
| Sorting.SortedPermutes | query.py:516 | `sorted` is a permutation. |
| Sorting.SortedOrdered | query.py:516 | `sorted` puts the items in key order. |
| Sorting.Sorted | query.py:516 | `sorted` keeps the number of items. |
| Sorting.Tied | query.py:516 | The items with one sort list, in their order, are no more than the items. |
| Sorting.TiedAppend | query.py:516 | Appending an item adds it to its own sort list's tied items, last. |
| Sorting.InsertTied | query.py:516 | Inserting an item puts it after every item already there with the same sort list, and leaves the others' tied items alone. |
| Sorting.SortedStable | query.py:516 | `sorted` is stable: for every sort list, the items with that list come out in the order they went in. |
| Sorting.TiedHas | query.py:516 | An input item is among the tied items of its own sort list. |
| Sorting.TiedPositions | query.py:516 | Two input items with the same sort list keep their relative order among the tied items. |
| Sorting.SortedKeepsTiedOrder | query.py:516 | Of two input items with the same sort list, the earlier one comes out first. |
| Sorting.SortedBy | query.py:516 | A successful sort is `Sorted` over the sort lists. |
| Sorting.ListsFaultFirst | query.py:516 | The sort raises with the first item whose sort list cannot be built. |
| Sorting.SortByLists | query.py:516 | Computing every sort list first, then sorting, equals `SortedBy`. |
| Sorting.InsertItem | query.py:516 | The insertion loop equals `Insert`. |
| Sorting.SortItems | query.py:516 | The sort loop equals `Sorted`. |
| Sorting.LongerPlaytimeFirst | query.py:188-189 | A longer playtime sorts first (the value is negated). |
| Sorting.RecentLaunchFirst | query.py:194-199 | A more recent launch sorts first, and a launch sorts before never. |
| Sorting.MissingNameLast | query.py:166-169 | A missing name ("ÿÿ") sorts after any ASCII name. |
| Query.GatherEach | query.py:336-389 | An append loop over a section equals `Gather`. |
| Query.GatherStops | query.py:337 | An exception in a prefix is the exception of the whole loop. |
| Query.GatherAllowed | query.py:336-496 | If no element gives a blacklisted item, neither does the loop. |
| Query.GatherSingles | query.py:336-389 | One item per element gives one item per element, in order. |
| Query.SteamFolder | query.py:334-335 | Raises iff `STEAM_FOLDER` is missing. Otherwise it is the preference as set when that already ends with the separator, and the preference with the separator appended when it does not. |
| Query.SteamAppItem | query.py:336-389 | A bad key raises (`int` outside the `try`). Blacklisted and non-dict records are skipped. Otherwise one app item with the parsed ID. It raises only on a missing name or one that is not a string, a missing language, a non-number `size_on_disk` when there is no `install_dir`, or an unreadable `last_launched`; playtime and launch count are kept as read. |
| Query.NonSteamAppItem | query.py:391-429 | A bad key and a blacklisted ID are skipped. A non-dict record raises. Otherwise one non-Steam app item; it raises only on a missing name or one that is not a string, a missing language, or an unreadable `last_launched`. `exe`, size and launch count are kept as read. |
| Query.ParseIdsFails | query.py:450 | The ID comprehension raises iff some key is not an integer. |
| Query.ParseIdsValues | query.py:450 | Otherwise it gives every key's integer, in key order. |
| Query.NavItem | query.py:457-496 | A blacklisted ID gives nothing. Otherwise one nav item with the ID and with `%a` replaced in its name. |
| Query.ActionItem | query.py:499-509 | An action item named after itself, with no ID. |
| Query.ActionStep | query.py:498-510 | Each action name appends one action item. |
| Query.Candidates | query.py:272-510 | Success needs the three keyword preferences. A keyword other than those gives no candidates. |
| Query.FilterKeeps | query.py:519-526 | The items kept are exactly those whose lowered name and description hold every search word. |
| Query.Filter | query.py:519-526 | The filter keeps at most the items it is given. |
| Query.SearchableItem | query.py:519-526 | An item with a display name and well-typed description fields can always be searched. |
| Query.FilterSucceeds | query.py:519-526 | The filter raises iff some item has no text to search in: `get_name` fails, or `get_description` meets an app attribute of the wrong type (`Items.DescriptionFault`). |
| Query.FilterInOrder | query.py:519-526 | The kept items are a subsequence of the input: they keep their original order. |
| Query.WordsOfJoin | query.py:524 | `split()` of words joined by spaces gives the words back. |
| Query.MaxItems | query.py:536-545 | At least 1. It is the parsed value when that is positive, else 10. |
| Query.NoResults | query.py:546-560 | The "no_results" action item. |
| Query.Shown | query.py:545-560 | Between 1 and `MAX_ITEMS` items: a prefix of the ordered items, or exactly "no_results" when there are none. |
| Query.Finish | query.py:511-560 | The result holds between 1 and `MAX_ITEMS` items. |
| Query.QueryCache | query.py:272-561 | The result holds between 1 and `MAX_ITEMS` items. |
| Query.FilterEach | query.py:519-526 | The comprehension loop equals `Filter`. |
| Query.NavItemsLoop | query.py:457-496 | The ID loop equals `NavItems`. |
| Query.NavigationLoop | query.py:434-496 | The navigation loop equals `NavigationItems`. |
| Query.ListedLoop | query.py:332-496 | The app and navigation loops equal `Listed`. |
| Query.CollectCandidates | query.py:292-510 | Building `items` equals `Candidates`. |
| Query.RunQuery | query.py:272-561 | `query_cache` step by step equals `QueryCache`. |
| Query.FinishSteps | query.py:511-560 | Order, truncate and fall back; equals `Finish`. |
| Query.OrderSteps | query.py:511-535 | Sort or filter-and-rank; equals `Ordered`. |
| Query.Ordered | query.py:511-535 | Without a search, the result is a permutation of the candidates, and it succeeds iff `SORT_KEYS` exists and every candidate's sort list can be built. |
| Query.CandidatesAllowed | query.py:343-345 | A blacklisted app ID gives neither an app item nor a `%a` navigation item. |
| Query.TemplateExpands | query.py:445-474 | A `%a` template expands once per `steam_apps` key, in key order, with that ID and `%a` replaced by it. |
| Query.PlainNavigation | query.py:455-456 | A template without `%a` gives one item named after itself, and none under `KEYWORD_APPS`. |
| Query.SearchKeeps | query.py:515-535 | With a search, the ordered items are exactly the candidates holding every word (for any reordering `rank`). |
| Query.NoSearchSorted | query.py:515-516 | Without a search, all candidates are kept, in sort-list order, and items with equal sort lists keep their order (the sort is stable). |
| Query.FinishShows | query.py:511-560 | Every item shown is a candidate, or is "no_results". |
| Query.ShownWithin | query.py:545-560 | Truncation keeps a prefix, and an empty list becomes "no_results". |
| Query.QueryShowsCandidates | query.py:272-561 | Every item the query shows is a candidate, or is "no_results". |
| Query.QueryAllowed | query.py:398-400 | No item the query shows carries a blacklisted app ID. |
| Enter.Command | enter.py:35-39 | "steam", or on nt the quoted `steam.exe` in a `STEAM_FOLDER` ending with the separator. |
| Enter.AppStep | enter.py:43-55 | A recorded app names an existing record, and without `execute` nothing is started. |
| Enter.FriendStep | enter.py:56-77 | A recorded friend names an existing record, and without `execute` nothing is started. |
| Enter.WithNav | enter.py:88-90 | `navs[action]` becomes a dict and other entries are untouched. |
| Enter.NavStep | enter.py:78-93 | Corrected: an "s:" action runs `<command> steam://<rest>`. "w:" follows `WebCommand`. |
| Enter.Dispatch | enter.py:43-131 | Whenever the chain goes on to record a launch, the record it names exists in its section. |
| Enter.WebCommand | enter.py:82-87 | Corrected: `xdg-open https://<rest>` iff not on nt. |
| Enter.WebCommandAsWritten | enter.py:82-87 | As written: `xdg-open https://<rest>` exactly on nt, nothing elsewhere. |
| Enter.WebAsWrittenInverted | enter.py:82 | As written, `xdg-open` runs only on nt and is refused everywhere else. |
| Enter.CounterStuckAsWritten | enter.py:136 | As written, the count `get_launches` reads never moves. |
| Enter.CounterAdvances | enter.py:132-136 | Corrected: the count goes up by 1, and the last launch is the previous one or now. |
| Enter.Rebuild | enter.py:138-139 | No rebuild when not executing or when skipping; otherwise `build_cache(force)`. |
| Enter.AsWrittenAlwaysFails | enter.py:19-33 | As written, every call raises ImportError on `clear_images`, which cache.py does not define, before doing anything; the `get_launches` import would fail next. |
| Enter.ImportAll | enter.py:19-33 | An import succeeds iff every name is defined, and otherwise fails on the first missing name. |
| Enter.ExecuteAsWritten | enter.py:8-139 | As written: when an import fails, the call raises with no effect. |
| Enter.Execute | enter.py:8-139 | Corrected: an exception comes only after the effects of the branch taken, and without `execute` nothing at all happens before it. |
| Enter.Route | enter.py:43-131 | The `if`/`elif` chain step by step equals `Dispatch`. |
| Enter.Bumped | enter.py:132-137 | Corrected: succeeds iff `get_launches` can read the record. The record gets `last_launched` set to the stamp and `times_launched` set to the count read plus one; its other fields, and every other record, are unchanged. Like the source, it stamps `datetime_to_timestamp(launched)`, the launch read before, so the time is "now" only for a first launch. |
| Enter.LastLaunchStays | enter.py:133-136 | Once a record has a last launch, recording another launch leaves that time unchanged whatever the clock says: `last_launched` never moves forward, as in enter.py:136 with cache.py:218-226. |
| Enter.BumpedAsWritten | enter.py:132-137 | As written: only `launched` is written, as the text `"<stamp>x<count + 1>"`; every other field of the record, and every other record, is unchanged. |
| Enter.LaunchesOf | enter.py:132-135 | The record must be a dict whose launches `get_launches` reads and whose count is a number (`times += 1`). |
| Enter.FriendUri | enter.py:67-75 | "chat" opens the message page, "profile" the profile page, anything else nothing. |
| Enter.AppRoute | enter.py:43-55 | The app branch equals `AppStep`. |
| Enter.FriendRoute | enter.py:56-77 | The friend branch equals `FriendStep`. |
| Enter.ExecuteAction | enter.py:8-139 | Corrected: the whole function step by step equals `Execute`. |
| Enter.AppActionRoundTrip | enter.py:44 | The ID parsed from `get_action`'s string is the item's ID, and what follows "APP" is the run URI. |
| Enter.AppDispatch | enter.py:43-55 | An app in `apps` or `nonSteam` is run through Steam and its launch is recorded. An app in neither is dropped without saving. |
| Enter.FriendDispatch | enter.py:56-77 | "chat" opens `steam://friends/message/<id>` and "profile" opens `steam://url/SteamIDPage/<id>`. An uncached friend or another action changes nothing. |
| Enter.NavDispatch | enter.py:78-93 | Corrected: "s:" opens its URI through Steam. "w:" opens `xdg-open` away from nt and nothing on nt. Either records under `navs`. |
| Enter.SilentActions | enter.py:127-131 | "no_results", "error" and unknown actions change and save nothing. |
| Enter.ClearingSavesNothing | enter.py:101-123 | When executed, `clear_cache` and `rebuild_cache` save nothing. |
| Enter.UpdateForcesRebuild | enter.py:94-100 | When executed, `update_cache` records and rebuilds with force. |
| Enter.ClearImagesSkipsRebuild | enter.py:109-116 | When executed, `clear_images` records and skips the rebuild. |
| Enter.DispatchQuiet | enter.py:52 | Without `execute`, no branch starts a process or touches the cache files. |
| Enter.DryRun | enter.py:132-139 | Without `execute`, the function at most records the launch and saves. |
| Enter.LaunchCounted | enter.py:132-137 | Corrected: a recorded launch reads back with one launch more. |
| Enter.LaunchSaved | enter.py:132-139 | Corrected: a recorded launch saves the cache with the bumped record right after the effects of the branch taken. |

## Left out

- I/O is left out: `load_cache`, `save_cache` and `clear_cache` (saving is an effect `SaveCache`), reading lang.json, manifest.json and .env, logging, and `get_logger`.
- The network is left out: HTTPS requests (responses are parameters), icon downloads and `get_state_or_city_codes`.
- The downloads of state and city names for the plan (cache.py:557-567, `get_state_or_city_codes`) are network fetches and are left out. The cache keeps the country dicts and the plan that the walk over the profiles builds (`Cache.IndexCountries`, `Cache.IndexCountriesValid`); like the source, that walk includes blacklisted friends.
- Processes and the filesystem are parameters or effects: `Popen` (the `Spawn` effect), `isdir` in `get_steam_folders` (folder scans are given), `listdir` (the listing is given), `isfile`, `which` and `getsize` (the `resolve` and `iconExists` functions), and `abspath`.
- `SequenceMatcher` ranking is a parameter `rank`. The properties assume only that it reorders. `rank` also stands for the sort key's first component, `x.type == "app"` in reverse (query.py:530), so the model does not promise that app items come first in a search.
- Floats are left out. Fractional amounts in `str_to_timedelta` are left out: only whole-number amounts are summed, in microseconds. The hours/KB/MB formatting of `get_description` is a parameter `describeApp`. JSON floats are not a `Json` case.
- Timezones are left out. Times are integer epoch seconds, and durations and `now` are in microseconds. `timedelta` overflow is not modelled.
- Python's `int()` accepting underscores, non-ASCII white space around the digits and non-ASCII digits is not modelled; surrounding ASCII white space and a sign are accepted, as in Python. `lower`, `upper` and `strip` work on ASCII only.
- Dict insertion order is modelled only where a loop's result depends on it: the collectors' outputs are ordered sequences of (ID, record), and the `steam_apps` key order is an explicit list. Reordering the cache by `CACHE_SORT` (cache.py:455-463, 488-492) is left out, since a map has no order.
- Cache.Refreshed: when `CACHE_SORT` is set, the sort at cache.py:455-463 and 488-492 calls `int()` on every "apps" key outside any `try`, so a key that is not an integer raises ValueError out of `build_cache`. The model has no `CACHE_SORT`, so its fail-iff holds only when `CACHE_SORT` is unset or empty, or every "apps" key is an integer.
- Cache.BuildCache: for the same reason, "a forced build fails only on a missing preference" holds only when `CACHE_SORT` is unset or empty, or every "apps" key is an integer.
- Aliasing is left out: nested dicts are values, so an update through a shared reference is modelled as an update of the enclosing map.
- Updating `preferences["STEAM_FOLDER"]` in place (enter.py:37-38 in `execute_action`, query.py:334-335 in `query_cache`) is left out. Only the value built from it is modelled (`Enter.Command`, `Query.SteamFolder`).
- Which exception escapes first, when a record has several faults, follows the model's field order rather than Python's evaluation order in some records. Fields `query_cache` never checks (`times_launched`, `total_playtime`, `exe`, a size read only when `install_dir` is missing) are kept as read and never raise.
- SteamApi.OwnedEntry: a string, null or other hashable `appid` is rejected, where get.py:364 stores it under that key; the model's owned IDs are integer keys.
- `str()` of JSON lists and objects is a parameter `repr`.
- The shortcuts scanner has no whole-file round-trip lemma. Each tag is specified by its own lemma (`ShortcutsFormat.MarkerAt` … `LastPlayTimeAt`).
- There is no concrete example of a decoded VDF file. `Vdf.OpenKeyPushes`, `Vdf.KeyValueStores` and the ensures of `Vdf.Step` state each line's effect in general.
- Items.Description: the app description is the parameter `describeApp`, because it is built with float formatting.
- Query.TemplateExpands: stated for an empty blacklist. Blacklisting is covered separately by `Query.CandidatesAllowed`.
- Enter.FriendStep: the friend ID is `int(action[6:])`. The model accepts surrounding ASCII white space, an optional sign and ASCII digits; IDs written with underscores, non-ASCII white space or non-ASCII digits are rejected where Python accepts them.
- `main.py` (the launcher event plumbing) is not part of this model.

## Findings

| source | as written | input that shows it | evidently intended | confidence | as-written member | corrected member |
|---|---|---|---|---|---|---|
| get.py:278 | The assembly reads `shortcut["size"]`, but the scanner stores `size_on_disk` (get.py:260), so every record raises KeyError inside the `try` and is skipped. | Any shortcuts.vdf with one complete record gives `{}`. | Read `size_on_disk`, so complete records become apps. | high, not executed | Shortcuts.AssembleAsWrittenIsEmpty | Shortcuts.AssembleCorrectedKeeps |
| enter.py:22, 33 | `from cache import (… clear_images …)` names a function cache.py does not define, so the import raises ImportError first; `from query import get_launches` names a function nested inside `query_cache` and would fail next. | Any call, e.g. action "update_cache". | Both imports resolve: images are cleared and launches read as the rest of the function expects. | high, not executed | Enter.AsWrittenAlwaysFails | Enter.Execute |
| enter.py:136 | The launch is stored as `"<ts>x<n>"` under `launched`, which `get_launches` never reads, so the count stays put. | A record `{}` recorded twice still reads (None, 0). | Store `last_launched` and `times_launched`, so the count rises by one. | medium, not executed | Enter.CounterStuckAsWritten | Enter.CounterAdvances |
| enter.py:82 | `elif os_name == "nt"` runs the Linux `xdg-open` only on Windows, and everywhere else logs that URLs are unsupported. | Action "w:example.com" on Linux does nothing. | `xdg-open` away from Windows; Windows unsupported, as the TODO says. | high, not executed | Enter.WebAsWrittenInverted | Enter.WebCommand |
| cache.py:544-548 | `city_names_to_download[country_code]` is read before lines 549-553 create it, for a country already in the cache. | A cached country saved as `{}` (its state download failed, so get.py:502-534 returned `{}`), and a friend there with a state and a city: KeyError escapes `build_cache`. | Create the plan entry first, as lines 549-553 do. | high, not executed | Cache.IndexFriendAsWritten | Cache.IndexFriend |
| cache.py:354-358 | The handler for an unreadable cached `last_launched` builds its warning from `app['app_id']`, a key no collector record has (get.py:90-97, 174-177), and the merge loops at lines 393 and 440 have no `try`. | A cached app whose `last_launched` is `"abc"`, merged with an incoming launch: KeyError escapes `build_cache`. | Log the warning and store the incoming time, as the `return True` after the handler does. | high, not executed | Cache.UnreadableLaunchRaisesAsWritten | Cache.LaunchOverUnreadable |
| cache.py:396-592 | The merges read `install_dir`, `size_on_disk`, `last_updated`, `total_playtime`, `friend_since` and `time_created`, but get.py:150-156, 275-280, 370-374, 414 and 489-498 write `dir`, `size`, `updated`, `playtime`, `since` and `created`. | Any installed app, non-Steam app, owned game, friend or friend profile: KeyError. | The collectors and the merges use the same key names. | high, not executed | Cache.CollectorKeysMismatch | Cache.InstalledRecord |
