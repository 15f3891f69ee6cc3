/** Process-wide constants and preference helpers (const.py): the directory
    separator, the extension's own directory, the required-preference check,
    the environment-file preference loader and the table of Steam client
    navigations. */
module Const {
  import opened Wrappers
  import opened Text

  /** The directory separator: a backslash when `os.name` is "nt", a slash otherwise. */
  function DirSep(isNt: bool): (r: string)
    ensures |r| == 1
    ensures isNt <==> r == "\\"
    ensures !isNt <==> r == "/"
  {
    if isNt then "\\" else "/"
  }

  function SepChar(isNt: bool): char {
    DirSep(isNt)[0]
  }

  /** The directory part of the module's path with a separator appended, or "."
      when that is at most one character long (the value `EXTENSION_PATH` holds
      before `abspath`). */
  function ExtensionDir(file: string, isNt: bool): string {
    ParentDir(file, SepChar(isNt))
  }

  /** The pieces of `file` but the last, joined and closed by `sep`, or "."
      when that is at most one character long. */
  function ParentDir(file: string, sep: char): string {
    var parts := Split(file, sep);
    var dir := Join(parts[..|parts| - 1], sep) + [sep];
    if |dir| <= 1 then "." else dir
  }

  lemma {:induction false} JoinLast(parts: seq<string>, sep: char)
    requires |parts| >= 2
    ensures Join(parts[..|parts| - 1], sep) + [sep] + parts[|parts| - 1] == Join(parts, sep)
  {
    if |parts| > 2 {
      JoinLast(parts[1..], sep);
      assert parts[1..][..|parts| - 2] == parts[..|parts| - 1][1..];
    }
  }

  /** When the path has a separator after its first character, the extension
      directory is the path with its last component cut off: appending that
      component (which holds no separator) gives the path back. */
  lemma ExtensionDirIsParent(file: string, isNt: bool)
    requires exists i :: 0 < i < |file| && file[i] == SepChar(isNt)
    ensures var base := Split(file, SepChar(isNt))[|Split(file, SepChar(isNt))| - 1];
            SepChar(isNt) !in base && ExtensionDir(file, isNt) + base == file
  {
    var i :| 0 < i < |file| && file[i] == SepChar(isNt);
    ParentDirIsParent(file, SepChar(isNt), i);
  }

  lemma ParentDirIsParent(file: string, sep: char, i: int)
    requires 0 < i < |file| && file[i] == sep
    ensures var base := Split(file, sep)[|Split(file, sep)| - 1];
            sep !in base && ParentDir(file, sep) + base == file
  {
    var parts := Split(file, sep);
    assert |parts| >= 2 by {
      SplitLength(file, sep);
      assert sep in file;
    }
    var dir := Join(parts[..|parts| - 1], sep) + [sep];
    var base := parts[|parts| - 1];
    assert sep !in base by {
      SplitPiecesFree(file, sep);
    }
    assert dir + base == file by {
      JoinSplit(file, sep);
      JoinLast(parts, sep);
    }
    assert |dir| > 1 by {
      SeparatorInFront(file, sep, i, dir, base);
    }
  }

  /** A separator at `i` of `dir + base`, with none in `base`, lies in `dir`. */
  lemma SeparatorInFront(file: string, sep: char, i: int, dir: string, base: string)
    requires dir + base == file && sep !in base
    requires 0 < i < |file| && file[i] == sep
    ensures i < |dir|
  {
    assert forall j :: |dir| <= j < |file| ==> file[j] == base[j - |dir|];
  }

  /** With no separator in the path, the extension directory is ".". */
  lemma ExtensionDirNoSeparator(file: string, isNt: bool)
    requires SepChar(isNt) !in file
    ensures ExtensionDir(file, isNt) == "."
  {
    SplitLength(file, SepChar(isNt));
  }

  datatype PathError = EmptyAbsolutePath

  /** `EXTENSION_PATH`, built by successive reassignments: the directory part,
      "." when it is too short, `abspath` of that (a filesystem call, given as a
      parameter), then a trailing separator when missing. Indexing the last
      character of an empty `abspath` result raises IndexError. */
  method ExtensionPath(file: string, isNt: bool, abspath: string -> string) returns (r: Result<string, PathError>)
    ensures r.Err? <==> abspath(ExtensionDir(file, isNt)) == ""
    ensures r.Ok? ==> EndsWith(r.value, DirSep(isNt))
    ensures r.Ok? ==> StartsWith(r.value, abspath(ExtensionDir(file, isNt)))
    ensures r.Ok? ==> |r.value| <= |abspath(ExtensionDir(file, isNt))| + 1
  {
    var sep := DirSep(isNt);
    var parts := Split(file, sep[0]);
    var path := Join(parts[..|parts| - 1], sep[0]) + sep;
    if |path| <= 1 {
      path := ".";
    }
    path := abspath(path);
    if |path| == 0 {
      return Err(EmptyAbsolutePath);
    }
    if path[|path| - 1] != sep[0] {
      path := path + sep;
    }
    return Ok(path);
  }

  /** The language used when the preferred one lacks a string. */
  const DEFAULT_LANGUAGE: string := "en-GB"

  /** The default item icon, under the extension directory. */
  function DefaultIcon(extensionPath: string, isNt: bool): string {
    extensionPath + "images" + DirSep(isNt) + "icon.png"
  }

  /** `check_required_preferences`: the first required key, in tuple order,
      that the preferences lack (raised as ValueError), or success. */
  function CheckRequiredPreferences(required: seq<string>, preferences: map<string, string>): (r: Result<(), string>)
    ensures r.Ok? <==> forall i :: 0 <= i < |required| ==> required[i] in preferences
    ensures r.Err? ==> exists i :: 0 <= i < |required| && required[i] == r.error && required[i] !in preferences
                                   && forall j :: 0 <= j < i ==> required[j] in preferences
  {
    if required == [] then Ok(())
    else if required[0] !in preferences then Err(required[0])
    else
      var rest := CheckRequiredPreferences(required[1..], preferences);
      if rest.Err? then
        var i :| 0 <= i < |required[1..]| && required[1..][i] == rest.error && required[1..][i] !in preferences
                 && forall j :: 0 <= j < i ==> required[1..][j] in preferences;
        assert required[i + 1] == rest.error;
        rest
      else rest
  }

  function UpperChar(c: char): char {
    if 'a' <= c <= 'z' then (c as int - 32) as char else c
  }

  /** `str.upper()` on ASCII letters. */
  function Upper(s: string): (r: string)
    ensures |r| == |s|
    ensures forall i :: 0 <= i < |s| ==> r[i] == UpperChar(s[i])
  {
    if s == [] then [] else [UpperChar(s[0])] + Upper(s[1..])
  }

  /** `get_preferences_from_env` once the file's `PREFERENCES` section has been
      read into `items` (in file order): the dict comprehension inserts every
      key upper-cased with its value, so a later key that upper-cases alike
      overwrites an earlier one. */
  function PreferencesFromEnv(items: seq<(string, string)>): map<string, string> {
    if items == [] then map[]
    else PreferencesFromEnv(items[..|items| - 1])[Upper(items[|items| - 1].0) := items[|items| - 1].1]
  }

  /** The keys are exactly the upper-cased keys of the file. */
  lemma {:induction false} PreferencesFromEnvKeys(items: seq<(string, string)>)
    ensures PreferencesFromEnv(items).Keys == set i | 0 <= i < |items| :: Upper(items[i].0)
  {
    if items != [] {
      var n := |items|;
      var prefix := items[..n - 1];
      var last := Upper(items[n - 1].0);
      var before := set i | 0 <= i < n - 1 :: Upper(prefix[i].0);
      var all := set i | 0 <= i < n :: Upper(items[i].0);
      assert PreferencesFromEnv(prefix).Keys == before by {
        PreferencesFromEnvKeys(prefix);
      }
      assert PreferencesFromEnv(items).Keys == PreferencesFromEnv(prefix).Keys + {last};
      assert before + {last} == all by {
        forall k | k in all ensures k in before + {Upper(items[n - 1].0)} {
          var i :| 0 <= i < n && k == Upper(items[i].0);
          if i < n - 1 {
            assert prefix[i] == items[i];
          }
        }
        forall k | k in before ensures k in all {
          var i :| 0 <= i < n - 1 && k == Upper(prefix[i].0);
          assert prefix[i] == items[i];
        }
      }
    }
  }

  /** Values are unchanged: each key carries the value of its last occurrence. */
  lemma {:induction false} PreferencesFromEnvLastWins(items: seq<(string, string)>, i: nat)
    requires i < |items|
    requires forall j :: i < j < |items| ==> Upper(items[j].0) != Upper(items[i].0)
    ensures Upper(items[i].0) in PreferencesFromEnv(items)
    ensures PreferencesFromEnv(items)[Upper(items[i].0)] == items[i].1
  {
    var n := |items|;
    if i < n - 1 {
      var prefix := items[..n - 1];
      assert prefix[i] == items[i];
      forall j | i < j < |prefix| ensures Upper(prefix[j].0) != Upper(prefix[i].0) {
        assert prefix[j] == items[j];
      }
      PreferencesFromEnvLastWins(prefix, i);
    }
  }

  /** `STEAM_NAVIGATIONS`: the Steam client navigations offered as items, some of
      them templates over an app ID (`%a`) or a friend ID (`%f`). */
  const STEAM_NAVIGATIONS: seq<string> := [
    "backup/%a", "cdkeys/%a", "controllerconfig/%a", "exit", "forceinputappid/%a",
    "friends/message/%f", "friends/players", "friends/status/away", "friends/status/invisible",
    "friends/status/offline", "friends/status/online", "gameproperties/%a",
    "musicplayer/decreasevolume", "musicplayer/increasevolume", "musicplayer/pause",
    "musicplayer/play", "musicplayer/playnext", "musicplayer/playprevious",
    "musicplayer/togglemute", "musicplayer/toggleplayingrepeatstatus",
    "musicplayer/toggleplayingshuffled", "musicplayer/toggleplaypause",
    "open/activateproduct", "open/bigpicture", "open/console", "open/downloads",
    "open/friends", "open/games", "open/largegameslist", "open/minigameslist", "open/music",
    "open/musicplayer", "open/screenshots/%a", "open/servers", "open/tools",
    "settings/account", "settings/downloads", "settings/friends", "settings/ingame",
    "settings/interface", "settings/voice", "store", "store/%a", "uninstall/%a",
    "UpdateFirmware", "updatenews/%a", "url/CommunityFriendsThatPlay/%a", "url/CommunityHome",
    "url/CommunityInventory", "url/FamilySharing", "url/GameHub/%a", "url/LegalInformation",
    "url/MyHelpRequests", "url/ParentalSetup", "url/PrivacyPolicy", "url/SSA",
    "url/SteamIDEditPage", "url/SteamIDFriendsPage", "url/SteamIDMyProfile",
    "url/SteamIDPage/%f", "url/SteamWorkshop", "url/SteamWorkshopPage/%a", "url/StoreAccount",
    "url/StoreCart", "validate/%a", "viewfriendsgame/%f"
  ]
}
