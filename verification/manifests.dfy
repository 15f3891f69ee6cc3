/** Installed Steam apps (get.py, `get_installed_steam_apps`): every
    `appmanifest_<id>.acf` file of a steamapps folder is decoded and a record
    is taken from its `AppState` block. A manifest that cannot be read this way
    is skipped; the others are kept. */
module Manifests {
  import opened Wrappers
  import opened Text
  import opened Const
  import opened Vdf
  import Datetimes

  /** An installed app; times are epoch seconds. */
  datatype InstalledApp = InstalledApp(name: string, dir: string, size: int, updated: Option<int>, launched: Option<int>)

  /** The steamapps folder with a directory separator appended when it lacks one. */
  function FolderWithSep(folder: string, isNt: bool): (r: string)
    ensures EndsWith(r, DirSep(isNt))
    ensures r == folder || r == folder + DirSep(isNt)
    ensures EndsWith(folder, DirSep(isNt)) ==> r == folder
  {
    if EndsWith(folder, DirSep(isNt)) then folder else folder + DirSep(isNt)
  }

  predicate IsManifestName(name: string) {
    StartsWith(name, "appmanifest_") && EndsWith(name, ".acf")
  }

  /** The app ID of a manifest file name: the text between the first two
      underscores, up to its first dot, read as an integer. */
  function ManifestId(name: string): Option<int> {
    var parts := Split(name, '_');
    if |parts| < 2 then None else ParseInt(Split(parts[1], '.')[0])
  }

  /** `app_vdf["AppState"][key]` used as a string: found only when the
      `AppState` block holds the key with a string value (a nested block has
      no `strip` and no `int`). */
  function Field(manifest: map<string, Node>, key: string): (r: Option<string>)
    ensures r.Some? <==> "AppState" in manifest && manifest["AppState"].Block? &&
                         key in manifest["AppState"].children && manifest["AppState"].children[key].Leaf?
    ensures r.Some? ==> r.value == manifest["AppState"].children[key].value
  {
    if "AppState" in manifest && manifest["AppState"].Block? && key in manifest["AppState"].children
       && manifest["AppState"].children[key].Leaf?
    then Some(manifest["AppState"].children[key].value)
    else None
  }

  /** `app_vdf["AppState"][key]` put into an f-string: a string as it is, a
      nested block as its `str()`, given as `repr`. */
  function FieldText(manifest: map<string, Node>, key: string, repr: Node -> string): (r: Option<string>)
    ensures r.Some? <==> "AppState" in manifest && manifest["AppState"].Block? && key in manifest["AppState"].children
    ensures Field(manifest, key).Some? ==> r == Field(manifest, key)
  {
    if "AppState" in manifest && manifest["AppState"].Block? && key in manifest["AppState"].children then
      var node := manifest["AppState"].children[key];
      Some(if node.Leaf? then node.value else repr(node))
    else None
  }

  /** A time field: "0" stands for never; anything else must be an integer
      that `datetime.fromtimestamp` accepts. */
  function TimeField(manifest: map<string, Node>, key: string): (r: Option<Option<int>>)
    ensures r.Some? ==> Field(manifest, key).Some?
    ensures r == Some(None) <==> Field(manifest, key) == Some("0")
    ensures r.Some? && r.value.Some? ==> ParseInt(Field(manifest, key).value) == r.value && Datetimes.InRange(r.value.value)
    ensures Field(manifest, key).Some? && Field(manifest, key) != Some("0") ==>
              (r.Some? <==> ParseInt(Field(manifest, key).value).Some? &&
                            Datetimes.InRange(ParseInt(Field(manifest, key).value).value))
  {
    match Field(manifest, key)
    case None => None
    case Some(s) =>
      if s == "0" then Some(None)
      else match ParseInt(s)
        case None => None
        case Some(v) => if Datetimes.InRange(v) then Some(Some(v)) else None
  }

  /** The size field: `SizeOnDisk`, or `BytesToStage` while that is "0". */
  function SizeText(manifest: map<string, Node>): Option<string> {
    if Field(manifest, "SizeOnDisk") == Some("0") then Field(manifest, "BytesToStage")
    else Field(manifest, "SizeOnDisk")
  }

  /** The record taken from a decoded manifest, or None where a lookup or a
      conversion raises. */
  function Extract(folder: string, manifest: map<string, Node>, repr: Node -> string): (r: Option<InstalledApp>)
    ensures r.Some? ==> Field(manifest, "name").Some? && r.value.name == Strip(Field(manifest, "name").value)
    ensures r.Some? ==> FieldText(manifest, "installdir", repr).Some? &&
                        r.value.dir == folder + FieldText(manifest, "installdir", repr).value
    ensures r.Some? ==> TimeField(manifest, "LastUpdated") == Some(r.value.updated) &&
                        TimeField(manifest, "LastPlayed") == Some(r.value.launched)
    ensures r.Some? ==> (r.value.updated == None <==> Field(manifest, "LastUpdated") == Some("0"))
    ensures r.Some? ==> (r.value.launched == None <==> Field(manifest, "LastPlayed") == Some("0"))
    ensures r.Some? && Field(manifest, "SizeOnDisk") == Some("0") ==>
              Field(manifest, "BytesToStage").Some? && ParseInt(Field(manifest, "BytesToStage").value) == Some(r.value.size)
    ensures r.Some? && Field(manifest, "SizeOnDisk") != Some("0") ==>
              Field(manifest, "SizeOnDisk").Some? && ParseInt(Field(manifest, "SizeOnDisk").value) == Some(r.value.size)
    ensures r.Some? <==> Field(manifest, "name").Some? && FieldText(manifest, "installdir", repr).Some? &&
                         TimeField(manifest, "LastUpdated").Some? && TimeField(manifest, "LastPlayed").Some? &&
                         SizeText(manifest).Some? && ParseInt(SizeText(manifest).value).Some?
  {
    var name := Field(manifest, "name");
    var dir := FieldText(manifest, "installdir", repr);
    var updated := TimeField(manifest, "LastUpdated");
    var launched := TimeField(manifest, "LastPlayed");
    var size := SizeText(manifest);
    if name.None? || dir.None? || updated.None? || launched.None? || size.None? then None
    else match ParseInt(size.value)
      case None => None
      case Some(n) => Some(InstalledApp(Strip(name.value), folder + dir.value, n, updated.value, launched.value))
  }

  /** What one directory entry contributes: its ID and record, or nothing when
      it is not a manifest, is blacklisted or fails anywhere on the way. */
  function ReadManifest(folder: string, blacklist: seq<int>, file: (string, seq<string>), repr: Node -> string)
    : (r: Option<(int, InstalledApp)>)
    ensures r.Some? ==> IsManifestName(file.0) && ManifestId(file.0) == Some(r.value.0)
    ensures r.Some? ==> r.value.0 !in blacklist
    ensures Vdf.Parse(file.1).Err? ==> r.None?
    ensures r.Some? ==> Extract(folder, Vdf.Parse(file.1).value, repr) == Some(r.value.1)
    ensures r.Some? <==> IsManifestName(file.0) && ManifestId(file.0).Some? && ManifestId(file.0).value !in blacklist &&
                         Vdf.Parse(file.1).Ok? && Extract(folder, Vdf.Parse(file.1).value, repr).Some?
  {
    if !IsManifestName(file.0) then None
    else match ManifestId(file.0)
      case None => None
      case Some(id) =>
        if id in blacklist then None
        else match Vdf.Parse(file.1)
          case Err(_) => None
          case Ok(manifest) =>
            match Extract(folder, manifest, repr)
            case None => None
            case Some(app) => Some((id, app))
  }

  /** What each directory entry contributes, in listing order. */
  function Outcomes(folder: string, blacklist: seq<int>, listing: seq<(string, seq<string>)>, repr: Node -> string)
    : (r: seq<Option<(int, InstalledApp)>>)
    ensures |r| == |listing|
    ensures forall k :: 0 <= k < |listing| ==> r[k] == ReadManifest(folder, blacklist, listing[k], repr)
  {
    if listing == [] then []
    else Outcomes(folder, blacklist, listing[..|listing| - 1], repr) + [ReadManifest(folder, blacklist, listing[|listing| - 1], repr)]
  }

  predicate Yields(entry: Option<(int, InstalledApp)>, id: int) {
    entry.Some? && entry.value.0 == id
  }

  /** Entry `k` is the last entry that yields `id`. */
  predicate LastFor(entries: seq<Option<(int, InstalledApp)>>, k: int, id: int) {
    0 <= k < |entries| && Yields(entries[k], id)
    && forall j :: k < j < |entries| ==> !Yields(entries[j], id)
  }

  /** The dictionary the manifest loop builds: entries in order, a later entry
      for the same ID overwriting an earlier one. */
  function Collected(entries: seq<Option<(int, InstalledApp)>>): map<int, InstalledApp> {
    if entries == [] then map[]
    else
      var before := Collected(entries[..|entries| - 1]);
      match entries[|entries| - 1]
      case None => before
      case Some((id, app)) => before[id := app]
  }

  /** One more entry adds its app, if it yields one. */
  lemma CollectedNext(entries: seq<Option<(int, InstalledApp)>>, i: int)
    requires 0 <= i < |entries|
    ensures Collected(entries[..i + 1]) ==
              if entries[i].Some? then Collected(entries[..i])[entries[i].value.0 := entries[i].value.1]
              else Collected(entries[..i])
  {
    assert entries[..i + 1][..i] == entries[..i];
  }

  /** An ID is collected exactly when some entry yields it. */
  lemma {:induction false} CollectedKeys(entries: seq<Option<(int, InstalledApp)>>, id: int)
    ensures id in Collected(entries) <==> exists k :: 0 <= k < |entries| && Yields(entries[k], id)
  {
    if entries != [] {
      var n := |entries|;
      var prefix := entries[..n - 1];
      CollectedKeys(prefix, id);
      if exists k :: 0 <= k < n && Yields(entries[k], id) {
        var k :| 0 <= k < n && Yields(entries[k], id);
        if k < n - 1 {
          assert prefix[k] == entries[k];
        }
      }
      if exists k :: 0 <= k < n - 1 && Yields(prefix[k], id) {
        var k :| 0 <= k < n - 1 && Yields(prefix[k], id);
        assert prefix[k] == entries[k];
      }
    }
  }

  /** An ID carries the record of the last entry that yields it: manifests for
      the same ID do not merge. */
  lemma {:induction false} CollectedLastWins(entries: seq<Option<(int, InstalledApp)>>, k: int, id: int)
    requires LastFor(entries, k, id)
    ensures id in Collected(entries)
    ensures Collected(entries)[id] == entries[k].value.1
  {
    var n := |entries|;
    if k < n - 1 {
      var prefix := entries[..n - 1];
      assert prefix[k] == entries[k];
      forall j | k < j < n - 1 ensures !Yields(prefix[j], id) {
        assert prefix[j] == entries[j];
      }
      CollectedLastWins(prefix, k, id);
    }
  }

  /** The body of the manifest loop for one directory entry. */
  method ReadManifestFile(folder: string, blacklist: seq<int>, name: string, lines: seq<string>, repr: Node -> string)
    returns (entry: Option<(int, InstalledApp)>)
    ensures entry == ReadManifest(folder, blacklist, (name, lines), repr)
  {
    entry := None;
    if IsManifestName(name) {
      var id := ManifestId(name);
      if id.Some? && id.value !in blacklist {
        var parsed := VdfToDict(lines);
        if parsed.Ok? {
          var app := Extract(folder, parsed.value, repr);
          if app.Some? {
            entry := Some((id.value, app.value));
          }
        }
      }
    }
  }

  /** `get_installed_steam_apps` over a directory listing given as (file name,
      lines) pairs in `listdir` order; `repr` is `str()` of a decoded block. */
  method GetInstalledSteamApps(steamappsFolder: string, isNt: bool, blacklist: seq<int>, listing: seq<(string, seq<string>)>,
                               repr: Node -> string)
    returns (apps: map<int, InstalledApp>)
    ensures apps == Collected(Outcomes(FolderWithSep(steamappsFolder, isNt), blacklist, listing, repr))
  {
    var folder := steamappsFolder;
    if !EndsWith(folder, DirSep(isNt)) {
      folder := folder + DirSep(isNt);
    }
    ghost var outcomes := Outcomes(folder, blacklist, listing, repr);
    apps := map[];
    var i := 0;
    while i < |listing|
      invariant 0 <= i <= |listing|
      invariant apps == Collected(outcomes[..i])
    {
      var entry := ReadManifestFile(folder, blacklist, listing[i].0, listing[i].1, repr);
      CollectedNext(outcomes, i);
      if entry.Some? {
        apps := apps[entry.value.0 := entry.value.1];
      }
      i := i + 1;
    }
    assert outcomes[..i] == outcomes;
  }

  /** Blacklisted IDs never appear in the result, whatever their manifests say. */
  lemma BlacklistedNotCollected(folder: string, blacklist: seq<int>, listing: seq<(string, seq<string>)>,
                                 repr: Node -> string, id: int)
    requires id in blacklist
    ensures id !in Collected(Outcomes(folder, blacklist, listing, repr))
  {
    CollectedKeys(Outcomes(folder, blacklist, listing, repr), id);
  }
}
