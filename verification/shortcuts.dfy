/** The binary shortcuts file scanner of get.py (`get_non_steam_apps`): a
    cursor walks the bytes from offset 11, tries five tag markers in a fixed
    order at each position, decodes what follows a matched tag, and moves on
    by one byte when none matched. Each record is a dictionary from field name
    to value, as in the source. */
module Shortcuts {
  import opened Wrappers
  import opened Text
  import opened Json

  newtype byte = x: int | 0 <= x < 256

  /** The scan starts past the file header. */
  const HEADER_LENGTH: nat := 11

  const APPID_TAG: seq<byte> := [2, 97, 112, 112, 105, 100, 0]                                     // "\x02appid\x00"
  const APPNAME_TAG: seq<byte> := [1, 65, 112, 112, 78, 97, 109, 101, 0]                           // "\x01AppName\x00"
  const EXE_TAG: seq<byte> := [1, 69, 120, 101, 0]                                                 // "\x01Exe\x00"
  const LASTPLAYTIME_TAG: seq<byte> := [2, 76, 97, 115, 116, 80, 108, 97, 121, 84, 105, 109, 101, 0] // "\x02LastPlayTime\x00"

  /** The bytes of an ASCII string. */
  function AsciiBytes(s: string): (r: seq<byte>)
    requires forall i :: 0 <= i < |s| ==> s[i] < 128 as char
    ensures |r| == |s|
    ensures forall i :: 0 <= i < |s| ==> r[i] as int == s[i] as int
  {
    if s == [] then [] else [s[0] as int as byte] + AsciiBytes(s[1..])
  }

  lemma IntToStringAscii(n: int)
    ensures |IntToString(n)| >= 1
    ensures forall i :: 0 <= i < |IntToString(n)| ==> IntToString(n)[i] < 128 as char
  {
    var d := if n < 0 then NatToString(-n) else NatToString(n);
    assert IsDigits(d);
    forall i | 0 <= i < |IntToString(n)| ensures IntToString(n)[i] < 128 as char {
      if n < 0 && i > 0 {
        assert IntToString(n)[i] == d[i - 1];
      }
    }
  }

  /** The record marker `"\x00" + str(n) + "\x00"`. */
  function Marker(n: int): (r: seq<byte>)
    ensures |r| >= 3 && r[0] == 0 && r[|r| - 1] == 0
  {
    IntToStringAscii(n);
    [0] + AsciiBytes(IntToString(n)) + [0]
  }

  /** `cursor_match`: the bytes at `c` are exactly `tag`. Decoding with errors
      ignored cannot make a shorter or different byte run equal to an ASCII
      tag, so the comparison is a byte comparison. */
  predicate MatchAt(b: seq<byte>, c: int, tag: seq<byte>) {
    0 <= c && c + |tag| <= |b| && b[c..c + |tag|] == tag
  }

  /** Unsigned little-endian value of a byte run. */
  function LittleEndian(bs: seq<byte>): nat {
    if bs == [] then 0 else bs[0] as nat + 256 * LittleEndian(bs[1..])
  }

  function Min(a: int, b: int): int {
    if a <= b then a else b
  }

  /** The (at most) four bytes at `c`, read little-endian. */
  function ReadLE32(b: seq<byte>, c: int): nat
    requires 0 <= c <= |b|
  {
    LittleEndian(b[c..Min(c + 4, |b|)])
  }

  /** A non-Steam app ID: the 32-bit value at `c` as the high half, 0x02000000
      as the low half. */
  function AppIdValue(b: seq<byte>, c: int): nat
    requires 0 <= c <= |b|
  {
    ReadLE32(b, c) * 0x1_0000_0000 + 0x0200_0000
  }

  /** The first NUL at or after `c`, or the end of the buffer. */
  function NulEnd(b: seq<byte>, c: int): (r: int)
    requires 0 <= c <= |b|
    ensures c <= r <= |b|
    ensures forall j :: c <= j < r ==> b[j] != 0
    ensures r == |b| || b[r] == 0
    decreases |b| - c
  {
    if c == |b| || b[c] == 0 then c else NulEnd(b, c + 1)
  }

  /** Any position with no NUL before it from `c` and a NUL or the end at it is `NulEnd`. */
  lemma NulEndUnique(b: seq<byte>, c: int, e: int)
    requires 0 <= c <= e <= |b|
    requires forall j :: c <= j < e ==> b[j] != 0
    requires e == |b| || b[e] == 0
    ensures NulEnd(b, c) == e
  {
  }

  /** KeyError on `shortcuts_dict[-1]`: a field tag before the first record marker. */
  datatype ShortcutError = TagBeforeFirstRecord | MissingAppId(shortcut: int)

  type Record = map<string, Json>

  /** The scanner's variables: the cursor, the current shortcut index and the
      records read so far. */
  datatype Scan = Scan(cursor: int, id: int, records: map<int, Record>)

  /** The scanner writes `app_id` only as an integer and never a `size` field. */
  predicate WellTyped(rec: Record) {
    ("app_id" in rec ==> rec["app_id"].Int?) && "size" !in rec
  }

  /** Records are numbered 0 to the current index, without gaps. */
  ghost predicate Good(s: Scan) {
    s.id >= -1 && s.cursor >= 0
    && (forall k :: k in s.records <==> 0 <= k <= s.id)
    && (forall k :: k in s.records ==> WellTyped(s.records[k]))
  }

  /** A marker for the next index opens an empty record; nothing else does. */
  function MarkerPhase(b: seq<byte>, s: Scan): (r: Scan)
    requires Good(s)
    ensures Good(r)
    ensures MatchAt(b, s.cursor, Marker(s.id + 1)) ==>
              r == Scan(s.cursor + |Marker(s.id + 1)|, s.id + 1, s.records[s.id + 1 := map[]])
    ensures !MatchAt(b, s.cursor, Marker(s.id + 1)) ==> r == s
  {
    if MatchAt(b, s.cursor, Marker(s.id + 1)) then
      Scan(s.cursor + |Marker(s.id + 1)|, s.id + 1, s.records[s.id + 1 := map[]])
    else s
  }

  /** Stores one field of the current record, or fails when there is none yet. */
  function Store(s: Scan, cursor: int, key: string, value: Json): (r: Result<Scan, ShortcutError>)
    requires Good(s) && cursor >= s.cursor
    requires key != "size" && (key == "app_id" ==> value.Int?)
    ensures r.Err? <==> s.id == -1
    ensures r.Ok? ==> Good(r.value) && r.value.id == s.id && r.value.cursor == cursor
    ensures r.Ok? ==> r.value.records == s.records[s.id := s.records[s.id][key := value]]
  {
    if s.id !in s.records then Err(TagBeforeFirstRecord)
    else Ok(Scan(cursor, s.id, s.records[s.id := s.records[s.id][key := value]]))
  }

  /** `appid`: four bytes, then the value of `AppIdValue`. */
  function AppIdPhase(b: seq<byte>, s: Scan): (r: Result<Scan, ShortcutError>)
    requires Good(s)
    ensures r.Ok? ==> Good(r.value) && r.value.cursor >= s.cursor && r.value.id == s.id
  {
    if !MatchAt(b, s.cursor, APPID_TAG) then Ok(s)
    else
      var c := s.cursor + |APPID_TAG|;
      Store(s, c + 4, "app_id", Int(AppIdValue(b, c)))
  }

  /** `AppName`: the bytes up to the next NUL, decoded by `decode`; the cursor
      ends one past that NUL. */
  function NamePhase(b: seq<byte>, decode: seq<byte> -> string, s: Scan): (r: Result<Scan, ShortcutError>)
    requires Good(s)
    ensures r.Ok? ==> Good(r.value) && r.value.cursor >= s.cursor && r.value.id == s.id
  {
    if !MatchAt(b, s.cursor, APPNAME_TAG) then Ok(s)
    else
      var c := s.cursor + |APPNAME_TAG|;
      var e := NulEnd(b, c);
      Store(s, e + 1, "name", Str(decode(b[c..e])))
  }

  /** `Exe`: the bytes up to the next NUL, resolved by `resolve` into the
      executable's location and size when the file exists; both fields are None
      otherwise. */
  function ExePhase(b: seq<byte>, resolve: seq<byte> -> Option<(string, int)>, s: Scan): (r: Result<Scan, ShortcutError>)
    requires Good(s)
    ensures r.Ok? ==> Good(r.value) && r.value.cursor >= s.cursor && r.value.id == s.id
  {
    if !MatchAt(b, s.cursor, EXE_TAG) then Ok(s)
    else
      var c := s.cursor + |EXE_TAG|;
      var e := NulEnd(b, c);
      var exe := resolve(b[c..e]);
      match Store(s, e + 1, "exe", if exe.Some? then Str(exe.value.0) else Null)
      case Err(err) => Err(err)
      case Ok(s1) => Store(s1, e + 1, "size_on_disk", if exe.Some? then Int(exe.value.1) else Null)
  }

  /** `LastPlayTime`: four bytes read little-endian, 0 meaning never. */
  function LastPlayTimePhase(b: seq<byte>, s: Scan): (r: Result<Scan, ShortcutError>)
    requires Good(s)
    ensures r.Ok? ==> Good(r.value) && r.value.cursor >= s.cursor && r.value.id == s.id
  {
    if !MatchAt(b, s.cursor, LASTPLAYTIME_TAG) then Ok(s)
    else
      var c := s.cursor + |LASTPLAYTIME_TAG|;
      var t := ReadLE32(b, c);
      Store(s, c + 4, "launched", if t == 0 then Null else Int(t))
  }

  /** One turn of the scanner loop: the five tags in order, then one byte
      forward when none of them matched (every match moves the cursor). */
  function Step(b: seq<byte>, decode: seq<byte> -> string, resolve: seq<byte> -> Option<(string, int)>, s: Scan)
    : (r: Result<Scan, ShortcutError>)
    requires Good(s)
    ensures r.Ok? ==> Good(r.value) && r.value.cursor > s.cursor
    ensures r.Ok? ==> r.value.id == s.id || (r.value.id == s.id + 1 && MatchAt(b, s.cursor, Marker(s.id + 1)))
  {
    var s1 := MarkerPhase(b, s);
    match AppIdPhase(b, s1)
    case Err(e) => Err(e)
    case Ok(s2) =>
      match NamePhase(b, decode, s2)
      case Err(e) => Err(e)
      case Ok(s3) =>
        match ExePhase(b, resolve, s3)
        case Err(e) => Err(e)
        case Ok(s4) =>
          match LastPlayTimePhase(b, s4)
          case Err(e) => Err(e)
          case Ok(s5) => Ok(if s5.cursor == s.cursor then s5.(cursor := s.cursor + 1) else s5)
  }

  /** The scanner loop from state `s` to the end of the buffer. */
  function ScanFrom(b: seq<byte>, decode: seq<byte> -> string, resolve: seq<byte> -> Option<(string, int)>, s: Scan)
    : (r: Result<Scan, ShortcutError>)
    requires Good(s)
    ensures r.Ok? ==> Good(r.value) && r.value.cursor >= |b|
    decreases |b| - s.cursor
  {
    if s.cursor >= |b| then Ok(s)
    else
      match Step(b, decode, resolve, s)
      case Err(e) => Err(e)
      case Ok(next) => ScanFrom(b, decode, resolve, next)
  }

  /** The scan of a whole buffer: records 0 to `id`, or the KeyError. */
  function ScanAll(b: seq<byte>, decode: seq<byte> -> string, resolve: seq<byte> -> Option<(string, int)>)
    : (r: Result<Scan, ShortcutError>)
    ensures r.Ok? ==> Good(r.value)
  {
    ScanFrom(b, decode, resolve, Scan(HEADER_LENGTH, -1, map[]))
  }

  /** The inner loop that runs the cursor to the next NUL or the end. */
  method SkipToNul(buffer: seq<byte>, start: int) returns (cursor: int)
    requires 0 <= start <= |buffer|
    ensures cursor == NulEnd(buffer, start)
  {
    cursor := start;
    while cursor < |buffer| && buffer[cursor] != 0
      invariant start <= cursor <= |buffer|
      invariant forall j :: start <= j < cursor ==> buffer[j] != 0
    {
      cursor := cursor + 1;
    }
    NulEndUnique(buffer, start, cursor);
  }

  /** The record-marker test of a turn. */
  method MarkerBlock(buffer: seq<byte>, s: Scan) returns (r: Scan, matched: bool)
    requires Good(s)
    ensures r == MarkerPhase(buffer, s)
    ensures matched <==> r.cursor != s.cursor
  {
    r, matched := s, false;
    if MatchAt(buffer, s.cursor, Marker(s.id + 1)) {
      r := Scan(s.cursor + |Marker(s.id + 1)|, s.id + 1, s.records[s.id + 1 := map[]]);
      matched := true;
    }
  }

  /** The `appid` test of a turn. */
  method AppIdBlock(buffer: seq<byte>, s: Scan) returns (r: Result<Scan, ShortcutError>, matched: bool)
    requires Good(s)
    ensures r == AppIdPhase(buffer, s)
    ensures r.Ok? ==> (matched <==> r.value.cursor != s.cursor)
  {
    r, matched := Ok(s), false;
    var cursor := s.cursor;
    if MatchAt(buffer, cursor, APPID_TAG) {
      cursor := cursor + |APPID_TAG|;
      matched := true;
      if s.id !in s.records {
        return Err(TagBeforeFirstRecord), matched;
      }
      var records := s.records[s.id := s.records[s.id]["app_id" := Int(AppIdValue(buffer, cursor))]];
      r := Ok(Scan(cursor + 4, s.id, records));
    }
  }

  /** The `AppName` test of a turn. */
  method NameBlock(buffer: seq<byte>, decode: seq<byte> -> string, s: Scan) returns (r: Result<Scan, ShortcutError>, matched: bool)
    requires Good(s)
    ensures r == NamePhase(buffer, decode, s)
    ensures r.Ok? ==> (matched <==> r.value.cursor != s.cursor)
  {
    r, matched := Ok(s), false;
    var cursor := s.cursor;
    if MatchAt(buffer, cursor, APPNAME_TAG) {
      cursor := cursor + |APPNAME_TAG|;
      matched := true;
      var start := cursor;
      cursor := SkipToNul(buffer, cursor);
      if s.id !in s.records {
        return Err(TagBeforeFirstRecord), matched;
      }
      var records := s.records[s.id := s.records[s.id]["name" := Str(decode(buffer[start..cursor]))]];
      r := Ok(Scan(cursor + 1, s.id, records));
    }
  }

  /** The `Exe` test of a turn. */
  method ExeBlock(buffer: seq<byte>, resolve: seq<byte> -> Option<(string, int)>, s: Scan) returns (r: Result<Scan, ShortcutError>, matched: bool)
    requires Good(s)
    ensures r == ExePhase(buffer, resolve, s)
    ensures r.Ok? ==> (matched <==> r.value.cursor != s.cursor)
  {
    r, matched := Ok(s), false;
    var cursor := s.cursor;
    if MatchAt(buffer, cursor, EXE_TAG) {
      cursor := cursor + |EXE_TAG|;
      matched := true;
      var start := cursor;
      cursor := SkipToNul(buffer, cursor);
      var exe := resolve(buffer[start..cursor]);
      if s.id !in s.records {
        return Err(TagBeforeFirstRecord), matched;
      }
      var records := s.records[s.id := s.records[s.id]["exe" := if exe.Some? then Str(exe.value.0) else Null]];
      records := records[s.id := records[s.id]["size_on_disk" := if exe.Some? then Int(exe.value.1) else Null]];
      r := Ok(Scan(cursor + 1, s.id, records));
    }
  }

  /** The `LastPlayTime` test of a turn. */
  method LastPlayTimeBlock(buffer: seq<byte>, s: Scan) returns (r: Result<Scan, ShortcutError>, matched: bool)
    requires Good(s)
    ensures r == LastPlayTimePhase(buffer, s)
    ensures r.Ok? ==> (matched <==> r.value.cursor != s.cursor)
  {
    r, matched := Ok(s), false;
    var cursor := s.cursor;
    if MatchAt(buffer, cursor, LASTPLAYTIME_TAG) {
      cursor := cursor + |LASTPLAYTIME_TAG|;
      matched := true;
      var launched := ReadLE32(buffer, cursor);
      if s.id !in s.records {
        return Err(TagBeforeFirstRecord), matched;
      }
      var records := s.records[s.id := s.records[s.id]["launched" := if launched == 0 then Null else Int(launched)]];
      r := Ok(Scan(cursor + 4, s.id, records));
    }
  }

  /** One turn of the scanner loop: the five tests in order, each setting
      `cursor_moved` when it matches, then one byte forward when none did. */
  method Turn(buffer: seq<byte>, decode: seq<byte> -> string, resolve: seq<byte> -> Option<(string, int)>, s: Scan)
    returns (r: Result<Scan, ShortcutError>)
    requires Good(s)
    ensures r == Step(buffer, decode, resolve, s)
  {
    var s1, moved := MarkerBlock(buffer, s);
    var s2, matched := AppIdBlock(buffer, s1);
    if s2.Err? {
      return Err(s2.error);
    }
    moved := moved || matched;
    var s3;
    s3, matched := NameBlock(buffer, decode, s2.value);
    if s3.Err? {
      return Err(s3.error);
    }
    moved := moved || matched;
    var s4;
    s4, matched := ExeBlock(buffer, resolve, s3.value);
    if s4.Err? {
      return Err(s4.error);
    }
    moved := moved || matched;
    var s5;
    s5, matched := LastPlayTimeBlock(buffer, s4.value);
    if s5.Err? {
      return Err(s5.error);
    }
    moved := moved || matched;
    var next := s5.value;
    if !moved {
      next := next.(cursor := next.cursor + 1);
    }
    return Ok(next);
  }

  /** The scanner loop of `get_non_steam_apps` over its `cursor`, `shortcut_id`
      and `shortcuts_dict`. */
  method ScanShortcuts(buffer: seq<byte>, decode: seq<byte> -> string, resolve: seq<byte> -> Option<(string, int)>)
    returns (r: Result<Scan, ShortcutError>)
    ensures r == ScanAll(buffer, decode, resolve)
  {
    var cursor := HEADER_LENGTH as int;
    var shortcutId := -1;
    var shortcuts: map<int, Record> := map[];
    while cursor < |buffer|
      invariant Good(Scan(cursor, shortcutId, shortcuts))
      invariant ScanAll(buffer, decode, resolve) == ScanFrom(buffer, decode, resolve, Scan(cursor, shortcutId, shortcuts))
      decreases |buffer| - cursor
    {
      var turn := Turn(buffer, decode, resolve, Scan(cursor, shortcutId, shortcuts));
      if turn.Err? {
        return Err(turn.error);
      }
      cursor, shortcutId, shortcuts := turn.value.cursor, turn.value.id, turn.value.records;
    }
    return Ok(Scan(cursor, shortcutId, shortcuts));
  }

  /** A non-Steam app as `get_non_steam_apps` returns it. */
  datatype NonSteamApp = NonSteamApp(name: Json, exe: Json, size: Json, launched: Json)

  /** The fields a record must hold to become an app, its size read under `sizeKey`. */
  predicate Complete(rec: Record, sizeKey: string) {
    "app_id" in rec && rec["app_id"].Int? && "name" in rec && "exe" in rec && sizeKey in rec && "launched" in rec
  }

  /** The assembly loop over records 0 to n - 1 in insertion order. A record
      without `app_id` raises KeyError before the `try`; a blacklisted one is
      skipped; an incomplete one raises inside the `try` and is skipped; a
      later app with the same ID overwrites an earlier one. The size is read
      under `sizeKey`. */
  function Assemble(records: map<int, Record>, n: int, blacklist: seq<int>, sizeKey: string)
    : (r: Result<map<int, NonSteamApp>, ShortcutError>)
    requires forall k :: 0 <= k < n ==> k in records && WellTyped(records[k])
    ensures r.Err? <==> exists k :: 0 <= k < n && "app_id" !in records[k]
    decreases n
  {
    if n <= 0 then Ok(map[])
    else
      match Assemble(records, n - 1, blacklist, sizeKey)
      case Err(e) => Err(e)
      case Ok(apps) =>
        var rec := records[n - 1];
        assert WellTyped(rec);
        if "app_id" !in rec then Err(MissingAppId(n - 1))
        else if rec["app_id"].i in blacklist then Ok(apps)
        else if Complete(rec, sizeKey) then
          Ok(apps[rec["app_id"].i := NonSteamApp(rec["name"], rec["exe"], rec[sizeKey], rec["launched"])])
        else Ok(apps)
  }

  /** Once the loop raises, the whole call raises that error. */
  lemma {:induction false} AssembleErrorStays(records: map<int, Record>, m: int, n: int, blacklist: seq<int>, sizeKey: string)
    requires forall k :: 0 <= k < n ==> k in records && WellTyped(records[k])
    requires m <= n && Assemble(records, m, blacklist, sizeKey).Err?
    ensures Assemble(records, n, blacklist, sizeKey) == Assemble(records, m, blacklist, sizeKey)
    decreases n
  {
    if n > m {
      AssembleErrorStays(records, m, n - 1, blacklist, sizeKey);
    }
  }

  /** The assembly loop as written reads the size under "size", a key the
      scanner never writes ("size_on_disk" is what it writes): no record is ever
      complete, so the result is always empty. */
  lemma {:induction false} AssembleAsWrittenIsEmpty(records: map<int, Record>, n: int, blacklist: seq<int>)
    requires forall k :: 0 <= k < n ==> k in records && WellTyped(records[k])
    ensures Assemble(records, n, blacklist, "size").Ok? ==> Assemble(records, n, blacklist, "size").value == map[]
    decreases n
  {
    if n > 0 {
      AssembleAsWrittenIsEmpty(records, n - 1, blacklist);
    }
  }

  /** With the size read under "size_on_disk", a complete, non-blacklisted
      record becomes an app under its ID unless a later one takes the same ID. */
  lemma {:induction false} AssembleCorrectedKeeps(records: map<int, Record>, n: int, blacklist: seq<int>, k: int)
    requires forall j :: 0 <= j < n ==> j in records && WellTyped(records[j])
    requires Assemble(records, n, blacklist, "size_on_disk").Ok?
    requires 0 <= k < n && Complete(records[k], "size_on_disk") && records[k]["app_id"].i !in blacklist
    requires forall j :: k < j < n && Complete(records[j], "size_on_disk") ==> records[j]["app_id"] != records[k]["app_id"]
    ensures var apps := Assemble(records, n, blacklist, "size_on_disk").value;
            var rec := records[k];
            rec["app_id"].i in apps
            && apps[rec["app_id"].i] == NonSteamApp(rec["name"], rec["exe"], rec["size_on_disk"], rec["launched"])
    decreases n
  {
    if k < n - 1 {
      AssembleCorrectedKeeps(records, n - 1, blacklist, k);
    }
  }

  /** Every app assembled with "size_on_disk" comes from a complete,
      non-blacklisted record with that ID. */
  lemma {:induction false} AssembleCorrectedSound(records: map<int, Record>, n: int, blacklist: seq<int>, id: int)
    requires forall j :: 0 <= j < n ==> j in records && WellTyped(records[j])
    requires Assemble(records, n, blacklist, "size_on_disk").Ok?
    requires id in Assemble(records, n, blacklist, "size_on_disk").value
    ensures id !in blacklist
    ensures exists k :: 0 <= k < n && Complete(records[k], "size_on_disk") && records[k]["app_id"] == Int(id)
    decreases n
  {
    var rec := records[n - 1];
    if !(Complete(rec, "size_on_disk") && rec["app_id"] == Int(id) && id !in blacklist) {
      AssembleCorrectedSound(records, n - 1, blacklist, id);
    }
  }

  /** The assembly loop, with the size read under `sizeKey`. */
  method AssembleApps(records: map<int, Record>, n: int, blacklist: seq<int>, sizeKey: string)
    returns (r: Result<map<int, NonSteamApp>, ShortcutError>)
    requires forall k :: 0 <= k < n ==> k in records && WellTyped(records[k])
    ensures r == Assemble(records, n, blacklist, sizeKey)
  {
    var apps: map<int, NonSteamApp> := map[];
    var k := 0;
    while k < n
      invariant 0 <= k <= if n < 0 then 0 else n
      invariant Assemble(records, k, blacklist, sizeKey) == Ok(apps)
    {
      var appInfo := records[k];
      if "app_id" !in appInfo {
        AssembleErrorStays(records, k + 1, n, blacklist, sizeKey);
        return Err(MissingAppId(k));
      }
      if appInfo["app_id"].i !in blacklist && Complete(appInfo, sizeKey) {
        apps := apps[appInfo["app_id"].i := NonSteamApp(appInfo["name"], appInfo["exe"], appInfo[sizeKey], appInfo["launched"])];
      }
      k := k + 1;
    }
    return Ok(apps);
  }

  /** `get_non_steam_apps` as written: the scan, then the assembly reading
      "size". Its result is empty whenever it does not raise. */
  method GetNonSteamApps(buffer: seq<byte>, decode: seq<byte> -> string, resolve: seq<byte> -> Option<(string, int)>, blacklist: seq<int>)
    returns (r: Result<map<int, NonSteamApp>, ShortcutError>)
    ensures ScanAll(buffer, decode, resolve).Err? ==> r == Err(ScanAll(buffer, decode, resolve).error)
    ensures ScanAll(buffer, decode, resolve).Ok? ==>
              r == Assemble(ScanAll(buffer, decode, resolve).value.records, ScanAll(buffer, decode, resolve).value.id + 1, blacklist, "size")
    ensures r.Ok? ==> r.value == map[]
  {
    var scan := ScanShortcuts(buffer, decode, resolve);
    if scan.Err? {
      return Err(scan.error);
    }
    AssembleAsWrittenIsEmpty(scan.value.records, scan.value.id + 1, blacklist);
    r := AssembleApps(scan.value.records, scan.value.id + 1, blacklist, "size");
  }

  /** `get_non_steam_apps` with the assembly reading "size_on_disk", the key the
      scanner writes. */
  method GetNonSteamAppsCorrected(buffer: seq<byte>, decode: seq<byte> -> string, resolve: seq<byte> -> Option<(string, int)>, blacklist: seq<int>)
    returns (r: Result<map<int, NonSteamApp>, ShortcutError>)
    ensures ScanAll(buffer, decode, resolve).Err? ==> r == Err(ScanAll(buffer, decode, resolve).error)
    ensures ScanAll(buffer, decode, resolve).Ok? ==>
              r == Assemble(ScanAll(buffer, decode, resolve).value.records, ScanAll(buffer, decode, resolve).value.id + 1, blacklist, "size_on_disk")
  {
    var scan := ScanShortcuts(buffer, decode, resolve);
    if scan.Err? {
      return Err(scan.error);
    }
    r := AssembleApps(scan.value.records, scan.value.id + 1, blacklist, "size_on_disk");
  }
}
