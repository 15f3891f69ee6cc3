/** What each tag of the shortcuts scanner reads when the bytes at the cursor
    are laid out as the file format has them: the record marker
    `\x00<index>\x00`, the `appid` tag and four bytes, the `AppName` and `Exe`
    tags each with a NUL-terminated run, and the `LastPlayTime` tag and four
    bytes. Each lemma states the phase's result and where the cursor ends. */
module ShortcutsFormat {
  import opened Wrappers
  import opened Json
  import opened Shortcuts

  /** Four bytes, least significant first. */
  function LE4(v: nat): (r: seq<byte>)
    requires v < 0x1_0000_0000
    ensures |r| == 4
  {
    var q1 := v / 256;
    var q2 := q1 / 256;
    var q3 := q2 / 256;
    [(v % 256) as byte, (q1 % 256) as byte, (q2 % 256) as byte, q3 as byte]
  }

  /** Reading back the four bytes gives the value. */
  lemma LE4RoundTrip(v: nat)
    requires v < 0x1_0000_0000
    ensures LittleEndian(LE4(v)) == v
  {
    var q1 := v / 256;
    var q2 := q1 / 256;
    var q3 := q2 / 256;
    var r := LE4(v);
    assert LittleEndian(r[3..]) == q3 by {
      assert r[3..][1..] == [];
    }
    assert LittleEndian(r[2..]) == q2 by {
      assert r[2..][1..] == r[3..];
    }
    assert LittleEndian(r[1..]) == q1 by {
      assert r[1..][1..] == r[2..];
    }
  }

  /** The bytes from `c` on start with `x`: a match there, and `rest` after it. */
  lemma Take(b: seq<byte>, c: int, x: seq<byte>, rest: seq<byte>)
    requires 0 <= c <= |b| && b[c..] == x + rest
    ensures MatchAt(b, c, x)
    ensures b[c + |x|..] == rest
  {
    assert b[c..c + |x|] == b[c..][..|x|];
    assert b[c + |x|..] == b[c..][|x|..];
  }

  /** A NUL-free run followed by a NUL ends at that NUL. */
  lemma NulAfter(b: seq<byte>, c: int, x: seq<byte>, rest: seq<byte>)
    requires 0 <= c <= |b| && b[c..] == x + ([0] + rest) && 0 !in x
    ensures NulEnd(b, c) == c + |x|
    ensures b[c..c + |x|] == x
    ensures b[c + |x| + 1..] == rest
  {
    Take(b, c, x, [0] + rest);
    Take(b, c + |x|, [0], rest);
    forall j | c <= j < c + |x| ensures b[j] != 0 {
      assert b[j] == b[c..c + |x|][j - c];
    }
    assert b[c + |x|] == b[c + |x|..][0];
    NulEndUnique(b, c, c + |x|);
  }

  /** Four little-endian bytes at `c` read back as their value. */
  lemma ReadLE4(b: seq<byte>, c: int, v: nat, rest: seq<byte>)
    requires v < 0x1_0000_0000
    requires 0 <= c <= |b| && b[c..] == LE4(v) + rest
    ensures c + 4 <= |b| && ReadLE32(b, c) == v
    ensures b[c + 4..] == rest
  {
    Take(b, c, LE4(v), rest);
    LE4RoundTrip(v);
  }

  /** The record marker for the next index opens an empty record `i`. */
  lemma MarkerAt(b: seq<byte>, c: int, i: int, records: map<int, Record>, rest: seq<byte>)
    requires Good(Scan(c, i - 1, records)) && c <= |b| && b[c..] == Marker(i) + rest
    ensures MarkerPhase(b, Scan(c, i - 1, records)) == Scan(c + |Marker(i)|, i, records[i := map[]])
    ensures b[c + |Marker(i)|..] == rest
  {
    Take(b, c, Marker(i), rest);
  }

  lemma AppIdAt(b: seq<byte>, c: int, i: int, records: map<int, Record>, m: Record, v: nat, rest: seq<byte>)
    requires v < 0x1_0000_0000
    requires Good(Scan(c, i, records[i := m])) && i >= 0 && c <= |b| && b[c..] == APPID_TAG + (LE4(v) + rest)
    ensures AppIdPhase(b, Scan(c, i, records[i := m]))
            == Ok(Scan(c + |APPID_TAG| + 4, i, records[i := m["app_id" := Int(v * 0x1_0000_0000 + 0x0200_0000)]]))
    ensures b[c + |APPID_TAG| + 4..] == rest
  {
    Take(b, c, APPID_TAG, LE4(v) + rest);
    ReadLE4(b, c + |APPID_TAG|, v, rest);
    var value := Int(v * 0x1_0000_0000 + 0x0200_0000);
    assert records[i := m][i := m["app_id" := value]] == records[i := m["app_id" := value]];
  }

  lemma NameAt(b: seq<byte>, c: int, i: int, records: map<int, Record>, m: Record, name: seq<byte>, rest: seq<byte>,
               decode: seq<byte> -> string)
    requires 0 !in name
    requires Good(Scan(c, i, records[i := m])) && i >= 0 && c <= |b| && b[c..] == APPNAME_TAG + (name + ([0] + rest))
    ensures NamePhase(b, decode, Scan(c, i, records[i := m]))
            == Ok(Scan(c + |APPNAME_TAG| + |name| + 1, i, records[i := m["name" := Str(decode(name))]]))
    ensures b[c + |APPNAME_TAG| + |name| + 1..] == rest
  {
    Take(b, c, APPNAME_TAG, name + ([0] + rest));
    NulAfter(b, c + |APPNAME_TAG|, name, rest);
    var value := Str(decode(name));
    assert records[i := m][i := m["name" := value]] == records[i := m["name" := value]];
  }

  /** The record fields the `Exe` tag writes. */
  function ExeFields(m: Record, found: Option<(string, int)>): Record {
    m["exe" := (if found.Some? then Str(found.value.0) else Null)]
     ["size_on_disk" := (if found.Some? then Int(found.value.1) else Null)]
  }

  lemma ExeAt(b: seq<byte>, c: int, i: int, records: map<int, Record>, m: Record, exe: seq<byte>, rest: seq<byte>,
              resolve: seq<byte> -> Option<(string, int)>)
    requires 0 !in exe
    requires Good(Scan(c, i, records[i := m])) && i >= 0 && c <= |b| && b[c..] == EXE_TAG + (exe + ([0] + rest))
    ensures ExePhase(b, resolve, Scan(c, i, records[i := m]))
            == Ok(Scan(c + |EXE_TAG| + |exe| + 1, i, records[i := ExeFields(m, resolve(exe))]))
    ensures b[c + |EXE_TAG| + |exe| + 1..] == rest
  {
    var s := Scan(c, i, records[i := m]);
    Take(b, c, EXE_TAG, exe + ([0] + rest));
    var c1 := c + |EXE_TAG|;
    NulAfter(b, c1, exe, rest);
    var found := resolve(exe);
    var path := if found.Some? then Str(found.value.0) else Null;
    var size := if found.Some? then Int(found.value.1) else Null;
    var s1 := Store(s, c1 + |exe| + 1, "exe", path).value;
    assert s1.records == records[i := m][i := m["exe" := path]];
    assert ExePhase(b, resolve, s) == Store(s1, c1 + |exe| + 1, "size_on_disk", size);
    assert s1.records[i := s1.records[i]["size_on_disk" := size]] == records[i := ExeFields(m, found)];
  }

  lemma LastPlayTimeAt(b: seq<byte>, c: int, i: int, records: map<int, Record>, m: Record, t: nat, rest: seq<byte>)
    requires t < 0x1_0000_0000
    requires Good(Scan(c, i, records[i := m])) && i >= 0 && c <= |b| && b[c..] == LASTPLAYTIME_TAG + (LE4(t) + rest)
    ensures LastPlayTimePhase(b, Scan(c, i, records[i := m]))
            == Ok(Scan(c + |LASTPLAYTIME_TAG| + 4, i, records[i := m["launched" := if t == 0 then Null else Int(t)]]))
    ensures b[c + |LASTPLAYTIME_TAG| + 4..] == rest
  {
    Take(b, c, LASTPLAYTIME_TAG, LE4(t) + rest);
    ReadLE4(b, c + |LASTPLAYTIME_TAG|, t, rest);
    var value := if t == 0 then Null else Int(t);
    assert records[i := m][i := m["launched" := value]] == records[i := m["launched" := value]];
  }

}
