/** The order the query lists items in when there is no search:
    `to_sort_list()` turns an item into a list of sort values chosen by the
    `SORT_KEYS` preference, Python compares such lists lexicographically, and
    `sorted` arranges the items stably by them. */
module Sorting {
  import opened Wrappers
  import opened Text
  import opened Items
  import Dicts

  /** A sort value: an int, `float("inf")`, or a string. */
  datatype SortValue = Num(n: int) | Infinity | Label(s: string)

  /** What a missing string sorts as: two U+00FF characters. */
  const MISSING: string := ['\U{FF}', '\U{FF}']

  /** The keys tried when none of `SORT_KEYS` is recognised. */
  const DEFAULT_SORT_KEYS: seq<string> := ["last_launched", "total_playtime", "name"]

  /** The keys `to_sort_list` recognises. */
  datatype SortKey =
    | TypeKey | IdKey | NonSteamKey | NameKey | DisplayNameKey | DescriptionKey
    | LocationKey | SizeOnDiskKey | TotalPlaytimeKey | IconKey | LastLaunchedKey | TimesLaunchedKey

  /** The key a `SORT_KEYS` entry names, None for one not recognised. */
  function KeyNamed(name: string): Option<SortKey> {
    if name == "type" then Some(TypeKey)
    else if name == "id" then Some(IdKey)
    else if name == "non_steam" then Some(NonSteamKey)
    else if name == "name" then Some(NameKey)
    else if name == "display_name" then Some(DisplayNameKey)
    else if name == "description" then Some(DescriptionKey)
    else if name == "location" then Some(LocationKey)
    else if name == "size_on_disk" then Some(SizeOnDiskKey)
    else if name == "total_playtime" then Some(TotalPlaytimeKey)
    else if name == "icon" then Some(IconKey)
    else if name == "last_launched" then Some(LastLaunchedKey)
    else if name == "times_launched" then Some(TimesLaunchedKey)
    else None
  }

  /** A string sort value: lower-cased, or `MISSING` when absent. */
  function TextValue(s: Option<string>): SortValue {
    if s.Some? then Label(Lower(s.value)) else Label(MISSING)
  }

  /** The name of a key in `SORT_KEYS`, which is also the attribute it reads. */
  function KeyName(key: SortKey): (r: string)
    ensures KeyNamed(r) == Some(key)
  {
    match key
    case TypeKey => "type"
    case IdKey => "id"
    case NonSteamKey => "non_steam"
    case NameKey => "name"
    case DisplayNameKey => "display_name"
    case DescriptionKey => "description"
    case LocationKey => "location"
    case SizeOnDiskKey => "size_on_disk"
    case TotalPlaytimeKey => "total_playtime"
    case IconKey => "icon"
    case LastLaunchedKey => "last_launched"
    case TimesLaunchedKey => "times_launched"
  }

  /** A key whose attribute has the wrong type: `.lower()` of a location that
      is not a string, or `-x` of a size, playtime or count that is not a
      number, raises. */
  predicate Raises(item: Item, key: SortKey) {
    match key
    case LocationKey => !IsText(item.location)
    case SizeOnDiskKey => Number(item.sizeOnDisk).None?
    case TotalPlaytimeKey => Number(item.totalPlaytime).None?
    case TimesLaunchedKey => Number(item.timesLaunched).None?
    case _ => false
  }

  /** The value a key gives: numbers that should sort high are negated so that
      they come first. Where `Raises` holds there is no value; the one written
      here is never compared, since the sort raises first. */
  function Value(item: Item, key: SortKey): SortValue {
    match key
    case TypeKey => Num(match item.kind case App => 0 case Nav => 1 case Action => 2)
    case IdKey => if item.id.Some? then Num(item.id.value) else Infinity
    case NonSteamKey => Num(if item.nonSteam then 0 else 1)
    case NameKey => TextValue(item.name)
    case DisplayNameKey => TextValue(item.displayName)
    case DescriptionKey => TextValue(item.description)
    case LocationKey => TextValue(if item.location.Str? then Some(item.location.s) else None)
    case SizeOnDiskKey => Num(-Number(item.sizeOnDisk).GetOr(0))
    case TotalPlaytimeKey => Num(-Number(item.totalPlaytime).GetOr(0))
    case IconKey => TextValue(Some(item.icon))
    case LastLaunchedKey => Num(if item.lastLaunched.Some? then -item.lastLaunched.value else 0)
    case TimesLaunchedKey => Num(-Number(item.timesLaunched).GetOr(0))
  }

  /** One pass of the `for` loop over the keys: the values of the recognised
      keys, in key order. */
  function SortValues(item: Item, keys: seq<string>): seq<SortValue> {
    if keys == [] then []
    else
      var front := SortValues(item, keys[..|keys| - 1]);
      match KeyNamed(keys[|keys| - 1])
      case Some(k) => front + [Value(item, k)]
      case None => front
  }

  /** The keys of `SORT_KEYS`: split on commas and stripped. */
  function SortKeys(sortKeys: string): seq<string> {
    Dicts.Map(Strip, Split(sortKeys, ','))
  }

  /** `to_sort_list()`: the values of the recognised keys, or those of the
      default keys when none is recognised. */
  function SortList(item: Item, keys: seq<string>): (r: seq<SortValue>)
    ensures |r| >= 1
  {
    var values := SortValues(item, keys);
    if values != [] then values
    else
      DefaultSortValues(item);
      SortValues(item, DEFAULT_SORT_KEYS)
  }

  lemma DefaultKeysNamed()
    ensures KeyNamed("last_launched") == Some(LastLaunchedKey)
    ensures KeyNamed("total_playtime") == Some(TotalPlaytimeKey)
    ensures KeyNamed("name") == Some(NameKey)
  {
  }

  /** The values of a list of keys that are all recognised. */
  lemma SortValuesOne(item: Item, keys: seq<string>, name: string, key: SortKey)
    requires keys != [] && keys[|keys| - 1] == name && KeyNamed(name) == Some(key)
    ensures SortValues(item, keys) == SortValues(item, keys[..|keys| - 1]) + [Value(item, key)]
  {
  }

  /** The default keys give three values: the last launch, the playtime and
      the name. */
  lemma DefaultSortValues(item: Item)
    ensures SortValues(item, DEFAULT_SORT_KEYS) ==
              [Value(item, LastLaunchedKey), Value(item, TotalPlaytimeKey), Value(item, NameKey)]
  {
    var d := DEFAULT_SORT_KEYS;
    DefaultKeysNamed();
    assert d[..2] == ["last_launched", "total_playtime"];
    assert d[..2][..1] == ["last_launched"];
    assert d[..2][..1][..0] == [];
    SortValuesOne(item, d[..2][..1], "last_launched", LastLaunchedKey);
    SortValuesOne(item, d[..2], "total_playtime", TotalPlaytimeKey);
    SortValuesOne(item, d, "name", NameKey);
  }

  /** With no recognised key, the list falls back to the most recent launch
      first, then the longest playtime, then the name; it raises exactly when
      the playtime is not a number. */
  lemma SortListFallback(item: Item, keys: seq<string>)
    requires forall k :: 0 <= k < |keys| ==> KeyNamed(keys[k]).None?
    ensures SortList(item, keys) ==
              [Num(if item.lastLaunched.Some? then -item.lastLaunched.value else 0),
               Value(item, TotalPlaytimeKey), TextValue(item.name)]
    ensures SortFault(item, keys) == if Number(item.totalPlaytime).None? then Some(TotalPlaytimeKey) else None
  {
    Unrecognised(item, keys);
    DefaultSortValues(item);
    UnrecognisedNoFault(item, keys);
    DefaultFault(item);
  }

  /** Keys that are not recognised raise nothing. */
  lemma {:induction false} UnrecognisedNoFault(item: Item, keys: seq<string>)
    requires forall k :: 0 <= k < |keys| ==> KeyNamed(keys[k]).None?
    ensures PassFault(item, keys).None?
  {
    if keys != [] {
      UnrecognisedNoFault(item, keys[..|keys| - 1]);
    }
  }

  /** The default keys raise only on the playtime. */
  lemma DefaultFault(item: Item)
    ensures PassFault(item, DEFAULT_SORT_KEYS) == if Number(item.totalPlaytime).None? then Some(TotalPlaytimeKey) else None
  {
    var d := DEFAULT_SORT_KEYS;
    DefaultKeysNamed();
    assert d[..2] == ["last_launched", "total_playtime"];
    assert d[..2][..1] == ["last_launched"];
    assert d[..2][..1][..0] == [];
    assert PassFault(item, d[..2][..1]).None?;
  }

  /** Keys that are not recognised contribute nothing. */
  lemma {:induction false} Unrecognised(item: Item, keys: seq<string>)
    requires forall k :: 0 <= k < |keys| ==> KeyNamed(keys[k]).None?
    ensures SortValues(item, keys) == []
  {
    if keys != [] {
      Unrecognised(item, keys[..|keys| - 1]);
    }
  }

  /** The recognised keys of a list, in order. */
  function Recognised(keys: seq<string>): (r: seq<SortKey>)
    ensures |r| <= |keys|
  {
    if keys == [] then []
    else match KeyNamed(keys[|keys| - 1])
      case Some(k) => Recognised(keys[..|keys| - 1]) + [k]
      case None => Recognised(keys[..|keys| - 1])
  }

  /** Unrecognised keys are skipped: each recognised key gives its value, in
      order. */
  lemma {:induction false} SortValuesSkip(item: Item, keys: seq<string>)
    ensures |SortValues(item, keys)| == |Recognised(keys)|
    ensures forall k :: 0 <= k < |Recognised(keys)| ==> SortValues(item, keys)[k] == Value(item, Recognised(keys)[k])
  {
    if keys != [] {
      SortValuesSkip(item, keys[..|keys| - 1]);
    }
  }

  /** The first recognised key of one pass whose value raises. */
  function PassFault(item: Item, keys: seq<string>): Option<SortKey> {
    if keys == [] then None
    else match PassFault(item, keys[..|keys| - 1])
      case Some(k) => Some(k)
      case None =>
        match KeyNamed(keys[|keys| - 1])
        case Some(k) => if Raises(item, k) then Some(k) else None
        case None => None
  }

  /** A pass raises exactly when one of its recognised keys does, and then on
      the first such key. */
  lemma {:induction false} PassFaultFirst(item: Item, keys: seq<string>)
    ensures PassFault(item, keys).None? <==> forall k :: 0 <= k < |Recognised(keys)| ==> !Raises(item, Recognised(keys)[k])
    ensures PassFault(item, keys).Some? ==>
              exists j :: 0 <= j < |Recognised(keys)| && Recognised(keys)[j] == PassFault(item, keys).value &&
                Raises(item, Recognised(keys)[j]) &&
                forall k :: 0 <= k < j ==> !Raises(item, Recognised(keys)[k])
  {
    if keys != [] {
      var front := keys[..|keys| - 1];
      PassFaultFirst(item, front);
      match KeyNamed(keys[|keys| - 1])
      case None =>
        assert Recognised(keys) == Recognised(front);
        assert PassFault(item, keys) == PassFault(item, front);
        if PassFault(item, front).Some? {
          var j :| 0 <= j < |Recognised(front)| && Recognised(front)[j] == PassFault(item, front).value && Raises(item, Recognised(front)[j]) &&
                   forall k :: 0 <= k < j ==> !Raises(item, Recognised(front)[k]);
          assert Recognised(keys)[j] == PassFault(item, keys).value && Raises(item, Recognised(keys)[j]);
        } else {
          assert PassFault(item, front).None?;
          assert forall k :: 0 <= k < |Recognised(front)| ==> !Raises(item, Recognised(front)[k]);
        }
      case Some(last) =>
        assert Recognised(keys) == Recognised(front) + [last];
        assert forall k :: 0 <= k < |Recognised(front)| ==> Recognised(keys)[k] == Recognised(front)[k];
        if PassFault(item, front).Some? {
          var j :| 0 <= j < |Recognised(front)| && Recognised(front)[j] == PassFault(item, front).value && Raises(item, Recognised(front)[j]) &&
                   forall k :: 0 <= k < j ==> !Raises(item, Recognised(front)[k]);
          assert PassFault(item, keys) == PassFault(item, front);
          assert Recognised(keys)[j] == Recognised(front)[j] && Raises(item, Recognised(keys)[j]);
        } else {
          assert forall k :: 0 <= k < |Recognised(front)| ==> !Raises(item, Recognised(front)[k]);
          forall k | 0 <= k < |Recognised(front)| ensures !Raises(item, Recognised(keys)[k]) {
            assert Recognised(keys)[k] == Recognised(front)[k];
          }
          if Raises(item, last) {
            assert PassFault(item, keys) == Some(last);
            assert Recognised(keys)[|Recognised(front)|] == last;
            assert 0 <= |Recognised(front)| < |Recognised(keys)| && Recognised(keys)[|Recognised(front)|] == PassFault(item, keys).value && Raises(item, Recognised(keys)[|Recognised(front)|]) &&
                   forall k :: 0 <= k < |Recognised(front)| ==> !Raises(item, Recognised(keys)[k]);
          } else {
            assert PassFault(item, keys).None?;
            assert forall k :: 0 <= k < |Recognised(keys)| ==> k < |Recognised(front)| || Recognised(keys)[k] == last;
          }
        }
    }
  }

  /** A pass that raises within a prefix of the keys raises there. */
  lemma {:induction false} PassFaultStops(item: Item, keys: seq<string>, i: int)
    requires 0 <= i <= |keys| && PassFault(item, keys[..i]).Some?
    ensures PassFault(item, keys) == PassFault(item, keys[..i])
    decreases |keys| - i
  {
    if i == |keys| {
      assert keys[..i] == keys;
    } else {
      var front := keys[..|keys| - 1];
      assert front[..i] == keys[..i];
      PassFaultStops(item, front, i);
    }
  }

  /** Where `to_sort_list()` raises: in the pass over the given keys, or, when
      that pass recognises none of them, in the pass over the default keys. */
  function SortFault(item: Item, keys: seq<string>): Option<SortKey> {
    var fault := PassFault(item, keys);
    if fault.Some? || SortValues(item, keys) != [] then fault else PassFault(item, DEFAULT_SORT_KEYS)
  }

  /** One pass as it runs: its values, or the exception of its first key that
      raises. */
  function Pass(item: Item, keys: seq<string>): Result<seq<SortValue>, QueryError> {
    match PassFault(item, keys)
    case Some(k) => Err(InvalidValue(KeyName(k)))
    case None => Ok(SortValues(item, keys))
  }

  /** `to_sort_list()` as it runs: the sort list, or the exception. */
  function SortListOf(item: Item, keys: seq<string>): (r: Result<seq<SortValue>, QueryError>)
    ensures r.Ok? <==> SortFault(item, keys).None?
    ensures r.Ok? ==> r.value == SortList(item, keys)
    ensures r.Err? ==> r.error == InvalidValue(KeyName(SortFault(item, keys).value))
  {
    match SortFault(item, keys)
    case Some(k) => Err(InvalidValue(KeyName(k)))
    case None =>
      assert PassFault(item, keys).None?;
      Ok(SortList(item, keys))
  }

  /** The list never raises when no key `SORT_KEYS` names can: keys that
      are not chosen are never read. */
  lemma ChosenKeysOnly(item: Item, keys: seq<string>)
    requires Recognised(keys) != []
    requires forall k :: 0 <= k < |Recognised(keys)| ==> !Raises(item, Recognised(keys)[k])
    ensures SortListOf(item, keys) == Ok(SortValues(item, keys))
  {
    PassFaultFirst(item, keys);
    SortValuesSkip(item, keys);
  }

  /** One `for` pass over the keys. */
  method SortPass(item: Item, keys: seq<string>) returns (r: Result<seq<SortValue>, QueryError>)
    ensures r == Pass(item, keys)
  {
    var list := [];
    for i := 0 to |keys|
      invariant PassFault(item, keys[..i]).None?
      invariant list == SortValues(item, keys[..i])
    {
      assert keys[..i + 1][..i] == keys[..i];
      var key := KeyNamed(keys[i]);
      if key.Some? {
        if Raises(item, key.value) {
          PassFaultStops(item, keys, i + 1);
          return Err(InvalidValue(KeyName(key.value)));
        }
        list := list + [Value(item, key.value)];
      }
    }
    assert keys[..|keys|] == keys;
    return Ok(list);
  }

  /** `to_sort_list()` itself: the pass inside a `while` that retries with the
      default keys when the pass found nothing. */
  method ToSortList(item: Item, sortKeys: string) returns (r: Result<seq<SortValue>, QueryError>)
    ensures r == SortListOf(item, SortKeys(sortKeys))
  {
    ghost var given := SortKeys(sortKeys);
    var keys := SortKeys(sortKeys);
    var list := [];
    while list == []
      invariant keys == given || (keys == DEFAULT_SORT_KEYS && SortValues(item, given) == [] && PassFault(item, given).None?)
      invariant list != [] ==> SortListOf(item, given) == Ok(list)
      decreases if list != [] then 0 else if keys == DEFAULT_SORT_KEYS then 1 else 2
    {
      var pass := SortPass(item, keys);
      if keys == given {
        FirstPass(item, given);
      } else {
        RetryPass(item, given);
      }
      if pass.Err? {
        return pass;
      }
      list := pass.value;
      if list == [] {
        keys := DEFAULT_SORT_KEYS;
      }
    }
    return Ok(list);
  }

  /** The pass over the given keys decides the list unless it finds nothing. */
  lemma FirstPass(item: Item, keys: seq<string>)
    ensures Pass(item, keys).Err? ==> SortListOf(item, keys) == Pass(item, keys)
    ensures Pass(item, keys).Ok? ==> PassFault(item, keys).None? && Pass(item, keys).value == SortValues(item, keys)
    ensures Pass(item, keys).Ok? && Pass(item, keys).value != [] ==> SortListOf(item, keys) == Pass(item, keys)
  {
  }

  /** When it finds nothing, the pass over the default keys decides it, and
      finds something. */
  lemma RetryPass(item: Item, keys: seq<string>)
    requires SortValues(item, keys) == [] && PassFault(item, keys).None?
    ensures SortListOf(item, keys) == Pass(item, DEFAULT_SORT_KEYS)
    ensures Pass(item, DEFAULT_SORT_KEYS).Ok? ==> Pass(item, DEFAULT_SORT_KEYS).value != []
  {
    DefaultSortValues(item);
  }

  // Python's `<` on strings, sort values and lists of sort values.

  /** Strings compare by code point, a proper prefix first. */
  predicate StrLess(a: string, b: string) {
    if a == [] then b != []
    else b != [] && (a[0] < b[0] || (a[0] == b[0] && StrLess(a[1..], b[1..])))
  }

  /** Ints by value, below `inf`; strings among themselves. An int or `inf`
      never meets a string at the same position, since every item gives the
      same kind of value for a key; they are ordered first here. */
  predicate ValueLess(a: SortValue, b: SortValue) {
    match a
    case Num(x) => (b.Num? && x < b.n) || !b.Num?
    case Infinity => b.Label?
    case Label(x) => b.Label? && StrLess(x, b.s)
  }

  /** Lists compare at their first difference, a proper prefix first. */
  predicate KeyLess(a: seq<SortValue>, b: seq<SortValue>) {
    if a == [] then b != []
    else b != [] && (ValueLess(a[0], b[0]) || (a[0] == b[0] && KeyLess(a[1..], b[1..])))
  }

  lemma {:induction false} StrLessIrreflexive(a: string)
    ensures !StrLess(a, a)
  {
    if a != [] {
      StrLessIrreflexive(a[1..]);
    }
  }

  lemma {:induction false} StrLessTransitive(a: string, b: string, c: string)
    requires StrLess(a, b) && StrLess(b, c)
    ensures StrLess(a, c)
  {
    if a != [] && a[0] == b[0] && b[0] == c[0] {
      StrLessTransitive(a[1..], b[1..], c[1..]);
    }
  }

  lemma {:induction false} StrLessTotal(a: string, b: string)
    ensures a == b || StrLess(a, b) || StrLess(b, a)
  {
    if a != [] && b != [] && a[0] == b[0] {
      StrLessTotal(a[1..], b[1..]);
      if a[1..] == b[1..] {
        assert a == [a[0]] + a[1..] && b == [b[0]] + b[1..];
      }
    }
  }

  lemma ValueLessIrreflexive(a: SortValue)
    ensures !ValueLess(a, a)
  {
    if a.Label? {
      StrLessIrreflexive(a.s);
    }
  }

  lemma ValueLessTransitive(a: SortValue, b: SortValue, c: SortValue)
    requires ValueLess(a, b) && ValueLess(b, c)
    ensures ValueLess(a, c)
  {
    if a.Label? {
      StrLessTransitive(a.s, b.s, c.s);
    }
  }

  lemma ValueLessTotal(a: SortValue, b: SortValue)
    ensures a == b || ValueLess(a, b) || ValueLess(b, a)
  {
    if a.Label? && b.Label? {
      StrLessTotal(a.s, b.s);
    }
  }

  /** No sort list is below itself. */
  lemma {:induction false} KeyLessIrreflexive(a: seq<SortValue>)
    ensures !KeyLess(a, a)
  {
    if a != [] {
      ValueLessIrreflexive(a[0]);
      KeyLessIrreflexive(a[1..]);
    }
  }

  /** The list order is transitive. */
  lemma {:induction false} KeyLessTransitive(a: seq<SortValue>, b: seq<SortValue>, c: seq<SortValue>)
    requires KeyLess(a, b) && KeyLess(b, c)
    ensures KeyLess(a, c)
  {
    if a != [] {
      if ValueLess(a[0], b[0]) && ValueLess(b[0], c[0]) {
        ValueLessTransitive(a[0], b[0], c[0]);
      } else if a[0] == b[0] && b[0] == c[0] {
        KeyLessTransitive(a[1..], b[1..], c[1..]);
      }
    }
  }

  /** Two different lists are always ordered one way or the other. */
  lemma {:induction false} KeyLessTotal(a: seq<SortValue>, b: seq<SortValue>)
    ensures a == b || KeyLess(a, b) || KeyLess(b, a)
  {
    if a != [] && b != [] {
      ValueLessTotal(a[0], b[0]);
      if a[0] == b[0] {
        KeyLessTotal(a[1..], b[1..]);
        if a[1..] == b[1..] {
          assert a == [a[0]] + a[1..] && b == [b[0]] + b[1..];
        }
      }
    }
  }

  lemma {:induction false} StrLessAsymmetric(a: string, b: string)
    requires StrLess(a, b)
    ensures !StrLess(b, a)
  {
    if a != [] && a[0] == b[0] {
      StrLessAsymmetric(a[1..], b[1..]);
    }
  }

  lemma ValueLessAsymmetric(a: SortValue, b: SortValue)
    requires ValueLess(a, b)
    ensures !ValueLess(b, a)
  {
    if a.Label? {
      StrLessAsymmetric(a.s, b.s);
    }
  }

  /** A list below another is not above it. */
  lemma {:induction false} KeyLessAsymmetric(a: seq<SortValue>, b: seq<SortValue>)
    requires KeyLess(a, b)
    ensures !KeyLess(b, a)
  {
    if a != [] {
      if a[0] == b[0] {
        ValueLessIrreflexive(a[0]);
        KeyLessAsymmetric(a[1..], b[1..]);
      } else {
        ValueLessAsymmetric(a[0], b[0]);
      }
    }
  }

  /** "Not above" is transitive. */
  lemma NotAboveTransitive(a: seq<SortValue>, b: seq<SortValue>, c: seq<SortValue>)
    requires !KeyLess(b, a) && !KeyLess(c, b)
    ensures !KeyLess(c, a)
  {
    KeyLessTotal(a, b);
    KeyLessTotal(b, c);
    if a != b && b != c {
      KeyLessTransitive(a, b, c);
      KeyLessAsymmetric(a, c);
    }
  }

  // `sorted(items, key=lambda x: x.to_sort_list())`: a stable sort.

  function Key(item: Item, keys: seq<string>): seq<SortValue> {
    SortList(item, keys)
  }

  /** `s` with `x` inserted after every element whose key is not above `x`'s. */
  function Insert(s: seq<Item>, x: Item, keys: seq<string>): seq<Item> {
    if s == [] then [x]
    else if KeyLess(Key(x, keys), Key(s[|s| - 1], keys)) then Insert(s[..|s| - 1], x, keys) + [s[|s| - 1]]
    else s + [x]
  }

  /** Insertion sort, element by element, in input order. */
  function Sorted(items: seq<Item>, keys: seq<string>): (r: seq<Item>)
    ensures |r| == |items|
  {
    if items == [] then []
    else
      var front := Sorted(items[..|items| - 1], keys);
      InsertPermutes(front, items[|items| - 1], keys);
      assert |multiset(Insert(front, items[|items| - 1], keys))| == |multiset(front)| + 1;
      Insert(front, items[|items| - 1], keys)
  }

  /** No later item has a key below an earlier one's. */
  predicate Ordered(s: seq<Item>, keys: seq<string>) {
    forall i, j :: 0 <= i < j < |s| ==> !KeyLess(Key(s[j], keys), Key(s[i], keys))
  }

  lemma {:induction false} InsertPermutes(s: seq<Item>, x: Item, keys: seq<string>)
    ensures multiset(Insert(s, x, keys)) == multiset(s) + multiset{x}
  {
    if s != [] && KeyLess(Key(x, keys), Key(s[|s| - 1], keys)) {
      var n := |s|;
      InsertPermutes(s[..n - 1], x, keys);
      assert s == s[..n - 1] + [s[n - 1]];
    }
  }

  /** Every element of an insertion is the new one or an old one. */
  lemma InsertFrom(s: seq<Item>, x: Item, keys: seq<string>, i: int)
    requires 0 <= i < |Insert(s, x, keys)|
    ensures Insert(s, x, keys)[i] == x || exists k :: 0 <= k < |s| && s[k] == Insert(s, x, keys)[i]
  {
    var t := Insert(s, x, keys);
    InsertPermutes(s, x, keys);
    assert t[i] in multiset(t);
    if t[i] != x {
      assert t[i] in multiset(s);
    }
  }

  /** Inserting before the last element keeps the last element on top. */
  lemma InsertOrderedBefore(s: seq<Item>, x: Item, keys: seq<string>)
    requires s != [] && Ordered(s, keys)
    requires KeyLess(Key(x, keys), Key(s[|s| - 1], keys))
    requires Ordered(Insert(s[..|s| - 1], x, keys), keys)
    ensures Ordered(Insert(s, x, keys), keys)
  {
    var n := |s|;
    var last := s[n - 1];
    var front := s[..n - 1];
    var t := Insert(front, x, keys);
    forall i | 0 <= i < |t| ensures !KeyLess(Key(last, keys), Key(t[i], keys)) {
      InsertFrom(front, x, keys, i);
      if t[i] == x {
        KeyLessAsymmetric(Key(x, keys), Key(last, keys));
      } else {
        var k :| 0 <= k < n - 1 && front[k] == t[i];
        assert s[k] == t[i];
      }
    }
    var r := t + [last];
    assert Insert(s, x, keys) == r;
    forall i, j | 0 <= i < j < |r| ensures !KeyLess(Key(r[j], keys), Key(r[i], keys)) {
      if j < |t| {
        assert r[i] == t[i] && r[j] == t[j];
      } else {
        assert r[i] == t[i];
      }
    }
  }

  /** Appending an element not below the last keeps the order. */
  lemma InsertOrderedAfter(s: seq<Item>, x: Item, keys: seq<string>)
    requires s != [] && Ordered(s, keys)
    requires !KeyLess(Key(x, keys), Key(s[|s| - 1], keys))
    ensures Ordered(Insert(s, x, keys), keys)
  {
    var n := |s|;
    var r := s + [x];
    forall i, j | 0 <= i < j < |r| ensures !KeyLess(Key(r[j], keys), Key(r[i], keys)) {
      if j == n && i < n - 1 {
        NotAboveTransitive(Key(s[i], keys), Key(s[n - 1], keys), Key(x, keys));
      }
    }
  }

  lemma {:induction false} InsertOrdered(s: seq<Item>, x: Item, keys: seq<string>)
    requires Ordered(s, keys)
    ensures Ordered(Insert(s, x, keys), keys)
  {
    if s != [] {
      if KeyLess(Key(x, keys), Key(s[|s| - 1], keys)) {
        InsertOrdered(s[..|s| - 1], x, keys);
        InsertOrderedBefore(s, x, keys);
      } else {
        InsertOrderedAfter(s, x, keys);
      }
    }
  }

  /** The sort gives the items back, each as often as before. */
  lemma {:induction false} SortedPermutes(items: seq<Item>, keys: seq<string>)
    ensures multiset(Sorted(items, keys)) == multiset(items)
  {
    if items != [] {
      var n := |items|;
      SortedPermutes(items[..n - 1], keys);
      InsertPermutes(Sorted(items[..n - 1], keys), items[n - 1], keys);
      assert items == items[..n - 1] + [items[n - 1]];
    }
  }

  /** The sort puts the items in key order. */
  lemma {:induction false} SortedOrdered(items: seq<Item>, keys: seq<string>)
    ensures Ordered(Sorted(items, keys), keys)
  {
    if items != [] {
      var n := |items|;
      SortedOrdered(items[..n - 1], keys);
      InsertOrdered(Sorted(items[..n - 1], keys), items[n - 1], keys);
    }
  }

  /** The items of `s` whose sort list is `k`, in their order in `s`. */
  function Tied(s: seq<Item>, k: seq<SortValue>, keys: seq<string>): (r: seq<Item>)
    ensures |r| <= |s|
  {
    if s == [] then []
    else Tied(s[..|s| - 1], k, keys) + (if Key(s[|s| - 1], keys) == k then [s[|s| - 1]] else [])
  }

  lemma TiedAppend(s: seq<Item>, y: Item, k: seq<SortValue>, keys: seq<string>)
    ensures Tied(s + [y], k, keys) == Tied(s, k, keys) + (if Key(y, keys) == k then [y] else [])
  {
    assert (s + [y])[..|s|] == s;
  }

  /** Insertion passes `x` only over items whose key is above its own, so
      among items with one key `x` lands after all of them. */
  lemma {:induction false} InsertTied(s: seq<Item>, x: Item, k: seq<SortValue>, keys: seq<string>)
    ensures Tied(Insert(s, x, keys), k, keys) == Tied(s, k, keys) + (if Key(x, keys) == k then [x] else [])
  {
    if s == [] {
      TiedAppend([], x, k, keys);
    } else if KeyLess(Key(x, keys), Key(s[|s| - 1], keys)) {
      var n := |s|;
      var front, last := s[..n - 1], s[n - 1];
      var mid := Insert(front, x, keys);
      assert Insert(s, x, keys) == mid + [last];
      InsertTied(front, x, k, keys);
      TiedAppend(mid, last, k, keys);
      assert Tied(s, k, keys) == Tied(front, k, keys) + (if Key(last, keys) == k then [last] else []);
      if Key(x, keys) == k {
        KeyLessIrreflexive(k);
        assert Key(last, keys) != k;
      }
    } else {
      assert Insert(s, x, keys) == s + [x];
      TiedAppend(s, x, k, keys);
    }
  }

  /** `sorted` is stable: the items with any one sort list come out in the
      order they went in. */
  lemma {:induction false} SortedStable(items: seq<Item>, k: seq<SortValue>, keys: seq<string>)
    ensures Tied(Sorted(items, keys), k, keys) == Tied(items, k, keys)
  {
    if items != [] {
      var n := |items|;
      SortedStable(items[..n - 1], k, keys);
      InsertTied(Sorted(items[..n - 1], keys), items[n - 1], k, keys);
    }
  }

  /** Stability for two positions: of two input items with the same sort
      list, the earlier one is output first. */
  lemma SortedKeepsTiedOrder(items: seq<Item>, keys: seq<string>, i: int, j: int)
    requires 0 <= i < j < |items| && Key(items[i], keys) == Key(items[j], keys)
    ensures exists p, q :: 0 <= p < q < |Tied(Sorted(items, keys), Key(items[i], keys), keys)| &&
              Tied(Sorted(items, keys), Key(items[i], keys), keys)[p] == items[i] &&
              Tied(Sorted(items, keys), Key(items[i], keys), keys)[q] == items[j]
  {
    var k := Key(items[i], keys);
    SortedStable(items, k, keys);
    TiedPositions(items, k, keys, i, j);
  }

  /** Two tied input positions keep their order in the tied subsequence. */
  lemma {:induction false} TiedPositions(s: seq<Item>, k: seq<SortValue>, keys: seq<string>, i: int, j: int)
    requires 0 <= i < j < |s| && Key(s[i], keys) == k && Key(s[j], keys) == k
    ensures exists p, q :: 0 <= p < q < |Tied(s, k, keys)| && Tied(s, k, keys)[p] == s[i] && Tied(s, k, keys)[q] == s[j]
    decreases |s|
  {
    var n := |s|;
    var front := s[..n - 1];
    if j == n - 1 {
      TiedHas(front, k, keys, i);
      var p :| 0 <= p < |Tied(front, k, keys)| && Tied(front, k, keys)[p] == s[i];
      assert Tied(s, k, keys) == Tied(front, k, keys) + [s[j]];
      assert Tied(s, k, keys)[p] == s[i] && Tied(s, k, keys)[|Tied(front, k, keys)|] == s[j];
    } else {
      TiedPositions(front, k, keys, i, j);
      var p, q :| 0 <= p < q < |Tied(front, k, keys)| && Tied(front, k, keys)[p] == s[i] && Tied(front, k, keys)[q] == s[j];
      assert Tied(s, k, keys)[p] == s[i] && Tied(s, k, keys)[q] == s[j];
    }
  }

  /** A tied input item is in the tied subsequence. */
  lemma {:induction false} TiedHas(s: seq<Item>, k: seq<SortValue>, keys: seq<string>, i: int)
    requires 0 <= i < |s| && Key(s[i], keys) == k
    ensures exists p :: 0 <= p < |Tied(s, k, keys)| && Tied(s, k, keys)[p] == s[i]
    decreases |s|
  {
    var n := |s|;
    if i == n - 1 {
      assert Tied(s, k, keys)[|Tied(s[..n - 1], k, keys)|] == s[i];
    } else {
      TiedHas(s[..n - 1], k, keys, i);
      var p :| 0 <= p < |Tied(s[..n - 1], k, keys)| && Tied(s[..n - 1], k, keys)[p] == s[i];
      assert Tied(s, k, keys)[p] == s[i];
    }
  }

  /** Inserting one item: walk back from the end past every item whose key is
      above the new one's. */
  /** Moving the gap one place left past a larger item. */
  lemma InsertShift(s: seq<Item>, x: Item, keys: seq<string>, j: int)
    requires 0 < j <= |s| && KeyLess(Key(x, keys), Key(s[j - 1], keys))
    ensures Insert(s[..j], x, keys) + s[j..] == Insert(s[..j - 1], x, keys) + s[j - 1..]
  {
    assert s[..j][..j - 1] == s[..j - 1];
    assert [s[j - 1]] + s[j..] == s[j - 1..];
  }

  /** The gap stops at the start or after an item not larger than `x`. */
  lemma InsertLands(s: seq<Item>, x: Item, keys: seq<string>, j: int)
    requires 0 <= j <= |s| && (j == 0 || !KeyLess(Key(x, keys), Key(s[j - 1], keys)))
    ensures Insert(s[..j], x, keys) == s[..j] + [x]
  {
    if j > 0 {
      assert s[..j][..j - 1] == s[..j - 1];
    }
  }

  /** The comparison `sorted` makes between two keys. */
  method Before(a: Item, b: Item, keys: seq<string>) returns (r: bool)
    ensures r == KeyLess(Key(a, keys), Key(b, keys))
  {
    r := KeyLess(Key(a, keys), Key(b, keys));
  }

  method InsertItem(s: seq<Item>, x: Item, keys: seq<string>) returns (r: seq<Item>)
    ensures r == Insert(s, x, keys)
  {
    var j := |s|;
    assert s[..j] == s && s[j..] == [];
    while j > 0
      invariant 0 <= j <= |s|
      invariant Insert(s, x, keys) == Insert(s[..j], x, keys) + s[j..]
    {
      var less := Before(x, s[j - 1], keys);
      if !less {
        break;
      }
      InsertShift(s, x, keys, j);
      j := j - 1;
    }
    InsertLands(s, x, keys, j);
    r := s[..j] + [x] + s[j..];
  }

  /** The sort as a loop over the items. */
  method SortItems(items: seq<Item>, keys: seq<string>) returns (r: seq<Item>)
    ensures r == Sorted(items, keys)
  {
    r := [];
    for i := 0 to |items|
      invariant r == Sorted(items[..i], keys)
    {
      assert items[..i + 1][..i] == items[..i];
      r := InsertItem(r, items[i], keys);
    }
    assert items[..|items|] == items;
  }

  /** The first item whose sort list raises, if any: `sorted` computes every
      item's key, in order, before it compares any. */
  function ListsFault(items: seq<Item>, keys: seq<string>): Option<QueryError> {
    if items == [] then None
    else match ListsFault(items[..|items| - 1], keys)
      case Some(e) => Some(e)
      case None =>
        var last := SortListOf(items[|items| - 1], keys);
        if last.Err? then Some(last.error) else None
  }

  /** `sorted(items, key=lambda x: x.to_sort_list())` as it runs. */
  function SortedBy(items: seq<Item>, keys: seq<string>): (r: Result<seq<Item>, QueryError>)
    ensures r.Ok? ==> r.value == Sorted(items, keys)
  {
    match ListsFault(items, keys)
    case Some(e) => Err(e)
    case None => Ok(Sorted(items, keys))
  }

  /** The sort raises exactly when some item's sort list does, and then with
      the exception of the first such item. */
  lemma {:induction false} ListsFaultFirst(items: seq<Item>, keys: seq<string>)
    ensures ListsFault(items, keys).None? <==> forall k :: 0 <= k < |items| ==> SortListOf(items[k], keys).Ok?
    ensures ListsFault(items, keys).Some? ==>
              exists j :: 0 <= j < |items| && SortListOf(items[j], keys) == Err(ListsFault(items, keys).value) &&
                forall k :: 0 <= k < j ==> SortListOf(items[k], keys).Ok?
  {
    if items != [] {
      var front := items[..|items| - 1];
      ListsFaultFirst(front, keys);
      assert forall k :: 0 <= k < |front| ==> front[k] == items[k];
      if ListsFault(front, keys).Some? {
        var j :| 0 <= j < |front| && SortListOf(front[j], keys) == Err(ListsFault(front, keys).value) &&
                 forall k :: 0 <= k < j ==> SortListOf(front[k], keys).Ok?;
        assert SortListOf(items[j], keys) == Err(ListsFault(items, keys).value);
      } else if SortListOf(items[|front|], keys).Err? {
        assert SortListOf(items[|front|], keys) == Err(ListsFault(items, keys).value);
      }
    }
  }

  lemma ListsFaultStep(items: seq<Item>, keys: seq<string>, i: int, list: Result<seq<SortValue>, QueryError>)
    requires 0 <= i < |items| && ListsFault(items[..i], keys).None? && list == SortListOf(items[i], keys)
    ensures ListsFault(items[..i + 1], keys) == if list.Err? then Some(list.error) else None
  {
    assert items[..i + 1][..i] == items[..i];
  }

  lemma {:induction false} ListsFaultStops(items: seq<Item>, keys: seq<string>, i: int)
    requires 0 <= i <= |items| && ListsFault(items[..i], keys).Some?
    ensures ListsFault(items, keys) == ListsFault(items[..i], keys)
    decreases |items| - i
  {
    if i == |items| {
      assert items[..i] == items;
    } else {
      var front := items[..|items| - 1];
      assert front[..i] == items[..i];
      ListsFaultStops(front, keys, i);
    }
  }

  /** `sorted` with the key function: every sort list first, then the
      comparisons. */
  method SortByLists(items: seq<Item>, sortKeys: string) returns (r: Result<seq<Item>, QueryError>)
    ensures r == SortedBy(items, SortKeys(sortKeys))
  {
    var keys := SortKeys(sortKeys);
    for i := 0 to |items|
      invariant ListsFault(items[..i], keys).None?
    {
      var list := ToSortList(items[i], sortKeys);
      ListsFaultStep(items, keys, i, list);
      if list.Err? {
        ListsFaultStops(items, keys, i + 1);
        return Err(list.error);
      }
    }
    assert items[..|items|] == items;
    var sorted := SortItems(items, keys);
    return Ok(sorted);
  }

  // What the chosen keys mean for the order.

  /** A single recognised key sorts by its value alone. */
  lemma SingleKey(item: Item, name: string, key: SortKey)
    requires KeyNamed(name) == Some(key)
    ensures Key(item, [name]) == [Value(item, key)]
  {
    assert [name][..0] == [];
    assert SortValues(item, [name]) == SortValues(item, []) + [Value(item, key)];
  }

  /** Sorting on playtime puts the longest-played item first. */
  lemma LongerPlaytimeFirst(a: Item, b: Item)
    requires Number(a.totalPlaytime).Some? && Number(b.totalPlaytime).Some?
    requires Number(a.totalPlaytime).value > Number(b.totalPlaytime).value
    ensures KeyLess(Key(a, ["total_playtime"]), Key(b, ["total_playtime"]))
  {
    DefaultKeysNamed();
    SingleKey(a, "total_playtime", TotalPlaytimeKey);
    SingleKey(b, "total_playtime", TotalPlaytimeKey);
  }

  /** Sorting on the last launch puts the most recent launch first, and any
      launch after the epoch before an item never launched. */
  lemma RecentLaunchFirst(a: Item, b: Item)
    requires a.lastLaunched.Some? && a.lastLaunched.value > 0
    requires b.lastLaunched.None? || b.lastLaunched.value < a.lastLaunched.value
    ensures KeyLess(Key(a, ["last_launched"]), Key(b, ["last_launched"]))
  {
    DefaultKeysNamed();
    SingleKey(a, "last_launched", LastLaunchedKey);
    SingleKey(b, "last_launched", LastLaunchedKey);
  }

  /** Sorting on the name puts an item without a name after every item whose
      name is plain ASCII. */
  lemma MissingNameLast(a: Item, b: Item)
    requires a.name.Some? && forall k :: 0 <= k < |a.name.value| ==> a.name.value[k] < '\U{80}'
    requires b.name.None?
    ensures KeyLess(Key(a, ["name"]), Key(b, ["name"]))
  {
    DefaultKeysNamed();
    SingleKey(a, "name", NameKey);
    SingleKey(b, "name", NameKey);
    var n := Lower(a.name.value);
    if n != [] {
      assert LowerChar(a.name.value[0]) < '\U{80}';
      assert StrLess(n, MISSING);
    }
    assert ValueLess(Label(n), Label(MISSING));
  }
}
