/** The text manifest (VDF) decoder of get.py, `_vdf_to_dict`: a single pass
    over the lines of a manifest that keeps a stack of the keys of the blocks
    currently open and inserts into the nested dictionary that stack
    addresses. */
module Vdf {
  import opened Wrappers
  import opened Text

  /** A value of the decoded tree: a string, or a block of named children. */
  datatype Node = Leaf(value: string) | Block(children: map<string, Node>)

  /** The four errors `_vdf_to_dict` raises; line numbers count from 1 as in its
      messages. */
  datatype VdfError =
    | ExtraTopLevelKey(line: nat)      // KeyError: a second top-level key
    | ValueOutsideBlock(line: nat)     // KeyError: a key/value pair with no open block
    | ExtraClosingBrace(line: nat)     // ValueError: a closing brace with no open block
    | NoTopLevelKey                    // KeyError: no top-level key at all

  /** How a line is read: by its count of quote marks (escaped ones excluded),
      then by whether it holds a closing brace. */
  datatype LineKind = OpenKey(key: string) | KeyValue(key: string, value: string) | CloseBrace | Other

  function QuoteCount(line: string): int {
    CountChar(line, '"') - CountPair(line, '\\', '"')
  }

  function Classify(line: string): (k: LineKind)
    ensures k.OpenKey? <==> QuoteCount(line) == 2
    ensures k.KeyValue? <==> QuoteCount(line) == 4
    ensures k.CloseBrace? <==> QuoteCount(line) != 2 && QuoteCount(line) != 4 && '}' in line
  {
    var q := QuoteCount(line);
    if q == 2 || q == 4 then
      SplitLength(line, '"');
      var parts := Split(line, '"');
      if q == 2 then OpenKey(parts[1]) else KeyValue(parts[1], parts[3])
    else if '}' in line then CloseBrace
    else Other
  }

  /** `path` leads from `n` through blocks only. */
  predicate IsBlockAt(n: Node, path: seq<string>)
    decreases |path|
  {
    n.Block? && (path == [] || (path[0] in n.children && IsBlockAt(n.children[path[0]], path[1..])))
  }

  function GetAt(n: Node, path: seq<string>): (r: Node)
    requires IsBlockAt(n, path)
    ensures r.Block?
    decreases |path|
  {
    if path == [] then n else GetAt(n.children[path[0]], path[1..])
  }

  /** Stores `v` under `key` in the block that `path` leads to. */
  function SetAt(n: Node, path: seq<string>, key: string, v: Node): (r: Node)
    requires IsBlockAt(n, path)
    ensures r.Block?
    decreases |path|
  {
    if path == [] then Block(n.children[key := v])
    else Block(n.children[path[0] := SetAt(n.children[path[0]], path[1..], key, v)])
  }

  /** A prefix of a path through blocks is a path through blocks. */
  lemma {:induction false} IsBlockAtPrefix(n: Node, path: seq<string>, k: nat)
    requires IsBlockAt(n, path) && k <= |path|
    ensures IsBlockAt(n, path[..k])
    decreases |path|
  {
    if k > 0 {
      IsBlockAtPrefix(n.children[path[0]], path[1..], k - 1);
      assert path[..k][1..] == path[1..][..k - 1];
    }
  }

  /** Storing under `key` keeps the path to the block written into. */
  lemma {:induction false} SetAtKeepsPath(n: Node, path: seq<string>, key: string, v: Node)
    requires IsBlockAt(n, path)
    ensures IsBlockAt(SetAt(n, path, key, v), path)
    decreases |path|
  {
    if path != [] {
      SetAtKeepsPath(n.children[path[0]], path[1..], key, v);
    }
  }

  /** The stored value is found at the path extended by its key. */
  lemma {:induction false} SetAtThenGet(n: Node, path: seq<string>, key: string, v: Node)
    requires IsBlockAt(n, path)
    ensures v.Block? ==> IsBlockAt(SetAt(n, path, key, v), path + [key])
    ensures IsBlockAt(SetAt(n, path, key, v), path)
    ensures key in GetAt(SetAt(n, path, key, v), path).children
    ensures GetAt(SetAt(n, path, key, v), path).children[key] == v
    decreases |path|
  {
    if path != [] {
      SetAtThenGet(n.children[path[0]], path[1..], key, v);
      assert (path + [key])[1..] == path[1..] + [key];
    }
  }

  /** The decoder's state: the top-level dictionary and the stack of open keys. */
  datatype State = State(top: map<string, Node>, levels: seq<string>)

  /** Every open key names a block, nested as the stack says. */
  predicate Valid(st: State) {
    IsBlockAt(Block(st.top), st.levels)
  }

  /** One line of `_vdf_to_dict`; `line` is the 1-based line number. It fails
      exactly on a second top-level key, on a key/value pair outside every block
      and on a closing brace with no block open. */
  function Step(st: State, text: string, line: nat): (r: Result<State, VdfError>)
    requires Valid(st)
    ensures r.Ok? ==> Valid(r.value)
    ensures r.Err? <==> (Classify(text).OpenKey? && st.levels == [] && st.top != map[])
                        || (Classify(text).KeyValue? && st.levels == [])
                        || (Classify(text).CloseBrace? && st.levels == [])
    ensures Classify(text).CloseBrace? && st.levels != [] ==> r == Ok(State(st.top, st.levels[..|st.levels| - 1]))
    ensures Classify(text).Other? ==> r == Ok(st)
  {
    match Classify(text)
    case OpenKey(key) =>
      if st.levels == [] && st.top != map[] then Err(ExtraTopLevelKey(line))
      else
        SetAtThenGet(Block(st.top), st.levels, key, Block(map[]));
        Ok(State(SetAt(Block(st.top), st.levels, key, Block(map[])).children, st.levels + [key]))
    case KeyValue(key, value) =>
      if st.levels == [] then Err(ValueOutsideBlock(line))
      else
        SetAtKeepsPath(Block(st.top), st.levels, key, Leaf(value));
        Ok(State(SetAt(Block(st.top), st.levels, key, Leaf(value)).children, st.levels))
    case CloseBrace =>
      if st.levels == [] then Err(ExtraClosingBrace(line))
      else
        IsBlockAtPrefix(Block(st.top), st.levels, |st.levels| - 1);
        Ok(State(st.top, st.levels[..|st.levels| - 1]))
    case Other => Ok(st)
  }

  /** Decodes `lines` from state `st`, the first of them being line number `line`. */
  function RunFrom(st: State, lines: seq<string>, line: nat): (r: Result<State, VdfError>)
    requires Valid(st)
    ensures r.Ok? ==> Valid(r.value)
    decreases |lines|
  {
    if lines == [] then Ok(st)
    else
      match Step(st, lines[0], line)
      case Err(e) => Err(e)
      case Ok(next) => RunFrom(next, lines[1..], line + 1)
  }

  /** What `_vdf_to_dict` returns or raises for a file whose lines are `lines`. */
  function Parse(lines: seq<string>): (r: Result<map<string, Node>, VdfError>)
    ensures r.Ok? ==> |r.value| > 0
  {
    match RunFrom(State(map[], []), lines, 1)
    case Err(e) => Err(e)
    case Ok(st) => if st.top == map[] then Err(NoTopLevelKey) else Ok(st.top)
  }

  /** `_vdf_to_dict`: the line loop pushes, stores and pops in place. */
  method VdfToDict(lines: seq<string>) returns (r: Result<map<string, Node>, VdfError>)
    ensures r == Parse(lines)
  {
    var top: map<string, Node> := map[];
    var levels: seq<string> := [];
    var i := 0;
    while i < |lines|
      invariant 0 <= i <= |lines|
      invariant IsBlockAt(Block(top), levels)
      invariant Parse(lines) == match RunFrom(State(top, levels), lines[i..], i + 1)
                                case Err(e) => Err(e)
                                case Ok(st) => if st.top == map[] then Err(NoTopLevelKey) else Ok(st.top)
    {
      var text := lines[i];
      assert lines[i..][0] == text && lines[i..][1..] == lines[i + 1..];
      var quotes := CountChar(text, '"') - CountPair(text, '\\', '"');
      if quotes == 2 {
        SplitLength(text, '"');
        var key := Split(text, '"')[1];
        if |levels| == 0 && |top| != 0 {
          return Err(ExtraTopLevelKey(i + 1));
        }
        SetAtThenGet(Block(top), levels, key, Block(map[]));
        top := SetAt(Block(top), levels, key, Block(map[])).children;
        levels := levels + [key];
      } else if quotes == 4 {
        SplitLength(text, '"');
        var key := Split(text, '"')[1];
        if |levels| == 0 {
          return Err(ValueOutsideBlock(i + 1));
        }
        SetAtKeepsPath(Block(top), levels, key, Leaf(Split(text, '"')[3]));
        top := SetAt(Block(top), levels, key, Leaf(Split(text, '"')[3])).children;
      } else if '}' in text {
        if |levels| == 0 {
          return Err(ExtraClosingBrace(i + 1));
        }
        IsBlockAtPrefix(Block(top), levels, |levels| - 1);
        levels := levels[..|levels| - 1];
      }
      i := i + 1;
    }
    if |top| == 0 {
      return Err(NoTopLevelKey);
    }
    return Ok(top);
  }

  /** A line opening a block pushes its key and creates an empty block there. */
  lemma OpenKeyPushes(st: State, text: string, line: nat)
    requires Valid(st) && Classify(text).OpenKey?
    requires Step(st, text, line).Ok?
    ensures var next := Step(st, text, line).value;
            next.levels == st.levels + [Classify(text).key]
            && IsBlockAt(Block(next.top), next.levels)
            && GetAt(Block(next.top), next.levels) == Block(map[])
  {
    var key := Classify(text).key;
    SetAtThenGet(Block(st.top), st.levels, key, Block(map[]));
    GetAtChild(SetAt(Block(st.top), st.levels, key, Block(map[])), st.levels, key);
  }

  /** Looking a path up and then one more key is looking up the longer path. */
  lemma {:induction false} GetAtChild(n: Node, path: seq<string>, key: string)
    requires IsBlockAt(n, path + [key])
    ensures IsBlockAt(n, path)
    ensures key in GetAt(n, path).children
    ensures GetAt(n, path + [key]) == GetAt(n, path).children[key]
    decreases |path|
  {
    if path == [] {
    } else {
      assert (path + [key])[1..] == path[1..] + [key];
      GetAtChild(n.children[path[0]], path[1..], key);
    }
  }

  /** A key/value line stores the value under its key in the block the stack
      addresses, and leaves the stack alone. */
  lemma KeyValueStores(st: State, text: string, line: nat)
    requires Valid(st) && Classify(text).KeyValue?
    requires Step(st, text, line).Ok?
    ensures var next := Step(st, text, line).value;
            next.levels == st.levels
            && IsBlockAt(Block(next.top), next.levels)
            && Classify(text).key in GetAt(Block(next.top), next.levels).children
            && GetAt(Block(next.top), next.levels).children[Classify(text).key] == Leaf(Classify(text).value)
  {
    SetAtThenGet(Block(st.top), st.levels, Classify(text).key, Leaf(Classify(text).value));
  }
}
