/** `str_to_timedelta`: the cache's refresh delays are written as amounts with
    unit suffixes ("1h30m", "2d", "500ms"). Every match of the unit pattern is
    added to one of nine totals, and the totals make one duration. Durations
    are whole microseconds, the resolution of Python's `timedelta`. */
module Durations {
  import opened Wrappers
  import opened Text

  datatype Unit = Years | Months | Weeks | Days | Hours | Minutes | Seconds | Milliseconds | Microseconds

  /** The unit alternatives of the pattern, in the order it tries them. */
  const UNITS: seq<Unit> := [Years, Months, Weeks, Days, Hours, Minutes, Seconds, Milliseconds, Microseconds]

  /** Microseconds per unit; a year counts as 365 days and a month as 30. */
  function UnitMicros(u: Unit): nat {
    match u
    case Years => 31_536_000_000_000
    case Months => 2_592_000_000_000
    case Weeks => 604_800_000_000
    case Days => 86_400_000_000
    case Hours => 3_600_000_000
    case Minutes => 60_000_000
    case Seconds => 1_000_000
    case Milliseconds => 1_000
    case Microseconds => 1
  }

  /** The suffix the pattern spells a unit with. */
  function Suffix(u: Unit): (r: string)
    ensures 0 < |r| <= 2 && forall i :: 0 <= i < |r| ==> IsLowerLetter(r[i])
  {
    match u
    case Years => "y"
    case Months => "mo"
    case Weeks => "w"
    case Days => "d"
    case Hours => "h"
    case Minutes => "m"
    case Seconds => "s"
    case Milliseconds => "ms"
    case Microseconds => "us"
  }

  predicate IsLowerLetter(c: char) {
    'a' <= c <= 'z'
  }

  /** The end of the run of digits that starts at `p`. */
  function DigitsEnd(s: string, p: nat): (q: nat)
    requires p <= |s|
    ensures p <= q <= |s|
    ensures forall k :: p <= k < q ==> IsDigit(s[k])
    ensures q == |s| || !IsDigit(s[q])
    decreases |s| - p
  {
    if p < |s| && IsDigit(s[p]) then DigitsEnd(s, p + 1) else p
  }

  /** Unit text `u` at `q`, not followed by a lower-case letter (the pattern's
      `(?![a-z])`). */
  predicate UnitFits(s: string, q: nat, u: string) {
    q + |u| <= |s| && s[q..q + |u|] == u && (q + |u| == |s| || !IsLowerLetter(s[q + |u|]))
  }

  /** The index of the first alternative from `j` on whose suffix fits at `q`:
      the alternation tries them in order. */
  function FirstFit(s: string, q: nat, j: nat): (r: Option<nat>)
    requires j <= |UNITS|
    ensures r.Some? ==> j <= r.value < |UNITS| && UnitFits(s, q, Suffix(UNITS[r.value]))
    decreases |UNITS| - j
  {
    if j == |UNITS| then None
    else if UnitFits(s, q, Suffix(UNITS[j])) then Some(j)
    else FirstFit(s, q, j + 1)
  }

  /** Where the amount of a match starting at `p` ends: an optional minus sign,
      digits, and a dot with more digits when there is one. */
  function AmountEnd(s: string, p: nat): (r: Option<nat>)
    requires p <= |s|
    ensures r.Some? ==> p < r.value <= |s| && IsDigit(s[r.value - 1])
  {
    var q0 := if p < |s| && s[p] == '-' then p + 1 else p;
    var q1 := DigitsEnd(s, q0);
    if q1 == q0 then None
    else if q1 + 1 < |s| && s[q1] == '.' && IsDigit(s[q1 + 1]) then Some(DigitsEnd(s, q1 + 1))
    else Some(q1)
  }

  /** A match of `-?[0-9]+(?:\.[0-9]+)?(?:y|mo|w|d|h|m|s|ms|us)(?![a-z])`
      starting at `p`: where it ends and the unit it names. Taking fewer
      digits never helps, since no unit starts with a digit or a dot, so the
      first way the pattern can match is the greedy one. */
  function TokenAt(s: string, p: nat): (r: Option<(nat, Unit)>)
    requires p <= |s|
    ensures r.Some? ==> p < r.value.0 - |Suffix(r.value.1)| && r.value.0 <= |s|
    ensures r.Some? ==> s[r.value.0 - |Suffix(r.value.1)|..r.value.0] == Suffix(r.value.1)
                        && IsDigit(s[r.value.0 - |Suffix(r.value.1)| - 1])
  {
    match AmountEnd(s, p)
    case None => None
    case Some(q) =>
      match FirstFit(s, q, 0)
      case None => None
      case Some(j) => Some((q + |Suffix(UNITS[j])|, UNITS[j]))
  }

  /** Python's `re.findall`: the matches from left to right, each search
      resuming where the last match ended. */
  function FindAll(s: string, p: nat): (r: seq<string>)
    requires p <= |s|
    ensures forall j :: 0 <= j < |r| ==> |r[j]| >= 2
    ensures 2 * |r| <= |s| - p
    decreases |s| - p
  {
    if p == |s| then []
    else match TokenAt(s, p)
      case Some((e, _)) => [s[p..e]] + FindAll(s, e)
      case None => FindAll(s, p + 1)
  }

  /** `t.endswith(c)` for a one-letter suffix. */
  predicate EndsWith1(t: string, c: char) {
    |t| >= 1 && t[|t| - 1] == c
  }

  /** `t.endswith(a + b)` for a two-letter suffix. */
  predicate EndsWith2(t: string, a: char, b: char) {
    |t| >= 2 && t[|t| - 2] == a && t[|t| - 1] == b
  }

  /** The branch of the summing loop a matched text takes: the unit and the
      length of the suffix cut off before the amount. None is the warning
      branch. */
  function Classify(t: string): (r: Option<(Unit, nat)>)
    ensures r.Some? ==> r.value.1 <= |t|
  {
    if EndsWith1(t, 'y') then Some((Years, 1))
    else if EndsWith2(t, 'm', 'o') then Some((Months, 2))
    else if EndsWith1(t, 'w') then Some((Weeks, 1))
    else if EndsWith1(t, 'd') then Some((Days, 1))
    else if EndsWith1(t, 'h') then Some((Hours, 1))
    else if EndsWith1(t, 'm') then Some((Minutes, 1))
    else if EndsWith2(t, 'm', 's') then Some((Milliseconds, 2))
    else if EndsWith2(t, 'u', 's') then Some((Microseconds, 2))
    else if EndsWith1(t, 's') then Some((Seconds, 1))
    else None
  }

  /** The value of the digits at the front of `s`, read onto `acc`. */
  function LeadingValue(s: string, acc: int): (r: int)
    ensures acc >= 0 ==> r >= acc
    decreases |s|
  {
    if s != [] && IsDigit(s[0]) then LeadingValue(s[1..], acc * 10 + DigitValue(s[0])) else acc
  }

  /** `float(number)` cut to its whole part: an optional minus sign, then the
      leading digits. */
  function Amount(number: string): int {
    if |number| > 0 && number[0] == '-' then -LeadingValue(number[1..], 0) else LeadingValue(number, 0)
  }

  /** What one matched text adds to the duration. */
  function TokenMicros(t: string): int {
    match Classify(t)
    case None => 0
    case Some((u, k)) => Amount(t[..|t| - k]) * UnitMicros(u)
  }

  /** The sum over the matched texts; never negative when no text has a
      minus sign. */
  function Total(tokens: seq<string>): (r: int)
    ensures (forall j :: 0 <= j < |tokens| ==> '-' !in tokens[j]) ==> r >= 0
  {
    if tokens == [] then 0 else Total(tokens[..|tokens| - 1]) + TokenMicros(tokens[|tokens| - 1])
  }

  /** The duration a string stands for, in microseconds. */
  function Duration(s: string): int {
    if s == "" then 0 else Total(FindAll(s, 0))
  }

  /** The amount a matched text adds to the total of unit `u`. */
  function UnitAmount(t: string, u: Unit): int {
    match Classify(t)
    case Some((v, k)) => if v == u then Amount(t[..|t| - k]) else 0
    case None => 0
  }

  /** The total of the amounts in unit `u`. */
  function UnitTotal(tokens: seq<string>, u: Unit): int {
    if tokens == [] then 0 else UnitTotal(tokens[..|tokens| - 1], u) + UnitAmount(tokens[|tokens| - 1], u)
  }

  /** One more matched text adds its amount to the total of its unit. */
  lemma UnitTotalsStep(tokens: seq<string>, i: int)
    requires 0 <= i < |tokens|
    ensures forall u :: UnitTotal(tokens[..i + 1], u) == UnitTotal(tokens[..i], u) + UnitAmount(tokens[i], u)
  {
    assert tokens[..i + 1][..i] == tokens[..i];
  }

  /** The nine totals of the loop, converted as `timedelta(...)` does. */
  function Combine(years: int, months: int, weeks: int, days: int, hours: int, minutes: int, seconds: int,
                   milliseconds: int, microseconds: int): int
  {
    weeks * 604_800_000_000 + (years * 365 + months * 30 + days) * 86_400_000_000
    + hours * 3_600_000_000 + minutes * 60_000_000 + seconds * 1_000_000
    + milliseconds * 1_000 + microseconds
  }

  function CombineTotals(tokens: seq<string>): int {
    Combine(UnitTotal(tokens, Years), UnitTotal(tokens, Months), UnitTotal(tokens, Weeks), UnitTotal(tokens, Days),
            UnitTotal(tokens, Hours), UnitTotal(tokens, Minutes), UnitTotal(tokens, Seconds),
            UnitTotal(tokens, Milliseconds), UnitTotal(tokens, Microseconds))
  }

  /** `a` in the total of unit `u`, nothing in the others. */
  function Only(u: Unit, v: Unit, a: int): int {
    if v == u then a else 0
  }

  /** Adding `a` to the total of unit `u` adds `a` of that unit to the duration. */
  lemma CombineShift(years: int, months: int, weeks: int, days: int, hours: int, minutes: int, seconds: int,
                     milliseconds: int, microseconds: int, u: Unit, a: int)
    ensures Combine(years + Only(u, Years, a), months + Only(u, Months, a), weeks + Only(u, Weeks, a),
                    days + Only(u, Days, a), hours + Only(u, Hours, a), minutes + Only(u, Minutes, a),
                    seconds + Only(u, Seconds, a), milliseconds + Only(u, Milliseconds, a),
                    microseconds + Only(u, Microseconds, a))
            == Combine(years, months, weeks, days, hours, minutes, seconds, milliseconds, microseconds)
               + a * UnitMicros(u)
  {
    match u
    case Years =>
    case Months =>
    case Weeks =>
    case Days =>
    case Hours =>
    case Minutes =>
    case Seconds =>
    case Milliseconds =>
    case Microseconds =>
  }

  /** One more matched text adds its duration to the converted totals. */
  lemma CombineTotalsStep(tokens: seq<string>)
    requires tokens != []
    ensures CombineTotals(tokens) == CombineTotals(tokens[..|tokens| - 1]) + TokenMicros(tokens[|tokens| - 1])
  {
    var front, t := tokens[..|tokens| - 1], tokens[|tokens| - 1];
    match Classify(t)
    case None =>
      assert forall v :: UnitTotal(tokens, v) == UnitTotal(front, v);
    case Some((u, k)) =>
      var a := Amount(t[..|t| - k]);
      assert TokenMicros(t) == a * UnitMicros(u);
      assert forall v :: UnitTotal(tokens, v) == UnitTotal(front, v) + Only(u, v, a);
      CombineShift(UnitTotal(front, Years), UnitTotal(front, Months), UnitTotal(front, Weeks), UnitTotal(front, Days),
                   UnitTotal(front, Hours), UnitTotal(front, Minutes), UnitTotal(front, Seconds),
                   UnitTotal(front, Milliseconds), UnitTotal(front, Microseconds), u, a);
  }

  /** Adding unit by unit and converting once gives the same duration as
      converting every match and adding. */
  lemma {:induction false} CombineTotalsIsTotal(tokens: seq<string>)
    ensures CombineTotals(tokens) == Total(tokens)
  {
    if tokens != [] {
      CombineTotalsIsTotal(tokens[..|tokens| - 1]);
      CombineTotalsStep(tokens);
    }
  }

  /** `str_to_timedelta`: the empty string is no time; otherwise the matches
      of the unit pattern, summed. */
  method StrToTimedelta(s: string) returns (micros: int)
    ensures micros == Duration(s)
  {
    if s == "" {
      return 0;
    }
    micros := SumTokens(FindAll(s, 0));
  }

  /** The loop over the matched texts with its nine totals. */
  method SumTokens(tokens: seq<string>) returns (micros: int)
    ensures micros == Total(tokens)
  {
    var years, months, weeks, days, hours, minutes, seconds, milliseconds, microseconds := 0, 0, 0, 0, 0, 0, 0, 0, 0;
    for i := 0 to |tokens|
      invariant years == UnitTotal(tokens[..i], Years) && months == UnitTotal(tokens[..i], Months)
      invariant weeks == UnitTotal(tokens[..i], Weeks) && days == UnitTotal(tokens[..i], Days)
      invariant hours == UnitTotal(tokens[..i], Hours) && minutes == UnitTotal(tokens[..i], Minutes)
      invariant seconds == UnitTotal(tokens[..i], Seconds) && milliseconds == UnitTotal(tokens[..i], Milliseconds)
      invariant microseconds == UnitTotal(tokens[..i], Microseconds)
    {
      var t := tokens[i];
      UnitTotalsStep(tokens, i);
      // the `endswith` chain of the loop body is `Classify`
      var c := Classify(t);
      if c.Some? {
        var a := Amount(t[..|t| - c.value.1]);
        match c.value.0
        case Years => years := years + a;
        case Months => months := months + a;
        case Weeks => weeks := weeks + a;
        case Days => days := days + a;
        case Hours => hours := hours + a;
        case Minutes => minutes := minutes + a;
        case Seconds => seconds := seconds + a;
        case Milliseconds => milliseconds := milliseconds + a;
        case Microseconds => microseconds := microseconds + a;
      }
    }
    assert tokens[..|tokens|] == tokens;
    CombineTotalsIsTotal(tokens);
    micros := Combine(years, months, weeks, days, hours, minutes, seconds, milliseconds, microseconds);
  }

  /** The `endswith` chain sends a text ending in a digit and a unit suffix to
      that unit. */
  lemma ClassifySuffix(t: string, u: Unit)
    requires |Suffix(u)| < |t| && t[|t| - |Suffix(u)|..] == Suffix(u) && IsDigit(t[|t| - |Suffix(u)| - 1])
    ensures Classify(t) == Some((u, |Suffix(u)|))
  {
    var n := |t|;
    assert t[n - 1] == Suffix(u)[|Suffix(u)| - 1];
    if |Suffix(u)| == 2 {
      assert t[n - 2] == Suffix(u)[0];
    } else {
      assert IsDigit(t[n - 2]);
    }
  }

  /** The text of a match takes the branch of the loop for the unit the
      pattern matched: the `else` branch with its warning is never taken. */
  lemma TokenClassified(s: string, p: nat)
    requires p <= |s| && TokenAt(s, p).Some?
    ensures var (e, u) := TokenAt(s, p).value; Classify(s[p..e]) == Some((u, |Suffix(u)|))
  {
    var (e, u) := TokenAt(s, p).value;
    SliceClassified(s, p, e, u);
  }

  /** A slice ending in a digit and then a unit's suffix is classified by that unit. */
  lemma SliceClassified(s: string, p: nat, e: nat, u: Unit)
    requires p < e - |Suffix(u)| && e <= |s|
    requires s[e - |Suffix(u)|..e] == Suffix(u) && IsDigit(s[e - |Suffix(u)| - 1])
    ensures Classify(s[p..e]) == Some((u, |Suffix(u)|))
  {
    var t := s[p..e];
    assert t[|t| - |Suffix(u)|..] == s[e - |Suffix(u)|..e];
    assert t[|t| - |Suffix(u)| - 1] == s[e - |Suffix(u)| - 1];
    ClassifySuffix(t, u);
  }

  /** Every text `findall` returns is one the summing loop recognises. */
  lemma {:induction false} FindAllClassified(s: string, p: nat)
    requires p <= |s|
    ensures forall j :: 0 <= j < |FindAll(s, p)| ==> Classify(FindAll(s, p)[j]).Some?
    decreases |s| - p
  {
    if p < |s| {
      match TokenAt(s, p)
      case Some((e, _)) =>
        TokenClassified(s, p);
        FindAllClassified(s, e);
        assert FindAll(s, p) == [s[p..e]] + FindAll(s, e);
      case None =>
        FindAllClassified(s, p + 1);
    }
  }

  /** Reading digits after digits carries on from where the first run ended. */
  lemma {:induction false} LeadingValueAppend(x: string, y: string, acc: int)
    requires forall i :: 0 <= i < |x| ==> IsDigit(x[i])
    ensures LeadingValue(x + y, acc) == LeadingValue(y, LeadingValue(x, acc))
    decreases |x|
  {
    if x == [] {
      assert x + y == y;
    } else {
      assert (x + y)[0] == x[0];
      assert (x + y)[1..] == x[1..] + y;
      LeadingValueAppend(x[1..], y, acc * 10 + DigitValue(x[0]));
    }
  }

  /** The amount of a printed whole number is that number. */
  lemma {:induction false} AmountOfNumber(n: nat)
    ensures Amount(NatToString(n)) == n
    ensures LeadingValue(NatToString(n), 0) == n
    decreases n
  {
    var d := NatToString(n);
    var c := DigitChar(n % 10);
    assert LeadingValue([c], n / 10) == n by {
      assert [c][1..] == [];
    }
    if n >= 10 {
      AmountOfNumber(n / 10);
      var front := NatToString(n / 10);
      assert d == front + [c];
      LeadingValueAppend(front, [c], 0);
    } else {
      assert d == [c];
    }
    assert IsDigit(d[0]);
  }

  /** Where each unit stands among the alternatives. */
  function UnitIndex(u: Unit): (j: nat)
    ensures j < |UNITS| && UNITS[j] == u
  {
    match u
    case Years => 0
    case Months => 1
    case Weeks => 2
    case Days => 3
    case Hours => 4
    case Minutes => 5
    case Seconds => 6
    case Milliseconds => 7
    case Microseconds => 8
  }

  /** A unit suffix not followed by a lower-case letter is matched as that
      unit: "m" is not taken for the start of "ms", nor "mo" for "m". */
  lemma FirstFitSuffix(t: string, q: nat, u: Unit)
    requires UnitFits(t, q, Suffix(u))
    ensures FirstFit(t, q, 0) == Some(UnitIndex(u))
  {
    assert t[q] == Suffix(u)[0];
    if |Suffix(u)| == 2 {
      assert t[q + 1] == Suffix(u)[1];
    }
    forall i | 0 <= i < UnitIndex(u) ensures !UnitFits(t, q, Suffix(UNITS[i])) {
    }
    FirstFitIs(t, q, UnitIndex(u), 0);
  }

  /** No alternative before the one found fits. */
  lemma {:induction false} FirstFitIsFirst(s: string, q: nat, j: nat, i: nat)
    requires j <= i <= |UNITS| && FirstFit(s, q, j).Some? && i < FirstFit(s, q, j).value
    ensures !UnitFits(s, q, Suffix(UNITS[i]))
    decreases |UNITS| - j
  {
    if j < i {
      FirstFitIsFirst(s, q, j + 1, i);
    }
  }

  /** None is found only when no alternative fits. */
  lemma {:induction false} FirstFitNone(s: string, q: nat, j: nat, i: nat)
    requires j <= i < |UNITS| && FirstFit(s, q, j).None?
    ensures !UnitFits(s, q, Suffix(UNITS[i]))
    decreases |UNITS| - j
  {
    if j < i {
      FirstFitNone(s, q, j + 1, i);
    }
  }

  /** The first fitting alternative, given one that fits and none before it. */
  lemma {:induction false} FirstFitIs(t: string, q: nat, k: nat, j: nat)
    requires j <= k < |UNITS| && UnitFits(t, q, Suffix(UNITS[k]))
    requires forall i :: j <= i < k ==> !UnitFits(t, q, Suffix(UNITS[i]))
    ensures FirstFit(t, q, j) == Some(k)
    decreases k - j
  {
    if j < k {
      FirstFitIs(t, q, k, j + 1);
    }
  }

  /** `findall` takes a match at `p` and resumes after it. */
  lemma FindAllTakes(t: string, p: nat, e: nat, u: Unit)
    requires p <= |t| && TokenAt(t, p) == Some((e, u))
    ensures FindAll(t, p) == [t[p..e]] + FindAll(t, e)
  {
  }

  /** A match is its amount followed by its unit. */
  lemma TokenFrom(t: string, p: nat, q: nat, u: Unit, e: nat)
    requires p <= |t| && AmountEnd(t, p) == Some(q) && UnitFits(t, q, Suffix(u)) && e == q + |Suffix(u)|
    ensures TokenAt(t, p) == Some((e, u))
  {
    FirstFitSuffix(t, q, u);
  }

  /** The amount of a run of digits ends where the run ends, when no letter,
      digit or dot follows. */
  lemma DigitsAmount(t: string, p: nat, d: string, c: char)
    requires IsDigits(d) && p + |d| < |t| && t[p..p + |d| + 1] == d + [c] && IsLowerLetter(c)
    ensures AmountEnd(t, p) == Some(p + |d|)
  {
    var q := p + |d|;
    assert t[p] == t[p..q + 1][0] == d[0];
    forall k | p <= k < q ensures IsDigit(t[k]) {
      assert t[k] == t[p..q + 1][k - p] == d[k - p];
    }
    assert (d + [c])[|d|] == c;
    assert t[q] == t[p..q + 1][|d|];
    assert DigitsEnd(t, p) == q;
  }

  /** The text from `p` on starts with `x`. */
  lemma Prefix(t: string, p: nat, x: string, rest: string)
    requires p <= |t| && t[p..] == x + rest
    ensures p + |x| <= |t| && t[p..p + |x|] == x
  {
    assert t[p..p + |x|] == t[p..][..|x|];
  }

  /** Digits, then a unit suffix not followed by a lower-case letter, make
      one match: the amount is the digits, the unit the suffix. */
  lemma DigitsAndUnitToken(t: string, p: nat, d: string, u: Unit, rest: string, e: nat)
    requires IsDigits(d) && p <= |t| && t[p..] == d + Suffix(u) + rest
    requires rest == [] || !IsLowerLetter(rest[0])
    requires e == p + |d| + |Suffix(u)|
    ensures TokenAt(t, p) == Some((e, u))
    ensures t[p..e] == d + Suffix(u)
  {
    Prefix(t, p, d + Suffix(u), rest);
    var q := p + |d|;
    var x := Suffix(u);
    DigitsBefore(t, p, d, x, rest);
    TextFits(t, q, x, rest);
    TokenFrom(t, p, q, u, e);
  }

  /** Digits followed by a lower-case letter are a whole amount. */
  lemma DigitsBefore(t: string, p: nat, d: string, x: string, rest: string)
    requires IsDigits(d) && 0 < |x| && IsLowerLetter(x[0])
    requires p <= |t| && t[p..] == d + x + rest
    ensures AmountEnd(t, p) == Some(p + |d|)
    ensures t[p + |d|..] == x + rest
  {
    var q := p + |d|;
    assert t[p..q + 1] == t[p..][..|d| + 1] == d + [x[0]];
    DigitsAmount(t, p, d, x[0]);
    assert t[q..] == t[p..][|d|..];
  }

  /** A text followed by no lower-case letter fits where it stands. */
  lemma TextFits(t: string, q: nat, x: string, rest: string)
    requires q <= |t| && t[q..] == x + rest
    requires rest == [] || !IsLowerLetter(rest[0])
    ensures UnitFits(t, q, x)
  {
    assert t[q..q + |x|] == t[q..][..|x|];
    if q + |x| < |t| {
      assert t[q + |x|] == t[q..][|x|] == rest[0];
    }
  }

  /** A whole number followed by a unit is that many of the unit. */
  lemma SingleToken(n: nat, u: Unit)
    ensures Duration(NatToString(n) + Suffix(u)) == n * UnitMicros(u)
  {
    var d := NatToString(n);
    var t := d + Suffix(u);
    assert t[0..] == d + Suffix(u) + [];
    DigitsAndUnitToken(t, 0, d, u, [], |t|);
    FindAllTakes(t, 0, |t|, u);
    assert FindAll(t, 0) == [t];
    assert [t][..0] == [];
    assert Total([t]) == TokenMicros(t);
    assert |t| > 0;
    assert Duration(t) == Total([t]);
    TokenValue(d, u, n);
  }

  /** What a number and a unit add to the duration. */
  lemma TokenValue(d: string, u: Unit, n: nat)
    requires d == NatToString(n)
    ensures TokenMicros(d + Suffix(u)) == n * UnitMicros(u)
  {
    var t := d + Suffix(u);
    assert t[..|t| - |Suffix(u)|] == d;
    assert t[|t| - |Suffix(u)|..] == Suffix(u);
    assert t[|t| - |Suffix(u)| - 1] == d[|d| - 1];
    ClassifySuffix(t, u);
    AmountOfNumber(n);
  }

  /** Two amounts with their units, one after the other, are two matches. */
  lemma TwoMatches(da: string, u: Unit, db: string, v: Unit)
    requires IsDigits(da) && IsDigits(db)
    ensures FindAll(da + Suffix(u) + (db + Suffix(v)), 0) == [da + Suffix(u), db + Suffix(v)]
  {
    var x, y := da + Suffix(u), db + Suffix(v);
    var t := x + y;
    assert TokenAt(t, 0) == Some((|x|, u)) && t[0..|x|] == x by {
      assert t[0..] == da + Suffix(u) + y;
      assert y[0] == db[0];
      DigitsAndUnitToken(t, 0, da, u, y, |x|);
    }
    assert TokenAt(t, |x|) == Some((|t|, v)) && t[|x|..|t|] == y by {
      assert t[|x|..] == db + Suffix(v) + [];
      DigitsAndUnitToken(t, |x|, db, v, [], |t|);
    }
    FindAllTwo(t, |x|, u, v);
  }

  /** Two matches that cover the text are all `findall` returns. */
  lemma FindAllTwo(t: string, e: nat, u: Unit, v: Unit)
    requires e <= |t| && TokenAt(t, 0) == Some((e, u)) && TokenAt(t, e) == Some((|t|, v))
    ensures FindAll(t, 0) == [t[0..e], t[e..|t|]]
  {
    FindAllTakes(t, 0, e, u);
    FindAllTakes(t, e, |t|, v);
  }

  /** Two amounts with their units, one after the other, add up. */
  lemma TwoTokens(a: nat, u: Unit, b: nat, v: Unit)
    ensures Duration(NatToString(a) + Suffix(u) + (NatToString(b) + Suffix(v)))
            == a * UnitMicros(u) + b * UnitMicros(v)
  {
    var x, y := NatToString(a) + Suffix(u), NatToString(b) + Suffix(v);
    TwoMatches(NatToString(a), u, NatToString(b), v);
    assert |x + y| > 0;
    TotalOfTwo(x, y);
    TokenValue(NatToString(a), u, a);
    TokenValue(NatToString(b), v, b);
  }

  /** Two matched texts add up. */
  lemma TotalOfTwo(x: string, y: string)
    ensures Total([x, y]) == TokenMicros(x) + TokenMicros(y)
  {
    var one: seq<string> := [x];
    assert [x, y][..1] == one;
    assert one[..0] == [];
    assert Total(one) == Total([]) + TokenMicros(x);
    assert Total([x, y]) == Total(one) + TokenMicros(y);
  }

  /** Without digits there is no match. */
  lemma {:induction false} NoDigitsNoMatches(s: string, p: nat)
    requires p <= |s| && forall k :: p <= k < |s| ==> !IsDigit(s[k])
    ensures FindAll(s, p) == []
    decreases |s| - p
  {
    if p < |s| {
      var q0 := if s[p] == '-' then p + 1 else p;
      assert q0 == |s| || !IsDigit(s[q0]);
      assert AmountEnd(s, p).None?;
      NoDigitsNoMatches(s, p + 1);
    }
  }

  /** Text without digits, the empty text among it, lasts no time. */
  lemma NoDigitsNoTime(s: string)
    requires forall k :: 0 <= k < |s| ==> !IsDigit(s[k])
    ensures Duration(s) == 0
  {
    NoDigitsNoMatches(s, 0);
  }

  /** "2d" is two days. */
  lemma TwoDays()
    ensures Duration("2d") == 172_800 * 1_000_000
  {
    assert NatToString(2) + Suffix(Days) == "2d";
    SingleToken(2, Days);
  }

  /** "1h30m" is an hour and a half. */
  lemma HourAndAHalf()
    ensures Duration("1h30m") == 5_400 * 1_000_000
  {
    assert NatToString(1) == "1";
    assert NatToString(30) == "30";
    assert "1" + Suffix(Hours) + ("30" + Suffix(Minutes)) == "1h30m";
    TwoTokens(1, Hours, 30, Minutes);
  }
}
