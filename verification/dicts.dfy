/** Python dict building as the plugin does it: records inserted one after the
    other, a later record for the same key replacing an earlier one, and a
    loop that raises on its first bad record. */
module Dicts {
  import opened Wrappers

  /** `m` after `m[k] = v` for every pair of `pairs`, in order. */
  function InsertAll<K, V>(m: map<K, V>, pairs: seq<(K, V)>): map<K, V>
  {
    if pairs == [] then m
    else InsertAll(m, pairs[..|pairs| - 1])[pairs[|pairs| - 1].0 := pairs[|pairs| - 1].1]
  }

  /** A key is present afterwards exactly when it was before or some pair has it. */
  lemma {:induction false} InsertAllKeys<K, V>(m: map<K, V>, pairs: seq<(K, V)>, k: K)
    ensures k in InsertAll(m, pairs) <==> k in m || exists j :: 0 <= j < |pairs| && pairs[j].0 == k
  {
    if pairs != [] {
      var n := |pairs|;
      var prefix := pairs[..n - 1];
      InsertAllKeys(m, prefix, k);
      if exists j :: 0 <= j < n && pairs[j].0 == k {
        var j :| 0 <= j < n && pairs[j].0 == k;
        if j < n - 1 {
          assert prefix[j] == pairs[j];
        }
      }
      if exists j :: 0 <= j < n - 1 && prefix[j].0 == k {
        var j :| 0 <= j < n - 1 && prefix[j].0 == k;
        assert prefix[j] == pairs[j];
      }
    }
  }

  /** A key carries the value of the last pair that has it. */
  lemma {:induction false} InsertAllLastWins<K, V>(m: map<K, V>, pairs: seq<(K, V)>, j: int)
    requires 0 <= j < |pairs|
    requires forall i :: j < i < |pairs| ==> pairs[i].0 != pairs[j].0
    ensures pairs[j].0 in InsertAll(m, pairs)
    ensures InsertAll(m, pairs)[pairs[j].0] == pairs[j].1
  {
    var n := |pairs|;
    if j < n - 1 {
      var prefix := pairs[..n - 1];
      assert prefix[j] == pairs[j];
      forall i | j < i < n - 1 ensures prefix[i].0 != prefix[j].0 {
        assert prefix[i] == pairs[i];
      }
      InsertAllLastWins(m, prefix, j);
    }
  }

  /** A key no pair has keeps its old value. */
  lemma {:induction false} InsertAllKeeps<K, V>(m: map<K, V>, pairs: seq<(K, V)>, k: K)
    requires k in m
    requires forall j :: 0 <= j < |pairs| ==> pairs[j].0 != k
    ensures k in InsertAll(m, pairs) && InsertAll(m, pairs)[k] == m[k]
  {
    if pairs != [] {
      var n := |pairs|;
      var prefix := pairs[..n - 1];
      forall j | 0 <= j < n - 1 ensures prefix[j].0 != k {
        assert prefix[j] == pairs[j];
      }
      InsertAllKeeps(m, prefix, k);
    }
  }

  /** The values of a loop that stops at its first failing element: all of
      them, or None when one fails. */
  function AllSome<T>(xs: seq<Option<T>>): (r: Option<seq<T>>)
    ensures r.Some? <==> forall k :: 0 <= k < |xs| ==> xs[k].Some?
    ensures r.Some? ==> |r.value| == |xs| && forall k :: 0 <= k < |xs| ==> r.value[k] == xs[k].value
  {
    if xs == [] then Some([])
    else match AllSome(xs[..|xs| - 1])
      case None => None
      case Some(front) => match xs[|xs| - 1]
        case None => None
        case Some(x) => Some(front + [x])
  }

  /** `f` applied to every element, in order. */
  function Map<A, B>(f: A -> B, xs: seq<A>): (r: seq<B>)
    ensures |r| == |xs| && forall k :: 0 <= k < |xs| ==> r[k] == f(xs[k])
  {
    if xs == [] then [] else Map(f, xs[..|xs| - 1]) + [f(xs[|xs| - 1])]
  }

  /** A `for` loop that turns each element into a key and a value and stores it
      in `m`, raising (None) at the first element it cannot turn. */
  function InsertEntries<A, K, V>(m: map<K, V>, xs: seq<A>, entry: A -> Option<(K, V)>): Option<map<K, V>> {
    match AllSome(Map(entry, xs))
    case None => None
    case Some(pairs) => Some(InsertAll(m, pairs))
  }

  lemma MapNext<A, B>(f: A -> B, xs: seq<A>, i: int)
    requires 0 <= i < |xs|
    ensures Map(f, xs[..i + 1]) == Map(f, xs[..i]) + [f(xs[i])]
  {
    assert xs[..i + 1][..i] == xs[..i];
  }

  lemma AllSomeNext<T>(xs: seq<Option<T>>, x: T)
    requires AllSome(xs).Some?
    ensures AllSome(xs + [Some(x)]) == Some(AllSome(xs).value + [x])
  {
    assert (xs + [Some(x)])[..|xs|] == xs;
  }

  lemma InsertAllNext<K, V>(m: map<K, V>, pairs: seq<(K, V)>, p: (K, V))
    ensures InsertAll(m, pairs + [p]) == InsertAll(m, pairs)[p.0 := p.1]
  {
    assert (pairs + [p])[..|pairs|] == pairs;
  }

  /** A loop over `f` that meets no failing element yields every value. */
  lemma MapAllSome<A, B>(f: A -> Option<B>, xs: seq<A>)
    requires forall k :: 0 <= k < |xs| ==> f(xs[k]).Some?
    ensures AllSome(Map(f, xs)).Some?
    ensures |AllSome(Map(f, xs)).value| == |xs|
    ensures forall k :: 0 <= k < |xs| ==> Some(AllSome(Map(f, xs)).value[k]) == f(xs[k])
  {
    assert forall k :: 0 <= k < |xs| ==> Map(f, xs)[k].Some?;
  }

  /** A loop over `f` that meets a failing element yields nothing. */
  lemma MapSomeNone<A, B>(f: A -> Option<B>, xs: seq<A>, k: int)
    requires 0 <= k < |xs| && f(xs[k]).None?
    ensures AllSome(Map(f, xs)).None?
  {
    assert Map(f, xs)[k].None?;
  }

  /** One more element of the loop: its pair is stored on top of what the
      elements before it built. */
  lemma InsertEntriesNext<A, K, V>(m: map<K, V>, xs: seq<A>, entry: A -> Option<(K, V)>, i: int, p: (K, V))
    requires 0 <= i < |xs| && InsertEntries(m, xs[..i], entry).Some? && entry(xs[i]) == Some(p)
    ensures InsertEntries(m, xs[..i + 1], entry) == Some(InsertEntries(m, xs[..i], entry).value[p.0 := p.1])
  {
    var front := Map(entry, xs[..i]);
    MapNext(entry, xs, i);
    AllSomeNext(front, p);
    InsertAllNext(m, AllSome(front).value, p);
  }

  /** An element that cannot be turned makes the loop raise. */
  lemma InsertEntriesStops<A, K, V>(m: map<K, V>, xs: seq<A>, entry: A -> Option<(K, V)>, i: int)
    requires 0 <= i < |xs| && entry(xs[i]).None?
    ensures InsertEntries(m, xs, entry).None?
  {
    assert Map(entry, xs)[i].None?;
  }

  /** The loop itself, storing into the dict as it goes. */
  method InsertEach<A, K, V>(m: map<K, V>, xs: seq<A>, entry: A -> Option<(K, V)>) returns (r: Option<map<K, V>>)
    ensures r == InsertEntries(m, xs, entry)
  {
    var d := m;
    var i := 0;
    assert xs[..0] == [];
    while i < |xs|
      invariant 0 <= i <= |xs|
      invariant InsertEntries(m, xs[..i], entry) == Some(d)
    {
      var e := entry(xs[i]);
      if e.None? {
        InsertEntriesStops(m, xs, entry, i);
        return None;
      }
      InsertEntriesNext(m, xs, entry, i, e.value);
      d := d[e.value.0 := e.value.1];
      i := i + 1;
    }
    assert xs[..i] == xs;
    return Some(d);
  }

  /** The keys of a successful loop are the old keys and the keys of the elements. */
  lemma InsertEntriesKeys<A, K, V>(m: map<K, V>, xs: seq<A>, entry: A -> Option<(K, V)>, k: K)
    requires InsertEntries(m, xs, entry).Some?
    ensures k in InsertEntries(m, xs, entry).value <==>
              k in m || exists j :: 0 <= j < |xs| && entry(xs[j]).value.0 == k
  {
    var pairs := AllSome(Map(entry, xs)).value;
    InsertAllKeys(m, pairs, k);
    if exists j :: 0 <= j < |xs| && entry(xs[j]).value.0 == k {
      var j :| 0 <= j < |xs| && entry(xs[j]).value.0 == k;
      assert pairs[j].0 == k;
    }
  }

  /** A key takes the value of the last element that yields it. */
  lemma InsertEntriesLastWins<A, K, V>(m: map<K, V>, xs: seq<A>, entry: A -> Option<(K, V)>, j: int)
    requires InsertEntries(m, xs, entry).Some? && 0 <= j < |xs|
    requires forall i :: j < i < |xs| ==> entry(xs[i]).value.0 != entry(xs[j]).value.0
    ensures entry(xs[j]).value.0 in InsertEntries(m, xs, entry).value
    ensures InsertEntries(m, xs, entry).value[entry(xs[j]).value.0] == entry(xs[j]).value.1
  {
    var pairs := AllSome(Map(entry, xs)).value;
    InsertAllLastWins(m, pairs, j);
  }

  /** The loop raises exactly when some element cannot be turned into an entry. */
  lemma InsertEntriesFails<A, K, V>(m: map<K, V>, xs: seq<A>, entry: A -> Option<(K, V)>)
    ensures InsertEntries(m, xs, entry).None? <==> exists j :: 0 <= j < |xs| && entry(xs[j]).None?
  {
    if exists j :: 0 <= j < |xs| && entry(xs[j]).None? {
      var j :| 0 <= j < |xs| && entry(xs[j]).None?;
      assert Map(entry, xs)[j].None?;
    }
  }
}
