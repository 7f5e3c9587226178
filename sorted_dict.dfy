/**
 * Django's `SortedDict`: a dictionary that remembers the order in which its keys
 * were first inserted. A dictionary is a sequence of (key, value) pairs; the
 * dictionaries this core builds have unique keys.
 */
module SortedDicts {
  import opened Results

  type Items<V> = seq<(string, V)>

  /** The keys in iteration order (`keyOrder`). */
  function Keys<V>(d: Items<V>): (ks: seq<string>)
    ensures |ks| == |d|
    ensures forall i :: 0 <= i < |d| ==> ks[i] == d[i].0
  {
    if d == [] then [] else [d[0].0] + Keys(d[1..])
  }

  ghost predicate Distinct(ks: seq<string>) {
    forall i, j :: 0 <= i < j < |ks| ==> ks[i] != ks[j]
  }

  /** What every `SortedDict` satisfies: no key occurs twice. */
  ghost predicate UniqueKeys<V>(d: Items<V>) {
    Distinct(Keys(d))
  }

  /** `d.get(k)`: the value of the first pair with key `k`. */
  function Get<V>(d: Items<V>, k: string): (r: Option<V>)
    ensures r.None? <==> k !in Keys(d)
  {
    if d == [] then None else if d[0].0 == k then Some(d[0].1) else Get(d[1..], k)
  }

  /** The value of the LAST pair with key `k`: what `dict(pairs)` keeps. */
  function LastGet<V>(d: Items<V>, k: string): (r: Option<V>)
    ensures r.None? <==> k !in Keys(d)
  {
    if d == [] then None
    else
      var later := LastGet(d[1..], k);
      if later.Some? then later else if d[0].0 == k then Some(d[0].1) else None
  }

  /**
   * `d[k] = v` on a `SortedDict`: an existing key keeps its slot and takes the
   * new value; a new key goes to the end.
   */
  function Set<V>(d: Items<V>, k: string, v: V): (r: Items<V>)
    ensures Keys(r) == if k in Keys(d) then Keys(d) else Keys(d) + [k]
    ensures forall k' :: Get(r, k') == if k' == k then Some(v) else Get(d, k')
  {
    if d == [] then [(k, v)]
    else if d[0].0 == k then [(k, v)] + d[1..]
    else [d[0]] + Set(d[1..], k, v)
  }

  /** The keys of `ks` that are neither in `seen` nor earlier in `ks`, in order. */
  function Fresh(ks: seq<string>, seen: seq<string>): (r: seq<string>)
    ensures forall x :: x in r <==> x in ks && x !in seen
    ensures Distinct(r)
  {
    if ks == [] then []
    else if ks[0] in seen then Fresh(ks[1..], seen)
    else
      var rest := Fresh(ks[1..], seen + [ks[0]]);
      assert ks[0] !in rest;
      [ks[0]] + rest
  }

  /**
   * `d.update(o)`: every pair of `o`, left to right, is stored with `Set`
   * (its meaning is stated by UpdateKeys and UpdateGet).
   */
  function Update<V>(d: Items<V>, o: Items<V>): Items<V>
    decreases |o|
  {
    if o == [] then d else Update(Set(d, o[0].0, o[0].1), o[1..])
  }

  /** The keys of `d` keep their order; new keys follow in order of first occurrence in `o`. */
  lemma {:induction false} UpdateKeys<V>(d: Items<V>, o: Items<V>)
    ensures Keys(Update(d, o)) == Keys(d) + Fresh(Keys(o), Keys(d))
    decreases |o|
  {
    if o != [] {
      var k, s := o[0].0, Set(d, o[0].0, o[0].1);
      assert Update(d, o) == Update(s, o[1..]);
      UpdateKeys(s, o[1..]);
      var ko := Keys(o);
      assert ko == [k] + Keys(o[1..]);
      assert ko[0] == k && ko[1..] == Keys(o[1..]);
      if k in Keys(d) {
        assert Fresh(ko, Keys(d)) == Fresh(Keys(o[1..]), Keys(d));
      } else {
        assert Fresh(ko, Keys(d)) == [k] + Fresh(Keys(o[1..]), Keys(d) + [k]);
        assert Keys(s) == Keys(d) + [k];
      }
    }
  }

  /** A key of `o` takes its last value in `o`; any other key keeps its value in `d`. */
  lemma {:induction false} UpdateGet<V>(d: Items<V>, o: Items<V>, k: string)
    ensures Get(Update(d, o), k) == if k in Keys(o) then LastGet(o, k) else Get(d, k)
    decreases |o|
  {
    if o != [] {
      var s := Set(d, o[0].0, o[0].1);
      UpdateGet(s, o[1..], k);
      assert Keys(o) == [o[0].0] + Keys(o[1..]);
    }
  }

  /** `SortedDict(pairs)`: a key keeps its first position and takes its last value. */
  function FromPairs<V>(s: Items<V>): (r: Items<V>)
    ensures Keys(r) == Fresh(Keys(s), [])
    ensures UniqueKeys(r)
    ensures forall k :: Get(r, k) == LastGet(s, k)
  {
    UpdateKeys([], s);
    assert forall k :: Get(Update([], s), k) == LastGet(s, k) by {
      forall k ensures Get(Update([], s), k) == LastGet(s, k) {
        UpdateGet([], s, k);
      }
    }
    Update([], s)
  }

  /** The pairs of `d`, each with the value `o` gives its key when `o` has it. */
  function Overlay<V>(d: Items<V>, o: Items<V>): (r: Items<V>)
    ensures Keys(r) == Keys(d)
    ensures forall i :: 0 <= i < |d| ==>
      r[i].1 == if d[i].0 in Keys(o) then LastGet(o, d[i].0).value else d[i].1
  {
    if d == [] then []
    else
      var k := d[0].0;
      [(k, if k in Keys(o) then LastGet(o, k).value else d[0].1)] + Overlay(d[1..], o)
  }

  /** The pairs of `o` whose key is not in `ks`, in their order in `o`. */
  function Appended<V>(o: Items<V>, ks: seq<string>): (r: Items<V>)
    ensures forall i :: 0 <= i < |r| ==> r[i] in o && r[i].0 !in ks
    ensures forall i :: 0 <= i < |o| && o[i].0 !in ks ==> o[i] in r
  {
    if o == [] then [] else (if o[0].0 in ks then [] else [o[0]]) + Appended(o[1..], ks)
  }

  lemma KeysAppend<V>(a: Items<V>, b: Items<V>)
    ensures Keys(a + b) == Keys(a) + Keys(b)
  {
  }

  lemma UniqueTail<V>(d: Items<V>)
    requires UniqueKeys(d) && d != []
    ensures UniqueKeys(d[1..]) && d[0].0 !in Keys(d[1..])
  {
  }

  /** In a dictionary with unique keys, `get` finds every pair by its key. */
  lemma {:induction false} GetAt<V>(d: Items<V>, i: nat)
    requires UniqueKeys(d) && i < |d|
    ensures Get(d, d[i].0) == Some(d[i].1)
  {
    if i > 0 {
      UniqueTail(d);
      assert Keys(d)[0] != Keys(d)[i];
      GetAt(d[1..], i - 1);
    }
  }

  /** With unique keys the first and the last pair of a key are the same pair. */
  lemma {:induction false} LastGetUnique<V>(d: Items<V>, k: string)
    requires UniqueKeys(d)
    ensures LastGet(d, k) == Get(d, k)
  {
    if d != [] {
      UniqueTail(d);
      LastGetUnique(d[1..], k);
    }
  }

  /** Two dictionaries with unique keys, the same key order and the same lookups are equal. */
  lemma {:induction false} Extensional<V>(a: Items<V>, b: Items<V>)
    requires UniqueKeys(a) && Keys(a) == Keys(b)
    requires forall k :: Get(a, k) == Get(b, k)
    ensures a == b
  {
    assert |a| == |b|;
    forall i | 0 <= i < |a| ensures a[i] == b[i] {
      assert a[i].0 == Keys(a)[i] == Keys(b)[i] == b[i].0;
      GetAt(a, i);
      GetAt(b, i);
    }
  }

  lemma DistinctAppend(a: seq<string>, b: seq<string>)
    requires Distinct(a) && Distinct(b)
    requires forall x :: x in b ==> x !in a
    ensures Distinct(a + b)
  {
    forall i, j | 0 <= i < j < |a + b| ensures (a + b)[i] != (a + b)[j] {
      if i < |a| && j >= |a| {
        assert (a + b)[j] == b[j - |a|];
        assert b[j - |a|] in b;
      }
    }
  }

  /** Updating a dictionary with unique keys keeps its keys unique. */
  lemma UpdateUnique<V>(d: Items<V>, o: Items<V>)
    requires UniqueKeys(d)
    ensures UniqueKeys(Update(d, o))
  {
    UpdateKeys(d, o);
    DistinctAppend(Keys(d), Fresh(Keys(o), Keys(d)));
  }

  /** `Fresh` depends on `seen` only through membership. */
  lemma {:induction false} FreshSameMembership(ks: seq<string>, s1: seq<string>, s2: seq<string>)
    requires forall x :: x in ks ==> (x in s1 <==> x in s2)
    ensures Fresh(ks, s1) == Fresh(ks, s2)
  {
    if ks != [] {
      FreshSameMembership(ks[1..], s1 + [ks[0]], s2 + [ks[0]]);
      FreshSameMembership(ks[1..], s1, s2);
    }
  }

  /** Fresh keeps every key of a distinct sequence that is not already seen. */
  lemma {:induction false} KeysAppended<V>(o: Items<V>, ks: seq<string>)
    requires UniqueKeys(o)
    ensures Keys(Appended(o, ks)) == Fresh(Keys(o), ks)
  {
    if o != [] {
      UniqueTail(o);
      KeysAppended(o[1..], ks);
      assert Keys(o) == [o[0].0] + Keys(o[1..]);
      KeysAppend(if o[0].0 in ks then [] else [o[0]], Appended(o[1..], ks));
      if o[0].0 !in ks {
        FreshSameMembership(Keys(o[1..]), ks + [o[0].0], ks);
      }
    }
  }

  lemma {:induction false} GetAppend<V>(a: Items<V>, b: Items<V>, k: string)
    ensures Get(a + b, k) == if k in Keys(a) then Get(a, k) else Get(b, k)
  {
    if a != [] {
      assert (a + b)[0] == a[0];
      assert (a + b)[1..] == a[1..] + b;
      assert Keys(a) == [a[0].0] + Keys(a[1..]);
      GetAppend(a[1..], b, k);
    } else {
      assert a + b == b;
    }
  }

  lemma {:induction false} GetOverlay<V>(d: Items<V>, o: Items<V>, k: string)
    ensures Get(Overlay(d, o), k) == if k in Keys(d) && k in Keys(o) then LastGet(o, k) else Get(d, k)
  {
    if d != [] {
      GetOverlay(d[1..], o, k);
    }
  }

  lemma {:induction false} GetAppended<V>(o: Items<V>, ks: seq<string>, k: string)
    ensures Get(Appended(o, ks), k) == if k in ks then None else Get(o, k)
  {
    if o != [] {
      GetAppended(o[1..], ks, k);
      GetAppend(if o[0].0 in ks then [] else [o[0]], Appended(o[1..], ks), k);
    }
  }

  /**
   * `d.update(o)` for two dictionaries: the pairs of `d` stay in their slots,
   * each taking the value `o` gives its key when `o` has it, and the pairs of `o`
   * with new keys follow in `o`'s order.
   */
  lemma UpdateShape<V>(d: Items<V>, o: Items<V>)
    requires UniqueKeys(d) && UniqueKeys(o)
    ensures Update(d, o) == Overlay(d, o) + Appended(o, Keys(d))
  {
    var u, r := Update(d, o), Overlay(d, o) + Appended(o, Keys(d));
    UpdateUnique(d, o);
    UpdateKeys(d, o);
    KeysAppend(Overlay(d, o), Appended(o, Keys(d)));
    KeysAppended(o, Keys(d));
    forall k ensures Get(u, k) == Get(r, k) {
      UpdateGet(d, o, k);
      GetAppend(Overlay(d, o), Appended(o, Keys(d)), k);
      GetOverlay(d, o, k);
      GetAppended(o, Keys(d), k);
      LastGetUnique(o, k);
    }
    Extensional(u, r);
  }

  /** Updating by a concatenation is updating by each part in turn. */
  lemma {:induction false} UpdateAppend<V>(d: Items<V>, a: Items<V>, b: Items<V>)
    ensures Update(d, a + b) == Update(Update(d, a), b)
    decreases |a|
  {
    if a == [] {
      assert a + b == b;
    } else {
      assert (a + b)[0] == a[0];
      assert (a + b)[1..] == a[1..] + b;
      UpdateAppend(Set(d, a[0].0, a[0].1), a[1..], b);
    }
  }

  lemma {:induction false} FreshOfDistinct(ks: seq<string>)
    requires Distinct(ks)
    ensures Fresh(ks, []) == ks
  {
    if ks != [] {
      assert Distinct(ks[1..]);
      FreshOfDistinct(ks[1..]);
      assert ks[0] !in ks[1..];
      FreshSameMembership(ks[1..], [ks[0]], []);
      assert [] + [ks[0]] == [ks[0]];
    }
  }

  /** Building a `SortedDict` from pairs whose keys are already unique keeps them as they are. */
  lemma FromPairsOfUnique<V>(s: Items<V>)
    requires UniqueKeys(s)
    ensures FromPairs(s) == s
  {
    FreshOfDistinct(Keys(s));
    forall k ensures Get(FromPairs(s), k) == Get(s, k) {
      LastGetUnique(s, k);
    }
    Extensional(FromPairs(s), s);
  }

  /**
   * `SortedDict(a + b)` is `SortedDict(a)` updated with `b`: the keys of `a` come
   * first, in first-occurrence order, each with the value `b` gives it if any,
   * then the pairs of `b` with new keys in `b`'s order.
   */
  lemma FromPairsConcat<V>(a: Items<V>, b: Items<V>)
    requires UniqueKeys(b)
    ensures FromPairs(a + b) == Overlay(FromPairs(a), b) + Appended(b, Keys(FromPairs(a)))
  {
    UpdateAppend([], a, b);
    UpdateShape(FromPairs(a), b);
  }
}
