/**
 * `get_declared_filters`: collecting the `Filter` attributes of a class
 * declaration, ordering them by creation counter and putting the mappings the
 * bases carry in front of them.
 */
module DeclaredFilters {
  import opened Results
  import opened SortedDicts
  import opened Filters

  /** A class attribute: a `Filter` instance or any other value. */
  datatype Attr = FilterAttr(filter: Filter) | OtherAttr(value: string)

  /**
   * A base class as `get_declared_filters` sees it: whether it is a `FilterSet`
   * subclass, and its `base_filters`, `declared_filters` and `declared_fields`
   * attributes (None when the class has no such attribute).
   */
  datatype Base = Base(
    isFilterSet: bool,
    baseFilters: Option<Items<Filter>>,
    declaredFilters: Option<Items<Filter>>,
    declaredFields: Option<Items<Filter>>)

  /**
   * What one base puts in front of the collected filters, as written: with
   * `with_base_filters` its `base_filters`; without, the `declared_fields` of a
   * base that has `declared_filters`, which raises when that base has no
   * `declared_fields`.
   */
  function Contribution(b: Base, withBaseFilters: bool): Result<Items<Filter>> {
    if withBaseFilters then Ok(if b.baseFilters.Some? then b.baseFilters.value else [])
    else if b.declaredFilters.None? then Ok([])
    else if b.declaredFields.Some? then Ok(b.declaredFields.value)
    else Err(AttributeError("declared_fields"))
  }

  /**
   * The inherited pairs the loop over `bases[::-1]` prepends: the pairs of the
   * first-listed base come first. The loop meets the last-listed base first, so
   * an exception there is the one raised.
   */
  function Inherited(bases: seq<Base>, withBaseFilters: bool): Result<Items<Filter>> {
    if bases == [] then Ok([])
    else
      var later := Inherited(bases[1..], withBaseFilters);
      if later.Err? then later
      else match Contribution(bases[0], withBaseFilters)
        case Err(e) => Err(e)
        case Ok(p) => Ok(p + later.value)
  }

  /** The filter attributes, each named after its attribute key, in attribute order. */
  function LocalFilters(attrs: Items<Attr>): (r: Items<Filter>)
    ensures forall i :: 0 <= i < |r| ==> r[i].1.name == Some(r[i].0)
  {
    if attrs == [] then []
    else
      var last := attrs[|attrs| - 1];
      LocalFilters(attrs[..|attrs| - 1]) +
        (if last.1.FilterAttr? then [(last.0, last.1.filter.(name := Some(last.0)))] else [])
  }

  /** The attributes left after the filters are popped, in attribute order. */
  function Remaining(attrs: Items<Attr>): Items<Attr> {
    if attrs == [] then []
    else
      var last := attrs[|attrs| - 1];
      Remaining(attrs[..|attrs| - 1]) + (if last.1.FilterAttr? then [] else [last])
  }

  /** The filter an attribute lookup yields once named `k`, if it is a filter. */
  function NamedFilter(a: Option<Attr>, k: string): Option<Filter> {
    if a.Some? && a.value.FilterAttr? then Some(a.value.filter.(name := Some(k))) else None
  }

  /** The attribute a lookup yields, if it is not a filter. */
  function NonFilter(a: Option<Attr>): Option<Attr> {
    if a.Some? && a.value.OtherAttr? then a else None
  }

  ghost predicate SortedByCounter(s: Items<Filter>) {
    forall i, j :: 0 <= i < j < |s| ==> s[i].1.creationCounter <= s[j].1.creationCounter
  }

  ghost predicate AtLeast(s: Items<Filter>, c: nat) {
    forall i :: 0 <= i < |s| ==> c <= s[i].1.creationCounter
  }

  lemma SortedCons(p: (string, Filter), s: Items<Filter>)
    requires SortedByCounter(s) && AtLeast(s, p.1.creationCounter)
    ensures SortedByCounter([p] + s)
  {
  }

  /** Inserting `p` before the first pair whose counter is not smaller. */
  function Insert(p: (string, Filter), s: Items<Filter>): (r: Items<Filter>)
    ensures |r| == |s| + 1 && multiset(r) == multiset(s) + multiset{p}
  {
    if s == [] || p.1.creationCounter <= s[0].1.creationCounter then [p] + s
    else
      assert s == [s[0]] + s[1..];
      [s[0]] + Insert(p, s[1..])
  }

  lemma {:induction false} InsertAtLeast(p: (string, Filter), s: Items<Filter>, c: nat)
    requires AtLeast(s, c) && c <= p.1.creationCounter
    ensures AtLeast(Insert(p, s), c)
  {
    if !(s == [] || p.1.creationCounter <= s[0].1.creationCounter) {
      InsertAtLeast(p, s[1..], c);
    }
  }

  /** Insertion keeps a counter-sorted sequence sorted. */
  lemma {:induction false} InsertSorted(p: (string, Filter), s: Items<Filter>)
    requires SortedByCounter(s)
    ensures SortedByCounter(Insert(p, s))
  {
    if s == [] || p.1.creationCounter <= s[0].1.creationCounter {
      SortedCons(p, s);
    } else {
      InsertSorted(p, s[1..]);
      InsertAtLeast(p, s[1..], s[0].1.creationCounter);
      SortedCons(s[0], Insert(p, s[1..]));
    }
  }

  /** Insertion adds the key of `p`; a new key is found with its value and nothing else moves. */
  lemma {:induction false} InsertKeys(p: (string, Filter), s: Items<Filter>)
    ensures forall k :: k in Keys(Insert(p, s)) <==> k == p.0 || k in Keys(s)
    ensures UniqueKeys(s) && p.0 !in Keys(s) ==> UniqueKeys(Insert(p, s))
    ensures p.0 !in Keys(s) ==> forall k :: Get(Insert(p, s), k) == if k == p.0 then Some(p.1) else Get(s, k)
  {
    var r := Insert(p, s);
    if s == [] || p.1.creationCounter <= s[0].1.creationCounter {
      assert Keys(r) == [p.0] + Keys(s);
    } else {
      InsertKeys(p, s[1..]);
      var rest := Insert(p, s[1..]);
      assert Keys(s) == [s[0].0] + Keys(s[1..]);
      assert Keys(r) == [s[0].0] + Keys(rest);
      if UniqueKeys(s) && p.0 !in Keys(s) {
        UniqueTail(s);
        DistinctAppend([s[0].0], Keys(rest));
      }
    }
  }

  /**
   * `filters.sort(key=lambda x: x[1].creation_counter)`: a stable insertion sort
   * on the creation counter, a permutation into ascending counter order.
   */
  function SortByCounter(s: Items<Filter>): (r: Items<Filter>)
    ensures |r| == |s| && multiset(r) == multiset(s)
    ensures SortedByCounter(r)
  {
    if s == [] then []
    else
      var sorted := SortByCounter(s[1..]);
      assert s == [s[0]] + s[1..];
      InsertSorted(s[0], sorted);
      Insert(s[0], sorted)
  }

  /** Sorting keeps the keys, and with unique keys every lookup. */
  lemma {:induction false} SortKeys(s: Items<Filter>)
    ensures forall k :: k in Keys(SortByCounter(s)) <==> k in Keys(s)
    ensures UniqueKeys(s) ==> UniqueKeys(SortByCounter(s)) && forall k :: Get(SortByCounter(s), k) == Get(s, k)
  {
    if s != [] {
      SortKeys(s[1..]);
      assert Keys(s) == [s[0].0] + Keys(s[1..]);
      InsertKeys(s[0], SortByCounter(s[1..]));
      if UniqueKeys(s) { UniqueTail(s); }
    }
  }

  /**
   * What `get_declared_filters(bases, attrs, with_base_filters)` returns: the
   * inherited pairs followed by the local filters in counter order, made into
   * a `SortedDict`; or the exception the loop over the bases raises.
   */
  function Collect(bases: seq<Base>, attrs: Items<Attr>, withBaseFilters: bool): Result<Items<Filter>> {
    match Inherited(bases, withBaseFilters)
    case Err(e) => Err(e)
    case Ok(inherited) => Ok(FromPairs(inherited + SortByCounter(LocalFilters(attrs))))
  }

  /** Once a suffix of the bases raises, the whole loop raises the same exception. */
  lemma {:induction false} InheritedRaisesFrom(bases: seq<Base>, withBaseFilters: bool, i: nat)
    requires i <= |bases| && Inherited(bases[i..], withBaseFilters).Err?
    ensures Inherited(bases, withBaseFilters) == Inherited(bases[i..], withBaseFilters)
  {
    if i > 0 {
      assert bases[i - 1..][1..] == bases[i..];
      InheritedRaisesFrom(bases, withBaseFilters, i - 1);
    }
  }

  lemma ConcatAssoc<T>(a: seq<T>, b: seq<T>, c: seq<T>)
    ensures a + (b + c) == (a + b) + c
  {
  }

  lemma InheritedStep(bases: seq<Base>, withBaseFilters: bool, i: nat)
    requires i < |bases| && Inherited(bases[i + 1..], withBaseFilters).Ok?
    ensures var c := Contribution(bases[i], withBaseFilters);
      Inherited(bases[i..], withBaseFilters) ==
        if c.Err? then Err(c.error) else Ok(c.value + Inherited(bases[i + 1..], withBaseFilters).value)
  {
  }

  /**
   * `get_declared_filters`: pops every `Filter` attribute out of `attrs`, names
   * it after its key, sorts the filters by creation counter and prepends the
   * pairs of each base, walking the bases from the last to the first. Returns
   * the mapping (or the exception raised) and what is left of `attrs`.
   */
  method GetDeclaredFilters(bases: seq<Base>, attrs: Items<Attr>, withBaseFilters: bool)
    returns (declared: Result<Items<Filter>>, remaining: Items<Attr>)
    ensures remaining == Remaining(attrs)
    ensures declared == Collect(bases, attrs, withBaseFilters)
  {
    var filters: Items<Filter> := [];
    remaining := [];
    for i := 0 to |attrs|
      invariant filters == LocalFilters(attrs[..i])
      invariant remaining == Remaining(attrs[..i])
    {
      assert attrs[..i + 1][..i] == attrs[..i];
      var (name, obj) := attrs[i];
      if obj.FilterAttr? {
        filters := filters + [(name, obj.filter.(name := Some(name)))];
      } else {
        remaining := remaining + [attrs[i]];
      }
    }
    assert attrs[..|attrs|] == attrs;
    filters := SortByCounter(filters);
    ghost var local := filters;
    ghost var inherited: Items<Filter> := [];
    var i := |bases|;
    while i > 0
      invariant 0 <= i <= |bases|
      invariant Inherited(bases[i..], withBaseFilters) == Ok(inherited)
      invariant filters == inherited + local
    {
      i := i - 1;
      var base := bases[i];
      InheritedStep(bases, withBaseFilters, i);
      var contribution: Items<Filter> := [];
      if withBaseFilters {
        if base.baseFilters.Some? {
          contribution := base.baseFilters.value;
        }
      } else if base.declaredFilters.Some? {
        if base.declaredFields.None? {
          InheritedRaisesFrom(bases, withBaseFilters, i);
          declared := Err(AttributeError("declared_fields"));
          return;
        }
        contribution := base.declaredFields.value;
      }
      ConcatAssoc(contribution, inherited, local);
      filters := contribution + filters;
      inherited := contribution + inherited;
    }
    assert bases[0..] == bases;
    declared := Ok(FromPairs(filters));
  }

  lemma UniqueInit<V>(d: Items<V>)
    requires UniqueKeys(d) && d != []
    ensures UniqueKeys(d[..|d| - 1]) && d[|d| - 1].0 !in Keys(d[..|d| - 1])
  {
  }

  /**
   * Popping the filters splits `attrs` by key: a filter attribute is found,
   * named after its key, among the local filters and no longer among the
   * attributes; any other attribute stays where it was.
   */
  lemma {:induction false} CollectSplitsAttrs(attrs: Items<Attr>, k: string)
    requires UniqueKeys(attrs)
    ensures Get(LocalFilters(attrs), k) == NamedFilter(Get(attrs, k), k)
    ensures Get(Remaining(attrs), k) == NonFilter(Get(attrs, k))
  {
    if attrs != [] {
      var init, last := attrs[..|attrs| - 1], attrs[|attrs| - 1];
      assert attrs == init + [last];
      UniqueInit(attrs);
      CollectSplitsAttrs(init, k);
      GetAppend(init, [last], k);
      var tail := if last.1.FilterAttr? then [(last.0, last.1.filter.(name := Some(last.0)))] else [];
      GetAppend(LocalFilters(init), tail, k);
      GetAppend(Remaining(init), if last.1.FilterAttr? then [] else [last], k);
    }
  }

  /** The local filters have unique keys, because the attribute keys are unique. */
  lemma {:induction false} LocalFiltersUnique(attrs: Items<Attr>)
    requires UniqueKeys(attrs)
    ensures UniqueKeys(LocalFilters(attrs))
  {
    if attrs != [] {
      var init, last := attrs[..|attrs| - 1], attrs[|attrs| - 1];
      UniqueInit(attrs);
      LocalFiltersUnique(init);
      if last.1.FilterAttr? {
        var local := LocalFilters(init);
        CollectSplitsAttrs(init, last.0);
        KeysAppend(local, [(last.0, last.1.filter.(name := Some(last.0)))]);
        DistinctAppend(Keys(local), [last.0]);
      }
    }
  }

  lemma AppendedAtLeast(s: Items<Filter>, ks: seq<string>, c: nat)
    requires AtLeast(s, c)
    ensures AtLeast(Appended(s, ks), c)
  {
  }

  /** A subsequence of a counter-sorted sequence is counter-sorted. */
  lemma {:induction false} SortedAppended(s: Items<Filter>, ks: seq<string>)
    requires SortedByCounter(s)
    ensures SortedByCounter(Appended(s, ks))
  {
    if s != [] {
      var rest := Appended(s[1..], ks);
      SortedAppended(s[1..], ks);
      if s[0].0 !in ks {
        AppendedAtLeast(s[1..], ks, s[0].1.creationCounter);
        SortedCons(s[0], rest);
      } else {
        assert Appended(s, ks) == [] + rest;
      }
    }
  }

  /**
   * The shape of the collected mapping: the inherited keys first, in the order
   * of their first occurrence (first-listed base first), each taking the local
   * filter of the same name when there is one; then the local filters with new
   * names, in ascending creation-counter order.
   */
  lemma CollectShape(bases: seq<Base>, attrs: Items<Attr>, withBaseFilters: bool)
    requires UniqueKeys(attrs) && Inherited(bases, withBaseFilters).Ok?
    ensures var inherited := FromPairs(Inherited(bases, withBaseFilters).value);
      var local := SortByCounter(LocalFilters(attrs));
      Collect(bases, attrs, withBaseFilters) == Ok(Overlay(inherited, local) + Appended(local, Keys(inherited))) &&
      SortedByCounter(Appended(local, Keys(inherited)))
  {
    var local := SortByCounter(LocalFilters(attrs));
    LocalFiltersUnique(attrs);
    SortKeys(LocalFilters(attrs));
    FromPairsConcat(Inherited(bases, withBaseFilters).value, local);
    SortedAppended(local, Keys(FromPairs(Inherited(bases, withBaseFilters).value)));
  }

  /**
   * Without inherited pairs the result is exactly the filter attributes, each
   * named after its key, in ascending creation-counter order.
   */
  lemma LocalOnly(bases: seq<Base>, attrs: Items<Attr>, withBaseFilters: bool)
    requires UniqueKeys(attrs) && Inherited(bases, withBaseFilters) == Ok([])
    ensures Collect(bases, attrs, withBaseFilters).Ok?
    ensures var r := Collect(bases, attrs, withBaseFilters).value;
      SortedByCounter(r) && UniqueKeys(r) &&
      forall k :: Get(r, k) == NamedFilter(Get(attrs, k), k)
  {
    var local := SortByCounter(LocalFilters(attrs));
    LocalFiltersUnique(attrs);
    SortKeys(LocalFilters(attrs));
    assert [] + local == local;
    FromPairsOfUnique(local);
    forall k ensures Get(local, k) == NamedFilter(Get(attrs, k), k) {
      CollectSplitsAttrs(attrs, k);
    }
  }

  /** Whether reading a base's mapping raises, as written. */
  predicate Raises(b: Base, withBaseFilters: bool) {
    !withBaseFilters && b.declaredFilters.Some? && b.declaredFields.None?
  }

  /**
   * The as-written collection raises exactly when called without
   * `with_base_filters` and some base has `declared_filters` but no
   * `declared_fields`.
   */
  lemma {:induction false} CollectRaisesIff(bases: seq<Base>, attrs: Items<Attr>, withBaseFilters: bool)
    ensures Collect(bases, attrs, withBaseFilters).Err? <==>
      exists i :: 0 <= i < |bases| && Raises(bases[i], withBaseFilters)
  {
    InheritedRaisesIff(bases, withBaseFilters);
  }

  lemma {:induction false} InheritedRaisesIff(bases: seq<Base>, withBaseFilters: bool)
    ensures Inherited(bases, withBaseFilters).Err? <==>
      exists i :: 0 <= i < |bases| && Raises(bases[i], withBaseFilters)
  {
    if bases != [] {
      InheritedRaisesIff(bases[1..], withBaseFilters);
      if exists i :: 0 <= i < |bases[1..]| && Raises(bases[1..][i], withBaseFilters) {
        var i :| 0 <= i < |bases[1..]| && Raises(bases[1..][i], withBaseFilters);
        assert bases[i + 1] == bases[1..][i];
      } else {
        forall i | 0 < i < |bases| ensures !Raises(bases[i], withBaseFilters) {
          assert bases[i] == bases[1..][i - 1];
        }
      }
    }
  }

  // The evidently intended collection, reading `declared_filters` where the
  // source reads `declared_fields`.

  /** What one base contributes when its `declared_filters` are read. */
  function IntendedContribution(b: Base, withBaseFilters: bool): Items<Filter> {
    if withBaseFilters then (if b.baseFilters.Some? then b.baseFilters.value else [])
    else if b.declaredFilters.Some? then b.declaredFilters.value else []
  }

  function IntendedInherited(bases: seq<Base>, withBaseFilters: bool): Items<Filter> {
    if bases == [] then [] else IntendedContribution(bases[0], withBaseFilters) + IntendedInherited(bases[1..], withBaseFilters)
  }

  /** The corrected `get_declared_filters`, which never raises. */
  function CollectIntended(bases: seq<Base>, attrs: Items<Attr>, withBaseFilters: bool): Items<Filter> {
    FromPairs(IntendedInherited(bases, withBaseFilters) + SortByCounter(LocalFilters(attrs)))
  }

  /**
   * The corrected collection inherits the declared filters of the bases: their
   * keys come first, each taking the local filter of the same name when there
   * is one, and the new local filters follow in creation-counter order.
   */
  lemma CollectIntendedShape(bases: seq<Base>, attrs: Items<Attr>, withBaseFilters: bool)
    requires UniqueKeys(attrs)
    ensures var inherited := FromPairs(IntendedInherited(bases, withBaseFilters));
      var local := SortByCounter(LocalFilters(attrs));
      CollectIntended(bases, attrs, withBaseFilters) == Overlay(inherited, local) + Appended(local, Keys(inherited)) &&
      SortedByCounter(Appended(local, Keys(inherited)))
  {
    var local := SortByCounter(LocalFilters(attrs));
    LocalFiltersUnique(attrs);
    SortKeys(LocalFilters(attrs));
    FromPairsConcat(IntendedInherited(bases, withBaseFilters), local);
    SortedAppended(local, Keys(FromPairs(IntendedInherited(bases, withBaseFilters))));
  }

  /**
   * The two agree whenever no base carries `declared_filters`, and always with
   * `with_base_filters`.
   */
  lemma {:induction false} IntendedAgrees(bases: seq<Base>, attrs: Items<Attr>, withBaseFilters: bool)
    requires withBaseFilters || forall i :: 0 <= i < |bases| ==> bases[i].declaredFilters.None?
    ensures Collect(bases, attrs, withBaseFilters) == Ok(CollectIntended(bases, attrs, withBaseFilters))
  {
    InheritedAgrees(bases, withBaseFilters);
  }

  lemma {:induction false} InheritedAgrees(bases: seq<Base>, withBaseFilters: bool)
    requires withBaseFilters || forall i :: 0 <= i < |bases| ==> bases[i].declaredFilters.None?
    ensures Inherited(bases, withBaseFilters) == Ok(IntendedInherited(bases, withBaseFilters))
  {
    if bases != [] {
      assert forall i :: 0 <= i < |bases[1..]| ==> bases[1..][i] == bases[i + 1];
      InheritedAgrees(bases[1..], withBaseFilters);
    }
  }
}
