/**
 * `FilterSetOptions` and `FilterSetMetaclass.__new__`: what a filter-set class
 * declaration produces. A class is a value here; the creation counter the
 * schema filters advance is threaded through explicitly.
 */
module FilterSetMetaclass {
  import opened Results
  import opened SortedDicts
  import opened Filters
  import opened ModelFilters
  import opened DeclaredFilters

  /** The options an inner `Meta` class gives (None for an attribute it lacks). */
  datatype Options = Options(model: Option<Model>, fields: Option<seq<string>>, exclude: Option<seq<string>>)

  /**
   * `FilterSetOptions(options)`: reads `model`, `fields` and `exclude` from the
   * `Meta` class, each defaulting to None; without a `Meta` class all three are None.
   */
  function FilterSetOptions(meta: Option<Options>): (r: Options)
    ensures meta.None? ==> r.model.None? && r.fields.None? && r.exclude.None?
    ensures meta.Some? ==> r.model == meta.value.model && r.fields == meta.value.fields && r.exclude == meta.value.exclude
  {
    if meta.None? then Options(None, None, None) else meta.value
  }

  /**
   * A class the metaclass created: its name, whether it is a `FilterSet`
   * subclass (`FilterSet` itself, or a class with a `FilterSet` base), the
   * attributes left after the filters were popped, and `_meta`,
   * `declared_filters` and `base_filters` (None when the metaclass did not set
   * them).
   */
  datatype FilterSetClass = FilterSetClass(
    name: string,
    isFilterSet: bool,
    attrs: Items<Attr>,
    options: Option<Options>,
    declaredFilters: Option<Items<Filter>>,
    baseFilters: Option<Items<Filter>>)

  /** The outcome of a class statement and the creation counter after it. */
  datatype Created = Created(cls: Result<FilterSetClass>, counter: nat)

  /** How a created class looks to a later class statement that lists it as a base. */
  function AsBase(c: FilterSetClass): (b: Base)
    ensures b.isFilterSet == c.isFilterSet && b.declaredFields.None?
    ensures b.baseFilters == c.baseFilters && b.declaredFilters == c.declaredFilters
  {
    Base(c.isFilterSet, c.baseFilters, c.declaredFilters, None)
  }

  /** `[b for b in bases if issubclass(b, FilterSet)]`, or None while `FilterSet` itself is being defined. */
  function Parents(bases: seq<Base>, filterSetDefined: bool): (r: Option<seq<Base>>)
    ensures r.Some? <==> filterSetDefined
    ensures r.Some? ==> (forall b :: b in r.value ==> b in bases && b.isFilterSet) &&
                        (forall b :: b in bases && b.isFilterSet ==> b in r.value)
  {
    if !filterSetDefined then None
    else if bases == [] then Some([])
    else
      var rest := Parents(bases[1..], true).value;
      assert forall b :: b in bases ==> b == bases[0] || b in bases[1..];
      Some((if bases[0].isFilterSet then [bases[0]] else []) + rest)
  }

  /** The mapping `base_filters` takes: the schema filters updated by the declared ones. */
  function BaseFiltersOf(opts: Options, declared: Items<Filter>, s: Strategy, counter: nat): Items<Filter> {
    if opts.model.Some? then
      Update(FromPairs(FieldList(Schema(opts.model.value), opts.fields, opts.exclude, s, counter)), declared)
    else declared
  }

  /** The number of filters the schema step builds (how far the creation counter advances). */
  function SchemaCount(opts: Options, s: Strategy, counter: nat): nat {
    if opts.model.Some? then |FieldList(Schema(opts.model.value), opts.fields, opts.exclude, s, counter)| else 0
  }

  /**
   * What `FilterSetMetaclass.__new__(cls, name, bases, attrs)` produces, with
   * `meta` the `Meta` class the new class sees, `s` its `filter_for_field` and
   * `filterSetDefined` whether the name `FilterSet` is bound yet.
   */
  function Build(name: string, bases: seq<Base>, attrs: Items<Attr>, meta: Option<Options>,
                 s: Strategy, filterSetDefined: bool, counter: nat): Created
  {
    var parents := Parents(bases, filterSetDefined);
    match Collect(bases, attrs, false)
    case Err(e) => Created(Err(e), counter)
    case Ok(declared) =>
      var plain := FilterSetClass(name, parents.None? || parents.value != [], Remaining(attrs), None, None, None);
      if parents.None? || parents.value == [] then Created(Ok(plain), counter)
      else
        var opts := FilterSetOptions(meta);
        Created(Ok(plain.(options := Some(opts), declaredFilters := Some(declared),
                          baseFilters := Some(BaseFiltersOf(opts, declared, s, counter)))),
                counter + SchemaCount(opts, s, counter))
  }

  /** `FilterSetMetaclass.__new__`. */
  method NewClass(name: string, bases: seq<Base>, attrs: Items<Attr>, meta: Option<Options>,
                  filterForField: Strategy, filterSetDefined: bool, counter: nat)
    returns (r: Result<FilterSetClass>, next: nat)
    ensures Created(r, next) == Build(name, bases, attrs, meta, filterForField, filterSetDefined, counter)
  {
    var parents: Option<seq<Base>> := None;
    if filterSetDefined {
      var ps: seq<Base> := [];
      for i := 0 to |bases|
        invariant Parents(bases[..i], true) == Some(ps)
      {
        ParentsSnoc(bases, i);
        if bases[i].isFilterSet {
          ps := ps + [bases[i]];
        }
      }
      assert bases[..|bases|] == bases;
      parents := Some(ps);
    }
    var declared, remaining := GetDeclaredFilters(bases, attrs, false);
    next := counter;
    if declared.Err? {
      r := Err(declared.error);
      return;
    }
    var newClass := FilterSetClass(name, parents.None? || parents.value != [], remaining, None, None, None);
    if parents.None? || parents.value == [] {
      r := Ok(newClass);
      return;
    }
    var opts := FilterSetOptions(meta);
    var filters: Items<Filter>;
    if opts.model.Some? {
      filters, next := FiltersForModel(opts.model.value, opts.fields, opts.exclude, filterForField, counter);
      filters := Update(filters, declared.value);
    } else {
      filters := declared.value;
    }
    r := Ok(newClass.(options := Some(opts), declaredFilters := Some(declared.value), baseFilters := Some(filters)));
  }

  lemma {:induction false} ParentsSnoc(bases: seq<Base>, i: nat)
    requires i < |bases|
    ensures bases[i].isFilterSet ==> Parents(bases[..i + 1], true).value == Parents(bases[..i], true).value + [bases[i]]
    ensures !bases[i].isFilterSet ==> Parents(bases[..i + 1], true) == Parents(bases[..i], true)
  {
    if i > 0 {
      assert bases[..i + 1][1..] == bases[1..][..i];
      assert bases[..i][1..] == bases[1..][..i - 1];
      ParentsSnoc(bases[1..], i - 1);
      ConcatAssoc(if bases[0].isFilterSet then [bases[0]] else [], Parents(bases[1..][..i - 1], true).value, [bases[i]]);
    } else {
      assert bases[..1][1..] == [] && bases[..0] == [];
      var head := if bases[0].isFilterSet then [bases[0]] else [];
      assert Parents(bases[..1], true).value == head + [];
      assert head + [] == head;
    }
  }

  /**
   * A class with no `FilterSet` among its bases, or `FilterSet` itself, is
   * returned as plain as it was made: no `_meta`, `declared_filters` or
   * `base_filters`, and no filter is built.
   */
  lemma RootClassReturnsEarly(name: string, bases: seq<Base>, attrs: Items<Attr>, meta: Option<Options>,
                              s: Strategy, filterSetDefined: bool, counter: nat)
    requires !filterSetDefined || forall i :: 0 <= i < |bases| ==> !bases[i].isFilterSet
    requires forall i :: 0 <= i < |bases| ==> !Raises(bases[i], false)
    ensures Build(name, bases, attrs, meta, s, filterSetDefined, counter) ==
      Created(Ok(FilterSetClass(name, !filterSetDefined, Remaining(attrs), None, None, None)), counter)
  {
    CollectRaisesIff(bases, attrs, false);
    if filterSetDefined {
      NoParents(bases);
    }
  }

  lemma {:induction false} NoParents(bases: seq<Base>)
    requires forall i :: 0 <= i < |bases| ==> !bases[i].isFilterSet
    ensures Parents(bases, true) == Some([])
  {
    if bases != [] {
      assert forall i :: 0 <= i < |bases[1..]| ==> bases[1..][i] == bases[i + 1];
      NoParents(bases[1..]);
      assert !bases[0].isFilterSet;
      assert Parents(bases, true).value == [] + [];
    }
  }

  /**
   * `issubclass(cls, FilterSet)` for a created class: it holds for `FilterSet`
   * itself and exactly for a class with a `FilterSet` base, and every class
   * the metaclass completed is one.
   */
  lemma BuildIsFilterSet(name: string, bases: seq<Base>, attrs: Items<Attr>, meta: Option<Options>,
                         s: Strategy, filterSetDefined: bool, counter: nat)
    ensures var c := Build(name, bases, attrs, meta, s, filterSetDefined, counter);
      c.cls.Ok? ==>
        (c.cls.value.isFilterSet <==> !filterSetDefined || exists i :: 0 <= i < |bases| && bases[i].isFilterSet) &&
        (c.cls.value.declaredFilters.Some? ==> c.cls.value.isFilterSet)
  {
    if filterSetDefined {
      var ps := Parents(bases, true).value;
      if exists i :: 0 <= i < |bases| && bases[i].isFilterSet {
        var i :| 0 <= i < |bases| && bases[i].isFilterSet;
        assert bases[i] in ps;
      } else {
        NoParents(bases);
      }
    }
  }

  /**
   * A class built with the metaclass but without a `FilterSet` base is no
   * `FilterSet` subclass, so a class statement listing it as its base returns
   * early as well.
   */
  lemma PlainMetaclassBaseIsNotAParent(attrs: Items<Attr>, meta: Option<Options>, s: Strategy, counter: nat)
    ensures var x := Build("X", [Base(false, None, None, None)], [], None, s, true, counter);
      x == Created(Ok(FilterSetClass("X", false, [], None, None, None)), counter) &&
      Build("Y", [AsBase(x.cls.value)], attrs, meta, s, true, counter) ==
        Created(Ok(FilterSetClass("Y", false, Remaining(attrs), None, None, None)), counter)
  {
    var plain := Base(false, None, None, None);
    RootClassReturnsEarly("X", [plain], [], None, s, true, counter);
    assert Remaining([]) == [];
    assert AsBase(FilterSetClass("X", false, [], None, None, None)) == plain;
    RootClassReturnsEarly("Y", [plain], attrs, meta, s, true, counter);
  }

  /**
   * A filter-set class without a model gets `base_filters` equal to its
   * `declared_filters`, and builds no filter.
   */
  lemma NoModelBaseIsDeclared(name: string, bases: seq<Base>, attrs: Items<Attr>, meta: Option<Options>,
                              s: Strategy, counter: nat)
    requires FilterSetOptions(meta).model.None?
    requires Collect(bases, attrs, false).Ok? && exists i :: 0 <= i < |bases| && bases[i].isFilterSet
    ensures var c := Build(name, bases, attrs, meta, s, true, counter);
      c.cls.Ok? && c.cls.value.declaredFilters == Some(Collect(bases, attrs, false).value) &&
      c.cls.value.baseFilters == c.cls.value.declaredFilters && c.counter == counter
  {
    var i :| 0 <= i < |bases| && bases[i].isFilterSet;
    assert bases[i] in Parents(bases, true).value;
  }

  /** Every `base_filters` the metaclass stores has unique keys. */
  lemma BuildBaseFiltersUnique(name: string, bases: seq<Base>, attrs: Items<Attr>, meta: Option<Options>,
                               s: Strategy, filterSetDefined: bool, counter: nat)
    ensures var c := Build(name, bases, attrs, meta, s, filterSetDefined, counter);
      c.cls.Ok? && c.cls.value.baseFilters.Some? ==> UniqueKeys(c.cls.value.baseFilters.value)
  {
    var c := Build(name, bases, attrs, meta, s, filterSetDefined, counter);
    if c.cls.Ok? && c.cls.value.baseFilters.Some? {
      var declared := Collect(bases, attrs, false).value;
      var opts := FilterSetOptions(meta);
      if opts.model.Some? {
        UpdateUnique(FromPairs(FieldList(Schema(opts.model.value), opts.fields, opts.exclude, s, counter)), declared);
      }
    }
  }

  /**
   * A filter-set class with a model: `base_filters` holds the schema filters
   * first, in their order, with a declared filter replacing the schema filter
   * of the same name, then the declared filters with new names; the counter
   * advances once per schema filter.
   */
  lemma ModelBaseShape(name: string, bases: seq<Base>, attrs: Items<Attr>, meta: Option<Options>,
                       s: Strategy, counter: nat)
    requires FilterSetOptions(meta).model.Some?
    requires Collect(bases, attrs, false).Ok? && exists i :: 0 <= i < |bases| && bases[i].isFilterSet
    ensures var opts := FilterSetOptions(meta);
      var schema := FromPairs(FieldList(Schema(opts.model.value), opts.fields, opts.exclude, s, counter));
      var declared := Collect(bases, attrs, false).value;
      var c := Build(name, bases, attrs, meta, s, true, counter);
      c.cls.Ok? && c.cls.value.declaredFilters == Some(declared) &&
      c.cls.value.baseFilters == Some(Overlay(schema, declared) + Appended(declared, Keys(schema))) &&
      c.counter == counter + |FieldList(Schema(opts.model.value), opts.fields, opts.exclude, s, counter)|
  {
    var i :| 0 <= i < |bases| && bases[i].isFilterSet;
    assert bases[i] in Parents(bases, true).value;
    var opts := FilterSetOptions(meta);
    var schema := FromPairs(FieldList(Schema(opts.model.value), opts.fields, opts.exclude, s, counter));
    var inherited := Inherited(bases, false).value;
    assert Collect(bases, attrs, false).value == FromPairs(inherited + SortByCounter(LocalFilters(attrs)));
    UpdateShape(schema, Collect(bases, attrs, false).value);
  }

  /**
   * Lookups in `base_filters` of a class with a model: a declared name finds
   * the declared filter, any other name the schema filter; and no name occurs
   * twice.
   */
  lemma DeclaredOverridesSchema(opts: Options, declared: Items<Filter>, s: Strategy, counter: nat, k: string)
    requires opts.model.Some? && UniqueKeys(declared)
    ensures var schema := FromPairs(FieldList(Schema(opts.model.value), opts.fields, opts.exclude, s, counter));
      var base := BaseFiltersOf(opts, declared, s, counter);
      UniqueKeys(base) &&
      Keys(base) == Keys(schema) + Fresh(Keys(declared), Keys(schema)) &&
      Get(base, k) == if k in Keys(declared) then Get(declared, k) else Get(schema, k)
  {
    var schema := FromPairs(FieldList(Schema(opts.model.value), opts.fields, opts.exclude, s, counter));
    UpdateKeys(schema, declared);
    UpdateGet(schema, declared, k);
    UpdateUnique(schema, declared);
    LastGetUnique(declared, k);
  }

  /**
   * As written, a class statement whose bases include a class the metaclass
   * completed raises AttributeError: that base has `declared_filters` but no
   * `declared_fields`.
   */
  lemma SubclassOfFilterSetRaises(parent: FilterSetClass, name: string, bases: seq<Base>, attrs: Items<Attr>,
                                  meta: Option<Options>, s: Strategy, filterSetDefined: bool, counter: nat)
    requires parent.declaredFilters.Some? && AsBase(parent) in bases
    ensures Build(name, bases, attrs, meta, s, filterSetDefined, counter) ==
      Created(Err(AttributeError("declared_fields")), counter)
  {
    var i :| 0 <= i < |bases| && bases[i] == AsBase(parent);
    CollectRaisesIff(bases, attrs, false);
    ErrorIsDeclaredFields(bases);
  }

  lemma {:induction false} ErrorIsDeclaredFields(bases: seq<Base>)
    ensures Inherited(bases, false).Err? ==> Inherited(bases, false).error == AttributeError("declared_fields")
  {
    if bases != [] {
      ErrorIsDeclaredFields(bases[1..]);
    }
  }

  /**
   * The counterexample in full: `FilterSet` is created, `class F(FilterSet)`
   * with one declared filter succeeds, and `class G(F)` raises.
   */
  lemma GrandchildRaises(filter: Filter, s: Strategy)
    ensures var root := Build("FilterSet", [Base(false, None, None, None)], [], None, s, false, 0);
      root.cls.Ok? &&
      var f := Build("F", [AsBase(root.cls.value)], [("title", FilterAttr(filter))], None, s, true, root.counter);
      f.cls.Ok? && f.cls.value.declaredFilters.Some? &&
      Build("G", [AsBase(f.cls.value)], [], None, s, true, f.counter).cls == Err(AttributeError("declared_fields"))
  {
    var root := Build("FilterSet", [Base(false, None, None, None)], [], None, s, false, 0);
    assert Inherited([Base(false, None, None, None)], false) == Ok([]);
    var fBases := [AsBase(root.cls.value)];
    assert Inherited(fBases, false) == Ok([]) by {
      assert fBases[1..] == [];
    }
    var g := AsBase(Build("F", fBases, [("title", FilterAttr(filter))], None, s, true, root.counter).cls.value);
    assert [g][1..] == [];
  }

  // The evidently intended metaclass: the collection that reads `declared_filters`.

  /** The class statement with the corrected collection, which never raises. */
  function BuildIntended(name: string, bases: seq<Base>, attrs: Items<Attr>, meta: Option<Options>,
                         s: Strategy, filterSetDefined: bool, counter: nat): (c: Created)
    ensures c.cls.Ok?
  {
    var parents := Parents(bases, filterSetDefined);
    var declared := CollectIntended(bases, attrs, false);
    var plain := FilterSetClass(name, parents.None? || parents.value != [], Remaining(attrs), None, None, None);
    if parents.None? || parents.value == [] then Created(Ok(plain), counter)
    else
      var opts := FilterSetOptions(meta);
      Created(Ok(plain.(options := Some(opts), declaredFilters := Some(declared),
                        baseFilters := Some(BaseFiltersOf(opts, declared, s, counter)))),
              counter + SchemaCount(opts, s, counter))
  }

  /**
   * With the correction, a subclass of a completed filter-set class inherits
   * its declared filters: they come first, in their order, each replaced by a
   * local filter of the same name, followed by the new local filters in
   * creation-counter order.
   */
  lemma IntendedSubclassInherits(parent: FilterSetClass, name: string, attrs: Items<Attr>,
                                 meta: Option<Options>, s: Strategy, counter: nat)
    requires parent.isFilterSet && parent.declaredFilters.Some?
    requires UniqueKeys(parent.declaredFilters.value) && UniqueKeys(attrs)
    ensures var inherited := parent.declaredFilters.value;
      var local := SortByCounter(LocalFilters(attrs));
      var c := BuildIntended(name, [AsBase(parent)], attrs, meta, s, true, counter);
      c.cls.value.declaredFilters == Some(Overlay(inherited, local) + Appended(local, Keys(inherited)))
  {
    var bases := [AsBase(parent)];
    IntendedSingleBase(parent, attrs);
    assert bases[0] in Parents(bases, true).value;
  }

  lemma IntendedSingleBase(parent: FilterSetClass, attrs: Items<Attr>)
    requires parent.declaredFilters.Some? && UniqueKeys(parent.declaredFilters.value) && UniqueKeys(attrs)
    ensures var inherited := parent.declaredFilters.value;
      var local := SortByCounter(LocalFilters(attrs));
      CollectIntended([AsBase(parent)], attrs, false) == Overlay(inherited, local) + Appended(local, Keys(inherited))
  {
    var bases := [AsBase(parent)];
    var d := parent.declaredFilters.value;
    assert bases[1..] == [];
    assert IntendedContribution(bases[0], false) == d;
    assert IntendedInherited(bases, false) == d + [];
    assert d + [] == d;
    FromPairsOfUnique(d);
    CollectIntendedShape(bases, attrs, false);
  }

  /** The correction changes nothing for a class none of whose bases has `declared_filters`. */
  lemma IntendedAgreesWithBuild(name: string, bases: seq<Base>, attrs: Items<Attr>, meta: Option<Options>,
                                s: Strategy, filterSetDefined: bool, counter: nat)
    requires forall i :: 0 <= i < |bases| ==> bases[i].declaredFilters.None?
    ensures Build(name, bases, attrs, meta, s, filterSetDefined, counter) ==
      BuildIntended(name, bases, attrs, meta, s, filterSetDefined, counter)
  {
    IntendedAgrees(bases, attrs, false);
  }
}
