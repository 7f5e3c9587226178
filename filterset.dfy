/**
 * A bound filter set: `BaseFilterSet.__init__`, the lazily built and cached
 * `form` and `qs` properties. The query backend, form-field cleaning, Python
 * truthiness of cleaned values and the filters' own `filter` methods are
 * collaborators handed in as functions.
 */
module FilterSets {
  import opened Results
  import opened SortedDicts
  import opened Filters
  import opened FilterSetMetaclass

  /** A computation that either produces a value or raises `ValidationError`. */
  datatype Outcome<+T> = Done(value: T) | Invalid

  /**
   * The collaborators of a filter set over querysets `Q` with cleaned values `V`:
   * `queryset.all()`, `field.clean(raw)`, the truth of a cleaned value, and
   * `filter_.filter(qs, value)`.
   */
  datatype Backend<!Q, !V> = Backend(
    all: Q -> Q,
    clean: (Validator, Option<string>) -> Outcome<V>,
    truthy: V -> bool,
    narrow: (Filter, Q, V) -> Outcome<Q>)

  /** A bound form: its ordered fields and the data it is bound to. */
  datatype Form = Form(fields: Items<Validator>, data: map<string, string>)

  /** `form[name].data`: the raw value bound to a field, None when the data has no such key. */
  function Raw(data: map<string, string>, name: string): (r: Option<string>)
    ensures r.Some? <==> name in data
    ensures r.Some? ==> r.value == data[name]
  {
    if name in data then Some(data[name]) else None
  }

  /** `[(f[0], f[1].field) for f in self.filters.iteritems()]`: each filter's form field under its name. */
  function FormFields(filters: Items<Filter>): (r: Items<Validator>)
    ensures Keys(r) == Keys(filters)
    ensures forall i :: 0 <= i < |r| ==> r[i].1 == FieldOf(filters[i].1)
  {
    if filters == [] then [] else [(filters[0].0, FieldOf(filters[0].1))] + FormFields(filters[1..])
  }

  /** The form the `form` property builds for `filters` and `data`. */
  function BuildForm(filters: Items<Filter>, data: map<string, string>): Form {
    Form(FromPairs(FormFields(filters)), data)
  }

  /**
   * With unique filter names the form has exactly one field per filter, in
   * filter order, each the filter's own form field.
   */
  lemma FormMirrorsFilters(filters: Items<Filter>, data: map<string, string>, i: nat)
    requires UniqueKeys(filters) && i < |filters|
    ensures BuildForm(filters, data).fields == FormFields(filters)
    ensures Keys(BuildForm(filters, data).fields) == Keys(filters)
    ensures Get(BuildForm(filters, data).fields, filters[i].0) == Some(FieldOf(filters[i].1))
  {
    FromPairsOfUnique(FormFields(filters));
    GetAt(FormFields(filters), i);
  }

  /**
   * One pass of the `qs` loop for the filter `f` named `name`: its form field
   * cleans the raw value; a `ValidationError`, from cleaning or from the
   * filter, or a false cleaned value leaves the queryset as it was; otherwise
   * the filter narrows it.
   */
  function Step<Q, V>(b: Backend<Q, V>, data: map<string, string>, name: string, f: Filter, qs: Q): Q {
    match b.clean(FieldOf(f), Raw(data, name))
    case Invalid => qs
    case Done(val) =>
      if !b.truthy(val) then qs
      else match b.narrow(f, qs, val)
        case Invalid => qs
        case Done(narrowed) => narrowed
  }

  /** The `qs` loop over `filters` in order, starting from `qs`. */
  function Narrowed<Q, V>(b: Backend<Q, V>, data: map<string, string>, filters: Items<Filter>, qs: Q): Q
    decreases |filters|
  {
    if filters == [] then qs else Narrowed(b, data, filters[1..], Step(b, data, filters[0].0, filters[0].1, qs))
  }

  /** A filter that leaves any queryset alone: its raw value does not clean, or cleans to a false value. */
  predicate Inert<Q, V>(b: Backend<Q, V>, data: map<string, string>, name: string, f: Filter) {
    var c := b.clean(FieldOf(f), Raw(data, name));
    c.Invalid? || !b.truthy(c.value)
  }

  /** The filters apply one after another: narrowing by `a + c` is narrowing by `a`, then by `c`. */
  lemma {:induction false} NarrowedAppend<Q, V>(b: Backend<Q, V>, data: map<string, string>,
                                                 a: Items<Filter>, c: Items<Filter>, qs: Q)
    ensures Narrowed(b, data, a + c, qs) == Narrowed(b, data, c, Narrowed(b, data, a, qs))
  {
    if a != [] {
      assert (a + c)[0] == a[0] && (a + c)[1..] == a[1..] + c;
      NarrowedAppend(b, data, a[1..], c, Step(b, data, a[0].0, a[0].1, qs));
    } else {
      assert a + c == c;
    }
  }

  /**
   * Inert filters are skipped: when every filter is inert (in particular when
   * no submitted value cleans to something true), `qs` is `queryset.all()` unchanged.
   */
  lemma {:induction false} InertFiltersKeepQueryset<Q, V>(b: Backend<Q, V>, data: map<string, string>,
                                                          filters: Items<Filter>, qs: Q)
    requires forall i :: 0 <= i < |filters| ==> Inert(b, data, filters[i].0, filters[i].1)
    ensures Narrowed(b, data, filters, qs) == qs
  {
    if filters != [] {
      assert Inert(b, data, filters[0].0, filters[0].1);
      assert forall i :: 0 <= i < |filters[1..]| ==> filters[1..][i] == filters[i + 1];
      InertFiltersKeepQueryset(b, data, filters[1..], qs);
    }
  }

  /**
   * Failing soft: one filter whose value does not clean or cleans to a false
   * value, or that raises while filtering, is dropped from the chain and the
   * others still apply.
   */
  lemma FailingFilterIsDropped<Q, V>(b: Backend<Q, V>, data: map<string, string>,
                                     a: Items<Filter>, p: (string, Filter), c: Items<Filter>, qs: Q)
    requires var cleaned := b.clean(FieldOf(p.1), Raw(data, p.0));
      Inert(b, data, p.0, p.1) || b.narrow(p.1, Narrowed(b, data, a, qs), cleaned.value).Invalid?
    ensures Narrowed(b, data, a + [p] + c, qs) == Narrowed(b, data, a + c, qs)
  {
    NarrowedAppend(b, data, a + [p], c, qs);
    NarrowedAppend(b, data, a, [p], qs);
    NarrowedAppend(b, data, a, c, qs);
  }

  /**
   * A single filter with a value that cleans to something true narrows the
   * queryset by exactly that filter and value.
   */
  lemma SingleFilterNarrows<Q, V>(b: Backend<Q, V>, data: map<string, string>, p: (string, Filter), qs: Q)
    requires b.clean(FieldOf(p.1), Raw(data, p.0)).Done?
    requires var v := b.clean(FieldOf(p.1), Raw(data, p.0)).value; b.truthy(v) && b.narrow(p.1, qs, v).Done?
    ensures Narrowed(b, data, [p], qs) == b.narrow(p.1, qs, b.clean(FieldOf(p.1), Raw(data, p.0)).value).value
  {
  }

  /**
   * An instance of a filter-set class: the data it is bound to, its queryset,
   * its own copy of the class's `base_filters`, and the cached `_form` and `_qs`.
   */
  class BaseFilterSet<Q, V> {
    const data: map<string, string>
    const queryset: Option<Q>
    const filters: Items<Filter>
    const backend: Backend<Q, V>
    var formCache: Option<Form>
    var qsCache: Option<Q>

    /** The caches, once filled, hold what the properties compute. */
    ghost predicate Valid()
      reads this
    {
      UniqueKeys(filters) &&
      (formCache.Some? ==> formCache.value == BuildForm(filters, data)) &&
      (qsCache.Some? ==> queryset.Some? && qsCache.value == Narrowed(backend, data, filters, backend.all(queryset.value)))
    }

    /**
     * `__init__(data=None, queryset=None)` on a class that has `base_filters`:
     * `self.data = data or {}`, the queryset as given, and a copy of the
     * class's `base_filters`.
     */
    constructor (baseFilters: Items<Filter>, data: Option<map<string, string>>, queryset: Option<Q>,
                 backend: Backend<Q, V>)
      requires UniqueKeys(baseFilters)
      ensures Valid()
      ensures this.data == (if data.Some? then data.value else map[])
      ensures this.queryset == queryset && this.backend == backend
      ensures filters == baseFilters && Keys(filters) == Keys(baseFilters)
      ensures formCache.None? && qsCache.None?
    {
      this.data := if data.Some? && |data.value| > 0 then data.value else map[];
      this.queryset := queryset;
      this.filters := baseFilters;
      this.backend := backend;
      formCache := None;
      qsCache := None;
    }

    /**
     * `cls(data, queryset)` for a class the metaclass produced. A class it
     * returned early (such as `FilterSet` itself) has no `base_filters`, so
     * `__init__` raises when it reads them; any other class gets an instance
     * as the constructor describes.
     */
    static method Instantiate(cls: FilterSetClass, data: Option<map<string, string>>, queryset: Option<Q>,
                              backend: Backend<Q, V>)
      returns (r: Result<BaseFilterSet<Q, V>>)
      requires cls.baseFilters.Some? ==> UniqueKeys(cls.baseFilters.value)
      ensures cls.baseFilters.None? ==> r == Err(AttributeError("base_filters"))
      ensures cls.baseFilters.Some? ==>
        r.Ok? && fresh(r.value) && r.value.Valid() &&
        r.value.filters == cls.baseFilters.value && r.value.queryset == queryset && r.value.backend == backend &&
        r.value.data == (if data.Some? then data.value else map[]) &&
        r.value.formCache.None? && r.value.qsCache.None?
    {
      if cls.baseFilters.None? {
        return Err(AttributeError("base_filters"));
      }
      var instance := new BaseFilterSet(cls.baseFilters.value, data, queryset, backend);
      r := Ok(instance);
    }

    /** The `form` property: built on first use from the filters' form fields, then reused. */
    method GetForm() returns (form: Form)
      requires Valid()
      modifies this
      ensures Valid()
      ensures form == BuildForm(filters, data) && formCache == Some(form)
      ensures old(formCache).Some? ==> form == old(formCache).value
      ensures qsCache == old(qsCache)
    {
      if formCache.None? {
        var fields := FromPairs(FormFields(filters));
        formCache := Some(Form(fields, data));
      }
      form := formCache.value;
    }

    /**
     * The `qs` property: on first use, `queryset.all()` narrowed by each filter
     * in turn (inert and failing filters skipped), then cached. Without a
     * queryset, `None.all()` raises and nothing is cached.
     */
    method GetQs() returns (r: Result<Q>)
      requires Valid()
      modifies this
      ensures Valid()
      ensures old(qsCache).Some? ==> r == Ok(old(qsCache).value) && qsCache == old(qsCache)
      ensures queryset.None? ==> r == Err(AttributeError("all")) && qsCache.None?
      ensures queryset.Some? ==> r == Ok(Narrowed(backend, data, filters, backend.all(queryset.value))) && qsCache == Some(r.value)
      ensures old(formCache).Some? ==> formCache == old(formCache)
      ensures formCache == if old(qsCache).None? && queryset.Some? && |filters| > 0
                           then Some(BuildForm(filters, data)) else old(formCache)
    {
      if qsCache.Some? {
        return Ok(qsCache.value);
      }
      if queryset.None? {
        return Err(AttributeError("all"));
      }
      var qs := backend.all(queryset.value);
      ghost var total := Narrowed(backend, data, filters, qs);
      for i := 0 to |filters|
        invariant Valid() && qsCache.None?
        invariant Narrowed(backend, data, filters[i..], qs) == total
        invariant old(formCache).Some? ==> formCache == old(formCache)
        invariant formCache == if i > 0 then Some(BuildForm(filters, data)) else old(formCache)
      {
        var (name, filter) := filters[i];
        assert filters[i..][0] == filters[i] && filters[i..][1..] == filters[i + 1..];
        var form := GetForm();
        FormMirrorsFilters(filters, data, i);
        var field := Get(form.fields, name);
        var cleaned := backend.clean(field.value, Raw(form.data, name));
        if cleaned.Done? && backend.truthy(cleaned.value) {
          var narrowed := backend.narrow(filter, qs, cleaned.value);
          if narrowed.Done? {
            qs := narrowed.value;
          }
        }
      }
      assert filters[|filters|..] == [];
      qsCache := Some(qs);
      r := Ok(qs);
    }
  }
}
