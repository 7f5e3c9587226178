# django-filter filter-set engine in Dafny

This project models the filter-set engine of django-filter's `filter/filterset.py` and proves properties of the model. The engine has five parts:

- **Collecting declared filters** (`get_declared_filters`). The `Filter` attributes of a class statement are popped out of its attributes. Each filter is named after its attribute key, and the filters are sorted by their creation counter. The mappings the bases carry are put in front of them, and the result becomes a `SortedDict`.
- **Mapping a schema to filters** (`filters_for_model`). It walks the model's fields and applies the `fields` allow-list and the `exclude` deny-list. It keeps the fields for which the `filter_for_field` strategy builds a filter.
- **The default strategy** (`BaseFilterSet.filter_for_field` with `FILTER_FOR_DBFIELD_DEFAULTS`).
- **The class builder** (`FilterSetOptions`, `FilterSetMetaclass.__new__`). With a model, `base_filters` is the schema mapping updated by the declared mapping. Without a model, it is the declared mapping itself.
- **A bound filter set** (`BaseFilterSet.__init__` and the cached `form` and `qs` properties). `qs` is a fail-soft, left-to-right fold of the filters over `queryset.all()`.

The modules are:

- `Results` (`results.dfy`): `Option`, `Result` and the `AttributeError` the source can raise.
- `SortedDicts` (`sorted_dict.dfy`): Django's `SortedDict` as a sequence of (key, value) pairs.
  - `Set` is `d[k] = v`.
  - `Update` is `d.update(o)`.
  - `FromPairs` is `SortedDict(pairs)`: a repeated key keeps its first position and takes its last value.
- `Filters` (`filters.dfy`): filters, their form fields (`Validator`), model fields and models, all as values. A filter's constructor arguments other than its name, label and choices (`required`, `widget`, extra field arguments such as `max_length`) are kept as opaque `fieldOptions` and passed on to its form field, so `CharFilter(max_length=3)` and `CharFilter()` may clean the same input differently (`Filters.FieldOptionsSeparateFields`).
- `ModelFilters` (`model_filters.dfy`): `filter_for_field`, `FILTER_FOR_DBFIELD_DEFAULTS` and `filters_for_model`.
- `DeclaredFilters` (`declared_filters.dfy`): `get_declared_filters`, as written and as evidently intended.
- `FilterSetMetaclass` (`metaclass.dfy`): `FilterSetOptions` and `FilterSetMetaclass.__new__`. A class the metaclass creates is a value.
- `FilterSets` (`filterset.dfy`): the class `BaseFilterSet`. It has constant `data`, `queryset`, `filters` and collaborators, and mutable caches for `_form` and `_qs`.

The imperative parts of the code stay imperative:

- `get_declared_filters` is `DeclaredFilters.GetDeclaredFilters`, with a loop over the attributes and a loop over the bases;
- `filters_for_model` is `ModelFilters.FiltersForModel`, with a loop over the schema;
- the metaclass is `FilterSetMetaclass.NewClass`, with a loop that picks the `FilterSet` parents;
- `qs` is `FilterSets.BaseFilterSet.GetQs`, with a loop over the filters;
- `form` is `FilterSets.BaseFilterSet.GetForm`, a cached method over the recursive `FormFields`.

Each method is proved equal to a specification function: `Collect`, `FieldList`, `Build`, `Narrowed` and `BuildForm`. The lemmas state the promised properties about those functions.

The global creation counter of `Filter` is threaded through explicitly:

- a declared filter carries the counter value it was built with;
- the schema strategy receives the current counter;
- `filters_for_model` and the metaclass return the counter after the filters they built.

The collaborators of `qs` are handed to the instance as functions (`FilterSets.Backend`):

- `queryset.all()`;
- the form field's `clean`, which yields a value or a `ValidationError`;
- the truth of a cleaned value;
- `filter_.filter(qs, value)`, which may also raise `ValidationError`.

Three behaviours of the code are worth stating plainly:

- **A subclass of a completed filter-set class raises `AttributeError`** (see "Findings").
- **`update` keeps the schema entries first.** Declared entries with new names follow them (`FilterSetMetaclass.ModelBaseShape`).
- **`qs` raises `AttributeError` when the instance has no queryset.** It calls `None.all()`; the model returns `Err(AttributeError("all"))`.

## Model

| member | source | states |
|---|---|---|
| SortedDicts.Set | filter/filterset.py:65 | Storing under an existing key keeps its position; a new key is appended. Afterwards the key finds the new value and every other key its old one. |
| SortedDicts.UpdateKeys | filter/filterset.py:65 | After `d.update(o)` the keys are those of `d` in order, followed by the keys of `o` that were not in `d`, in order of first occurrence, each once. |
| SortedDicts.UpdateGet | filter/filterset.py:65 | After `d.update(o)` a key of `o` finds the last value `o` gives it, and any other key finds its value in `d`. |
| SortedDicts.UpdateUnique | filter/filterset.py:65 | Updating a dictionary whose keys are unique leaves its keys unique. |
| SortedDicts.UpdateShape | filter/filterset.py:65 | For unique-keyed `d` and `o`, `d.update(o)` is `d` with the values of `o` written over shared keys, followed by the pairs of `o` with new keys, in `o`'s order. |
| SortedDicts.FromPairs | filter/filterset.py:28 | `SortedDict(pairs)` has each key once, in order of first occurrence, and each key finds its last value in `pairs`. |
| SortedDicts.FromPairsOfUnique | filter/filterset.py:41 | `SortedDict(pairs)` of pairs with unique keys is exactly those pairs. |
| SortedDicts.FromPairsConcat | filter/filterset.py:22-28 | `SortedDict(inherited + local)` with unique local keys: the inherited keys first, a local pair replacing the value of an inherited key in place, then the local pairs with new keys. |
| DeclaredFilters.LocalFilters | filter/filterset.py:12-16 | Every collected filter is named after its attribute key. |
| DeclaredFilters.CollectSplitsAttrs | filter/filterset.py:12-16 | By key: a `Filter` attribute is collected, named after its key, and is gone from the attributes that remain. Any other attribute stays, and nothing else is collected. |
| DeclaredFilters.LocalFiltersUnique | filter/filterset.py:12-16 | The collected filters have unique names. |
| DeclaredFilters.Insert | filter/filterset.py:17 | Inserting by counter adds exactly one pair: the length grows by one and the multiset gains that pair. |
| DeclaredFilters.InsertSorted | filter/filterset.py:17 | Inserting by counter keeps a counter-sorted sequence sorted. |
| DeclaredFilters.InsertKeys | filter/filterset.py:17 | Inserting adds the new key, keeps keys unique, and changes no other lookup. |
| DeclaredFilters.SortByCounter | filter/filterset.py:17 | The sort is a permutation (same length, same multiset) into ascending `creation_counter` order. |
| DeclaredFilters.SortKeys | filter/filterset.py:17 | Sorting keeps the set of names; with unique names it keeps them unique and keeps every lookup. |
| DeclaredFilters.GetDeclaredFilters | filter/filterset.py:10-28 | The method returns `Collect`: the inherited pairs (bases walked last to first) followed by the sorted local filters, as a `SortedDict`, or the `AttributeError` raised. It also returns the attributes left after the filters are popped. |
| DeclaredFilters.InheritedRaisesFrom | filter/filterset.py:24-26 | Once a later base raises, the whole collection raises that same error. |
| DeclaredFilters.CollectRaisesIff | filter/filterset.py:24-26 | As written, collection raises exactly when it is called without `with_base_filters` and some base has `declared_filters` but no `declared_fields`. |
| DeclaredFilters.InheritedRaisesIff | filter/filterset.py:19-26 | The loop over the bases raises exactly when some base raises. |
| DeclaredFilters.SortedAppended | filter/filterset.py:17-28 | The local filters appended after the inherited keys remain in ascending counter order. |
| DeclaredFilters.CollectShape | filter/filterset.py:19-28 | Inherited keys come first, in first-occurrence order with the first-listed base first. A local filter with an inherited name takes that name's slot; the other local filters follow in ascending counter order. |
| DeclaredFilters.LocalOnly | filter/filterset.py:10-28 | With nothing inherited, the result is exactly the `Filter` attributes, each named after its key, with unique keys, in ascending counter order. |
| DeclaredFilters.CollectIntendedShape | filter/filterset.py:24-26 | The corrected collection (reading `declared_filters`) has the same inherited-first, local-in-counter-order shape and never raises. |
| DeclaredFilters.IntendedAgrees | filter/filterset.py:19-28 | The as-written and corrected collections agree when called with `with_base_filters`, or when no base has `declared_filters`. |
| ModelFilters.FilterForField | filter/filterset.py:114-122 | A field with choices yields a `ChoiceFilter` carrying them, whatever its class. Otherwise the field's class is looked up, the overrides winning over `FILTER_FOR_DBFIELD_DEFAULTS`. An override that maps the class to None disables the default, and a class with no entry yields None. |
| ModelFilters.DefaultStrategyIsCounterBlind | filter/filterset.py:114-122 | Whether the default strategy builds a filter does not depend on the creation counter. |
| ModelFilters.FieldListKeys | filter/filterset.py:33-40 | Every kept name is a schema field name that passes the allow-list and deny-list tests. |
| ModelFilters.KeptMembers | filter/filterset.py:33-40 | The kept fields are exactly the admitted schema fields for which the strategy builds a filter. |
| ModelFilters.FieldListFollowsSchema | filter/filterset.py:33-40 | The kept filters follow schema order. The i-th is the filter the strategy built for the i-th kept field with counter `counter + i`. |
| ModelFilters.FieldListUnique | filter/filterset.py:33-41 | With unique field names, the kept names are unique. |
| ModelFilters.FiltersForModel | filter/filterset.py:30-41 | The loop computes `SortedDict(FieldList(...))` over `fields + many_to_many`, skipping disallowed, excluded and unbuilt fields. The counter advances once per filter built. |
| ModelFilters.SchemaFiltersInSchemaOrder | filter/filterset.py:30-41 | The mapping's keys are the kept fields' names in schema order, each with the filter built for it. |
| ModelFilters.ThreeFieldSchema | filter/filterset.py:30-41 | A text `name`, a boolean `active` and a text `status` with choices give, in that order: a `CharFilter`, a `BooleanFilter` and a `ChoiceFilter` carrying the choices. |
| FilterSetMetaclass.FilterSetOptions | filter/filterset.py:43-47 | `model`, `fields` and `exclude` come from `Meta`; they are all None without a `Meta`. |
| FilterSetMetaclass.Parents | filter/filterset.py:51-55 | The parents are exactly the `FilterSet` bases, or None while `FilterSet` itself is being defined. |
| FilterSetMetaclass.NewClass | filter/filterset.py:49-71 | The class statement's outcome and the counter after it are `Build`: a collection error propagates, a root class returns early, and otherwise `_meta`, `declared_filters` and `base_filters` are set. |
| FilterSetMetaclass.ParentsSnoc | filter/filterset.py:52 | The parents list grows by the next base exactly when that base is a `FilterSet`. |
| FilterSetMetaclass.RootClassReturnsEarly | filter/filterset.py:51-60 | With no `FilterSet` parent, the class is returned without `_meta`, `declared_filters` or `base_filters`, with the filters popped, and with no filter built. It counts as a `FilterSet` subclass only when it is `FilterSet` itself. |
| FilterSetMetaclass.NoParents | filter/filterset.py:52 | No base is a `FilterSet`, so the parent list is empty. |
| FilterSetMetaclass.BuildIsFilterSet | filter/filterset.py:51-60 | A created class is a `FilterSet` subclass exactly when it is `FilterSet` itself or has a `FilterSet` base; every class the metaclass completed is one. |
| FilterSetMetaclass.PlainMetaclassBaseIsNotAParent | filter/filterset.py:52-60 | A class built with the metaclass on a non-`FilterSet` base is no `FilterSet` subclass, so a class statement with it as its only base returns early too. |
| FilterSetMetaclass.NoModelBaseIsDeclared | filter/filterset.py:63-70 | A class with a `FilterSet` parent and no model is completed, stores the collected `declared_filters`, has `base_filters` equal to them, and builds no filter. |
| FilterSetMetaclass.BuildBaseFiltersUnique | filter/filterset.py:63-70 | Every `base_filters` the metaclass stores has unique keys. |
| FilterSetMetaclass.ModelBaseShape | filter/filterset.py:62-70 | With a model, `declared_filters` is stored and `base_filters` is the schema mapping with declared values written over shared names in place, then the declared filters with new names in declared order. The counter advances per schema filter. |
| FilterSetMetaclass.DeclaredOverridesSchema | filter/filterset.py:63-70 | In `base_filters`, a declared name finds the declared filter and any other name the schema filter. The keys are the schema keys followed by the new declared keys, each once. |
| FilterSetMetaclass.SubclassOfFilterSetRaises | filter/filterset.py:24-26 | As written, any class statement with a completed filter-set class among its bases raises `AttributeError: declared_fields`. |
| FilterSetMetaclass.ErrorIsDeclaredFields | filter/filterset.py:24-26 | The only exception the collection raises is the missing `declared_fields`. |
| FilterSetMetaclass.GrandchildRaises | filter/filterset.py:25-26 | Concretely: after `FilterSet` and `class F(FilterSet)` with one filter, `class G(F)` raises. |
| FilterSetMetaclass.BuildIntended | filter/filterset.py:49-71 | The class statement with the corrected collection never raises. |
| FilterSetMetaclass.IntendedSingleBase | filter/filterset.py:24-28 | The corrected collection over one completed base puts that base's declared filters first, local filters overriding in place, then the new local filters in counter order. |
| FilterSetMetaclass.IntendedSubclassInherits | filter/filterset.py:24-28 | With the correction, a subclass of a completed filter-set class (which is a `FilterSet` subclass, by `BuildIsFilterSet`) inherits its declared filters, shadowed in place by local ones, followed by the new local filters in counter order. |
| FilterSetMetaclass.IntendedAgreesWithBuild | filter/filterset.py:49-71 | The correction changes nothing for class statements none of whose bases carries `declared_filters`. |
| FilterSets.Raw | filter/filterset.py:97 | The raw value bound to a field is the data's value under its name, or None when the data lacks that name. |
| FilterSets.FormFields | filter/filterset.py:108 | The form fields are the filters' own form fields, under the filters' names, in filter order. |
| FilterSets.FormMirrorsFilters | filter/filterset.py:106-111 | With unique filter names, the form has one field per filter, in filter order, and `form.fields[name]` is that filter's form field. |
| FilterSets.NarrowedAppend | filter/filterset.py:95-99 | The filters apply left to right, each to the previous result: narrowing by `a + c` is narrowing by `a`, then by `c`. |
| FilterSets.InertFiltersKeepQueryset | filter/filterset.py:94-101 | When every filter's value fails to clean or cleans to a false value, `qs` is `queryset.all()` unchanged. |
| FilterSets.FailingFilterIsDropped | filter/filterset.py:96-101 | A filter whose value raises `ValidationError` (in cleaning or in filtering) or cleans to a false value is dropped, and the filters before and after it still apply. |
| FilterSets.SingleFilterNarrows | filter/filterset.py:96-99 | One filter whose value cleans to something true narrows the queryset by exactly that filter and value. |
| FilterSets.BaseFilterSet.Instantiate | filter/filterset.py:81-85 | Instantiating a class without `base_filters` raises `AttributeError`. Any other class gets a fresh instance whose `filters` equal its `base_filters`, with `data or {}`, the queryset kept and both caches empty. |
| FilterSets.BaseFilterSet.constructor | filter/filterset.py:81-85 | `data` is the given data, or `{}` for None or empty data. The queryset is kept. `filters` equals `base_filters`, with the same keys in the same order. Both caches start empty. |
| FilterSets.BaseFilterSet.GetForm | filter/filterset.py:105-111 | The form is built from the filters' form fields and the data. It is cached, later calls return the cached form, and `_qs` is untouched. |
| FilterSets.BaseFilterSet.GetQs | filter/filterset.py:91-103 | `qs` is `queryset.all()` folded through the filters in order, skipping failing and false values, computed once and cached. Later calls return the cached value. Without a queryset it raises and nothing is cached. A form already built stays as it was; otherwise the loop builds and caches the form when there is at least one filter, and leaves the form cache alone when there is none. |

## Left out

- Attribute lookup through the method resolution order. A `DeclaredFilters.Base` records the attributes `hasattr` and `getattr` would find on that base. `FilterSetMetaclass.AsBase` and `FilterSets.BaseFilterSet.Instantiate` read only a class's own attributes, so a class returned early looks as if it has no `base_filters` even when one of its bases has them.
- Finding `Meta`. `getattr(new_class, 'Meta', None)` may find an inherited `Meta`; the model takes the `Meta` the new class sees as a parameter.
- `issubclass` and the `NameError` while `FilterSet` itself is defined. These become the `isFilterSet` flag of each base and the `filterSetDefined` parameter. A created class records the flag itself (`FilterSetMetaclass.BuildIsFilterSet`), and `AsBase` passes it on.
- `type(...)` class synthesis. The class is a `FilterSetClass` value, and the form class synthesized in `form` is a plain `Form` record of ordered validators and data.
- The order of `attrs.items()`. Python 2 dictionaries have no defined order, so the attributes are an ordered input.
- `deepcopy`. The instance's `filters` equals `base_filters` and, being a value, is independent of it.
- `capfirst`. A built filter's label is the field's `verbose_name` unchanged; the filter's own constructor is part of `filter/filters.py`, which is not part of this model.
- The process-wide creation counter of `Filter.__init__`. Declared filters carry their counter values as input; filters built from the schema take the counter threaded through the model.
- `__iter__`, which only iterates over `qs`.
- The ORM, `forms.Field.clean`, `ValidationError`, the truth of cleaned values and `Filter.filter`. They are the functions of `FilterSets.Backend`. Exceptions other than `ValidationError` that they could raise are not modelled.
- How widgets read bound data. `form[name].data` is taken to be `data.get(name)` (`FilterSets.Raw`); multi-valued query dictionaries are not modelled.
- `dict(FILTER_FOR_DBFIELD_DEFAULTS, **cls.filter_overrides)` with class keys passed as keyword arguments. The model merges the two tables with the overrides winning, which is what the code evidently does; an override may map a class to None.
- DeclaredFilters.LocalFilters: attributes are values, so one `Filter` object bound under two keys (`a = b = CharFilter()`) is two filters here, each named after its own key. In the source it is one object, and `obj.name = filter_name` leaves both pairs carrying the name of the key visited last. The name-per-key ensures (and `CollectSplitsAttrs`, `LocalOnly`) hold only for attributes bound to distinct objects.
- A subclass that overrides `filter_for_field` or `filter_overrides`. The metaclass takes the strategy as a parameter; `ModelFilters.DefaultStrategy(overrides)` is the inherited one.
- DeclaredFilters.SortByCounter: stability on equal creation counters is not stated. Counters are unique in practice, and the contract states permutation and ascending order.
- FilterSetMetaclass.NewClass: it follows the as-written collection. The corrected class building is `FilterSetMetaclass.BuildIntended`, which no method implements.

## Findings

| source | as written | input that shows it | evidently intended | confidence | as-written member | corrected member |
|---|---|---|---|---|---|---|
| filter/filterset.py:25-26 | The loop tests `hasattr(base, 'declared_filters')` and then reads `base.declared_fields`, which no filter-set class has. | Define `FilterSet`, then `class F(FilterSet)` with one filter, then `class G(F)`: the metaclass calls `get_declared_filters(bases, attrs, False)`, `F` has `declared_filters`, and `F.declared_fields` raises `AttributeError`. | Read `base.declared_filters`, so that a subclass inherits its parents' declared filters ahead of its own. | high; not executed | FilterSetMetaclass.GrandchildRaises | FilterSetMetaclass.IntendedSubclassInherits |
