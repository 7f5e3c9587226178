/**
 * Deriving filters from a model's schema: `filters_for_model` and the default
 * strategy `BaseFilterSet.filter_for_field`.
 */
module ModelFilters {
  import opened Results
  import opened SortedDicts
  import opened Filters

  /** `FILTER_FOR_DBFIELD_DEFAULTS`: the filter class for each model field class. */
  const FilterForDbFieldDefaults: map<FieldClass, FilterClass> :=
    map[CharField := CharFilter, BooleanField := BooleanFilter]

  /**
   * `filter_for_field(f, name)` of a filter set whose `filter_overrides` is
   * `overrides` (an override may map a class to None, which disables its
   * default); `counter` is the creation counter the new filter takes.
   * A field with choices always yields a choice filter; otherwise the exact
   * field class is looked up, the overrides before the defaults.
   */
  function FilterForField(f: DbField, name: string, overrides: map<FieldClass, Option<FilterClass>>, counter: nat): (r: Option<Filter>)
    ensures |f.choices| > 0 ==>
      r == Some(Filter(ChoiceFilter, Some(name), Some(f.verboseName), f.choices, [], counter))
    ensures |f.choices| == 0 ==>
      (r.Some? <==> if f.fieldClass in overrides then overrides[f.fieldClass].Some? else f.fieldClass in FilterForDbFieldDefaults)
    ensures |f.choices| == 0 && f.fieldClass in overrides && overrides[f.fieldClass].Some? ==>
      r == Some(Filter(overrides[f.fieldClass].value, Some(name), Some(f.verboseName), [], [], counter))
    ensures |f.choices| == 0 && f.fieldClass !in overrides && f.fieldClass in FilterForDbFieldDefaults ==>
      r == Some(Filter(FilterForDbFieldDefaults[f.fieldClass], Some(name), Some(f.verboseName), [], [], counter))
  {
    var table := (map c | c in FilterForDbFieldDefaults :: Some(FilterForDbFieldDefaults[c])) + overrides;
    if |f.choices| > 0 then
      Some(Filter(ChoiceFilter, Some(name), Some(f.verboseName), f.choices, [], counter))
    else if f.fieldClass in table && table[f.fieldClass].Some? then
      Some(Filter(table[f.fieldClass].value, Some(name), Some(f.verboseName), [], [], counter))
    else
      None
  }

  /**
   * A filter set's `filter_for_field` strategy: given a field, its name and the
   * current creation counter, it builds at most one filter.
   */
  type Strategy = (DbField, string, nat) -> Option<Filter>

  function DefaultStrategy(overrides: map<FieldClass, Option<FilterClass>>): Strategy {
    (f: DbField, name: string, counter: nat) => FilterForField(f, name, overrides, counter)
  }

  /** A strategy whose decision to build a filter does not depend on the counter. */
  ghost predicate CounterBlind(s: Strategy) {
    forall f, name, c :: s(f, name, c).Some? == s(f, name, 0).Some?
  }

  /** The default strategy builds a filter or not whatever the counter is. */
  lemma DefaultStrategyIsCounterBlind(overrides: map<FieldClass, Option<FilterClass>>)
    ensures CounterBlind(DefaultStrategy(overrides))
  {
  }

  /**
   * The allow-list and deny-list tests: a non-empty `fields` admits only its
   * names; a non-empty `exclude` rejects its names.
   */
  predicate Admitted(name: string, fields: Option<seq<string>>, exclude: Option<seq<string>>) {
    !(fields.Some? && |fields.value| > 0 && name !in fields.value) &&
    !(exclude.Some? && |exclude.value| > 0 && name in exclude.value)
  }

  /**
   * The `field_list` that `filters_for_model` builds over the fields `fs` when
   * the creation counter starts at `counter`: one filter per admitted field for
   * which the strategy builds one, in the order of `fs`. The strategy is only
   * asked about admitted fields, and each filter it builds advances the counter.
   */
  function FieldList(fs: seq<DbField>, fields: Option<seq<string>>, exclude: Option<seq<string>>,
                     s: Strategy, counter: nat): Items<Filter>
  {
    if fs == [] then []
    else
      var f := fs[0];
      var built := if Admitted(f.name, fields, exclude) then s(f, f.name, counter) else None;
      if built.Some? then [(f.name, built.value)] + FieldList(fs[1..], fields, exclude, s, counter + 1)
      else FieldList(fs[1..], fields, exclude, s, counter)
  }

  /** One step of `field_list`: the first field is either built and prepended, or skipped. */
  lemma FieldListCons(fs: seq<DbField>, fields: Option<seq<string>>, exclude: Option<seq<string>>,
                      s: Strategy, counter: nat)
    requires fs != []
    ensures Admitted(fs[0].name, fields, exclude) && s(fs[0], fs[0].name, counter).Some? ==>
      FieldList(fs, fields, exclude, s, counter) ==
        [(fs[0].name, s(fs[0], fs[0].name, counter).value)] + FieldList(fs[1..], fields, exclude, s, counter + 1)
    ensures !(Admitted(fs[0].name, fields, exclude) && s(fs[0], fs[0].name, counter).Some?) ==>
      FieldList(fs, fields, exclude, s, counter) == FieldList(fs[1..], fields, exclude, s, counter)
  {
  }

  /** The fields of `fs`, in order, that are admitted and for which `s` builds a filter. */
  function Kept(fs: seq<DbField>, fields: Option<seq<string>>, exclude: Option<seq<string>>, s: Strategy): seq<DbField>
  {
    if fs == [] then []
    else if Admitted(fs[0].name, fields, exclude) && s(fs[0], fs[0].name, 0).Some? then
      [fs[0]] + Kept(fs[1..], fields, exclude, s)
    else
      Kept(fs[1..], fields, exclude, s)
  }

  /** `Kept` holds the admitted fields for which the strategy builds a filter, and all of them. */
  lemma {:induction false} KeptMembers(fs: seq<DbField>, fields: Option<seq<string>>, exclude: Option<seq<string>>, s: Strategy)
    ensures var r := Kept(fs, fields, exclude, s);
      (forall i :: 0 <= i < |r| ==> r[i] in fs && Admitted(r[i].name, fields, exclude) && s(r[i], r[i].name, 0).Some?) &&
      (forall i :: 0 <= i < |fs| && Admitted(fs[i].name, fields, exclude) && s(fs[i], fs[i].name, 0).Some? ==> fs[i] in r)
  {
    if fs != [] {
      KeptMembers(fs[1..], fields, exclude, s);
      var r, rest := Kept(fs, fields, exclude, s), Kept(fs[1..], fields, exclude, s);
      forall i | 0 < i < |fs| ensures fs[i] == fs[1..][i - 1] {}
      if Admitted(fs[0].name, fields, exclude) && s(fs[0], fs[0].name, 0).Some? {
        forall i | 0 < i < |r| ensures r[i] == rest[i - 1] {}
      }
    }
  }

  /**
   * For a strategy that decides independently of the counter, `field_list`
   * holds exactly the kept fields, in schema order, the i-th with the filter the
   * strategy built for it with counter `counter + i`.
   */
  lemma {:induction false} FieldListFollowsSchema(fs: seq<DbField>, fields: Option<seq<string>>,
                                                  exclude: Option<seq<string>>, s: Strategy, counter: nat)
    requires CounterBlind(s)
    ensures |FieldList(fs, fields, exclude, s, counter)| == |Kept(fs, fields, exclude, s)|
    ensures forall i :: 0 <= i < |FieldList(fs, fields, exclude, s, counter)| ==>
      FieldList(fs, fields, exclude, s, counter)[i].0 == Kept(fs, fields, exclude, s)[i].name &&
      s(Kept(fs, fields, exclude, s)[i], Kept(fs, fields, exclude, s)[i].name, counter + i) ==
        Some(FieldList(fs, fields, exclude, s, counter)[i].1)
  {
    if fs != [] {
      var f := fs[0];
      var items, kept := FieldList(fs, fields, exclude, s, counter), Kept(fs, fields, exclude, s);
      assert s(f, f.name, counter).Some? == s(f, f.name, 0).Some?;
      FieldListCons(fs, fields, exclude, s, counter);
      if Admitted(f.name, fields, exclude) && s(f, f.name, 0).Some? {
        var rest, restKept := FieldList(fs[1..], fields, exclude, s, counter + 1), Kept(fs[1..], fields, exclude, s);
        FieldListFollowsSchema(fs[1..], fields, exclude, s, counter + 1);
        assert items == [(f.name, s(f, f.name, counter).value)] + rest;
        assert kept == [f] + restKept;
        forall i | 0 < i < |items|
          ensures items[i].0 == kept[i].name && s(kept[i], kept[i].name, counter + i) == Some(items[i].1)
        {
          assert items[i] == rest[i - 1] && kept[i] == restKept[i - 1];
          assert counter + 1 + (i - 1) == counter + i;
        }
      } else {
        FieldListFollowsSchema(fs[1..], fields, exclude, s, counter);
        assert items == FieldList(fs[1..], fields, exclude, s, counter);
        assert kept == Kept(fs[1..], fields, exclude, s);
      }
    }
  }

  /** Every key of `field_list` is the name of an admitted field of the schema. */
  lemma {:induction false} FieldListKeys(fs: seq<DbField>, fields: Option<seq<string>>,
                                         exclude: Option<seq<string>>, s: Strategy, counter: nat)
    ensures var items := FieldList(fs, fields, exclude, s, counter);
      forall i :: 0 <= i < |items| ==> Admitted(items[i].0, fields, exclude) && items[i].0 in Names(fs)
  {
    if fs != [] {
      var f := fs[0];
      var tail := Names(fs[1..]);
      assert Names(fs) == [f.name] + tail;
      FieldListCons(fs, fields, exclude, s, counter);
      if Admitted(f.name, fields, exclude) && s(f, f.name, counter).Some? {
        var rest := FieldList(fs[1..], fields, exclude, s, counter + 1);
        FieldListKeys(fs[1..], fields, exclude, s, counter + 1);
        var items := [(f.name, s(f, f.name, counter).value)] + rest;
        forall i | 0 <= i < |items| ensures Admitted(items[i].0, fields, exclude) && items[i].0 in Names(fs) {
          if i > 0 {
            assert items[i] == rest[i - 1];
          }
        }
      } else {
        FieldListKeys(fs[1..], fields, exclude, s, counter);
        assert forall x :: x in tail ==> x in Names(fs);
      }
    }
  }

  /** `field_list` has unique keys when the schema's field names are unique. */
  lemma {:induction false} FieldListUnique(fs: seq<DbField>, fields: Option<seq<string>>,
                                           exclude: Option<seq<string>>, s: Strategy, counter: nat)
    requires Distinct(Names(fs))
    ensures UniqueKeys(FieldList(fs, fields, exclude, s, counter))
  {
    if fs != [] {
      var f := fs[0];
      var tail := Names(fs[1..]);
      assert Names(fs) == [f.name] + tail;
      assert Distinct(tail);
      forall j | 0 <= j < |tail| ensures tail[j] != f.name {
        assert Names(fs)[j + 1] == tail[j];
      }
      if Admitted(f.name, fields, exclude) && s(f, f.name, counter).Some? {
        var rest := FieldList(fs[1..], fields, exclude, s, counter + 1);
        FieldListUnique(fs[1..], fields, exclude, s, counter + 1);
        FieldListKeys(fs[1..], fields, exclude, s, counter + 1);
        FieldListCons(fs, fields, exclude, s, counter);
        assert forall x :: x in Keys(rest) ==> x in tail by {
          forall x | x in Keys(rest) ensures x in tail {
            var j :| 0 <= j < |rest| && Keys(rest)[j] == x;
          }
        }
        DistinctAppend([f.name], Keys(rest));
        KeysAppend([(f.name, s(f, f.name, counter).value)], rest);
      } else {
        FieldListCons(fs, fields, exclude, s, counter);
        FieldListUnique(fs[1..], fields, exclude, s, counter);
      }
    }
  }

  /**
   * `filters_for_model(model, fields, exclude, filter_for_field)`: walks the
   * schema in order, skips fields outside `fields` or inside `exclude`, and
   * keeps the fields for which the strategy builds a filter. Also returns the
   * creation counter after the filters it built.
   */
  method FiltersForModel(model: Model, fields: Option<seq<string>>, exclude: Option<seq<string>>,
                         filterForField: Strategy, counter: nat)
    returns (filters: Items<Filter>, next: nat)
    ensures filters == FromPairs(FieldList(Schema(model), fields, exclude, filterForField, counter))
    ensures next == counter + |FieldList(Schema(model), fields, exclude, filterForField, counter)|
  {
    var fieldList: Items<Filter> := [];
    var fs := Schema(model);
    ghost var total := FieldList(fs, fields, exclude, filterForField, counter);
    next := counter;
    for i := 0 to |fs|
      invariant fieldList + FieldList(fs[i..], fields, exclude, filterForField, next) == total
      invariant next == counter + |fieldList|
    {
      var f := fs[i];
      assert fs[i..][0] == f && fs[i..][1..] == fs[i + 1..];
      FieldListCons(fs[i..], fields, exclude, filterForField, next);
      if fields.Some? && |fields.value| > 0 && f.name !in fields.value {
        continue;
      }
      if exclude.Some? && |exclude.value| > 0 && f.name in exclude.value {
        continue;
      }
      var filter := filterForField(f, f.name, next);
      if filter.Some? {
        ghost var rest := FieldList(fs[i + 1..], fields, exclude, filterForField, next + 1);
        assert (fieldList + [(f.name, filter.value)]) + rest == fieldList + ([(f.name, filter.value)] + rest);
        fieldList := fieldList + [(f.name, filter.value)];
        next := next + 1;
      }
    }
    assert fs[|fs|..] == [];
    assert fieldList + [] == fieldList;
    filters := FromPairs(fieldList);
  }

  /**
   * With unique field names and a counter-blind strategy, the schema mapping
   * is exactly the kept fields in schema order, each with the filter built for it.
   */
  lemma SchemaFiltersInSchemaOrder(model: Model, fields: Option<seq<string>>, exclude: Option<seq<string>>,
                                   s: Strategy, counter: nat)
    requires Distinct(Names(Schema(model))) && CounterBlind(s)
    ensures var filters := FromPairs(FieldList(Schema(model), fields, exclude, s, counter));
      var kept := Kept(Schema(model), fields, exclude, s);
      Keys(filters) == Names(kept) &&
      forall i :: 0 <= i < |filters| ==> s(kept[i], kept[i].name, counter + i) == Some(filters[i].1)
  {
    var items := FieldList(Schema(model), fields, exclude, s, counter);
    FieldListUnique(Schema(model), fields, exclude, s, counter);
    FromPairsOfUnique(items);
    FieldListFollowsSchema(Schema(model), fields, exclude, s, counter);
  }

  /**
   * A schema of a text field `name`, a boolean `active` and a text `status`
   * with two choices, with no allow-list, deny-list or overrides: the filters
   * come out as `name`, `active`, `status`, and `status` is a choice filter
   * carrying the field's choices.
   */
  lemma ThreeFieldSchema(counter: nat)
    ensures var statusChoices := [("draft", "Draft"), ("published", "Published")];
      var model := Model([DbField("name", CharField, "name", []), DbField("active", BooleanField, "active", []),
                          DbField("status", CharField, "status", statusChoices)], []);
      FromPairs(FieldList(Schema(model), None, None, DefaultStrategy(map[]), counter)) ==
        [("name", Filter(CharFilter, Some("name"), Some("name"), [], [], counter)),
         ("active", Filter(BooleanFilter, Some("active"), Some("active"), [], [], counter + 1)),
         ("status", Filter(ChoiceFilter, Some("status"), Some("status"), statusChoices, [], counter + 2))]
  {
    var statusChoices := [("draft", "Draft"), ("published", "Published")];
    var fs := [DbField("name", CharField, "name", []), DbField("active", BooleanField, "active", []),
               DbField("status", CharField, "status", statusChoices)];
    assert Schema(Model(fs, [])) == fs;
    var s := DefaultStrategy(map[]);
    var f0 := Filter(CharFilter, Some("name"), Some("name"), [], [], counter);
    var f1 := Filter(BooleanFilter, Some("active"), Some("active"), [], [], counter + 1);
    var f2 := Filter(ChoiceFilter, Some("status"), Some("status"), statusChoices, [], counter + 2);
    assert s(fs[0], "name", counter) == Some(f0);
    assert s(fs[1], "active", counter + 1) == Some(f1);
    assert s(fs[2], "status", counter + 2) == Some(f2);
    assert fs[1..][1..] == [fs[2]] && [fs[2]][1..] == [];
    FieldListCons([fs[2]], None, None, s, counter + 2);
    FieldListCons(fs[1..], None, None, s, counter + 1);
    FieldListCons(fs, None, None, s, counter);
    var items := FieldList(fs, None, None, s, counter);
    assert items == [("name", f0)] + ([("active", f1)] + ([("status", f2)] + []));
    assert Keys(items) == ["name", "active", "status"];
    FromPairsOfUnique(items);
  }
}
