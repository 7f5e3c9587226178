/**
 * The values the filter-set engine works with: schema fields, filters and the
 * validators (form fields) that filters carry. Filter classes other than the
 * three this core names are told apart by their class name.
 */
module Filters {
  import opened Results

  /** A `(value, label)` pair of a field's `choices`. */
  type Choice = (string, string)

  /** The exact class of a model field (`f.__class__`). */
  datatype FieldClass = CharField | BooleanField | OtherField(className: string)

  /** The class of a filter. */
  datatype FilterClass = CharFilter | BooleanFilter | ChoiceFilter | OtherFilter(className: string)

  /**
   * The constructor arguments of a filter other than its name, label and
   * choices (`required`, `widget`, extra form-field keyword arguments such as
   * `max_length`), as opaque (argument, value) pairs.
   */
  type FieldOptions = seq<(string, string)>

  /**
   * A `Filter` instance: its class, its name (None until it is named), its
   * label, the choices it was built with, its other constructor arguments, and
   * the value the global creation counter gave it when it was constructed.
   */
  datatype Filter = Filter(
    kind: FilterClass,
    name: Option<string>,
    displayLabel: Option<string>,
    choices: seq<Choice>,
    fieldOptions: FieldOptions,
    creationCounter: nat)

  /** A filter's form field (`filter.field`): what validates and cleans its raw input. */
  datatype Validator = Validator(kind: FilterClass, displayLabel: Option<string>, choices: seq<Choice>,
                                 fieldOptions: FieldOptions)

  /**
   * `filter.field`: the form field is built from everything the filter was
   * constructed with except its name and creation counter, so two filters
   * differing in any field argument get different form fields.
   */
  function FieldOf(f: Filter): Validator {
    Validator(f.kind, f.displayLabel, f.choices, f.fieldOptions)
  }

  /** `CharFilter(max_length=3)` and `CharFilter()` get different form fields, so they may clean differently. */
  lemma FieldOptionsSeparateFields(f: Filter, g: Filter)
    requires f.fieldOptions != g.fieldOptions
    ensures FieldOf(f) != FieldOf(g)
  {
  }

  /** A model field as `model._meta` describes it. */
  datatype DbField = DbField(name: string, fieldClass: FieldClass, verboseName: string, choices: seq<Choice>)

  /** A model's schema: `_meta.fields` and `_meta.many_to_many`. */
  datatype Model = Model(fields: seq<DbField>, manyToMany: seq<DbField>)

  /** The fields `filters_for_model` walks, in order. */
  function Schema(m: Model): seq<DbField> {
    m.fields + m.manyToMany
  }

  function Names(fs: seq<DbField>): (ns: seq<string>)
    ensures |ns| == |fs|
    ensures forall i :: 0 <= i < |fs| ==> ns[i] == fs[i].name
  {
    if fs == [] then [] else [fs[0].name] + Names(fs[1..])
  }
}
