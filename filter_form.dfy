/**
 * The filter form (client/src/components/FilterForm.tsx): one `filters`
 * record, replaced field by field as the user types, handed to the page on
 * submit and cleared on reset.
 */
module FilterForm {
  import opened Wrappers
  import opened Types

  /** The filters shown when the page passes no initial filters. */
  const DEFAULT_FORM_FILTERS := FilterParams("320 01 004", "2025-07-01", "2025-07-31")

  /** The keys of `FilterParams`. */
  datatype Field = Carikod | BaslangicTarih | BitisTarih

  function Get(p: FilterParams, field: Field): string {
    match field
    case Carikod => p.carikod
    case BaslangicTarih => p.baslangicTarih
    case BitisTarih => p.bitisTarih
  }

  /** `{ ...prev, [field]: value }`: the named field takes the value, the others are kept. */
  function Set(p: FilterParams, field: Field, value: string): (r: FilterParams)
    ensures Get(r, field) == value
    ensures forall other: Field :: other != field ==> Get(r, other) == Get(p, other)
  {
    match field
    case Carikod => p.(carikod := value)
    case BaslangicTarih => p.(baslangicTarih := value)
    case BitisTarih => p.(bitisTarih := value)
  }

  /** Writing back the value a field already holds changes nothing. */
  lemma SetOwnValue(p: FilterParams, field: Field)
    ensures Set(p, field, Get(p, field)) == p
  {
  }

  /** Setting a field twice keeps only the last value. */
  lemma SetTwice(p: FilterParams, field: Field, v: string, w: string)
    ensures Set(Set(p, field, v), field, w) == Set(p, field, w)
  {
  }

  /** Records are compared field by field. */
  lemma FieldsDetermineFilters(p: FilterParams, q: FilterParams)
    requires forall field: Field :: Get(p, field) == Get(q, field)
    ensures p == q
  {
    assert Get(p, Carikod) == Get(q, Carikod);
    assert Get(p, BaslangicTarih) == Get(q, BaslangicTarih);
    assert Get(p, BitisTarih) == Get(q, BitisTarih);
  }

  class Form {
    var filters: FilterParams

    /** `useState(initialFilters || defaults)` (FilterForm.tsx:11-17). */
    constructor(initialFilters: Option<FilterParams>)
      ensures initialFilters.None? ==> filters == DEFAULT_FORM_FILTERS
      ensures initialFilters.Some? ==> filters == initialFilters.value
    {
      filters := initialFilters.GetOr(DEFAULT_FORM_FILTERS);
    }

    /** `handleSubmit`: the current filters go to `onFilter` as they are. */
    method HandleSubmit() returns (emitted: FilterParams)
      ensures emitted == filters
    {
      emitted := filters;
    }

    /** `handleInputChange`: only the named field changes. */
    method HandleInputChange(field: Field, value: string)
      modifies this
      ensures filters == Set(old(filters), field, value)
    {
      filters := Set(filters, field, value);
    }

    /** `resetFilters`: every field cleared, and the same empty filters go to `onFilter`. */
    method ResetFilters() returns (emitted: FilterParams)
      modifies this
      ensures filters == EMPTY_FILTERS && emitted == EMPTY_FILTERS
      ensures forall field: Field :: Get(emitted, field) == ""
    {
      filters := EMPTY_FILTERS;
      emitted := filters;
    }
  }
}
