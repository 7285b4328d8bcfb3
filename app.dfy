/**
 * The invoice list page (client/src/App.tsx): the client-side filter and
 * the state the page keeps. Each React state setter is an assignment to a
 * field; each handler is one atomic step that takes the server's reply as
 * a parameter.
 */
module App {
  import opened Wrappers
  import opened JsBuiltins
  import opened Types
  import opened Sequences

  // ---------------------------------------------------------------------
  // applyFilters (App.tsx:46-55)
  // ---------------------------------------------------------------------

  /** An empty code is no restriction; otherwise the code must be equal. */
  predicate CodeMatches(item: FaturaData, f: FilterParams) {
    f.carikod == "" || item.cariKod == f.carikod
  }

  /**
   * An empty bound on either side switches the date test off; otherwise the
   * record's date lies between the two bounds, both included.
   */
  predicate DateMatches(item: FaturaData, f: FilterParams) {
    f.baslangicTarih == "" || f.bitisTarih == ""
    || (DateLe(f.baslangicTarih, item.tarih) && DateLe(item.tarih, f.bitisTarih))
  }

  predicate Matches(item: FaturaData, f: FilterParams) {
    CodeMatches(item, f) && DateMatches(item, f)
  }

  /** `data.filter(item => carikodMatch && tarihMatch)`. */
  function ApplyFilters(data: seq<FaturaData>, f: FilterParams): (r: seq<FaturaData>)
    ensures |r| <= |data|
    ensures forall x :: x in r <==> x in data && Matches(x, f)
    ensures forall x {:trigger multiset(r)[x]} :: multiset(r)[x] == if Matches(x, f) then multiset(data)[x] else 0
  {
    if data == [] then []
    else
      assert data == [data[0]] + data[1..];
      (if Matches(data[0], f) then [data[0]] else []) + ApplyFilters(data[1..], f)
  }

  /** Filtering a concatenation filters each part: repeated records keep their count. */
  lemma {:induction false} ApplyFiltersAppend(a: seq<FaturaData>, b: seq<FaturaData>, f: FilterParams)
    ensures ApplyFilters(a + b, f) == ApplyFilters(a, f) + ApplyFilters(b, f)
  {
    if a == [] {
      assert a + b == b;
    } else {
      assert (a + b)[1..] == a[1..] + b;
      ApplyFiltersAppend(a[1..], b, f);
    }
  }

  /** The filter keeps the order of the records it keeps. */
  lemma {:induction false} ApplyFiltersIsSubsequence(data: seq<FaturaData>, f: FilterParams)
    ensures IsSubsequence(ApplyFilters(data, f), data)
  {
    if data != [] {
      ApplyFiltersIsSubsequence(data[1..], f);
      if Matches(data[0], f) {
        assert ApplyFilters(data, f) == [data[0]] + ApplyFilters(data[1..], f);
      } else {
        assert ApplyFilters(data, f) == ApplyFilters(data[1..], f);
        SubsequenceOfTail(ApplyFilters(data[1..], f), data);
      }
    }
  }

  /** With no code and at least one empty date bound, every record is shown. */
  lemma {:induction false} ApplyFiltersUnrestricted(data: seq<FaturaData>, f: FilterParams)
    requires f.carikod == "" && (f.baslangicTarih == "" || f.bitisTarih == "")
    ensures ApplyFilters(data, f) == data
  {
    if data != [] {
      ApplyFiltersUnrestricted(data[1..], f);
      assert [data[0]] + data[1..] == data;
    }
  }

  /** Resetting the form (all fields empty) shows every record. */
  lemma ResetShowsEverything(data: seq<FaturaData>)
    ensures ApplyFilters(data, EMPTY_FILTERS) == data
  {
    ApplyFiltersUnrestricted(data, EMPTY_FILTERS);
  }

  /** A record dated exactly on the start or on the end date is kept. */
  lemma ApplyFiltersInclusive(data: seq<FaturaData>, f: FilterParams, x: FaturaData)
    requires x in data && CodeMatches(x, f)
    requires f.baslangicTarih != "" && f.bitisTarih != ""
    requires DateLe(f.baslangicTarih, f.bitisTarih)
    requires x.tarih == f.baslangicTarih || x.tarih == f.bitisTarih
    ensures x in ApplyFilters(data, f)
  {
    LexLeReflexive(x.tarih);
  }

  /** A non-empty code keeps only the records carrying exactly that code. */
  lemma ApplyFiltersExactCode(data: seq<FaturaData>, f: FilterParams)
    requires f.carikod != ""
    ensures forall x :: x in ApplyFilters(data, f) ==> x.cariKod == f.carikod
  {
  }

  /** Filtering twice with the same parameters is filtering once. */
  lemma {:induction false} ApplyFiltersIdempotent(data: seq<FaturaData>, f: FilterParams)
    ensures ApplyFilters(ApplyFilters(data, f), f) == ApplyFilters(data, f)
  {
    if data != [] {
      ApplyFiltersIdempotent(data[1..], f);
      var rest := ApplyFilters(data[1..], f);
      if Matches(data[0], f) {
        var r := [data[0]] + rest;
        assert r[0] == data[0] && r[1..] == rest;
        assert ApplyFilters(data, f) == r;
        assert ApplyFilters(r, f) == [data[0]] + ApplyFilters(rest, f);
      } else {
        assert ApplyFilters(data, f) == rest;
      }
    }
  }

  /** The July 2025 filter of the customer `320 01 004`. */
  const JULY_FILTER := FilterParams("320 01 004", "2025-07-01", "2025-07-31")

  lemma JulyStartBeforeMidMonth()
    ensures DateLe("2025-07-01", "2025-07-15")
  {
    LexLeAt("2025-07-01", "2025-07-15", 8);
  }

  lemma MidMonthBeforeJulyEnd()
    ensures DateLe("2025-07-15", "2025-07-31")
  {
    LexLeAt("2025-07-15", "2025-07-31", 8);
  }

  lemma JulyStartBeforeJulyEnd()
    ensures DateLe("2025-07-01", "2025-07-31")
  {
    LexLeAt("2025-07-01", "2025-07-31", 8);
  }

  lemma JulyEndNotAfterItself()
    ensures DateLe("2025-07-31", "2025-07-31")
  {
    LexLeReflexive("2025-07-31");
  }

  lemma AugustAfterJulyEnd()
    ensures !LexLe("2025-08-05", "2025-07-31")
  {
    LexGreaterAt("2025-08-05", "2025-07-31", 6);
  }

  lemma JulyFilterKeepsMidMonth(x: FaturaData)
    requires x.cariKod == "320 01 004" && x.tarih == "2025-07-15"
    ensures Matches(x, JULY_FILTER)
  {
    JulyStartBeforeMidMonth();
    MidMonthBeforeJulyEnd();
  }

  lemma JulyFilterKeepsMonthEnd(x: FaturaData)
    requires x.cariKod == "320 01 004" && x.tarih == "2025-07-31"
    ensures Matches(x, JULY_FILTER)
  {
    JulyStartBeforeJulyEnd();
    JulyEndNotAfterItself();
  }

  lemma JulyFilterDropsAugust(x: FaturaData)
    requires x.tarih == "2025-08-05"
    ensures !Matches(x, JULY_FILTER)
  {
    AugustAfterJulyEnd();
  }

  /** Of three records, the filter keeps the two that match, in order. */
  lemma KeepsFirstTwo(a: FaturaData, b: FaturaData, c: FaturaData, f: FilterParams)
    requires Matches(a, f) && Matches(b, f) && !Matches(c, f)
    ensures ApplyFilters([a, b, c], f) == [a, b]
  {
    assert ApplyFilters([c], f) == [] by {
      assert [c][1..] == [];
    }
    assert ApplyFilters([b, c], f) == [b] by {
      assert [b, c][1..] == [c];
    }
    assert [a, b, c][1..] == [b, c];
  }

  /**
   * Three records, two with the code inside July 2025 and one with the code
   * in August: the July filter keeps exactly the first two, in order.
   */
  lemma JulyFilterExample(a: FaturaData, b: FaturaData, c: FaturaData)
    requires a.cariKod == "320 01 004" && a.tarih == "2025-07-15"
    requires b.cariKod == "320 01 004" && b.tarih == "2025-07-31"
    requires c.cariKod == "320 01 004" && c.tarih == "2025-08-05"
    ensures ApplyFilters([a, b, c], JULY_FILTER) == [a, b]
  {
    JulyFilterKeepsMidMonth(a);
    JulyFilterKeepsMonthEnd(b);
    JulyFilterDropsAugust(c);
    KeepsFirstTwo(a, b, c, JULY_FILTER);
  }

  // ---------------------------------------------------------------------
  // The page state (App.tsx:10-23, 57-97)
  // ---------------------------------------------------------------------

  /** What `apiService.getFaturalar()` gives back: a reply, or a thrown error. */
  datatype FaturalarReply =
    | Replied(success: bool, data: seq<FaturaData>, mode: Option<Mode>,
              warning: Option<string>, error: Option<string>)
    | Thrown

  const LOAD_FAILED := "Veri yüklenirken hata oluştu"
  const CONNECTION_FAILED := "API bağlantısı kurulamadı. Lütfen sunucunun çalıştığından emin olun."

  /** A JavaScript string is truthy when it is present and not empty. */
  predicate Truthy(s: Option<string>) {
    s.Some? && s.value != ""
  }

  class InvoiceList {
    var allData: seq<FaturaData>
    var filteredData: seq<FaturaData>
    var loading: bool
    var error: Option<string>
    var dataMode: Option<Mode>
    var warning: Option<string>
    var currentFilters: FilterParams
    var selectedFatura: Option<FaturaData>
    var isModalOpen: bool

    /** The list shown is always the filter applied to all records; the modal is open exactly when an invoice is selected. */
    predicate Valid()
      reads this
    {
      filteredData == ApplyFilters(allData, currentFilters)
      && (isModalOpen <==> selectedFatura.Some?)
    }

    /** The initial state (App.tsx:10-23). */
    constructor()
      ensures Valid()
      ensures allData == [] && filteredData == [] && !loading && error.None?
      ensures dataMode.None? && warning.None? && currentFilters == EMPTY_FILTERS
      ensures selectedFatura.None? && !isModalOpen
    {
      allData := [];
      filteredData := [];
      loading := false;
      error := None;
      dataMode := None;
      warning := None;
      currentFilters := EMPTY_FILTERS;
      selectedFatura := None;
      isModalOpen := false;
    }

    /** `handleFilter`: new parameters, the list recomputed locally from `allData`. */
    method HandleFilter(params: FilterParams)
      requires Valid()
      modifies this
      ensures Valid()
      ensures currentFilters == params
      ensures filteredData == ApplyFilters(allData, params)
      ensures allData == old(allData) && loading == old(loading) && error == old(error)
      ensures dataMode == old(dataMode) && warning == old(warning)
      ensures selectedFatura == old(selectedFatura) && isModalOpen == old(isModalOpen)
    {
      currentFilters := params;
      filteredData := ApplyFilters(allData, params);
    }

    /** `loadInitialData`, with the reply of `getFaturalar` as a parameter. */
    method LoadInitialData(reply: FaturalarReply)
      requires Valid()
      modifies this
      ensures Valid()
      ensures !loading
      ensures currentFilters == old(currentFilters)
      ensures selectedFatura == old(selectedFatura) && isModalOpen == old(isModalOpen)
      // a successful reply replaces the records and keeps the current filter
      ensures reply.Replied? && reply.success ==>
        allData == reply.data && filteredData == ApplyFilters(reply.data, old(currentFilters))
        && dataMode == Some(reply.mode.GetOr(Database)) && error.None?
        && warning == (if Truthy(reply.warning) then reply.warning else None)
      // a failed reply keeps the records and reports the server's error or a default
      ensures reply.Replied? && !reply.success ==>
        allData == old(allData) && filteredData == old(filteredData) && dataMode == old(dataMode)
        && warning.None? && error == Some(if Truthy(reply.error) then reply.error.value else LOAD_FAILED)
      // a thrown request keeps the records and reports the connection error
      ensures reply.Thrown? ==>
        allData == old(allData) && filteredData == old(filteredData) && dataMode == old(dataMode)
        && warning.None? && error == Some(CONNECTION_FAILED)
    {
      loading := true;
      error := None;
      warning := None;
      match reply {
        case Replied(success, data, mode, replyWarning, replyError) =>
          if success {
            allData := data;
            filteredData := ApplyFilters(data, currentFilters);
            dataMode := Some(mode.GetOr(Database));
            if Truthy(replyWarning) {
              warning := replyWarning;
            }
          } else {
            error := Some(if Truthy(replyError) then replyError.value else LOAD_FAILED);
          }
        case Thrown =>
          error := Some(CONNECTION_FAILED);
      }
      loading := false;
    }

    /** `handleRowClick`: select the invoice and open the detail modal. */
    method HandleRowClick(fatura: FaturaData)
      requires Valid()
      modifies this
      ensures Valid()
      ensures selectedFatura == Some(fatura) && isModalOpen
      ensures allData == old(allData) && filteredData == old(filteredData)
      ensures currentFilters == old(currentFilters) && loading == old(loading)
      ensures error == old(error) && dataMode == old(dataMode) && warning == old(warning)
    {
      selectedFatura := Some(fatura);
      isModalOpen := true;
    }

    /** `handleCloseModal`: close the modal and drop the selection. */
    method HandleCloseModal()
      requires Valid()
      modifies this
      ensures Valid()
      ensures selectedFatura.None? && !isModalOpen
      ensures allData == old(allData) && filteredData == old(filteredData)
      ensures currentFilters == old(currentFilters) && loading == old(loading)
      ensures error == old(error) && dataMode == old(dataMode) && warning == old(warning)
    {
      isModalOpen := false;
      selectedFatura := None;
    }
  }
}
