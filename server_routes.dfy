/**
 * The envelope logic of the server's routes (server/index.js:74-493). A
 * route handler is a function of the operating mode and of what the
 * connection pool it uses gives back; the SQL text is not modelled and a
 * query's recordset is a given sequence of rows.
 */
module ServerRoutes {
  import opened Wrappers
  import opened Json
  import opened JsBuiltins
  import opened Types
  import opened TextFix
  import opened Sequences

  /**
   * What a pool promise yields for one request: no promise at all, a
   * promise that resolved to `null` (the connection failed at startup), a
   * query that throws with a message, or the recordset of a query.
   */
  datatype PoolState<R> = NoPoolHandle | NullPool | QueryFails(message: string) | Rows(rows: seq<R>)

  /** The JSON body of a list endpoint. */
  datatype Envelope = Envelope(
    success: bool,
    data: Option<seq<JsValue>>,
    count: Option<int>,
    filters: Option<FilterParams>,
    mode: Mode,
    warning: Option<string>,
    message: Option<string>,
    error: Option<string>)

  /** The JSON body of `/api/latest-fis-no`. */
  datatype FisNoEnvelope = FisNoEnvelope(
    success: bool,
    latestFisNo: Option<int>,
    nextFisNo: Option<int>,
    mode: Mode,
    message: Option<string>,
    error: Option<string>)

  /** The query string of `/api/faturalar/filtreli`; `None` is a parameter left out. */
  datatype FilterQuery = FilterQuery(carikod: Option<string>, baslangicTarih: Option<string>, bitisTarih: Option<string>)

  const DEFAULT_CARIKOD := "320 01 004"
  const DEFAULT_BASLANGIC := "2025-07-01"
  const DEFAULT_BITIS := "2025-07-31"

  const FALLBACK_WARNING := "Veritabanı bağlantısı kurulamadı, test verileri gösteriliyor"
  const FIS_POOL_MISSING := "SenkronERP Malzeme Fişleri bağlantı havuzu mevcut değil"
  const FIS_TIPLERI_FAILED := "Malzeme Fiş Tipleri alınırken hata oluştu"
  const DEPOLAR_FAILED := "Depo listesi alınırken hata oluştu"
  const FIS_NO_FAILED := "Fiş numarası alınırken hata oluştu"

  /** The built-in sample invoices `mockData`. */
  const MOCK_DATA: seq<FaturaData> := [
    FaturaData("320 01 004", "YENÝ ÖZGÜVEN MADENCÝLÝK ÝNÞAAT SAN.TÝC.LTD.ÞTÝ.", "FAT001",
               "Test Stok", 10, "ADET", "2025-07-15", "2025-07-10"),
    FaturaData("320 01 004", "Test Cari İsim 2", "FAT002",
               "Test Stok 2", 5, "ADET", "2025-07-20", "2025-07-18")
  ]

  /** The fixed fiş-type list of test mode. */
  const TEST_FIS_TIPLERI: seq<JsValue> := [
    FisTipiRow(1, "Satış Faturası"), FisTipiRow(2, "Alış Faturası"),
    FisTipiRow(3, "İade Faturası"), FisTipiRow(4, "Proforma Fatura")
  ]

  /** The fixed warehouse list of test mode. */
  const TEST_DEPOLAR: seq<JsValue> := [
    DepoRow(1, 1, "Merkez Depo", "ANA DEPO"), DepoRow(2, 2, "Yan Depo", "YAN DEPO"),
    DepoRow(3, 3, "Şube Depo", "ŞUBE DEPO")
  ]

  function FisTipiRow(id: int, name: string): JsValue {
    JsObject(map["MalzemeFisTipID" := JsNumber(id), "MalzemeFisTipi" := JsString(name)])
  }

  function DepoRow(adresId: int, depoId: int, adres: string, depoAdi: string): JsValue {
    JsObject(map["AdresID" := JsNumber(adresId), "DepoID" := JsNumber(depoId),
                 "Adres" := JsString(adres), "DepoAdi" := JsString(depoAdi)])
  }

  function ToJsRows(items: seq<FaturaData>): (rows: seq<JsValue>)
    ensures |rows| == |items|
  {
    seq(|items|, i requires 0 <= i < |items| => FaturaToJs(items[i]))
  }

  /** `cleanData(rows)` for an array of rows; the result is again an array. */
  function CleanRows(rows: seq<JsValue>): (r: seq<JsValue>)
    ensures |r| == |rows|
    ensures forall i :: 0 <= i < |rows| ==> r[i] == Clean(rows[i])
  {
    CleanArray(rows);
    Clean(JsArray(rows)).items
  }

  // ---------------------------------------------------------------------
  // GET /api/faturalar
  // ---------------------------------------------------------------------

  function Faturalar(testMode: bool, pool: PoolState<JsValue>): (r: Envelope)
    // every outcome is a success whose count is the length of the data
    ensures r.success && r.data.Some? && r.count == Some(|r.data.value|)
    ensures r.filters.None? && r.message.None? && r.error.None?
    // the mode tells where the data came from
    ensures r.mode == Test <==> testMode || pool.NoPoolHandle?
    ensures r.mode == Database <==> !testMode && pool.Rows?
    ensures r.mode == Fallback <==> !testMode && (pool.NullPool? || pool.QueryFails?)
    ensures r.mode == Database ==> r.data.value == CleanRows(pool.rows)
    ensures r.mode != Database ==> r.data.value == CleanRows(ToJsRows(MOCK_DATA))
    // only the fallback warns, and its warning is not empty
    ensures r.warning.Some? <==> r.mode == Fallback
    ensures r.warning.Some? ==> r.warning.value != ""
  {
    if testMode || pool.NoPoolHandle? then
      Envelope(true, Some(CleanRows(ToJsRows(MOCK_DATA))), Some(|MOCK_DATA|), None, Test, None, None, None)
    else
      match pool
      case Rows(rows) =>
        Envelope(true, Some(CleanRows(rows)), Some(|rows|), None, Database, None, None, None)
      case _ =>
        Envelope(true, Some(CleanRows(ToJsRows(MOCK_DATA))), Some(|MOCK_DATA|), None, Fallback,
                 Some(FALLBACK_WARNING), None, None)
  }

  // ---------------------------------------------------------------------
  // GET /api/faturalar/filtreli
  // ---------------------------------------------------------------------

  /** The query parameters with their defaults (a parameter given as `""` stays `""`). */
  function FilterArguments(q: FilterQuery): (f: FilterParams)
    ensures q.carikod.None? ==> f.carikod == DEFAULT_CARIKOD
    ensures q.baslangicTarih.None? ==> f.baslangicTarih == DEFAULT_BASLANGIC
    ensures q.bitisTarih.None? ==> f.bitisTarih == DEFAULT_BITIS
    ensures q.carikod.Some? ==> f.carikod == q.carikod.value
    ensures q.baslangicTarih.Some? ==> f.baslangicTarih == q.baslangicTarih.value
    ensures q.bitisTarih.Some? ==> f.bitisTarih == q.bitisTarih.value
  {
    FilterParams(q.carikod.GetOr(DEFAULT_CARIKOD), q.baslangicTarih.GetOr(DEFAULT_BASLANGIC),
                 q.bitisTarih.GetOr(DEFAULT_BITIS))
  }

  /** The server's test on one sample record: the code always has to match, and the date lie in the range. */
  predicate MockMatches(item: FaturaData, f: FilterParams) {
    item.cariKod == f.carikod && DateLe(f.baslangicTarih, item.tarih) && DateLe(item.tarih, f.bitisTarih)
  }

  /** `mockData.filter(...)`. */
  function MockFilter(items: seq<FaturaData>, f: FilterParams): (r: seq<FaturaData>)
    ensures |r| <= |items|
    ensures forall x :: x in r <==> x in items && MockMatches(x, f)
    ensures forall x {:trigger multiset(r)[x]} :: multiset(r)[x] == if MockMatches(x, f) then multiset(items)[x] else 0
  {
    if items == [] then []
    else
      assert items == [items[0]] + items[1..];
      (if MockMatches(items[0], f) then [items[0]] else []) + MockFilter(items[1..], f)
  }

  function FiltreliFallbackData(f: FilterParams): seq<JsValue> {
    CleanRows(ToJsRows(MockFilter(MOCK_DATA, f)))
  }

  function FaturalarFiltreli(testMode: bool, pool: PoolState<JsValue>, q: FilterQuery): (r: Envelope)
    ensures r.success && r.data.Some? && r.count == Some(|r.data.value|)
    // the filters are echoed in every response
    ensures r.filters == Some(FilterArguments(q))
    ensures r.message.None? && r.error.None?
    ensures r.mode == Test <==> testMode || pool.NoPoolHandle?
    ensures r.mode == Database <==> !testMode && pool.Rows?
    ensures r.mode == Fallback <==> !testMode && (pool.NullPool? || pool.QueryFails?)
    // the live path ignores the filters; the other paths filter the sample data
    ensures r.mode == Database ==> r.data.value == CleanRows(pool.rows)
    ensures r.mode != Database ==> r.data.value == FiltreliFallbackData(FilterArguments(q))
    ensures r.warning.Some? <==> r.mode == Fallback
    ensures r.warning.Some? ==> r.warning.value != ""
  {
    var f := FilterArguments(q);
    if testMode || pool.NoPoolHandle? then
      var filtered := MockFilter(MOCK_DATA, f);
      Envelope(true, Some(CleanRows(ToJsRows(filtered))), Some(|filtered|), Some(f), Test, None, None, None)
    else
      match pool
      case Rows(rows) =>
        Envelope(true, Some(CleanRows(rows)), Some(|rows|), Some(f), Database, None, None, None)
      case _ =>
        var filtered := MockFilter(MOCK_DATA, f);
        Envelope(true, Some(CleanRows(ToJsRows(filtered))), Some(|filtered|), Some(f), Fallback,
                 Some(FALLBACK_WARNING), None, None)
  }

  /** The sample filter is an order-preserving subsequence of the sample data. */
  lemma {:induction false} MockFilterIsSubsequence(items: seq<FaturaData>, f: FilterParams)
    ensures IsSubsequence(MockFilter(items, f), items)
  {
    if items != [] {
      MockFilterIsSubsequence(items[1..], f);
      if MockMatches(items[0], f) {
        assert MockFilter(items, f) == [items[0]] + MockFilter(items[1..], f);
      } else {
        assert MockFilter(items, f) == MockFilter(items[1..], f);
        SubsequenceOfTail(MockFilter(items[1..], f), items);
      }
    }
  }

  /** An empty code does not switch the code test off: only records with an empty code are kept. */
  lemma MockFilterAlwaysMatchesCode(items: seq<FaturaData>, f: FilterParams)
    ensures forall x :: x in MockFilter(items, f) ==> x.cariKod == f.carikod
  {
  }

  /** A sample record dated on either bound is kept. */
  lemma MockFilterInclusive(items: seq<FaturaData>, f: FilterParams, x: FaturaData)
    requires x in items && x.cariKod == f.carikod && IsIsoDate(x.tarih)
    requires x.tarih == f.baslangicTarih || x.tarih == f.bitisTarih
    requires DateLe(f.baslangicTarih, f.bitisTarih)
    ensures x in MockFilter(items, f)
  {
    DateLeReflexive(x.tarih);
  }

  lemma DefaultStartBeforeFirstSample()
    ensures DateLe(DEFAULT_BASLANGIC, "2025-07-15")
  {
    LexLeAt(DEFAULT_BASLANGIC, "2025-07-15", 8);
  }

  lemma FirstSampleBeforeDefaultEnd()
    ensures DateLe("2025-07-15", DEFAULT_BITIS)
  {
    LexLeAt("2025-07-15", DEFAULT_BITIS, 8);
  }

  lemma DefaultStartBeforeSecondSample()
    ensures DateLe(DEFAULT_BASLANGIC, "2025-07-20")
  {
    LexLeAt(DEFAULT_BASLANGIC, "2025-07-20", 8);
  }

  lemma SecondSampleBeforeDefaultEnd()
    ensures DateLe("2025-07-20", DEFAULT_BITIS)
  {
    LexLeAt("2025-07-20", DEFAULT_BITIS, 8);
  }

  lemma FirstSampleMatchesDefaults(x: FaturaData, f: FilterParams)
    requires f == FilterParams(DEFAULT_CARIKOD, DEFAULT_BASLANGIC, DEFAULT_BITIS)
    requires x.cariKod == DEFAULT_CARIKOD && x.tarih == "2025-07-15"
    ensures MockMatches(x, f)
  {
    DefaultStartBeforeFirstSample();
    FirstSampleBeforeDefaultEnd();
  }

  lemma SecondSampleMatchesDefaults(x: FaturaData, f: FilterParams)
    requires f == FilterParams(DEFAULT_CARIKOD, DEFAULT_BASLANGIC, DEFAULT_BITIS)
    requires x.cariKod == DEFAULT_CARIKOD && x.tarih == "2025-07-20"
    ensures MockMatches(x, f)
  {
    DefaultStartBeforeSecondSample();
    SecondSampleBeforeDefaultEnd();
  }

  /** Two records that both match pass the mock filter unchanged. */
  lemma MockKeepsBoth(x: FaturaData, y: FaturaData, f: FilterParams)
    requires MockMatches(x, f) && MockMatches(y, f)
    ensures MockFilter([x, y], f) == [x, y]
  {
    assert [x, y][1..] == [y];
    assert [x, y][1..][1..] == [];
  }

  /** With the default parameters both sample invoices are returned. */
  lemma FiltreliDefaultsKeepBothSamples()
    ensures MockFilter(MOCK_DATA, FilterArguments(FilterQuery(None, None, None))) == MOCK_DATA
  {
    var f := FilterArguments(FilterQuery(None, None, None));
    assert f == FilterParams(DEFAULT_CARIKOD, DEFAULT_BASLANGIC, DEFAULT_BITIS);
    FirstSampleMatchesDefaults(MOCK_DATA[0], f);
    SecondSampleMatchesDefaults(MOCK_DATA[1], f);
    MockKeepsBoth(MOCK_DATA[0], MOCK_DATA[1], f);
    assert MOCK_DATA == [MOCK_DATA[0], MOCK_DATA[1]];
  }

  // ---------------------------------------------------------------------
  // GET /api/malzeme-fis-tipleri and GET /api/depolar
  // ---------------------------------------------------------------------

  /** The shared shape of the two reference-list routes. */
  function ReferenceList(testMode: bool, pool: PoolState<JsValue>, testList: seq<JsValue>, failure: string): (r: Envelope)
    ensures r.count.None? && r.filters.None? && r.warning.None?
    ensures r.success <==> testMode || pool.Rows?
    ensures testMode ==> r.mode == Test && r.data == Some(testList)
    ensures !testMode && pool.Rows? ==> r.mode == Database && r.data == Some(pool.rows)
    // a missing pool or a failed query is a hard error, with a message and no data
    ensures !r.success ==> r.mode == Error && r.data.None? && r.message.Some? && r.message.value != ""
    ensures !testMode && (pool.NoPoolHandle? || pool.NullPool?) ==>
      r.message == Some(FIS_POOL_MISSING) && r.error.None?
    ensures !testMode && pool.QueryFails? ==> r.message == Some(failure) && r.error == Some(pool.message)
    requires failure != ""
  {
    if testMode then
      Envelope(true, Some(testList), None, None, Test, None, None, None)
    else
      match pool
      case NoPoolHandle => Envelope(false, None, None, None, Error, None, Some(FIS_POOL_MISSING), None)
      case NullPool => Envelope(false, None, None, None, Error, None, Some(FIS_POOL_MISSING), None)
      case QueryFails(e) => Envelope(false, None, None, None, Error, None, Some(failure), Some(e))
      case Rows(rows) => Envelope(true, Some(rows), None, None, Database, None, None, None)
  }

  function MalzemeFisTipleri(testMode: bool, fisPool: PoolState<JsValue>): (r: Envelope)
    ensures testMode ==> r.success && r.data == Some(TEST_FIS_TIPLERI) && r.mode == Test
    ensures r.success <==> testMode || fisPool.Rows?
    ensures !r.success ==> r.mode == Error && r.data.None? && r.message.Some?
    ensures !testMode && fisPool.QueryFails? ==> r.message == Some(FIS_TIPLERI_FAILED)
  {
    ReferenceList(testMode, fisPool, TEST_FIS_TIPLERI, FIS_TIPLERI_FAILED)
  }

  function Depolar(testMode: bool, fisPool: PoolState<JsValue>): (r: Envelope)
    ensures testMode ==> r.success && r.data == Some(TEST_DEPOLAR) && r.mode == Test
    ensures r.success <==> testMode || fisPool.Rows?
    ensures !r.success ==> r.mode == Error && r.data.None? && r.message.Some?
    ensures !testMode && fisPool.QueryFails? ==> r.message == Some(DEPOLAR_FAILED)
  {
    ReferenceList(testMode, fisPool, TEST_DEPOLAR, DEPOLAR_FAILED)
  }

  // ---------------------------------------------------------------------
  // GET /api/latest-fis-no
  // ---------------------------------------------------------------------

  /** `recordset.map(row => parseInt(row.FisNo))`. */
  function ParsedFisNos(fisNos: seq<string>): (r: seq<Option<int>>)
    ensures |r| == |fisNos|
  {
    seq(|fisNos|, i requires 0 <= i < |fisNos| => ParseInt(fisNos[i]))
  }

  /** `.filter(num => !isNaN(num))`: the numbers, in order. */
  function NotNaN(parsed: seq<Option<int>>): (r: seq<int>)
    ensures |r| <= |parsed|
    ensures forall j :: 0 <= j < |parsed| && parsed[j].Some? ==> parsed[j].value in r
    ensures forall n :: n in r ==> Some(n) in parsed
  {
    if parsed == [] then []
    else
      var rest := NotNaN(parsed[1..]);
      assert forall j :: 1 <= j < |parsed| ==> parsed[j] == parsed[1..][j - 1];
      match parsed[0]
      case Some(n) => [n] + rest
      case None => rest
  }

  /** The `FisNo` values that parse, as numbers. */
  function NumericFisNos(fisNos: seq<string>): seq<int> {
    NotNaN(ParsedFisNos(fisNos))
  }

  /** `Math.max(...s)` for a non-empty list. */
  function Max(s: seq<int>): (m: int)
    requires s != []
    ensures m in s
    ensures forall x :: x in s ==> x <= m
  {
    if |s| == 1 then s[0]
    else
      var rest := Max(s[1..]);
      assert forall x :: x in s ==> x == s[0] || x in s[1..];
      if s[0] >= rest then s[0] else rest
  }

  /**
   * The latest and next fiş numbers for the `FisNo` values of the
   * recordset: the largest value that parses, and one more; `(0, 1)` when
   * none parses.
   */
  function FisNumbers(fisNos: seq<string>): (r: (int, int))
    ensures NumericFisNos(fisNos) == [] ==> r == (0, 1)
    ensures NumericFisNos(fisNos) != [] ==> r.0 in NumericFisNos(fisNos)
    ensures forall j :: 0 <= j < |fisNos| && ParseInt(fisNos[j]).Some? ==> ParseInt(fisNos[j]).value <= r.0
    ensures r.1 == r.0 + 1
  {
    var numeric := NumericFisNos(fisNos);
    assert forall j :: 0 <= j < |fisNos| ==> ParsedFisNos(fisNos)[j] == ParseInt(fisNos[j]);
    if numeric == [] then (0, 1) else (Max(numeric), Max(numeric) + 1)
  }

  /** The statements that compute `latestFisNo` and `nextFisNo` from the recordset. */
  method ComputeFisNumbers(recordset: seq<string>) returns (latestFisNo: int, nextFisNo: int)
    ensures (latestFisNo, nextFisNo) == FisNumbers(recordset)
  {
    latestFisNo := 0;
    nextFisNo := 1;
    if |recordset| > 0 {
      var numericFisNos := NumericFisNos(recordset);
      if |numericFisNos| > 0 {
        latestFisNo := Max(numericFisNos);
        nextFisNo := latestFisNo + 1;
      }
    }
  }

  function LatestFisNo(testMode: bool, fisPool: PoolState<string>): (r: FisNoEnvelope)
    ensures testMode ==> r == FisNoEnvelope(true, Some(1000), Some(1001), Test, None, None)
    ensures r.success <==> testMode || fisPool.Rows?
    ensures !testMode && fisPool.Rows? ==>
      r.mode == Database && r.latestFisNo == Some(FisNumbers(fisPool.rows).0)
      && r.nextFisNo == Some(FisNumbers(fisPool.rows).1)
    ensures r.success ==> r.latestFisNo.Some? && r.nextFisNo == Some(r.latestFisNo.value + 1)
    ensures !r.success ==> r.mode == Error && r.latestFisNo.None? && r.nextFisNo.None? && r.message.Some?
  {
    if testMode then
      FisNoEnvelope(true, Some(1000), Some(1001), Test, None, None)
    else
      match fisPool
      case NoPoolHandle => FisNoEnvelope(false, None, None, Error, Some(FIS_POOL_MISSING), None)
      case NullPool => FisNoEnvelope(false, None, None, Error, Some(FIS_POOL_MISSING), None)
      case QueryFails(e) => FisNoEnvelope(false, None, None, Error, Some(FIS_NO_FAILED), Some(e))
      case Rows(fisNos) =>
        var (latest, next) := FisNumbers(fisNos);
        FisNoEnvelope(true, Some(latest), Some(next), Database, None, None)
  }

  lemma ParseTen()
    ensures ParseInt("10") == Some(10)
  {
    assert "10"[..1] == "1";
    assert DigitsValue("10") == 10;
    ParseIntOfSignedDigits(false, "10");
    assert "" + "10" == "10";
  }

  lemma ParseSeven()
    ensures ParseInt("7") == Some(7)
  {
    ParseIntOfSignedDigits(false, "7");
    assert "" + "7" == "7";
  }

  /** Only the digit prefix of `"10a"` is read. */
  lemma ParseTenA()
    ensures ParseInt("10a") == Some(10)
  {
    assert "10"[..1] == "1";
    assert DigitsValue("10") == 10;
    assert "10a"[1..] == "0a";
    assert "0a"[1..] == "a";
    assert DigitPrefix("10a") == "10";
  }

  lemma ParseNaN()
    ensures ParseInt("abc") == None && ParseInt("") == None
  {
  }

  lemma ParsedExampleRows()
    ensures ParsedFisNos(["10", "abc", "", "7", "10a"]) == [Some(10), None, None, Some(7), Some(10)]
  {
    ParseTen();
    ParseSeven();
    ParseTenA();
    ParseNaN();
  }

  lemma NumericExampleRows()
    ensures NumericFisNos(["10", "abc", "", "7", "10a"]) == [10, 7, 10]
  {
    ParsedExampleRows();
    assert NotNaN([Some(10), None, None, Some(7), Some(10)]) == [10, 7, 10];
  }

  /** Lenient parsing: `"10a"` counts as 10, `"abc"` and `""` are skipped. */
  lemma FisNumbersExample()
    ensures FisNumbers(["10", "abc", "", "7", "10a"]) == (10, 11)
    ensures FisNumbers([]) == (0, 1)
  {
    NumericExampleRows();
    assert Max([10, 7, 10]) == 10;
  }

  /** The maximum is not floored at zero: only negative numbers give a negative latest number. */
  lemma ParseMinusFive(s: string)
    requires s == "-5"
    ensures ParseInt(s) == Some(-5)
  {
    var ds := s[1..];
    assert ds == "5" && ds[..0] == "";
    assert DigitsValue(ds) == 5;
    ParseIntOfSignedDigits(true, ds);
    assert "-" + ds == s;
  }

  lemma NegativeRows()
    ensures NumericFisNos(["-5"]) == [-5]
  {
    ParseMinusFive("-5");
    assert ParsedFisNos(["-5"]) == [Some(-5)];
    assert NotNaN([Some(-5)]) == [-5];
  }

  lemma FisNumbersNegative()
    ensures FisNumbers(["-5"]) == (-5, -4)
  {
    NegativeRows();
  }
}
