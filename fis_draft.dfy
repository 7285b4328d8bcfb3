/**
 * The invoice detail modal (client/src/components/FaturaDetailModal.tsx):
 * a draft material slip ("fiş") built from the selected invoice and the
 * next slip number, the two reference lists it offers, and the per-field
 * edits of the form. Each load is one atomic step that takes the server's
 * reply as a parameter.
 */
module FisDraft {
  import opened Wrappers
  import opened JsBuiltins
  import opened Types
  import ServerRoutes

  // ---------------------------------------------------------------------
  // The form record (FaturaDetailModal.tsx:11-22, 41-52)
  // ---------------------------------------------------------------------

  /**
   * `kur` starts as the number 1; a number input hands back its value as a
   * string, and `handleInputChange` stores that string as it is.
   */
  datatype KurValue = KurNumber(n: int) | KurText(s: string)

  datatype FisForm = FisForm(
    fisNo: string,
    faturaNo: string,
    tipi: string,
    tarih: string,
    tedarikciKodu: string,
    doviz: string,
    mteYazdirma: bool,
    kur: KurValue,
    vade: int,
    depo: string)

  const DEFAULT_DOVIZ := "TRY"
  const DEFAULT_TIPI := "Satış Faturası"
  const DEFAULT_DEPO := "ANA DEPO"
  const DEFAULT_VADE := 30

  const INITIAL_FORM := FisForm("", "", "", "", "", DEFAULT_DOVIZ, false, KurNumber(1), DEFAULT_VADE, "")

  /** The currencies the `doviz` select offers (FaturaDetailModal.tsx:336-341). */
  const DOVIZ_OPTIONS := ["CHF", "EUR", "GBP", "RUB", "TL", "USD"]

  /** `x || ''` on a property of an invoice that may be absent. */
  function FieldOr(fatura: Option<FaturaData>, get: FaturaData -> string): string {
    if fatura.Some? then get(fatura.value) else ""
  }

  /** The draft written by `loadFisNoAndSetFormData`, from the invoice and the slip number text. */
  function Draft(fatura: Option<FaturaData>, fisNo: string): (r: FisForm)
    ensures r.fisNo == fisNo
    ensures fatura.Some? ==> r.faturaNo == fatura.value.fatirsNo && r.tarih == fatura.value.tarih
                             && r.tedarikciKodu == fatura.value.cariKod
    ensures fatura.None? ==> r.faturaNo == "" && r.tarih == "" && r.tedarikciKodu == ""
    ensures r.tipi == DEFAULT_TIPI && r.doviz == DEFAULT_DOVIZ && !r.mteYazdirma
    ensures r.kur == KurNumber(1) && r.vade == DEFAULT_VADE && r.depo == DEFAULT_DEPO
  {
    FisForm(fisNo, FieldOr(fatura, (f: FaturaData) => f.fatirsNo), DEFAULT_TIPI, FieldOr(fatura, (f: FaturaData) => f.tarih),
            FieldOr(fatura, (f: FaturaData) => f.cariKod), DEFAULT_DOVIZ, false, KurNumber(1), DEFAULT_VADE, DEFAULT_DEPO)
  }

  // ---------------------------------------------------------------------
  // The next slip number (FaturaDetailModal.tsx:69-113)
  // ---------------------------------------------------------------------

  /** What `getLatestFisNo()` gives back: the server's envelope, or a thrown error. */
  datatype FisNoReply = Received(envelope: ServerRoutes.FisNoEnvelope) | Thrown

  /**
   * The slip number text: `nextFisNo.toString()` on success, `'1'` otherwise.
   * A success without `nextFisNo` throws on `toString` and lands in the
   * `catch`, which also writes `'1'`.
   */
  function FisNoText(reply: FisNoReply): (r: string)
    ensures r != []
    ensures ParseInt(r).Some?
  {
    match reply
    case Received(e) =>
      if e.success && e.nextFisNo.Some? then
        ParseIntOfToString(e.nextFisNo.value);
        IntToString(e.nextFisNo.value)
      else "1"
    case Thrown => "1"
  }

  /** The slip number text reads back as the server's next number, or as 1 when there is none. */
  lemma FisNoTextParsesBack(reply: FisNoReply)
    ensures reply.Received? && reply.envelope.success && reply.envelope.nextFisNo.Some? ==>
      ParseInt(FisNoText(reply)) == Some(reply.envelope.nextFisNo.value)
    ensures !(reply.Received? && reply.envelope.success && reply.envelope.nextFisNo.Some?) ==>
      FisNoText(reply) == "1" && ParseInt(FisNoText(reply)) == Some(1)
  {
    if reply.Received? && reply.envelope.success && reply.envelope.nextFisNo.Some? {
      ParseIntOfToString(reply.envelope.nextFisNo.value);
    } else {
      ParseIntOfSignedDigits(false, "1");
      assert "" + "1" == "1";
    }
  }

  /**
   * End to end with the server's `/api/latest-fis-no`: a successful route
   * hands the client its next number, which the draft shows as text that
   * reads back as that number; a failed route leaves the draft at `'1'`.
   */
  lemma DraftShowsServerNextFisNo(testMode: bool, fisPool: ServerRoutes.PoolState<string>, fatura: Option<FaturaData>)
    ensures var e := ServerRoutes.LatestFisNo(testMode, fisPool);
            e.success ==> ParseInt(Draft(fatura, FisNoText(Received(e))).fisNo) == Some(e.nextFisNo.value)
    ensures var e := ServerRoutes.LatestFisNo(testMode, fisPool);
            !e.success ==> Draft(fatura, FisNoText(Received(e))).fisNo == "1"
    ensures testMode ==> ParseInt(Draft(fatura, FisNoText(Received(ServerRoutes.LatestFisNo(testMode, fisPool)))).fisNo) == Some(1001)
  {
    FisNoTextParsesBack(Received(ServerRoutes.LatestFisNo(testMode, fisPool)));
  }

  // ---------------------------------------------------------------------
  // The reference lists (FaturaDetailModal.tsx:115-171)
  // ---------------------------------------------------------------------

  datatype FisTipi = FisTipi(malzemeFisTipId: int, malzemeFisTipi: string)

  datatype Depo = DepoRecord(
    adresId: int,
    depoId: int,
    adres: string,
    pasif: int,
    ozelKodu1: string,
    ozelKodu2: string,
    ozelKodu3: string,
    depoAdi: string)

  const FALLBACK_FIS_TIPLERI := [
    FisTipi(1, "Satış Faturası"), FisTipi(2, "Alış Faturası"),
    FisTipi(3, "İade Faturası"), FisTipi(4, "Proforma Fatura")
  ]

  const FALLBACK_DEPOLAR := [
    DepoRecord(1, 1, "Merkez Depo", 0, "", "", "", "ANA DEPO"),
    DepoRecord(2, 2, "Yan Depo", 0, "", "", "", "YAN DEPO"),
    DepoRecord(3, 3, "Şube Depo", 0, "", "", "", "ŞUBE DEPO")
  ]

  /** The fixed slip types carry the identifiers 1 to 4, in order, and the first is the draft's default type. */
  lemma FallbackFisTipleriNumbered()
    ensures |FALLBACK_FIS_TIPLERI| == 4
    ensures forall i :: 0 <= i < |FALLBACK_FIS_TIPLERI| ==> FALLBACK_FIS_TIPLERI[i].malzemeFisTipId == i + 1
    ensures FALLBACK_FIS_TIPLERI[0].malzemeFisTipi == DEFAULT_TIPI
  {
  }

  /** What `getMalzemeFisTipleri()` gives back. */
  datatype FisTipleriReply = FisTipleriReceived(success: bool, data: Option<seq<FisTipi>>, message: Option<string>) | FisTipleriThrown

  /** What `getDepolar()` gives back. */
  datatype DepolarReply = DepolarReceived(success: bool, data: Option<seq<Depo>>, message: Option<string>) | DepolarThrown

  /** The value of a warehouse's option in the `depo` select (FaturaDetailModal.tsx:411). */
  function DepoOption(d: Depo): (v: string)
    ensures |v| == |d.depoAdi| + 3 + |d.adres|
    ensures v[|d.depoAdi| + 1] == '-'
  {
    d.depoAdi + " - " + d.adres
  }

  /** The default warehouse `'ANA DEPO'` is never the value of an option, not even for the warehouse named `ANA DEPO`. */
  lemma DefaultDepoIsNoOption(d: Depo)
    ensures DepoOption(d) != DEFAULT_DEPO
  {
    var v := DepoOption(d);
    if |v| == |DEFAULT_DEPO| {
      assert v[|d.depoAdi| + 1] == '-';
      assert forall k :: 0 <= k < |DEFAULT_DEPO| ==> DEFAULT_DEPO[k] != '-';
    }
  }

  /** The default currency `'TRY'` is not among the offered currencies. */
  lemma DefaultDovizIsNoOption(fatura: Option<FaturaData>, fisNo: string)
    ensures INITIAL_FORM.doviz !in DOVIZ_OPTIONS
    ensures Draft(fatura, fisNo).doviz !in DOVIZ_OPTIONS
  {
  }

  // ---------------------------------------------------------------------
  // handleInputChange (FaturaDetailModal.tsx:173-180)
  // ---------------------------------------------------------------------

  /** The `name` attributes of the form's inputs. */
  datatype FormField =
    | FisNo | FaturaNo | Tipi | Tarih | TedarikciKodu | Doviz | MteYazdirma | Kur | Vade | Depo

  /** A change event: the input's name, its value and, for a checkbox, whether it is checked. */
  datatype ChangeEvent = ChangeEvent(name: FormField, value: string, checked: bool)

  /** A field's current value, whatever its JavaScript type. */
  datatype FieldValue = Text(s: string) | Flag(b: bool) | Number(n: int)

  /** Only `mteYazdirma` is rendered as a checkbox. */
  predicate IsCheckbox(field: FormField) {
    field == MteYazdirma
  }

  function Get(form: FisForm, field: FormField): FieldValue {
    match field
    case FisNo => Text(form.fisNo)
    case FaturaNo => Text(form.faturaNo)
    case Tipi => Text(form.tipi)
    case Tarih => Text(form.tarih)
    case TedarikciKodu => Text(form.tedarikciKodu)
    case Doviz => Text(form.doviz)
    case MteYazdirma => Flag(form.mteYazdirma)
    case Kur => (match form.kur case KurNumber(n) => Number(n) case KurText(s) => Text(s))
    case Vade => Number(form.vade)
    case Depo => Text(form.depo)
  }

  /** The value the event writes: `checked` for a checkbox, `parseInt(value) || 0` for `vade`, else the raw string. */
  function NewValue(e: ChangeEvent): (v: FieldValue)
    ensures IsCheckbox(e.name) ==> v == Flag(e.checked)
    ensures e.name == Vade ==> v == Number(ParseIntOrZero(e.value))
    ensures !IsCheckbox(e.name) && e.name != Vade ==> v == Text(e.value)
  {
    if IsCheckbox(e.name) then Flag(e.checked)
    else if e.name == Vade then Number(ParseIntOrZero(e.value))
    else Text(e.value)
  }

  /** `{ ...prev, [name]: newValue }`. */
  function Changed(form: FisForm, e: ChangeEvent): (r: FisForm)
    ensures Get(r, e.name) == NewValue(e)
    ensures forall other :: other != e.name ==> Get(r, other) == Get(form, other)
  {
    match e.name
    case FisNo => form.(fisNo := e.value)
    case FaturaNo => form.(faturaNo := e.value)
    case Tipi => form.(tipi := e.value)
    case Tarih => form.(tarih := e.value)
    case TedarikciKodu => form.(tedarikciKodu := e.value)
    case Doviz => form.(doviz := e.value)
    case MteYazdirma => form.(mteYazdirma := e.checked)
    case Kur => form.(kur := KurText(e.value))
    case Vade => form.(vade := ParseIntOrZero(e.value))
    case Depo => form.(depo := e.value)
  }

  /** Two forms that agree on every field are the same form, so `Changed`'s contract pins its result down. */
  lemma {:induction false} FieldsDetermineForm(a: FisForm, b: FisForm)
    requires forall field :: Get(a, field) == Get(b, field)
    ensures a == b
  {
    assert Get(a, FisNo) == Get(b, FisNo) && Get(a, FaturaNo) == Get(b, FaturaNo);
    assert Get(a, Tipi) == Get(b, Tipi) && Get(a, Tarih) == Get(b, Tarih);
    assert Get(a, TedarikciKodu) == Get(b, TedarikciKodu) && Get(a, Doviz) == Get(b, Doviz);
    assert Get(a, MteYazdirma) == Get(b, MteYazdirma) && Get(a, Vade) == Get(b, Vade);
    assert Get(a, Depo) == Get(b, Depo);
    assert Get(a, Kur) == Get(b, Kur);
    assert a.kur == b.kur;
  }

  /** Typing a number into `vade` stores that number; text that is not a number stores 0. */
  lemma VadeTakesTypedNumber(form: FisForm, n: int, s: string)
    requires ParseInt(s).None?
    ensures Changed(form, ChangeEvent(Vade, IntToString(n), false)).vade == n
    ensures Changed(form, ChangeEvent(Vade, s, false)).vade == 0
  {
    ParseIntOfToString(n);
  }

  // ---------------------------------------------------------------------
  // The modal state (FaturaDetailModal.tsx:41-191)
  // ---------------------------------------------------------------------

  /** What the modal calls on its caller. */
  datatype Event = OnClose

  class DetailModal {
    var formData: FisForm
    var loading: bool
    var fisNoLoading: bool
    /** `setFisTipleri(response.data)` stores whatever the reply holds, possibly nothing. */
    var fisTipleri: Option<seq<FisTipi>>
    var fisTipleriLoading: bool
    var depolar: seq<Depo>
    var depolarLoading: bool

    /** The initial state (FaturaDetailModal.tsx:41-59). */
    constructor()
      ensures formData == INITIAL_FORM && !loading && !fisNoLoading
      ensures fisTipleri == Some([]) && !fisTipleriLoading
      ensures depolar == [] && !depolarLoading
    {
      formData := INITIAL_FORM;
      loading := false;
      fisNoLoading := false;
      fisTipleri := Some([]);
      fisTipleriLoading := false;
      depolar := [];
      depolarLoading := false;
    }

    /** `loadFisNoAndSetFormData`: the draft from the invoice and the next slip number. */
    method LoadFisNoAndSetFormData(fatura: Option<FaturaData>, reply: FisNoReply)
      modifies this
      ensures formData == Draft(fatura, FisNoText(reply))
      ensures !fisNoLoading
      ensures loading == old(loading) && fisTipleri == old(fisTipleri) && fisTipleriLoading == old(fisTipleriLoading)
      ensures depolar == old(depolar) && depolarLoading == old(depolarLoading)
    {
      fisNoLoading := true;
      var nextFisNo := "1";
      match reply {
        case Received(e) =>
          if e.success && e.nextFisNo.Some? {
            nextFisNo := IntToString(e.nextFisNo.value);
          }
        case Thrown =>
      }
      formData := Draft(fatura, nextFisNo);
      fisNoLoading := false;
    }

    /** `loadFisTipleri`: the server's list on success, the four fixed types otherwise. */
    method LoadFisTipleri(reply: FisTipleriReply)
      modifies this
      ensures reply.FisTipleriReceived? && reply.success ==> fisTipleri == reply.data
      ensures !(reply.FisTipleriReceived? && reply.success) ==> fisTipleri == Some(FALLBACK_FIS_TIPLERI)
      ensures !fisTipleriLoading
      ensures formData == old(formData) && loading == old(loading) && fisNoLoading == old(fisNoLoading)
      ensures depolar == old(depolar) && depolarLoading == old(depolarLoading)
    {
      fisTipleriLoading := true;
      if reply.FisTipleriReceived? && reply.success {
        fisTipleri := reply.data;
      } else {
        fisTipleri := Some(FALLBACK_FIS_TIPLERI);
      }
      fisTipleriLoading := false;
    }

    /** `loadDepolar`: the server's list when it succeeded with data, the three fixed warehouses otherwise. */
    method LoadDepolar(reply: DepolarReply)
      modifies this
      ensures reply.DepolarReceived? && reply.success && reply.data.Some? ==> depolar == reply.data.value
      ensures !(reply.DepolarReceived? && reply.success && reply.data.Some?) ==> depolar == FALLBACK_DEPOLAR
      ensures !depolarLoading
      ensures formData == old(formData) && loading == old(loading) && fisNoLoading == old(fisNoLoading)
      ensures fisTipleri == old(fisTipleri) && fisTipleriLoading == old(fisTipleriLoading)
    {
      depolarLoading := true;
      if reply.DepolarReceived? && reply.success && reply.data.Some? {
        depolar := reply.data.value;
      } else {
        depolar := FALLBACK_DEPOLAR;
      }
      depolarLoading := false;
    }

    /** The effect on `[fatura, isOpen]`: the three loads run only for an open modal with an invoice. */
    method OpenEffect(fatura: Option<FaturaData>, isOpen: bool,
                      fisNoReply: FisNoReply, fisTipleriReply: FisTipleriReply, depolarReply: DepolarReply)
      modifies this
      ensures !(fatura.Some? && isOpen) ==>
        formData == old(formData) && fisTipleri == old(fisTipleri) && depolar == old(depolar)
        && fisNoLoading == old(fisNoLoading) && fisTipleriLoading == old(fisTipleriLoading)
        && depolarLoading == old(depolarLoading)
      ensures fatura.Some? && isOpen ==>
        formData == Draft(fatura, FisNoText(fisNoReply))
        && (fisTipleriReply.FisTipleriReceived? && fisTipleriReply.success ==> fisTipleri == fisTipleriReply.data)
        && (!(fisTipleriReply.FisTipleriReceived? && fisTipleriReply.success) ==> fisTipleri == Some(FALLBACK_FIS_TIPLERI))
        && (depolarReply.DepolarReceived? && depolarReply.success && depolarReply.data.Some? ==> depolar == depolarReply.data.value)
        && (!(depolarReply.DepolarReceived? && depolarReply.success && depolarReply.data.Some?) ==> depolar == FALLBACK_DEPOLAR)
        && !fisNoLoading && !fisTipleriLoading && !depolarLoading
      ensures loading == old(loading)
    {
      if fatura.Some? && isOpen {
        LoadFisNoAndSetFormData(fatura, fisNoReply);
        LoadFisTipleri(fisTipleriReply);
        LoadDepolar(depolarReply);
      }
    }

    /** `handleInputChange`: the named field takes the event's value, the others are kept. */
    method HandleInputChange(e: ChangeEvent)
      modifies this
      ensures formData == Changed(old(formData), e)
      ensures loading == old(loading) && fisNoLoading == old(fisNoLoading)
      ensures fisTipleri == old(fisTipleri) && fisTipleriLoading == old(fisTipleriLoading)
      ensures depolar == old(depolar) && depolarLoading == old(depolarLoading)
    {
      formData := Changed(formData, e);
    }

    /** `handleSubmit`: nothing is saved; `loading` goes up and down and the modal asks to close. */
    method HandleSubmit() returns (events: seq<Event>)
      modifies this
      ensures events == [OnClose]
      ensures !loading
      ensures formData == old(formData) && fisNoLoading == old(fisNoLoading)
      ensures fisTipleri == old(fisTipleri) && fisTipleriLoading == old(fisTipleriLoading)
      ensures depolar == old(depolar) && depolarLoading == old(depolarLoading)
    {
      loading := true;
      loading := false;
      events := [OnClose];
    }
  }
}
