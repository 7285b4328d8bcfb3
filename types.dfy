/** The records shared by the client and the server (client/src/types/index.ts). */
module Types {
  import opened Wrappers
  import opened Json

  /**
   * One invoice line (`FaturaData`). Fields, in the order of the source:
   * CARIKOD, CARI_ISIM, FATIRS_NO, STOK_ADI, STRA_GCMIK, OLCUBR, TARIH,
   * SIPARIS_TARIH.
   */
  datatype FaturaData = FaturaData(
    cariKod: string,
    cariIsim: string,
    fatirsNo: string,
    stokAdi: string,
    straGcmik: int,
    olcuBr: string,
    tarih: string,
    siparisTarih: string)

  /** The three filter fields (`FilterParams`); `""` means "no restriction". */
  datatype FilterParams = FilterParams(carikod: string, baslangicTarih: string, bitisTarih: string)

  /** The `mode` of a response; the server also emits `'error'`, absent from the client's type. */
  datatype Mode = Database | Test | Fallback | Error

  const EMPTY_FILTERS := FilterParams("", "", "")

  /** A `FaturaData` as the JavaScript object the server holds in its mock data. */
  function FaturaToJs(f: FaturaData): (v: JsValue)
    ensures v.JsObject?
    ensures v.fields.Keys == {"CARIKOD", "CARI_ISIM", "FATIRS_NO", "STOK_ADI", "STRA_GCMIK", "OLCUBR", "TARIH", "SIPARIS_TARIH"}
  {
    JsObject(map[
      "CARIKOD" := JsString(f.cariKod),
      "CARI_ISIM" := JsString(f.cariIsim),
      "FATIRS_NO" := JsString(f.fatirsNo),
      "STOK_ADI" := JsString(f.stokAdi),
      "STRA_GCMIK" := JsNumber(f.straGcmik),
      "OLCUBR" := JsString(f.olcuBr),
      "TARIH" := JsString(f.tarih),
      "SIPARIS_TARIH" := JsString(f.siparisTarih)])
  }
}
