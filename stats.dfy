/**
 * The statistics cards (client/src/components/StatsCard.tsx): the number
 * of records shown and the number of distinct invoice numbers among them.
 */
module Stats {
  import opened Wrappers
  import opened JsBuiltins
  import opened Types

  /** `new Set(data.map(item => item.FATIRS_NO))`. */
  function FaturaNumbers(data: seq<FaturaData>): (s: set<string>)
    ensures forall i :: 0 <= i < |data| ==> data[i].fatirsNo in s
    ensures forall x :: x in s ==> exists i :: 0 <= i < |data| && data[i].fatirsNo == x
  {
    if data == [] then {}
    else FaturaNumbers(data[..|data| - 1]) + {data[|data| - 1].fatirsNo}
  }

  /** There are never more distinct invoice numbers than records. */
  lemma {:induction false} NumbersAtMostCount(data: seq<FaturaData>)
    ensures |FaturaNumbers(data)| <= |data|
  {
    if data != [] {
      var init := data[..|data| - 1];
      NumbersAtMostCount(init);
      assert |FaturaNumbers(init) + {data[|data| - 1].fatirsNo}| <= |FaturaNumbers(init)| + 1;
    }
  }

  /**
   * The "unique invoices" card: the size of that set. It never exceeds the
   * number of records and is 0 exactly when there are none.
   */
  function UniqueFaturas(data: seq<FaturaData>): (n: nat)
    ensures n <= |data|
    ensures n == 0 <==> data == []
  {
    NumbersAtMostCount(data);
    assert data != [] ==> data[0].fatirsNo in FaturaNumbers(data);
    |FaturaNumbers(data)|
  }

  /** The "records" card: `data.length.toString()`, which reads back as the number of records. */
  function RecordCount(data: seq<FaturaData>): (s: string)
    ensures ParseInt(s) == Some(|data|)
  {
    ParseIntOfToString(|data|);
    IntToString(|data|)
  }

  /** A record whose invoice number is already present adds no invoice. */
  lemma AddDuplicateNumber(data: seq<FaturaData>, x: FaturaData)
    requires exists i :: 0 <= i < |data| && data[i].fatirsNo == x.fatirsNo
    ensures UniqueFaturas(data + [x]) == UniqueFaturas(data)
  {
    assert (data + [x])[..|data|] == data;
    assert FaturaNumbers(data + [x]) == FaturaNumbers(data) + {x.fatirsNo};
    assert FaturaNumbers(data) + {x.fatirsNo} == FaturaNumbers(data);
  }

  /** A record with a new invoice number adds exactly one invoice. */
  lemma AddNewNumber(data: seq<FaturaData>, x: FaturaData)
    requires forall i :: 0 <= i < |data| ==> data[i].fatirsNo != x.fatirsNo
    ensures UniqueFaturas(data + [x]) == UniqueFaturas(data) + 1
  {
    assert (data + [x])[..|data|] == data;
    assert FaturaNumbers(data + [x]) == FaturaNumbers(data) + {x.fatirsNo};
    assert x.fatirsNo !in FaturaNumbers(data);
  }
}
