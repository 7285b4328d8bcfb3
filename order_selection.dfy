/**
 * The order picker (client/src/components/SiparisSelectionModal.tsx): a
 * list of orders loaded from the server, a search box filtering it on four
 * text fields, and a selection handed back to the caller.
 *
 * The order record is declared in a module that is not part of this model;
 * only the fields the picker reads are kept. `toLowerCase` is the parameter
 * `lower`, about which nothing is assumed unless a lemma says so.
 */
module OrderSelection {
  import opened Wrappers
  import opened JsBuiltins
  import opened Sequences

  /** The fields of an order the picker searches on, and the row key. */
  datatype Order = Order(
    siparisDetayId: int,
    siparisNo: string,
    malzemeKodu: string,
    malzemeAdi: string,
    firmaAdi: string)

  // ---------------------------------------------------------------------
  // filteredSiparisler (SiparisSelectionModal.tsx:50-55)
  // ---------------------------------------------------------------------

  /** The lowercased term occurs in one of the four lowercased fields. */
  predicate SearchMatches(o: Order, term: string, lower: string -> string) {
    var t := lower(term);
    Includes(lower(o.siparisNo), t) || Includes(lower(o.malzemeKodu), t)
    || Includes(lower(o.malzemeAdi), t) || Includes(lower(o.firmaAdi), t)
  }

  function FilteredSiparisler(orders: seq<Order>, term: string, lower: string -> string): (r: seq<Order>)
    ensures |r| <= |orders|
    ensures forall o :: o in r <==> o in orders && SearchMatches(o, term, lower)
    ensures forall o {:trigger multiset(r)[o]} :: multiset(r)[o] == if SearchMatches(o, term, lower) then multiset(orders)[o] else 0
  {
    if orders == [] then []
    else
      assert orders == [orders[0]] + orders[1..];
      (if SearchMatches(orders[0], term, lower) then [orders[0]] else [])
      + FilteredSiparisler(orders[1..], term, lower)
  }

  /** Searching a concatenation searches each part: repeated orders keep their count. */
  lemma {:induction false} FilteredAppend(a: seq<Order>, b: seq<Order>, term: string, lower: string -> string)
    ensures FilteredSiparisler(a + b, term, lower)
         == FilteredSiparisler(a, term, lower) + FilteredSiparisler(b, term, lower)
  {
    if a == [] {
      assert a + b == b;
    } else {
      assert (a + b)[1..] == a[1..] + b;
      FilteredAppend(a[1..], b, term, lower);
    }
  }

  /** The search keeps the order of the list. */
  lemma {:induction false} FilteredIsSubsequence(orders: seq<Order>, term: string, lower: string -> string)
    ensures IsSubsequence(FilteredSiparisler(orders, term, lower), orders)
  {
    if orders != [] {
      FilteredIsSubsequence(orders[1..], term, lower);
      if SearchMatches(orders[0], term, lower) {
        assert FilteredSiparisler(orders, term, lower)
          == [orders[0]] + FilteredSiparisler(orders[1..], term, lower);
      } else {
        assert FilteredSiparisler(orders, term, lower) == FilteredSiparisler(orders[1..], term, lower);
        SubsequenceOfTail(FilteredSiparisler(orders[1..], term, lower), orders);
      }
    }
  }

  /** An empty search box shows every order (the lowercase of `""` is `""`). */
  lemma {:induction false} EmptyTermKeepsAll(orders: seq<Order>, lower: string -> string)
    requires lower("") == ""
    ensures FilteredSiparisler(orders, "", lower) == orders
  {
    if orders != [] {
      IncludesEmpty(lower(orders[0].siparisNo));
      EmptyTermKeepsAll(orders[1..], lower);
      assert [orders[0]] + orders[1..] == orders;
    }
  }

  /** Two terms with the same lowercase select the same orders: the search ignores case. */
  lemma {:induction false} SearchIgnoresCase(orders: seq<Order>, t1: string, t2: string, lower: string -> string)
    requires lower(t1) == lower(t2)
    ensures FilteredSiparisler(orders, t1, lower) == FilteredSiparisler(orders, t2, lower)
  {
    if orders != [] {
      SearchIgnoresCase(orders[1..], t1, t2, lower);
      assert SearchMatches(orders[0], t1, lower) == SearchMatches(orders[0], t2, lower);
    }
  }

  /** An order whose number contains the term, as lowercased, is always shown. */
  lemma OrderNumberHitIsShown(orders: seq<Order>, o: Order, term: string, lower: string -> string, i: nat)
    requires o in orders
    requires i + |lower(term)| <= |lower(o.siparisNo)|
    requires lower(o.siparisNo)[i..i + |lower(term)|] == lower(term)
    ensures o in FilteredSiparisler(orders, term, lower)
  {
    IncludesAt(lower(o.siparisNo), lower(term), i);
  }

  // ---------------------------------------------------------------------
  // The picker state (SiparisSelectionModal.tsx:13-48)
  // ---------------------------------------------------------------------

  /** What `apiService.getSiparisler()` gives back: a reply, or a thrown error. */
  datatype SiparislerReply =
    | Replied(success: bool, data: Option<seq<Order>>, message: Option<string>)
    | Thrown

  /** What `handleSelect` calls on its caller, in order. */
  datatype Event = OnSelect(order: Order) | OnClose

  const LIST_UNAVAILABLE := "Sipariş listesi alınamadı"
  const LIST_LOAD_FAILED := "Sipariş listesi yüklenirken hata oluştu"

  class Picker {
    var siparisler: seq<Order>
    var loading: bool
    var error: Option<string>
    var selectedSiparis: Option<Order>
    var searchTerm: string
    const lower: string -> string

    /** The initial state (SiparisSelectionModal.tsx:13-17). */
    constructor(lower: string -> string)
      ensures siparisler == [] && !loading && error.None?
      ensures selectedSiparis.None? && searchTerm == ""
      ensures this.lower == lower
    {
      siparisler := [];
      loading := false;
      error := None;
      selectedSiparis := None;
      searchTerm := "";
      this.lower := lower;
    }

    /** The rows on screen. */
    function Shown(): (r: seq<Order>)
      reads this
      ensures forall o :: o in r <==> o in siparisler && SearchMatches(o, searchTerm, lower)
    {
      FilteredSiparisler(siparisler, searchTerm, lower)
    }

    /** `loadSiparisler`, with the reply of `getSiparisler` as a parameter. */
    method LoadSiparisler(reply: SiparislerReply)
      modifies this
      ensures !loading
      ensures selectedSiparis == old(selectedSiparis) && searchTerm == old(searchTerm)
      // a successful reply with data replaces the list and clears the error
      ensures reply.Replied? && reply.success && reply.data.Some? ==>
        siparisler == reply.data.value && error.None?
      // any other reply keeps the list and reports the server's message or a default
      ensures reply.Replied? && !(reply.success && reply.data.Some?) ==>
        siparisler == old(siparisler)
        && error == Some(if reply.message.Some? && reply.message.value != "" then reply.message.value else LIST_UNAVAILABLE)
      // a thrown request keeps the list and reports the load error
      ensures reply.Thrown? ==> siparisler == old(siparisler) && error == Some(LIST_LOAD_FAILED)
    {
      loading := true;
      error := None;
      match reply {
        case Replied(success, data, message) =>
          if success && data.Some? {
            siparisler := data.value;
          } else {
            error := Some(if message.Some? && message.value != "" then message.value else LIST_UNAVAILABLE);
          }
        case Thrown =>
          error := Some(LIST_LOAD_FAILED);
      }
      loading := false;
    }

    /** The search box (SiparisSelectionModal.tsx:98); the selection is kept even if it is no longer shown. */
    method SetSearchTerm(term: string)
      modifies this
      ensures searchTerm == term
      ensures siparisler == old(siparisler) && selectedSiparis == old(selectedSiparis)
      ensures loading == old(loading) && error == old(error)
    {
      searchTerm := term;
    }

    /** Clicking a row or its radio button (SiparisSelectionModal.tsx:178,185). */
    method SelectRow(o: Order)
      modifies this
      ensures selectedSiparis == Some(o)
      ensures siparisler == old(siparisler) && searchTerm == old(searchTerm)
      ensures loading == old(loading) && error == old(error)
    {
      selectedSiparis := Some(o);
    }

    /** `handleSelect`: nothing without a selection, else `onSelect` then `onClose`. */
    method HandleSelect() returns (events: seq<Event>)
      ensures selectedSiparis.None? ==> events == []
      ensures selectedSiparis.Some? ==> events == [OnSelect(selectedSiparis.value), OnClose]
    {
      if selectedSiparis.Some? {
        events := [OnSelect(selectedSiparis.value), OnClose];
      } else {
        events := [];
      }
    }
  }
}
