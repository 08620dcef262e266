/** The price watchlist of the popup page: a list of symbols with their last
    two quoted prices, kept sorted by symbol after every change and mirrored
    under the storage key cryptoList. Price lookups are an oracle passed in
    as `Option<string>` (null when the request fails). */
module Watchlist {
  import opened Common
  import opened Seqs
  import opened StableSort
  import opened JsStrings

  datatype CryptoData = CryptoData(symbol: string, price: string, previousPrice: Option<string>, lastUpdated: int)

  function CryptoSymbol(c: CryptoData): string { c.symbol }

  /** The parsed value under the cryptoList key: an array, null, or any
      other value (an object, a number, a boolean or a string). */
  datatype StoredList = ListArray(list: seq<CryptoData>) | NullValue | OtherValue

  /** One price request of a refresh: its answer and the clock when it came. */
  datatype Lookup = Lookup(quote: Option<string>, at: int)

  /** A quote JavaScript treats as true: not null and not the empty string. */
  predicate Quoted(q: Option<string>) {
    q.Some? && q.value != ""
  }

  /** The comparator (a, b) => a.symbol.localeCompare(b.symbol). */
  predicate BySymbol(a: CryptoData, b: CryptoData) {
    LexLe(a.symbol, b.symbol)
  }

  lemma BySymbolIsTotalPreorder()
    ensures TotalPreorder(BySymbol)
  {
    forall a: CryptoData, b: CryptoData ensures BySymbol(a, b) || BySymbol(b, a) {
      LexLeTotal(a.symbol, b.symbol);
    }
    forall a: CryptoData, b: CryptoData, c: CryptoData | BySymbol(a, b) && BySymbol(b, c) ensures BySymbol(a, c) {
      LexLeTransitive(a.symbol, b.symbol, c.symbol);
    }
  }

  predicate HasSymbol(list: seq<CryptoData>, symbol: string) {
    exists i :: 0 <= i < |list| && list[i].symbol == symbol
  }

  /** No symbol is watched twice. */
  predicate UniqueSymbols(list: seq<CryptoData>) {
    DistinctBy(list, CryptoSymbol)
  }

  function SortBySymbol(list: seq<CryptoData>): seq<CryptoData> {
    Sort(list, BySymbol)
  }

  /** The symbols renderPriceList draws a row for: those with a truthy price. */
  function Shown(list: seq<CryptoData>): (syms: seq<string>)
    ensures forall s :: s in syms <==> exists i :: 0 <= i < |list| && list[i].symbol == s && list[i].price != ""
  {
    Map(Filter(list, (c: CryptoData) => c.price != ""), CryptoSymbol)
  }

  /** The list after adding a symbol at a quoted price and re-rendering. */
  function Added(list: seq<CryptoData>, symbol: string, price: string, now: int): seq<CryptoData> {
    SortBySymbol(list + [CryptoData(symbol, price, None, now)])
  }

  function Kept(list: seq<CryptoData>, symbol: string): seq<CryptoData> {
    Filter(list, (c: CryptoData) => c.symbol != symbol)
  }

  /** The list after removing a symbol and re-rendering. */
  function Removed(list: seq<CryptoData>, symbol: string): seq<CryptoData> {
    SortBySymbol(Kept(list, symbol))
  }

  /** One entry after its price request: a truthy quote shifts the price
      into previousPrice and stamps the entry; anything else leaves it. */
  function Refreshed(c: CryptoData, l: Lookup): CryptoData {
    if Quoted(l.quote) then CryptoData(c.symbol, l.quote.value, Some(c.price), l.at) else c
  }

  function RefreshAll(list: seq<CryptoData>, lookups: seq<Lookup>): (r: seq<CryptoData>)
    requires |lookups| == |list|
    ensures |r| == |list| && forall i :: 0 <= i < |list| ==> r[i] == Refreshed(list[i], lookups[i])
  {
    seq(|list|, i requires 0 <= i < |list| => Refreshed(list[i], lookups[i]))
  }

  // ---------------------------------------------------------------------------
  // Properties of the list operations

  /** Sorting by symbol orders the list, keeps its entries, keeps the
      relative order of entries of one symbol, and leaves an ordered list
      as it is. */
  lemma SortBySymbolSpec(list: seq<CryptoData>)
    ensures Sorted(SortBySymbol(list), BySymbol)
    ensures multiset(SortBySymbol(list)) == multiset(list)
    ensures forall v :: Ties(SortBySymbol(list), v, BySymbol) == Ties(list, v, BySymbol)
    ensures UniqueSymbols(list) ==> UniqueSymbols(SortBySymbol(list))
    ensures Sorted(list, BySymbol) ==> SortBySymbol(list) == list
  {
    BySymbolIsTotalPreorder();
    SortSorted(list, BySymbol);
    forall v ensures Ties(SortBySymbol(list), v, BySymbol) == Ties(list, v, BySymbol) {
      SortStable(list, v, BySymbol);
    }
    if UniqueSymbols(list) {
      PermutationDistinctBy(list, SortBySymbol(list), CryptoSymbol);
    }
    if Sorted(list, BySymbol) {
      SortIsTheStableSort(list, list, BySymbol);
    }
  }

  /** Adding a symbol not yet watched: the list gains exactly the new entry
      (no previous price), stays ordered, and its symbols stay unique. */
  lemma AddedSpec(list: seq<CryptoData>, symbol: string, price: string, now: int)
    requires UniqueSymbols(list) && !HasSymbol(list, symbol)
    ensures multiset(Added(list, symbol, price, now)) == multiset(list) + multiset{CryptoData(symbol, price, None, now)}
    ensures |Added(list, symbol, price, now)| == |list| + 1
    ensures Sorted(Added(list, symbol, price, now), BySymbol)
    ensures UniqueSymbols(Added(list, symbol, price, now))
    ensures HasSymbol(Added(list, symbol, price, now), symbol)
  {
    var e := CryptoData(symbol, price, None, now);
    var grown := list + [e];
    AppendNewSymbol(list, e);
    SortBySymbolSpec(grown);
    var r := Added(list, symbol, price, now);
    assert r == SortBySymbol(grown);
    assert e in multiset(r);
    var k :| 0 <= k < |r| && r[k] == e;
  }

  /** Appending an entry whose symbol is not watched keeps symbols unique. */
  lemma AppendNewSymbol(list: seq<CryptoData>, e: CryptoData)
    requires UniqueSymbols(list) && !HasSymbol(list, e.symbol)
    ensures UniqueSymbols(list + [e])
  {
    var grown := list + [e];
    forall i, j | 0 <= i < j < |grown| ensures CryptoSymbol(grown[i]) != CryptoSymbol(grown[j]) {
      assert grown[i] == list[i];
      if j < |list| {
        assert grown[j] == list[j];
      }
    }
  }

  /** Removing a symbol drops exactly its entries: every other entry stays,
      as often as it was there, and on an ordered list the others keep their
      relative order. */
  lemma RemovedSpec(list: seq<CryptoData>, symbol: string)
    ensures !HasSymbol(Removed(list, symbol), symbol)
    ensures forall c: CryptoData :: c.symbol != symbol ==> multiset(Removed(list, symbol))[c] == multiset(list)[c]
    ensures UniqueSymbols(list) ==> UniqueSymbols(Removed(list, symbol))
    ensures Sorted(list, BySymbol) ==> Removed(list, symbol) == Kept(list, symbol)
  {
    var kept := Kept(list, symbol);
    SortBySymbolSpec(kept);
    RemovedDropsSymbol(list, symbol);
    RemovedKeepsOthers(list, symbol);
    if UniqueSymbols(list) {
      FilterDistinctBy(list, (c: CryptoData) => c.symbol != symbol, CryptoSymbol);
    }
    if Sorted(list, BySymbol) {
      FilterIsSubsequence(list, (c: CryptoData) => c.symbol != symbol);
      SortedSubsequence(kept, list, BySymbol);
    }
  }

  lemma RemovedDropsSymbol(list: seq<CryptoData>, symbol: string)
    ensures !HasSymbol(Removed(list, symbol), symbol)
  {
    var kept := Kept(list, symbol);
    var r := Removed(list, symbol);
    assert multiset(r) == multiset(kept);
    forall i | 0 <= i < |r| ensures r[i].symbol != symbol {
      assert r[i] in multiset(kept);
    }
  }

  lemma RemovedKeepsOthers(list: seq<CryptoData>, symbol: string)
    ensures forall c: CryptoData :: c.symbol != symbol ==> multiset(Removed(list, symbol))[c] == multiset(list)[c]
  {
    var kept := Kept(list, symbol);
    assert multiset(Removed(list, symbol)) == multiset(kept);
    forall c: CryptoData | c.symbol != symbol ensures multiset(kept)[c] == multiset(list)[c] {
      FilterMultiset(list, (c: CryptoData) => c.symbol != symbol, c);
    }
  }


  /** A refresh keeps the length and the symbol of every position, so an
      ordered list stays ordered and re-rendering does not move anything. */
  lemma RefreshSpec(list: seq<CryptoData>, lookups: seq<Lookup>)
    requires |lookups| == |list|
    ensures forall i :: 0 <= i < |list| ==> RefreshAll(list, lookups)[i].symbol == list[i].symbol
    ensures forall i :: 0 <= i < |list| && !Quoted(lookups[i].quote) ==> RefreshAll(list, lookups)[i] == list[i]
    ensures forall i :: 0 <= i < |list| && Quoted(lookups[i].quote) ==>
      && RefreshAll(list, lookups)[i].price == lookups[i].quote.value
      && RefreshAll(list, lookups)[i].previousPrice == Some(list[i].price)
      && RefreshAll(list, lookups)[i].lastUpdated == lookups[i].at
    ensures UniqueSymbols(list) ==> UniqueSymbols(RefreshAll(list, lookups))
    ensures Sorted(list, BySymbol) ==> SortBySymbol(RefreshAll(list, lookups)) == RefreshAll(list, lookups)
  {
    var r := RefreshAll(list, lookups);
    if Sorted(list, BySymbol) {
      assert Sorted(r, BySymbol) by {
        forall i, j | 0 <= i < j < |r| ensures BySymbol(r[i], r[j]) {
          assert BySymbol(list[i], list[j]);
        }
      }
      SortBySymbolSpec(r);
    }
  }

  // ---------------------------------------------------------------------------
  // The page state

  class Watchlist {
    /** The module-level cryptoList. */
    var cryptoList: seq<CryptoData>
    /** The symbols of the rows currently drawn. */
    var shown: seq<string>
    /** The storage key cryptoList. */
    var saved: Slot<StoredList>
    /** The text field's value. */
    var input: string

    constructor (saved: Slot<StoredList>)
      ensures cryptoList == [] && shown == [] && this.saved == saved && input == ""
    {
      cryptoList := [];
      shown := [];
      this.saved := saved;
      input := "";
    }

    /** renderPriceList: sorts the list in place by symbol and draws a row
        for every entry with a price. */
    method RenderPriceList()
      modifies this
      ensures cryptoList == SortBySymbol(old(cryptoList))
      ensures shown == Shown(cryptoList)
      ensures saved == old(saved) && input == old(input)
    {
      if |cryptoList| == 0 {
        shown := [];
        return;
      }
      cryptoList := SortBySymbol(cryptoList);
      shown := Shown(cryptoList);
    }

    /** saveCryptoList. */
    method SaveCryptoList()
      modifies this
      ensures saved == Json(ListArray(cryptoList))
      ensures cryptoList == old(cryptoList) && shown == old(shown) && input == old(input)
    {
      saved := Json(ListArray(cryptoList));
    }

    /** loadCryptoList. A stored array replaces the list and is rendered;
        text that does not parse empties the list. A parsed value that is
        not an array makes the render throw inside the same try, which
        empties the list too: null throws when its length is read, before
        anything is drawn, while any other value first passes the length
        test, so the rows are cleared before the sort throws. Nothing stored
        leaves the list alone. */
    method LoadCryptoList()
      modifies this
      ensures saved == old(saved) && input == old(input)
      ensures saved.Absent? ==> cryptoList == old(cryptoList) && shown == old(shown)
      ensures saved.Garbled? || saved == Json(NullValue) ==> cryptoList == [] && shown == old(shown)
      ensures saved == Json(OtherValue) ==> cryptoList == [] && shown == []
      ensures saved.Json? && saved.value.ListArray? ==>
        cryptoList == SortBySymbol(saved.value.list) && shown == Shown(cryptoList)
    {
      match saved
      case Absent =>
      case Garbled =>
        cryptoList := [];
      case Json(NullValue) =>
        cryptoList := [];
      case Json(OtherValue) =>
        shown := [];
        cryptoList := [];
      case Json(ListArray(list)) =>
        cryptoList := list;
        RenderPriceList();
    }

    /** addCrypto, with the answer of the price request as `quote`.
        `lookedUp` says whether the request was made. */
    method AddCrypto(symbol: string, quote: Option<string>, now: int) returns (added: bool, lookedUp: bool)
      modifies this
      ensures input == old(input)
      ensures HasSymbol(old(cryptoList), ToUpper(symbol)) ==>
        !added && !lookedUp && cryptoList == old(cryptoList) && shown == old(shown) && saved == old(saved)
      ensures !HasSymbol(old(cryptoList), ToUpper(symbol)) && !Quoted(quote) ==>
        !added && lookedUp && cryptoList == old(cryptoList) && shown == old(shown) && saved == old(saved)
      ensures !HasSymbol(old(cryptoList), ToUpper(symbol)) && Quoted(quote) ==>
        && added && lookedUp
        && cryptoList == Added(old(cryptoList), ToUpper(symbol), quote.value, now)
        && shown == Shown(cryptoList)
        && saved == Json(ListArray(cryptoList))
    {
      var s := ToUpper(symbol);
      if exists i :: 0 <= i < |cryptoList| && cryptoList[i].symbol == s {
        return false, false;
      }
      lookedUp := true;
      var price := quote;
      if !Quoted(price) {
        return false, true;
      }
      cryptoList := cryptoList + [CryptoData(s, price.value, None, now)];
      RenderPriceList();
      SaveCryptoList();
      added := true;
    }

    /** removeCrypto. */
    method RemoveCrypto(symbol: string)
      modifies this
      ensures cryptoList == Removed(old(cryptoList), symbol)
      ensures shown == Shown(cryptoList)
      ensures saved == Json(ListArray(cryptoList))
      ensures input == old(input)
    {
      cryptoList := Filter(cryptoList, (c: CryptoData) => c.symbol != symbol);
      RenderPriceList();
      SaveCryptoList();
    }

    /** updateAllPrices, with the answers of its requests, one per entry in
        list order, as `lookups`. */
    method UpdateAllPrices(lookups: seq<Lookup>)
      requires |lookups| == |cryptoList|
      modifies this
      ensures cryptoList == SortBySymbol(RefreshAll(old(cryptoList), lookups))
      ensures shown == Shown(cryptoList)
      ensures saved == Json(ListArray(cryptoList))
      ensures input == old(input)
    {
      var i := 0;
      while i < |cryptoList|
        invariant 0 <= i <= |cryptoList| == |old(cryptoList)|
        invariant forall j :: 0 <= j < i ==> cryptoList[j] == Refreshed(old(cryptoList)[j], lookups[j])
        invariant forall j :: i <= j < |cryptoList| ==> cryptoList[j] == old(cryptoList)[j]
        invariant input == old(input)
      {
        var crypto := cryptoList[i];
        var newPrice := lookups[i].quote;
        if Quoted(newPrice) {
          cryptoList := cryptoList[i := CryptoData(crypto.symbol, newPrice.value, Some(crypto.price), lookups[i].at)];
        }
        i := i + 1;
      }
      assert cryptoList == RefreshAll(old(cryptoList), lookups);
      RenderPriceList();
      SaveCryptoList();
    }

    /** The Add button and the Enter key: trim the field, add a non-blank
        symbol, and clear the field only when the add succeeded. */
    method SubmitInput(quote: Option<string>, now: int) returns (added: bool)
      modifies this
      ensures Trim(old(input)) == "" ==> !added && cryptoList == old(cryptoList) && input == old(input) && saved == old(saved)
      ensures Trim(old(input)) != "" ==> (!added <==> cryptoList == old(cryptoList) && saved == old(saved))
      ensures Trim(old(input)) != "" ==>
        (added <==> !HasSymbol(old(cryptoList), ToUpper(Trim(old(input)))) && Quoted(quote))
      ensures added ==> quote.Some? && cryptoList == Added(old(cryptoList), ToUpper(Trim(old(input))), quote.value, now)
      ensures input == if added then "" else old(input)
    {
      var symbol := Trim(input);
      added := false;
      if symbol != "" {
        var lookedUp;
        ghost var before := cryptoList;
        added, lookedUp := AddCrypto(symbol, quote, now);
        if added {
          AddChanges(before, ToUpper(symbol), quote.value, now);
          input := "";
        }
      }
    }
  }

  /** A successful add always changes the list. */
  lemma AddChanges(list: seq<CryptoData>, symbol: string, price: string, now: int)
    ensures Added(list, symbol, price, now) != list
  {
    assert |Added(list, symbol, price, now)| == |list| + 1;
  }
}
