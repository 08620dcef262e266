/** The browser-side cache of the coin catalog and the user's search history,
    under the keys cryptoTracker_coinList and cryptoTracker_searchHistory.
    Each stored key is a Slot: absent, holding text that does not parse, or
    holding a parsed JSON value. Loads fall back to empty values and saves
    swallow their errors, so none of these operations fails. */
module CoinStorage {
  import opened Common
  import opened Seqs
  import opened StableSort
  import opened Types

  /** Only the most recent 50 symbols are kept. */
  const HISTORY_LIMIT: nat := 50

  /** The parsed value under the coin-list key: an array of coins, or any
      other JSON value. */
  datatype StoredCoins = CoinArray(coins: seq<CoinData>) | NotArray

  /** loadCoinList: the stored array, or [] when the key is missing, its text
      does not parse, or it parses to something other than an array. */
  function LoadCoinList(slot: Slot<StoredCoins>): (coins: seq<CoinData>)
    ensures coins != [] ==> slot.Json? && slot.value.CoinArray? && coins == slot.value.coins
  {
    match slot
    case Json(CoinArray(cs)) => cs
    case _ => []
  }

  /** loadSearchHistory: the stored object, or {} when the key is missing or
      its text does not parse. */
  function LoadSearchHistory(slot: Slot<UserSearchHistory>): (h: UserSearchHistory)
    ensures h != [] ==> slot == Json(h)
  {
    match slot
    case Json(h) => h
    case _ => []
  }

  // ---------------------------------------------------------------------------
  // The history update, on values

  /** The index of the symbol's key in the history, or -1. */
  function IndexOf(h: UserSearchHistory, symbol: string): (i: int)
    ensures -1 <= i < |h|
    ensures i >= 0 ==> h[i].symbol == symbol
    ensures i < 0 ==> forall j :: 0 <= j < |h| ==> h[j].symbol != symbol
    decreases |h|
  {
    if h == [] then -1
    else if h[|h| - 1].symbol == symbol then |h| - 1
    else
      var i := IndexOf(h[..|h| - 1], symbol);
      assert forall j :: 0 <= j < |h| - 1 ==> h[j] == h[..|h| - 1][j];
      i
  }

  /** history[key] = entry: an existing key keeps its place and takes the new
      value; a new key goes last. */
  function SetKey(h: UserSearchHistory, e: SearchEntry): UserSearchHistory {
    var i := IndexOf(h, e.symbol);
    if i >= 0 then h[i := e] else h + [e]
  }

  /** The count already recorded for the symbol, or 0 when it has no entry. */
  function PreviousCount(h: UserSearchHistory, symbol: string): nat {
    var i := IndexOf(h, symbol);
    if i >= 0 then h[i].count else 0
  }

  /** The entry the update writes for the symbol. */
  function Bumped(h: UserSearchHistory, symbol: string, now: int): SearchEntry {
    SearchEntry(symbol, PreviousCount(h, symbol) + 1, now)
  }

  function Bump(h: UserSearchHistory, symbol: string, now: int): UserSearchHistory {
    SetKey(h, Bumped(h, symbol, now))
  }

  /** The 50 most recent entries, most recent first. */
  function Trimmed(h: UserSearchHistory): UserSearchHistory {
    Take(Sort(h, MoreRecent), HISTORY_LIMIT)
  }

  /** The history updateSearchHistory saves. */
  function Updated(h: UserSearchHistory, symbol: string, now: int): UserSearchHistory {
    var b := Bump(h, symbol, now);
    if |b| > HISTORY_LIMIT then Trimmed(b) else b
  }

  /** The update gives the symbol one more use, stamped now, and leaves every
      other entry as it was; the keys stay distinct. */
  lemma BumpSpec(h: UserSearchHistory, symbol: string, now: int)
    requires WellKeyed(h)
    ensures WellKeyed(Bump(h, symbol, now))
    ensures Bumped(h, symbol, now) in Bump(h, symbol, now)
    ensures Bumped(h, symbol, now).count == 1 <==> forall j :: 0 <= j < |h| ==> h[j].symbol != symbol || h[j].count == 0
    ensures forall j :: 0 <= j < |h| && h[j].symbol == symbol ==> Bumped(h, symbol, now).count == h[j].count + 1
    ensures forall e :: e in h && e.symbol != symbol ==> e in Bump(h, symbol, now)
    ensures forall e :: e in Bump(h, symbol, now) && e.symbol != symbol ==> e in h
    ensures forall e :: e in Bump(h, symbol, now) && e.symbol == symbol ==> e == Bumped(h, symbol, now)
    ensures |Bump(h, symbol, now)| == if IndexOf(h, symbol) >= 0 then |h| else |h| + 1
  {
    var e := Bumped(h, symbol, now);
    var b := Bump(h, symbol, now);
    var i := IndexOf(h, symbol);
    if i >= 0 {
      assert b == h[i := e] && b[i] == e;
      forall x | x in h && x.symbol != symbol ensures x in b {
        var k :| 0 <= k < |h| && h[k] == x;
        assert b[k] == x;
      }
    } else {
      assert b == h + [e];
    }
  }

  /** The saved history: never more than 50 entries, all of them written by
      this update (so every other entry is unchanged); when it had to cut,
      it kept exactly 50, none older than an entry it dropped. */
  lemma UpdatedSpec(h: UserSearchHistory, symbol: string, now: int)
    requires WellKeyed(h)
    ensures |Updated(h, symbol, now)| <= HISTORY_LIMIT
    ensures WellKeyed(Updated(h, symbol, now))
    ensures forall e :: e in Updated(h, symbol, now) ==> e in Bump(h, symbol, now)
    ensures |Bump(h, symbol, now)| <= HISTORY_LIMIT ==> Updated(h, symbol, now) == Bump(h, symbol, now)
    ensures |Bump(h, symbol, now)| > HISTORY_LIMIT ==>
      && |Updated(h, symbol, now)| == HISTORY_LIMIT
      && forall e, d :: e in Updated(h, symbol, now) && d in Bump(h, symbol, now) && d !in Updated(h, symbol, now) ==>
           e.lastSearched >= d.lastSearched
  {
    var b := Bump(h, symbol, now);
    BumpSpec(h, symbol, now);
    if |b| > HISTORY_LIMIT {
      TrimmedSpec(b);
    }
  }

  /** Trimming keeps the 50 most recent entries of a well-keyed history. */
  lemma TrimmedSpec(b: UserSearchHistory)
    requires WellKeyed(b) && |b| > HISTORY_LIMIT
    ensures |Trimmed(b)| == HISTORY_LIMIT && WellKeyed(Trimmed(b))
    ensures Sorted(Trimmed(b), MoreRecent)
    ensures forall e :: e in Trimmed(b) ==> e in b
    ensures forall e, d :: e in Trimmed(b) && d in b && d !in Trimmed(b) ==> e.lastSearched >= d.lastSearched
  {
    TrimmedKeeps(b);
    TrimmedNewest(b);
  }

  /** The trimmed history is 50 distinct-keyed entries of b, most recent first. */
  lemma TrimmedKeeps(b: UserSearchHistory)
    requires WellKeyed(b) && |b| > HISTORY_LIMIT
    ensures |Trimmed(b)| == HISTORY_LIMIT && WellKeyed(Trimmed(b))
    ensures Sorted(Trimmed(b), MoreRecent)
    ensures forall e :: e in Trimmed(b) ==> e in b
  {
    var sorted := Sort(b, MoreRecent);
    var t := Trimmed(b);
    assert t == sorted[..HISTORY_LIMIT];
    MoreRecentIsTotalPreorder();
    SortSorted(b, MoreRecent);
    PermutationDistinctBy(b, sorted, EntrySymbol);
    forall e | e in t ensures e in b {
      assert e in multiset(sorted);
    }
  }

  /** No entry dropped by the trim is more recent than one it kept. */
  lemma TrimmedNewest(b: UserSearchHistory)
    requires |b| > HISTORY_LIMIT
    ensures forall e, d :: e in Trimmed(b) && d in b && d !in Trimmed(b) ==> e.lastSearched >= d.lastSearched
  {
    var sorted := Sort(b, MoreRecent);
    var t := Trimmed(b);
    assert t == sorted[..HISTORY_LIMIT];
    MoreRecentIsTotalPreorder();
    TopPrefix(b, HISTORY_LIMIT, MoreRecent);
    assert forall m :: 0 <= m < HISTORY_LIMIT ==> sorted[m] in t;
    forall e, d | e in t && d in b && d !in t ensures e.lastSearched >= d.lastSearched {
      assert d in multiset(sorted);
      var k :| 0 <= k < |sorted| && sorted[k] == d;
      var i :| 0 <= i < |t| && t[i] == e;
    }
  }

  /** With a clock that moved since every stored entry, the symbol just used
      is always among the entries kept. */
  lemma UpdatedKeepsNewest(h: UserSearchHistory, symbol: string, now: int)
    requires WellKeyed(h)
    requires forall j :: 0 <= j < |h| ==> h[j].lastSearched < now
    ensures Bumped(h, symbol, now) in Updated(h, symbol, now)
  {
    var b := Bump(h, symbol, now);
    var x := Bumped(h, symbol, now);
    BumpSpec(h, symbol, now);
    if |b| > HISTORY_LIMIT {
      var sorted := Sort(b, MoreRecent);
      MoreRecentIsTotalPreorder();
      SortSorted(b, MoreRecent);
      assert x in multiset(sorted);
      var k :| 0 <= k < |sorted| && sorted[k] == x;
      assert sorted[0] in multiset(b);
      assert MoreRecent(sorted[0], sorted[k]) by {
        if k > 0 {
          assert Sorted(sorted, MoreRecent);
        }
      }
      assert sorted[0].symbol == symbol;
      assert Trimmed(b)[0] == x;
    }
  }

  // ---------------------------------------------------------------------------
  // The stored keys and the operations on them

  /** localStorage, restricted to the two keys of this module. */
  class LocalStore {
    var coinSlot: Slot<StoredCoins>
    var historySlot: Slot<UserSearchHistory>

    /** A stored history is a JSON object: its keys are distinct. */
    ghost predicate Valid()
      reads this
    {
      historySlot.Json? ==> WellKeyed(historySlot.value)
    }

    constructor (coinSlot: Slot<StoredCoins>, historySlot: Slot<UserSearchHistory>)
      requires historySlot.Json? ==> WellKeyed(historySlot.value)
      ensures Valid() && this.coinSlot == coinSlot && this.historySlot == historySlot
    {
      this.coinSlot := coinSlot;
      this.historySlot := historySlot;
    }

    /** saveCoinList; `writeOk` is false when setItem throws (the storage is
        full), which leaves the key as it was. It always resolves. */
    method SaveCoinList(coinList: seq<CoinData>, writeOk: bool)
      requires Valid()
      modifies this
      ensures Valid() && historySlot == old(historySlot)
      ensures coinSlot == if writeOk then Json(CoinArray(coinList)) else old(coinSlot)
      ensures writeOk ==> LoadCoinList(coinSlot) == coinList
    {
      if writeOk {
        coinSlot := Json(CoinArray(coinList));
      }
    }

    /** saveSearchHistory. */
    method SaveSearchHistory(history: UserSearchHistory, writeOk: bool)
      requires Valid() && WellKeyed(history)
      modifies this
      ensures Valid() && coinSlot == old(coinSlot)
      ensures historySlot == if writeOk then Json(history) else old(historySlot)
      ensures writeOk ==> LoadSearchHistory(historySlot) == history
    {
      if writeOk {
        historySlot := Json(history);
      }
    }

    /** updateSearchHistory: load, bump the symbol, and save either the whole
        history or, past 50 entries, the 50 most recent rebuilt into a new
        object in recency order. */
    method UpdateSearchHistory(symbol: string, now: int, writeOk: bool)
      requires Valid()
      modifies this
      ensures Valid() && coinSlot == old(coinSlot)
      ensures historySlot == if writeOk then Json(Updated(LoadSearchHistory(old(historySlot)), symbol, now)) else old(historySlot)
    {
      var history := LoadSearchHistory(historySlot);
      history := SetKey(history, SearchEntry(symbol, PreviousCount(history, symbol) + 1, now));
      BumpSpec(LoadSearchHistory(historySlot), symbol, now);
      if |history| > HISTORY_LIMIT {
        var sortedEntries := Take(Sort(history, MoreRecent), HISTORY_LIMIT);
        TrimmedSpec(history);
        var trimmedHistory := Rebuild(sortedEntries);
        SaveSearchHistory(trimmedHistory, writeOk);
      } else {
        SaveSearchHistory(history, writeOk);
      }
    }
  }

  /** The forEach copying entries into a fresh object: with distinct keys,
      the copy lists them in the same order. */
  method Rebuild(entries: seq<SearchEntry>) returns (h: UserSearchHistory)
    requires WellKeyed(entries)
    ensures h == entries
  {
    h := [];
    var i := 0;
    while i < |entries|
      invariant 0 <= i <= |entries|
      invariant h == entries[..i]
    {
      assert forall j :: 0 <= j < i ==> h[j].symbol != entries[i].symbol;
      h := SetKey(h, entries[i]);
      assert entries[..i + 1] == entries[..i] + [entries[i]];
      i := i + 1;
    }
    assert entries[..i] == entries;
  }
}
