/** searchCoins: turns what the user typed, the coin catalog and the search
    history into the suggestion list of the autocomplete.

    An empty query blends the most recent history entries, the coins moving
    most and the coins traded most, and removes repeated symbols through a
    JavaScript Map. Any other query is trimmed and upper-cased and collects an
    exact match, then up to five symbols extending the query, then up to ten
    fuzzy matches from the Fuse.js engine, and orders them by kind and score. */
module SearchUtils {
  import opened Common
  import opened Seqs
  import opened StableSort
  import opened JsStrings
  import opened Types

  const RECENT_COUNT: nat := 5
  const TRENDING_COUNT: nat := 5
  const POPULAR_COUNT: nat := 5
  const PREFIX_COUNT: nat := 5
  const FUZZY_COUNT: nat := 10
  const PREFIX_SCORE: real := 0.1
  /** What `result.score || 0.5` gives a fuzzy hit with no score or score 0. */
  const DEFAULT_FUZZY_SCORE: real := 0.5

  // ---------------------------------------------------------------------------
  // Catalog lookups and the comparators handed to sort

  /** Array.prototype.find on the symbol: the first coin carrying it. */
  function FindBySymbol(coins: seq<CoinData>, symbol: string): (found: Option<CoinData>)
    ensures found.None? <==> forall i :: 0 <= i < |coins| ==> coins[i].symbol != symbol
    ensures found.Some? ==>
      found.value.symbol == symbol
      && exists i :: 0 <= i < |coins| && coins[i] == found.value
           && forall j :: 0 <= j < i ==> coins[j].symbol != symbol
  {
    if coins == [] then None
    else if coins[0].symbol == symbol then Some(coins[0])
    else
      var found := FindBySymbol(coins[1..], symbol);
      if found.Some? then
        var i :| 0 <= i < |coins[1..]| && coins[1..][i] == found.value
                 && forall j :: 0 <= j < i ==> coins[1..][j].symbol != symbol;
        assert coins[i + 1] == found.value;
        assert forall j :: 1 <= j < i + 1 ==> coins[j].symbol == coins[1..][j - 1].symbol;
        found
      else
        assert forall j :: 1 <= j < |coins| ==> coins[j] == coins[1..][j - 1];
        found
  }

  /** The trending order: a may stay ahead of b when its 24-hour change is
      at least as large in absolute value. */
  predicate BiggerMove(a: CoinData, b: CoinData) {
    Abs(a.priceChangePercent) >= Abs(b.priceChangePercent)
  }

  /** The popular order: a may stay ahead of b when its volume is at least
      as large. */
  predicate BiggerVolume(a: CoinData, b: CoinData) {
    a.volume >= b.volume
  }

  /** The final comparator: kind priority first, then ascending score. */
  predicate RanksBefore(a: SearchResult, b: SearchResult) {
    TypeRank(a.matchType) < TypeRank(b.matchType)
    || (TypeRank(a.matchType) == TypeRank(b.matchType) && a.score <= b.score)
  }

  lemma ComparatorsArePreorders()
    ensures TotalPreorder(BiggerMove)
    ensures TotalPreorder(BiggerVolume)
    ensures TotalPreorder(RanksBefore)
  {
  }

  // ---------------------------------------------------------------------------
  // Empty query: history, trending and popular suggestions

  /** The five history entries searched most recently. */
  function Recent(history: UserSearchHistory): seq<SearchEntry> {
    Take(Sort(history, MoreRecent), RECENT_COUNT)
  }

  predicate InCatalog(coins: seq<CoinData>, symbol: string) {
    FindBySymbol(coins, symbol).Some?
  }

  /** The recent entries whose symbol the catalog lists. */
  function RecentListed(coins: seq<CoinData>, history: UserSearchHistory): seq<SearchEntry> {
    Filter(Recent(history), (e: SearchEntry) => InCatalog(coins, e.symbol))
  }

  /** A recent entry as a `history` result, scored 0. */
  function AsHistory(e: SearchEntry): SearchResult {
    SearchResult(e.symbol, 0.0, History)
  }

  /** The recent entries whose symbol the catalog lists, as `history` results. */
  function HistoryItems(coins: seq<CoinData>, history: UserSearchHistory): seq<SearchResult> {
    Map(RecentListed(coins, history), AsHistory)
  }

  /** The catalog coins flagged as trending, in catalog order. */
  function TrendingCoins(coins: seq<CoinData>): seq<CoinData> {
    Filter(coins, (c: CoinData) => c.isTrending)
  }

  /** The trending coins, biggest absolute move first, five at most. */
  function TopMovers(coins: seq<CoinData>): seq<CoinData> {
    Take(Sort(TrendingCoins(coins), BiggerMove), TRENDING_COUNT)
  }

  function TrendingItems(coins: seq<CoinData>): seq<SearchResult> {
    Map(TopMovers(coins), (c: CoinData) => SearchResult(c.symbol, 0.0, Trending))
  }

  /** The catalog after `coinList.sort(...)` by volume: the caller's array is
      left in this order. */
  function ByVolume(coins: seq<CoinData>): seq<CoinData> {
    Sort(coins, BiggerVolume)
  }

  function AsPopular(c: CoinData): SearchResult {
    SearchResult(c.symbol, 0.0, Popular)
  }

  function PopularItems(coins: seq<CoinData>): seq<SearchResult> {
    Map(Take(ByVolume(coins), POPULAR_COUNT), AsPopular)
  }

  // De-duplication of the suggestions through a Map keyed by symbol

  /** A JavaScript Map from symbol to result: keys in first-insertion order. */
  datatype ResultMap = ResultMap(keys: seq<string>, entries: map<string, SearchResult>)

  /** Map.prototype.set: a new key goes to the end, an existing key keeps its
      place and takes the new value. */
  function MapSet(m: ResultMap, r: SearchResult): ResultMap {
    if r.symbol in m.entries then ResultMap(m.keys, m.entries[r.symbol := r])
    else ResultMap(m.keys + [r.symbol], m.entries[r.symbol := r])
  }

  /** The Map built from the entries of rs, set one after the other. */
  function MapFrom(rs: seq<SearchResult>): (m: ResultMap)
    ensures Distinct(m.keys)
    ensures forall k :: k in m.entries <==> k in m.keys
    decreases |rs|
  {
    if rs == [] then ResultMap([], map[])
    else MapSet(MapFrom(rs[..|rs| - 1]), rs[|rs| - 1])
  }

  /** The values of the Map in key order: one result per symbol. */
  function Deduplicate(rs: seq<SearchResult>): seq<SearchResult> {
    var m := MapFrom(rs);
    seq(|m.keys|, i requires 0 <= i < |m.keys| => m.entries[m.keys[i]])
  }

  /** The index of the first result with the symbol, or |rs| when none has it. */
  function FirstIndex(rs: seq<SearchResult>, symbol: string): (i: nat)
    ensures i <= |rs|
    ensures i < |rs| ==> rs[i].symbol == symbol
    ensures forall j :: 0 <= j < i ==> rs[j].symbol != symbol
  {
    if rs == [] then 0
    else if rs[0].symbol == symbol then 0
    else
      var i := FirstIndex(rs[1..], symbol);
      assert forall j :: 1 <= j < i + 1 ==> rs[j] == rs[1..][j - 1];
      i + 1
  }

  /** The index of the last result with the symbol, or -1 when none has it. */
  function LastIndex(rs: seq<SearchResult>, symbol: string): (i: int)
    ensures -1 <= i < |rs|
    ensures i >= 0 ==> rs[i].symbol == symbol
    ensures forall j :: i < j < |rs| ==> rs[j].symbol != symbol
    decreases |rs|
  {
    if rs == [] then -1
    else if rs[|rs| - 1].symbol == symbol then |rs| - 1
    else LastIndex(rs[..|rs| - 1], symbol)
  }

  /** Which keys the Map holds after the entries of rs, and what value: a key
      for each symbol of rs, mapped to the LAST result with it. */
  lemma {:induction false} MapFromEntries(rs: seq<SearchResult>)
    ensures forall k :: k in MapFrom(rs).entries <==> LastIndex(rs, k) >= 0
    ensures forall k :: k in MapFrom(rs).entries ==> MapFrom(rs).entries[k] == rs[LastIndex(rs, k)]
    decreases |rs|
  {
    if rs != [] {
      var init, x := rs[..|rs| - 1], rs[|rs| - 1];
      MapFromEntries(init);
      assert MapFrom(rs) == MapSet(MapFrom(init), x);
    }
  }

  /** An index holding the symbol with none before it is the first index. */
  lemma {:induction false} FirstIndexAt(rs: seq<SearchResult>, k: string, i: nat)
    requires i < |rs| && rs[i].symbol == k
    requires forall j :: 0 <= j < i ==> rs[j].symbol != k
    ensures FirstIndex(rs, k) == i
  {
    if i > 0 {
      assert rs[0].symbol != k;
      FirstIndexAt(rs[1..], k, i - 1);
    }
  }

  lemma FirstIndexExtend(init: seq<SearchResult>, x: SearchResult, k: string)
    requires LastIndex(init, k) >= 0
    ensures FirstIndex(init + [x], k) == FirstIndex(init, k) < |init|
  {
    var rs := init + [x];
    var b := FirstIndex(init, k);
    assert b < |init| by {
      var l := LastIndex(init, k);
      assert init[l].symbol == k;
    }
    assert rs[b] == init[b];
    assert forall j :: 0 <= j < b ==> rs[j] == init[j];
    FirstIndexAt(rs, k, b);
  }

  /** Every key of the Map is the symbol of some pushed result. */
  lemma MapFromKeysOccur(rs: seq<SearchResult>)
    ensures forall i :: 0 <= i < |MapFrom(rs).keys| ==> FirstIndex(rs, MapFrom(rs).keys[i]) < |rs|
  {
    MapFromEntries(rs);
    var keys := MapFrom(rs).keys;
    forall i | 0 <= i < |keys| ensures FirstIndex(rs, keys[i]) < |rs| {
      var l := LastIndex(rs, keys[i]);
      assert rs[l].symbol == keys[i];
    }
  }

  /** Pushing one more result does not move the first occurrence of a key
      already in the Map. */
  lemma FirstIndexesKept(init: seq<SearchResult>, x: SearchResult)
    ensures forall k :: k in MapFrom(init).entries ==> FirstIndex(init + [x], k) == FirstIndex(init, k) < |init|
  {
    MapFromEntries(init);
    forall k | k in MapFrom(init).entries ensures FirstIndex(init + [x], k) == FirstIndex(init, k) < |init| {
      FirstIndexExtend(init, x, k);
    }
  }

  /** The keys of the Map are in the order in which their symbols first occur in rs. */
  lemma {:induction false} MapFromOrder(rs: seq<SearchResult>)
    ensures forall i :: 0 <= i < |MapFrom(rs).keys| ==> FirstIndex(rs, MapFrom(rs).keys[i]) < |rs|
    ensures forall i, j :: 0 <= i < j < |MapFrom(rs).keys| ==>
      FirstIndex(rs, MapFrom(rs).keys[i]) < FirstIndex(rs, MapFrom(rs).keys[j])
    decreases |rs|
  {
    MapFromKeysOccur(rs);
    if rs != [] {
      var init, x := rs[..|rs| - 1], rs[|rs| - 1];
      assert rs == init + [x];
      MapFromOrder(init);
      MapSetOrder(init, x);
    }
  }

  /** One step of MapFromOrder: pushing x keeps the keys in first-occurrence order. */
  lemma MapSetOrder(init: seq<SearchResult>, x: SearchResult)
    requires forall i, j :: 0 <= i < j < |MapFrom(init).keys| ==>
      FirstIndex(init, MapFrom(init).keys[i]) < FirstIndex(init, MapFrom(init).keys[j])
    ensures forall i, j :: 0 <= i < j < |MapFrom(init + [x]).keys| ==>
      FirstIndex(init + [x], MapFrom(init + [x]).keys[i]) < FirstIndex(init + [x], MapFrom(init + [x]).keys[j])
  {
    var rs := init + [x];
    assert init == rs[..|rs| - 1];
    FirstIndexesKept(init, x);
    var m0, m := MapFrom(init), MapFrom(rs);
    assert m == MapSet(m0, x);
    var isNew := x.symbol !in m0.entries;
    assert m.keys == if isNew then m0.keys + [x.symbol] else m0.keys;
    if isNew {
      MapFromEntries(init);
      assert forall j :: 0 <= j < |init| ==> rs[j] == init[j];
      FirstIndexAt(rs, x.symbol, |init|);
    }
    forall i, j | 0 <= i < j < |m.keys| ensures FirstIndex(rs, m.keys[i]) < FirstIndex(rs, m.keys[j]) {
      assert m.keys[i] == m0.keys[i] && m0.keys[i] in m0.entries;
      if j < |m0.keys| {
        assert m.keys[j] == m0.keys[j] && m0.keys[j] in m0.entries;
      } else {
        assert m.keys[j] == x.symbol;
      }
    }
  }

  /** The de-duplicated list: each symbol once, at the place where it first
      occurs, carrying the last entry that had it (the label of the last kind
      that listed it wins), and no symbol lost. */
  lemma DeduplicateFacts(rs: seq<SearchResult>)
    ensures DistinctBy(Deduplicate(rs), ResultSymbol)
    ensures forall i :: 0 <= i < |Deduplicate(rs)| ==>
      0 <= LastIndex(rs, Deduplicate(rs)[i].symbol) && Deduplicate(rs)[i] == rs[LastIndex(rs, Deduplicate(rs)[i].symbol)]
    ensures forall i, j :: 0 <= i < j < |Deduplicate(rs)| ==>
      FirstIndex(rs, Deduplicate(rs)[i].symbol) < FirstIndex(rs, Deduplicate(rs)[j].symbol)
    ensures forall j :: 0 <= j < |rs| ==> rs[j].symbol in Symbols(Deduplicate(rs))
    ensures forall i :: 0 <= i < |Deduplicate(rs)| ==> Deduplicate(rs)[i] in rs
  {
    DeduplicateAt(rs);
    DeduplicateCovers(rs);
    MapFromOrder(rs);
    var d := Deduplicate(rs);
    assert forall i :: 0 <= i < |d| ==> d[i].symbol == MapFrom(rs).keys[i];
  }

  /** No pushed symbol is lost. */
  lemma DeduplicateCovers(rs: seq<SearchResult>)
    ensures forall j :: 0 <= j < |rs| ==> rs[j].symbol in Symbols(Deduplicate(rs))
  {
    DeduplicateAt(rs);
    MapFromEntries(rs);
    var m, d := MapFrom(rs), Deduplicate(rs);
    forall j | 0 <= j < |rs| ensures rs[j].symbol in Symbols(d) {
      var k := rs[j].symbol;
      assert LastIndex(rs, k) >= 0;
      var i :| 0 <= i < |m.keys| && m.keys[i] == k;
      assert Symbols(d)[i] == k;
    }
  }

  /** The i-th de-duplicated result is the Map's entry for its i-th key: the
      last pushed result with that symbol. */
  lemma DeduplicateAt(rs: seq<SearchResult>)
    ensures |Deduplicate(rs)| == |MapFrom(rs).keys|
    ensures forall i :: 0 <= i < |Deduplicate(rs)| ==>
      && Deduplicate(rs)[i].symbol == MapFrom(rs).keys[i]
      && 0 <= LastIndex(rs, MapFrom(rs).keys[i])
      && Deduplicate(rs)[i] == rs[LastIndex(rs, MapFrom(rs).keys[i])]
  {
    MapFromEntries(rs);
  }

  /** The empty-query list: history, trending and popular suggestions, in that
      order, then de-duplicated. It is not sorted afterwards. */
  function Suggestions(coins: seq<CoinData>, history: UserSearchHistory): seq<SearchResult> {
    Deduplicate(Blend(coins, history))
  }

  /** Everything pushed on the empty-query path, before de-duplication. */
  function Blend(coins: seq<CoinData>, history: UserSearchHistory): seq<SearchResult> {
    HistoryItems(coins, history) + TrendingItems(coins) + PopularItems(coins)
  }

  // ---------------------------------------------------------------------------
  // Non-empty query: exact, prefix and fuzzy matches

  /** query.trim().toUpperCase() */
  function Normalize(query: string): string {
    ToUpper(Trim(query))
  }

  function ExactItems(coins: seq<CoinData>, nq: string): seq<SearchResult> {
    match FindBySymbol(coins, nq)
    case Some(c) => [SearchResult(c.symbol, 0.0, Exact)]
    case None => []
  }

  /** The coins whose symbol starts with the query without being it, in catalog
      order, five at most. */
  function PrefixCandidates(coins: seq<CoinData>, nq: string): seq<CoinData> {
    Take(Filter(coins, (c: CoinData) => StartsWith(c.symbol, nq) && c.symbol != nq), PREFIX_COUNT)
  }

  /** How many coins before position j extend the query without equalling it. */
  function MatchesBefore(coins: seq<CoinData>, nq: string, j: nat): nat
    requires j <= |coins|
  {
    |Filter(coins[..j], (c: CoinData) => StartsWith(c.symbol, nq) && c.symbol != nq)|
  }

  function PrefixItems(coins: seq<CoinData>, nq: string): seq<SearchResult> {
    Map(PrefixCandidates(coins, nq), (c: CoinData) => SearchResult(c.symbol, PREFIX_SCORE, Prefix))
  }

  /** One hit of the fuzzy engine: the matched coin's symbol and its score,
      absent when the engine gives none. */
  datatype FuseHit = FuseHit(symbol: string, score: Option<real>)

  /** The score of a fuzzy hit: the engine's score when it gives a non-zero
      one, and 0.5 when it gives none or 0. */
  function HitScore(h: FuseHit): (s: real)
    ensures s == DEFAULT_FUZZY_SCORE || (h.score.Some? && s == h.score.value != 0.0)
    ensures h.score.Some? && h.score.value != 0.0 ==> s == h.score.value
  {
    if h.score.Some? && h.score.value != 0.0 then h.score.value else DEFAULT_FUZZY_SCORE
  }

  function AsFuzzy(h: FuseHit): SearchResult {
    SearchResult(h.symbol, HitScore(h), Fuzzy)
  }

  /** The first ten hits, without the symbols found already. */
  function FuzzyItems(hits: seq<FuseHit>, found: seq<SearchResult>): seq<SearchResult> {
    Filter(Map(Take(hits, FUZZY_COUNT), AsFuzzy), (r: SearchResult) => r.symbol !in Symbols(found))
  }

  /** The results pushed, in push order, before the final sort. */
  function Collected(coins: seq<CoinData>, nq: string, hits: seq<FuseHit>): seq<SearchResult> {
    var found := ExactItems(coins, nq) + PrefixItems(coins, nq);
    found + FuzzyItems(hits, found)
  }

  /** The final sort: kind priority, then score, ties kept in push order. */
  function Ranked(rs: seq<SearchResult>): seq<SearchResult> {
    Sort(rs, RanksBefore)
  }

  function MatchResults(coins: seq<CoinData>, nq: string, hits: seq<FuseHit>): seq<SearchResult> {
    Ranked(Collected(coins, nq, hits))
  }

  // ---------------------------------------------------------------------------
  // What the empty-query suggestions are

  /** The recency order is a permutation of the history; its first five
      entries come most recent first and are at least as recent as every
      entry after them. */
  lemma RecentSpec(history: UserSearchHistory)
    ensures |Recent(history)| == if |history| < RECENT_COUNT then |history| else RECENT_COUNT
    ensures multiset(Sort(history, MoreRecent)) == multiset(history)
    ensures forall i, j :: 0 <= i < |Recent(history)| <= j < |history| ==>
      Recent(history)[i].lastSearched >= Sort(history, MoreRecent)[j].lastSearched
    ensures Sorted(Recent(history), MoreRecent)
  {
    MoreRecentIsTotalPreorder();
    SortSorted(history, MoreRecent);
    TopPrefix(history, |Recent(history)|, MoreRecent);
    assert Recent(history) == Sort(history, MoreRecent)[..|Recent(history)|];
  }

  /** History suggestions: at most five, each a catalog symbol taken from the
      five most recent entries, and every such entry that the catalog lists
      is suggested, most recent first. The five are ahead of every entry
      left out. */
  lemma HistoryItemsSpec(coins: seq<CoinData>, history: UserSearchHistory)
    ensures |HistoryItems(coins, history)| <= RECENT_COUNT
    ensures |Recent(history)| == if |history| < RECENT_COUNT then |history| else RECENT_COUNT
    ensures multiset(Sort(history, MoreRecent)) == multiset(history)
    ensures forall i, j :: 0 <= i < |Recent(history)| <= j < |history| ==>
      Recent(history)[i].lastSearched >= Sort(history, MoreRecent)[j].lastSearched
    ensures forall i :: 0 <= i < |HistoryItems(coins, history)| ==>
      var r := HistoryItems(coins, history)[i];
      r.matchType == History && r.score == 0.0 && InCatalog(coins, r.symbol)
      && exists j :: 0 <= j < |Recent(history)| && Recent(history)[j].symbol == r.symbol
    ensures forall j :: 0 <= j < |Recent(history)| && InCatalog(coins, Recent(history)[j].symbol) ==>
      Recent(history)[j].symbol in Symbols(HistoryItems(coins, history))
    ensures Sorted(RecentListed(coins, history), MoreRecent)
    ensures forall i :: 0 <= i < |HistoryItems(coins, history)| ==>
      HistoryItems(coins, history)[i].symbol == RecentListed(coins, history)[i].symbol
  {
    RecentSpec(history);
    HistoryItemsMembers(coins, history);
    HistoryItemsComplete(coins, history);
    HistoryItemsOrder(coins, history);
  }

  /** Each history item is a listed recent entry, scored 0 and labelled
      history. */
  lemma HistoryItemsMembers(coins: seq<CoinData>, history: UserSearchHistory)
    ensures |HistoryItems(coins, history)| <= RECENT_COUNT
    ensures forall i :: 0 <= i < |HistoryItems(coins, history)| ==>
      var r := HistoryItems(coins, history)[i];
      r.matchType == History && r.score == 0.0 && InCatalog(coins, r.symbol)
      && exists j :: 0 <= j < |Recent(history)| && Recent(history)[j].symbol == r.symbol
  {
    var recent := Recent(history);
    var listed := RecentListed(coins, history);
    var items := HistoryItems(coins, history);
    forall i | 0 <= i < |items|
      ensures items[i] == AsHistory(listed[i]) && InCatalog(coins, listed[i].symbol)
      ensures exists j :: 0 <= j < |recent| && recent[j].symbol == items[i].symbol
    {
      assert listed[i] in recent;
    }
  }

  /** Every recent entry the catalog lists gives a history item. */
  lemma HistoryItemsComplete(coins: seq<CoinData>, history: UserSearchHistory)
    ensures forall j :: 0 <= j < |Recent(history)| && InCatalog(coins, Recent(history)[j].symbol) ==>
      Recent(history)[j].symbol in Symbols(HistoryItems(coins, history))
  {
    var recent := Recent(history);
    var listed := RecentListed(coins, history);
    var items := HistoryItems(coins, history);
    forall j | 0 <= j < |recent| && InCatalog(coins, recent[j].symbol)
      ensures recent[j].symbol in Symbols(items)
    {
      assert recent[j] in listed;
      var k :| 0 <= k < |listed| && listed[k] == recent[j];
      assert Symbols(items)[k] == recent[j].symbol;
    }
  }

  /** Keeping the listed recent entries keeps them most recent first, and
      the history items follow them one for one. */
  lemma HistoryItemsOrder(coins: seq<CoinData>, history: UserSearchHistory)
    ensures Sorted(RecentListed(coins, history), MoreRecent)
    ensures forall i :: 0 <= i < |HistoryItems(coins, history)| ==>
      HistoryItems(coins, history)[i].symbol == RecentListed(coins, history)[i].symbol
  {
    RecentSpec(history);
    FilterIsSubsequence(Recent(history), (e: SearchEntry) => InCatalog(coins, e.symbol));
    SortedSubsequence(RecentListed(coins, history), Recent(history), MoreRecent);
  }

  /** Trending suggestions: at most five trending coins of the catalog, biggest
      absolute move first, none left out that moved more than one kept. */
  lemma TrendingItemsSpec(coins: seq<CoinData>)
    ensures |TrendingItems(coins)| <= TRENDING_COUNT
    ensures |TopMovers(coins)| == |TrendingItems(coins)|
    ensures Sorted(TopMovers(coins), BiggerMove)
    ensures forall i :: 0 <= i < |TopMovers(coins)| ==>
      TopMovers(coins)[i] in coins && TopMovers(coins)[i].isTrending
      && TrendingItems(coins)[i] == SearchResult(TopMovers(coins)[i].symbol, 0.0, Trending)
    ensures forall i, j ::
      0 <= i < |TopMovers(coins)| && 0 <= j < |coins| && coins[j].isTrending && coins[j] !in TopMovers(coins)
      ==> Abs(TopMovers(coins)[i].priceChangePercent) >= Abs(coins[j].priceChangePercent)
    ensures |TopMovers(coins)| < TRENDING_COUNT ==>
      forall j :: 0 <= j < |coins| && coins[j].isTrending ==> coins[j] in TopMovers(coins)
  {
    var top := TopMovers(coins);
    TopMoversMembers(coins);
    TopMoversAhead(coins);
    assert forall i :: 0 <= i < |top| ==> TrendingItems(coins)[i] == SearchResult(top[i].symbol, 0.0, Trending);
  }

  /** The top movers are sorted trending catalog coins, and every trending
      coin is in the sorted list they are taken from. */
  lemma TopMoversMembers(coins: seq<CoinData>)
    ensures |TopMovers(coins)| <= TRENDING_COUNT
    ensures Sorted(TopMovers(coins), BiggerMove)
    ensures forall i :: 0 <= i < |TopMovers(coins)| ==> TopMovers(coins)[i] in coins && TopMovers(coins)[i].isTrending
    ensures forall j :: 0 <= j < |coins| && coins[j].isTrending ==> coins[j] in Sort(TrendingCoins(coins), BiggerMove)
  {
    ComparatorsArePreorders();
    var trending := TrendingCoins(coins);
    var sorted := Sort(trending, BiggerMove);
    var top := TopMovers(coins);
    SortSorted(trending, BiggerMove);
    assert top == sorted[..|top|];
    forall i | 0 <= i < |top| ensures top[i] in coins && top[i].isTrending {
      assert sorted[i] in multiset(sorted);
      assert top[i] in trending;
    }
    forall j | 0 <= j < |coins| && coins[j].isTrending
      ensures coins[j] in sorted
    {
      assert coins[j] in trending;
      assert coins[j] in multiset(trending);
    }
  }

  /** A trending coin left out moved no more than any top mover; with fewer
      than five top movers, none is left out. */
  lemma TopMoversAhead(coins: seq<CoinData>)
    ensures forall i, j ::
      0 <= i < |TopMovers(coins)| && 0 <= j < |coins| && coins[j].isTrending && coins[j] !in TopMovers(coins)
      ==> Abs(TopMovers(coins)[i].priceChangePercent) >= Abs(coins[j].priceChangePercent)
    ensures |TopMovers(coins)| < TRENDING_COUNT ==>
      forall j :: 0 <= j < |coins| && coins[j].isTrending ==> coins[j] in TopMovers(coins)
  {
    ComparatorsArePreorders();
    var trending := TrendingCoins(coins);
    var sorted := Sort(trending, BiggerMove);
    var top := TopMovers(coins);
    TopMoversMembers(coins);
    TopPrefix(trending, |top|, BiggerMove);
    assert top == sorted[..|top|];
    forall i, j | 0 <= i < |top| && 0 <= j < |coins| && coins[j].isTrending && coins[j] !in top
      ensures BiggerMove(top[i], coins[j])
    {
      var k :| 0 <= k < |sorted| && sorted[k] == coins[j];
      assert forall m :: 0 <= m < |top| ==> sorted[m] in top;
    }
  }

  /** Popular suggestions: the first five coins of the catalog re-ordered by
      volume, biggest first; the re-ordered catalog is a permutation of the
      catalog and no coin left out trades more than one kept. */
  lemma PopularItemsSpec(coins: seq<CoinData>)
    ensures multiset(ByVolume(coins)) == multiset(coins)
    ensures Sorted(ByVolume(coins), BiggerVolume)
    ensures |PopularItems(coins)| == if |coins| < POPULAR_COUNT then |coins| else POPULAR_COUNT
    ensures forall i :: 0 <= i < |PopularItems(coins)| ==>
      PopularItems(coins)[i] == SearchResult(ByVolume(coins)[i].symbol, 0.0, Popular)
    ensures forall i, j :: 0 <= i < |PopularItems(coins)| <= j < |coins| ==>
      ByVolume(coins)[i].volume >= ByVolume(coins)[j].volume
  {
    ComparatorsArePreorders();
    SortSorted(coins, BiggerVolume);
  }

  /** The empty-query list: each symbol once, every entry scored 0 and labelled
      history, trending or popular, at most five of each label, and every
      symbol pushed still present. */
  lemma SuggestionsSpec(coins: seq<CoinData>, history: UserSearchHistory)
    ensures DistinctBy(Suggestions(coins, history), ResultSymbol)
    ensures forall i :: 0 <= i < |Suggestions(coins, history)| ==>
      var r := Suggestions(coins, history)[i];
      r.score == 0.0 && (r.matchType == History || r.matchType == Trending || r.matchType == Popular)
    ensures CountOf(Suggestions(coins, history), History) <= RECENT_COUNT
    ensures CountOf(Suggestions(coins, history), Trending) <= TRENDING_COUNT
    ensures CountOf(Suggestions(coins, history), Popular) <= POPULAR_COUNT
    ensures forall j :: 0 <= j < |Blend(coins, history)| ==>
      Blend(coins, history)[j].symbol in Symbols(Suggestions(coins, history))
  {
    var s := Suggestions(coins, history);
    SuggestionsFromBlend(coins, history);
    BlendParts(coins, history);
    DistinctByIsDistinct(s, ResultSymbol);
    LabelCount(s, HistoryItems(coins, history), History);
    LabelCount(s, TrendingItems(coins), Trending);
    LabelCount(s, PopularItems(coins), Popular);
  }

  /** The de-duplication facts, for the pushed suggestions. */
  lemma SuggestionsFromBlend(coins: seq<CoinData>, history: UserSearchHistory)
    ensures DistinctBy(Suggestions(coins, history), ResultSymbol)
    ensures forall i :: 0 <= i < |Suggestions(coins, history)| ==> Suggestions(coins, history)[i] in Blend(coins, history)
    ensures forall j :: 0 <= j < |Blend(coins, history)| ==>
      Blend(coins, history)[j].symbol in Symbols(Suggestions(coins, history))
  {
    DeduplicateFacts(Blend(coins, history));
  }

  /** Each pushed entry scores 0, and its label names the list it came from. */
  lemma BlendParts(coins: seq<CoinData>, history: UserSearchHistory)
    ensures |HistoryItems(coins, history)| <= RECENT_COUNT
    ensures |TrendingItems(coins)| <= TRENDING_COUNT
    ensures |PopularItems(coins)| <= POPULAR_COUNT
    ensures forall r :: r in Blend(coins, history) ==>
      r.score == 0.0 && (r.matchType == History || r.matchType == Trending || r.matchType == Popular)
    ensures forall r :: r in Blend(coins, history) && r.matchType == History ==> r in HistoryItems(coins, history)
    ensures forall r :: r in Blend(coins, history) && r.matchType == Trending ==> r in TrendingItems(coins)
    ensures forall r :: r in Blend(coins, history) && r.matchType == Popular ==> r in PopularItems(coins)
  {
    var h := HistoryItems(coins, history);
    var t := TrendingItems(coins);
    var p := PopularItems(coins);
    assert |RecentListed(coins, history)| <= |Recent(history)|;
    assert |t| == |TopMovers(coins)|;
    assert |p| == |Take(ByVolume(coins), POPULAR_COUNT)|;
    Labelled(h, History);
    Labelled(t, Trending);
    Labelled(p, Popular);
    assert Blend(coins, history) == h + t + p;
  }

  /** Every result of rs is labelled kind and scored 0. */
  predicate AllLabelled(rs: seq<SearchResult>, kind: MatchType) {
    forall r :: r in rs ==> r.score == 0.0 && r.matchType == kind
  }

  /** The indexed form of AllLabelled gives the membership form. */
  lemma Labelled(rs: seq<SearchResult>, kind: MatchType)
    requires forall i :: 0 <= i < |rs| ==> rs[i].score == 0.0 && rs[i].matchType == kind
    ensures AllLabelled(rs, kind)
  {
  }

  /** A list of distinct results, each labelled `kind` one taken from src or
      labelled otherwise, has no more of that label than src has entries. */
  lemma LabelCount(s: seq<SearchResult>, src: seq<SearchResult>, kind: MatchType)
    requires Distinct(s)
    requires forall i :: 0 <= i < |s| && s[i].matchType == kind ==> s[i] in src
    ensures CountOf(s, kind) <= |src|
  {
    var f := Filter(s, (r: SearchResult) => r.matchType == kind);
    FilterDistinct(s, (r: SearchResult) => r.matchType == kind);
    forall i | 0 <= i < |f| ensures f[i] in src {
      var k :| 0 <= k < |s| && s[k] == f[i];
    }
    DistinctNoLonger(f, src);
  }

  // ---------------------------------------------------------------------------
  // What the non-empty-query results are

  /** The normalised query is empty exactly for a blank query (which still
      takes the matching path when it is not ""), and normalising twice
      changes nothing. */
  lemma NormalizeSpec(q: string)
    ensures Normalize(q) == "" <==> AllWhitespace(q)
    ensures Normalize(Normalize(q)) == Normalize(q)
  {
    var t := Trim(q);
    var u := ToUpper(t);
    if u != [] {
      assert !IsJsWhitespace(u[0]) && !IsJsWhitespace(u[|u| - 1]);
    }
    TrimOfTrimmed(u);
    ToUpperIdempotent(t);
  }

  /** At most one exact result, present exactly when a catalog symbol equals
      the normalised query, scored 0. */
  lemma ExactItemsSpec(coins: seq<CoinData>, nq: string)
    ensures |ExactItems(coins, nq)| <= 1
    ensures ExactItems(coins, nq) != [] <==> exists i :: 0 <= i < |coins| && coins[i].symbol == nq
    ensures forall i :: 0 <= i < |ExactItems(coins, nq)| ==> ExactItems(coins, nq)[i] == SearchResult(nq, 0.0, Exact)
  {
  }

  /** Prefix results: at most five catalog coins, in catalog order, whose
      symbol extends the query without equalling it, each scored 0.1. They
      are the first five such coins: one with fewer than five such coins
      before it is kept, and when fewer than five are found, none was left
      out. */
  lemma PrefixItemsSpec(coins: seq<CoinData>, nq: string)
    ensures |PrefixCandidates(coins, nq)| <= PREFIX_COUNT
    ensures Subsequence(PrefixCandidates(coins, nq), coins)
    ensures forall i :: 0 <= i < |PrefixCandidates(coins, nq)| ==>
      var c := PrefixCandidates(coins, nq)[i];
      StartsWith(c.symbol, nq) && c.symbol != nq && PrefixItems(coins, nq)[i] == SearchResult(c.symbol, PREFIX_SCORE, Prefix)
    ensures |PrefixItems(coins, nq)| == |PrefixCandidates(coins, nq)|
    ensures |PrefixCandidates(coins, nq)| < PREFIX_COUNT ==>
      forall j :: 0 <= j < |coins| && StartsWith(coins[j].symbol, nq) && coins[j].symbol != nq ==>
        coins[j] in PrefixCandidates(coins, nq)
    ensures forall j :: 0 <= j < |coins| && StartsWith(coins[j].symbol, nq) && coins[j].symbol != nq
                        && MatchesBefore(coins, nq, j) < PREFIX_COUNT ==>
      coins[j] in PrefixCandidates(coins, nq)
  {
    var p := (c: CoinData) => StartsWith(c.symbol, nq) && c.symbol != nq;
    var matching := Filter(coins, p);
    var cands := PrefixCandidates(coins, nq);
    assert cands == Take(matching, PREFIX_COUNT);
    FilterIsSubsequence(coins, p);
    PrefixIsSubsequence(matching, |cands|);
    SubsequenceTransitive(cands, matching, coins);
    forall j | 0 <= j < |coins| && p(coins[j]) && MatchesBefore(coins, nq, j) < PREFIX_COUNT
      ensures coins[j] in cands
    {
      FilterPosition(coins, p, j);
      assert cands[MatchesBefore(coins, nq, j)] == coins[j];
    }
  }

  /** Fuzzy results: drawn from the first ten hits, none with a symbol found
      already, scored by HitScore; every such hit is kept. */
  lemma FuzzyItemsSpec(hits: seq<FuseHit>, found: seq<SearchResult>)
    ensures |FuzzyItems(hits, found)| <= FUZZY_COUNT
    ensures forall i :: 0 <= i < |FuzzyItems(hits, found)| ==>
      var r := FuzzyItems(hits, found)[i];
      r.symbol !in Symbols(found) && exists j :: 0 <= j < |hits| && j < FUZZY_COUNT && r == AsFuzzy(hits[j])
    ensures forall j :: 0 <= j < |hits| && j < FUZZY_COUNT && hits[j].symbol !in Symbols(found) ==>
      AsFuzzy(hits[j]) in FuzzyItems(hits, found)
  {
    var mapped := Map(Take(hits, FUZZY_COUNT), AsFuzzy);
    forall i | 0 <= i < |FuzzyItems(hits, found)|
      ensures exists j :: 0 <= j < |hits| && j < FUZZY_COUNT && FuzzyItems(hits, found)[i] == AsFuzzy(hits[j])
    {
      var k :| 0 <= k < |mapped| && mapped[k] == FuzzyItems(hits, found)[i];
      assert hits[k] == Take(hits, FUZZY_COUNT)[k];
    }
    forall j | 0 <= j < |hits| && j < FUZZY_COUNT && hits[j].symbol !in Symbols(found)
      ensures AsFuzzy(hits[j]) in FuzzyItems(hits, found)
    {
      assert mapped[j] == AsFuzzy(hits[j]);
    }
  }

  /** What a collected result of each kind is. */
  predicate Explained(r: SearchResult, nq: string, hits: seq<FuseHit>) {
    match r.matchType
    case Exact => r == SearchResult(nq, 0.0, Exact)
    case Prefix => StartsWith(r.symbol, nq) && r.symbol != nq && r.score == PREFIX_SCORE
    case Fuzzy => exists j :: 0 <= j < |hits| && j < FUZZY_COUNT && r == AsFuzzy(hits[j])
    case _ => false
  }

  /** No fuzzy result repeats the symbol of an exact or prefix result. */
  predicate FuzzyAddsNewSymbols(rs: seq<SearchResult>) {
    forall i, j :: 0 <= i < |rs| && 0 <= j < |rs| && rs[i].matchType == Fuzzy && rs[j].matchType != Fuzzy ==>
      rs[i].symbol != rs[j].symbol
  }

  /** The pushed results before sorting: each explained by its kind, no fuzzy
      result repeating an exact or prefix symbol, and the caps 1, 5 and 10. */
  lemma CollectedSpec(coins: seq<CoinData>, nq: string, hits: seq<FuseHit>)
    ensures forall i :: 0 <= i < |Collected(coins, nq, hits)| ==> Explained(Collected(coins, nq, hits)[i], nq, hits)
    ensures FuzzyAddsNewSymbols(Collected(coins, nq, hits))
    ensures CountOf(Collected(coins, nq, hits), Exact) <= 1
    ensures CountOf(Collected(coins, nq, hits), Prefix) <= PREFIX_COUNT
    ensures CountOf(Collected(coins, nq, hits), Fuzzy) <= FUZZY_COUNT
    ensures (exists i :: 0 <= i < |coins| && coins[i].symbol == nq) ==> SearchResult(nq, 0.0, Exact) in Collected(coins, nq, hits)
  {
    var e, p := ExactItems(coins, nq), PrefixItems(coins, nq);
    var found := e + p;
    var f := FuzzyItems(hits, found);
    var c := Collected(coins, nq, hits);
    assert c == found + f;
    ExactItemsSpec(coins, nq);
    PrefixItemsSpec(coins, nq);
    FuzzyItemsSpec(hits, found);
    CollectedParts(nq, hits, e, p, f);
    CountKinds(e, p, f);
    assert c == e + p + f;
  }

  lemma CollectedParts(nq: string, hits: seq<FuseHit>, e: seq<SearchResult>, p: seq<SearchResult>, f: seq<SearchResult>)
    requires forall i :: 0 <= i < |e| ==> e[i] == SearchResult(nq, 0.0, Exact)
    requires forall i :: 0 <= i < |p| ==> p[i].matchType == Prefix && Explained(p[i], nq, hits)
    requires forall i :: 0 <= i < |f| ==> f[i].matchType == Fuzzy && Explained(f[i], nq, hits) && f[i].symbol !in Symbols(e + p)
    ensures forall i :: 0 <= i < |e + p + f| ==> Explained((e + p + f)[i], nq, hits)
    ensures FuzzyAddsNewSymbols(e + p + f)
  {
    var found, c := e + p, e + p + f;
    assert c == found + f;
    forall i | 0 <= i < |c| ensures Explained(c[i], nq, hits) {
      if i < |e| {
        assert c[i] == e[i];
      } else if i < |found| {
        assert c[i] == p[i - |e|];
      } else {
        assert c[i] == f[i - |found|];
      }
    }
    assert forall k :: 0 <= k < |found| ==> c[k] == found[k] && c[k].matchType != Fuzzy;
    assert forall k :: |found| <= k < |c| ==> c[k] == f[k - |found|];
    forall i, j | 0 <= i < |c| && 0 <= j < |c| && c[i].matchType == Fuzzy && c[j].matchType != Fuzzy
      ensures c[i].symbol != c[j].symbol
    {
      assert Symbols(found)[j] == c[j].symbol;
    }
  }

  lemma CountKinds(e: seq<SearchResult>, p: seq<SearchResult>, f: seq<SearchResult>)
    requires |e| <= 1 && |p| <= PREFIX_COUNT && |f| <= FUZZY_COUNT
    requires forall i :: 0 <= i < |e| ==> e[i].matchType == Exact
    requires forall i :: 0 <= i < |p| ==> p[i].matchType == Prefix
    requires forall i :: 0 <= i < |f| ==> f[i].matchType == Fuzzy
    ensures CountOf(e + p + f, Exact) <= 1
    ensures CountOf(e + p + f, Prefix) <= PREFIX_COUNT
    ensures CountOf(e + p + f, Fuzzy) <= FUZZY_COUNT
  {
    forall t: MatchType ensures CountOf(e + p + f, t) == CountOf(e, t) + CountOf(p, t) + CountOf(f, t) {
      FilterConcat(e + p, f, (r: SearchResult) => r.matchType == t);
      FilterConcat(e, p, (r: SearchResult) => r.matchType == t);
    }
    forall t: MatchType | t != Exact ensures CountOf(e, t) == 0 {
      FilterNone(e, (r: SearchResult) => r.matchType == t);
    }
    forall t: MatchType | t != Prefix ensures CountOf(p, t) == 0 {
      FilterNone(p, (r: SearchResult) => r.matchType == t);
    }
    forall t: MatchType | t != Fuzzy ensures CountOf(f, t) == 0 {
      FilterNone(f, (r: SearchResult) => r.matchType == t);
    }
  }

  /** The final sort orders by kind and then ascending score, keeps equally
      ranked results in push order, and rearranges without adding or losing. */
  lemma RankedSpec(rs: seq<SearchResult>)
    ensures multiset(Ranked(rs)) == multiset(rs)
    ensures Sorted(Ranked(rs), RanksBefore)
    ensures forall v :: Ties(Ranked(rs), v, RanksBefore) == Ties(rs, v, RanksBefore)
  {
    ComparatorsArePreorders();
    SortSorted(rs, RanksBefore);
    forall v ensures Ties(Ranked(rs), v, RanksBefore) == Ties(rs, v, RanksBefore) {
      SortStable(rs, v, RanksBefore);
    }
  }

  /** The returned list for a non-empty query: the collected results ranked,
      the exact match first whenever there is one, and the caps and facts of
      the collected list carried over. */
  lemma MatchResultsSpec(coins: seq<CoinData>, nq: string, hits: seq<FuseHit>)
    ensures multiset(MatchResults(coins, nq, hits)) == multiset(Collected(coins, nq, hits))
    ensures Sorted(MatchResults(coins, nq, hits), RanksBefore)
    ensures forall i :: 0 <= i < |MatchResults(coins, nq, hits)| ==> Explained(MatchResults(coins, nq, hits)[i], nq, hits)
    ensures FuzzyAddsNewSymbols(MatchResults(coins, nq, hits))
    ensures CountOf(MatchResults(coins, nq, hits), Exact) <= 1
    ensures CountOf(MatchResults(coins, nq, hits), Prefix) <= PREFIX_COUNT
    ensures CountOf(MatchResults(coins, nq, hits), Fuzzy) <= FUZZY_COUNT
    ensures (exists i :: 0 <= i < |coins| && coins[i].symbol == nq) ==>
      |MatchResults(coins, nq, hits)| > 0 && MatchResults(coins, nq, hits)[0] == SearchResult(nq, 0.0, Exact)
  {
    RankedKeeps(coins, nq, hits);
    if exists i :: 0 <= i < |coins| && coins[i].symbol == nq {
      RankedExactFirst(coins, nq, hits);
    }
  }

  /** Ranking the collected results keeps them all, sorts them, and keeps
      what each one is and the caps on each kind. */
  lemma RankedKeeps(coins: seq<CoinData>, nq: string, hits: seq<FuseHit>)
    ensures multiset(Ranked(Collected(coins, nq, hits))) == multiset(Collected(coins, nq, hits))
    ensures Sorted(Ranked(Collected(coins, nq, hits)), RanksBefore)
    ensures forall i :: 0 <= i < |Ranked(Collected(coins, nq, hits))| ==> Explained(Ranked(Collected(coins, nq, hits))[i], nq, hits)
    ensures FuzzyAddsNewSymbols(Ranked(Collected(coins, nq, hits)))
    ensures CountOf(Ranked(Collected(coins, nq, hits)), Exact) <= 1
    ensures CountOf(Ranked(Collected(coins, nq, hits)), Prefix) <= PREFIX_COUNT
    ensures CountOf(Ranked(Collected(coins, nq, hits)), Fuzzy) <= FUZZY_COUNT
  {
    var c := Collected(coins, nq, hits);
    RankedSpec(c);
    CollectedSpec(coins, nq, hits);
    RearrangedKeeps(c, Ranked(c), nq, hits);
  }

  /** When a catalog coin's symbol is the query, its exact result ranks first. */
  lemma RankedExactFirst(coins: seq<CoinData>, nq: string, hits: seq<FuseHit>)
    requires exists i :: 0 <= i < |coins| && coins[i].symbol == nq
    ensures |Ranked(Collected(coins, nq, hits))| > 0
    ensures Ranked(Collected(coins, nq, hits))[0] == SearchResult(nq, 0.0, Exact)
  {
    var c := Collected(coins, nq, hits);
    var m := Ranked(c);
    RankedKeeps(coins, nq, hits);
    CollectedSpec(coins, nq, hits);
    assert SearchResult(nq, 0.0, Exact) in multiset(m);
    ExactFirst(m, nq, hits);
  }

  /** Rearranging the collected results keeps what each one is, the caps and
      the fuzzy/other symbol separation. */
  lemma RearrangedKeeps(c: seq<SearchResult>, m: seq<SearchResult>, nq: string, hits: seq<FuseHit>)
    requires multiset(m) == multiset(c)
    requires forall i :: 0 <= i < |c| ==> Explained(c[i], nq, hits)
    requires FuzzyAddsNewSymbols(c)
    requires CountOf(c, Exact) <= 1 && CountOf(c, Prefix) <= PREFIX_COUNT && CountOf(c, Fuzzy) <= FUZZY_COUNT
    ensures forall i :: 0 <= i < |m| ==> Explained(m[i], nq, hits)
    ensures FuzzyAddsNewSymbols(m)
    ensures CountOf(m, Exact) <= 1 && CountOf(m, Prefix) <= PREFIX_COUNT && CountOf(m, Fuzzy) <= FUZZY_COUNT
  {
    forall i | 0 <= i < |m| ensures m[i] in c {
      assert m[i] in multiset(c);
    }
    forall i, j | 0 <= i < |m| && 0 <= j < |m| && m[i].matchType == Fuzzy && m[j].matchType != Fuzzy
      ensures m[i].symbol != m[j].symbol
    {
      assert m[i] in c && m[j] in c;
    }
    PermutationFilterLength(c, m, (r: SearchResult) => r.matchType == Exact);
    PermutationFilterLength(c, m, (r: SearchResult) => r.matchType == Prefix);
    PermutationFilterLength(c, m, (r: SearchResult) => r.matchType == Fuzzy);
  }

  /** In a ranked list holding the exact match, the exact match is first. */
  lemma ExactFirst(m: seq<SearchResult>, nq: string, hits: seq<FuseHit>)
    requires Sorted(m, RanksBefore)
    requires forall i :: 0 <= i < |m| ==> Explained(m[i], nq, hits)
    requires SearchResult(nq, 0.0, Exact) in m
    ensures |m| > 0 && m[0] == SearchResult(nq, 0.0, Exact)
  {
    var k :| 0 <= k < |m| && m[k] == SearchResult(nq, 0.0, Exact);
    assert k == 0 || RanksBefore(m[0], m[k]);
    assert Explained(m[0], nq, hits);
  }

  // ---------------------------------------------------------------------------
  // The module state and the entry point

  /** The module-level search engine. `engine` is the catalog the fuzzy index
      was built on, None until it is first built; `fuse` is the engine's search
      over a catalog, an oracle. */
  class Searcher {
    var engine: Option<seq<CoinData>>
    const fuse: (seq<CoinData>, string) -> seq<FuseHit>

    constructor (fuse: (seq<CoinData>, string) -> seq<FuseHit>)
      ensures engine == None && this.fuse == fuse
    {
      engine := None;
      this.fuse := fuse;
    }

    /** initializeSearchEngine: (re)builds the index over the given catalog. */
    method InitializeSearchEngine(coinList: seq<CoinData>)
      modifies this
      ensures engine == Some(coinList)
    {
      engine := Some(coinList);
    }

    /** searchCoins. An empty query returns the suggestions and leaves the
        caller's catalog sorted by volume; any other query builds the index on
        first use (and only then), leaves the catalog alone and returns the
        ranked matches for the normalised query. */
    method SearchCoins(query: string, coinList: array<CoinData>, userHistory: UserSearchHistory)
      returns (results: seq<SearchResult>)
      modifies this, coinList
      ensures query == "" ==>
        && results == Suggestions(old(coinList[..]), userHistory)
        && coinList[..] == ByVolume(old(coinList[..]))
        && engine == old(engine)
      ensures query != "" ==>
        && coinList[..] == old(coinList[..])
        && engine == (if old(engine).None? then Some(coinList[..]) else old(engine))
        && results == MatchResults(coinList[..], Normalize(query), fuse(engine.value, Normalize(query)))
    {
      if query == "" {
        results := SuggestInPlace(coinList, userHistory);
        return;
      }
      if engine.None? {
        InitializeSearchEngine(coinList[..]);
      }
      var coins := coinList[..];
      var nq := Normalize(query);
      var exactMatch := ExactItems(coins, nq);
      results := exactMatch;
      var prefixMatches := PrefixItems(coins, nq);
      results := results + prefixMatches;
      var hits := fuse(engine.value, nq);
      var uniqueFuzzyResults := FuzzyItems(hits, results);
      results := results + uniqueFuzzyResults;
      results := Ranked(results);
    }
  }

  /** The empty-query path: history, trending and popular suggestions pushed
      in turn, the catalog sorted by volume in place on the way, and the
      pushed list de-duplicated. */
  method SuggestInPlace(coinList: array<CoinData>, userHistory: UserSearchHistory)
    returns (results: seq<SearchResult>)
    modifies coinList
    ensures results == Suggestions(old(coinList[..]), userHistory)
    ensures coinList[..] == ByVolume(old(coinList[..]))
  {
    var coins := coinList[..];
    var historyItems := HistoryItems(coins, userHistory);
    results := historyItems;
    var trendingItems := TrendingItems(coins);
    results := results + trendingItems;
    SortByVolume(coinList);
    var sorted := coinList[..];
    var popularItems := Map(Take(sorted, POPULAR_COUNT), AsPopular);
    assert popularItems == PopularItems(coins);
    results := results + popularItems;
    results := Deduplicate(results);
  }

  /** coinList.sort((a, b) => b.volume - a.volume), in place. */
  method SortByVolume(a: array<CoinData>)
    modifies a
    ensures a[..] == ByVolume(old(a[..]))
  {
    var sorted := ByVolume(a[..]);
    forall i | 0 <= i < a.Length {
      a[i] := sorted[i];
    }
  }
}
