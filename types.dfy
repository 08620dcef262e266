/** The records the search core passes around: catalog entries, search
    results and the user's search history. */
module Types {
  import opened Seqs
  import opened StableSort

  /** One tradable base asset of the catalog. `price` is a placeholder string;
      volume and 24-hour change are the exchange's figures. */
  datatype CoinData = CoinData(
    symbol: string,
    baseAsset: string,
    quoteAsset: string,
    volume: real,
    price: string,
    priceChangePercent: real,
    isTrending: bool)

  datatype MatchType = Exact | Prefix | Fuzzy | History | Trending | Popular

  /** The priority table of the final ordering: lower comes first. */
  function TypeRank(t: MatchType): (rank: nat)
    ensures rank <= 5
    ensures rank == 0 <==> t == Exact
  {
    match t
    case Exact => 0
    case Prefix => 1
    case Fuzzy => 2
    case History => 3
    case Trending => 4
    case Popular => 5
  }

  /** TypeRank tells the six kinds apart. */
  lemma TypeRankInjective(a: MatchType, b: MatchType)
    ensures TypeRank(a) == TypeRank(b) <==> a == b
  {
  }

  /** One suggestion: lower score is a better match. */
  datatype SearchResult = SearchResult(symbol: string, score: real, matchType: MatchType)

  function ResultSymbol(r: SearchResult): string { r.symbol }

  function Symbols(rs: seq<SearchResult>): (syms: seq<string>)
    ensures |syms| == |rs| && forall i :: 0 <= i < |rs| ==> syms[i] == rs[i].symbol
  {
    Map(rs, ResultSymbol)
  }

  /** How many results of one kind a list holds. */
  function CountOf(rs: seq<SearchResult>, t: MatchType): nat {
    |Filter(rs, (r: SearchResult) => r.matchType == t)|
  }

  /** One key of the user's search history: how often the symbol was chosen
      and when it was chosen last (milliseconds). */
  datatype SearchEntry = SearchEntry(symbol: string, count: nat, lastSearched: int)

  function EntrySymbol(e: SearchEntry): string { e.symbol }

  /** The history object, its keys in insertion order (the order in which
      Object.entries lists them). */
  type UserSearchHistory = seq<SearchEntry>

  /** An object has each key once. */
  predicate WellKeyed(h: UserSearchHistory) {
    DistinctBy(h, EntrySymbol)
  }

  /** The comparator (a, b) => b.lastSearched - a.lastSearched: most recent first. */
  predicate MoreRecent(a: SearchEntry, b: SearchEntry) {
    a.lastSearched >= b.lastSearched
  }

  lemma MoreRecentIsTotalPreorder()
    ensures TotalPreorder(MoreRecent)
  {
  }

  function Abs(x: real): (a: real)
    ensures a >= 0.0 && (a == x || a == -x)
  {
    if x < 0.0 then -x else x
  }
}
