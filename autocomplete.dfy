/** The search box component: its state, the handlers that change it, and the
    glue between the search core, the validity cache and the history store.
    Each handler runs to completion here; the awaits inside a handler are
    sequenced as written, and interleavings between handlers are not
    modelled. */
module Autocomplete {
  import opened Common
  import opened Seqs
  import opened JsStrings
  import opened Types
  import SearchUtils
  import Api
  import CoinStorage

  /** What the component has done outside itself, in order: a finished
      history update and a call of the parent's onSelect. */
  datatype Effect = HistoryUpdated(symbol: string) | Selected(symbol: string)

  /** The search a keystroke schedules, with the state its closure captured:
      the typed value, whether the component was initialised, the catalog
      array and the history. */
  datatype PendingSearch = PendingSearch(query: string, ready: bool, coins: array<CoinData>, history: UserSearchHistory)

  /** The filter initialize applies to a fresh catalog. */
  predicate Searchable(c: CoinData) {
    c.quoteAsset == "USDT" && |c.baseAsset| > 0
  }

  /** The catalog getAllCoinPairs returns for the two replies. */
  function FetchedCatalog(exchange: Reply<Api.ExchangeInfo>, tickerReply: Reply<seq<Api.Ticker>>): seq<CoinData> {
    if exchange.Ok? && tickerReply.Ok? && exchange.body.symbols.Some? then
      Api.Catalog(exchange.body.symbols.value, tickerReply.body)
    else
      []
  }

  /** Every fetched entry is already quoted in USDT, so the filter in
      initialize only drops entries with an empty base asset. */
  lemma FetchedFilterDropsOnlyNamelessAssets(exchange: Reply<Api.ExchangeInfo>, tickerReply: Reply<seq<Api.Ticker>>)
    ensures Filter(FetchedCatalog(exchange, tickerReply), Searchable) ==
            Filter(FetchedCatalog(exchange, tickerReply), (c: CoinData) => |c.baseAsset| > 0)
  {
    var cat := FetchedCatalog(exchange, tickerReply);
    if exchange.Ok? && tickerReply.Ok? && exchange.body.symbols.Some? {
      Api.CatalogSpec(exchange.body.symbols.value, tickerReply.body);
    }
    FilterAgree(cat, Searchable, (c: CoinData) => |c.baseAsset| > 0);
  }

  /** Two tests that agree on every element filter alike. */
  lemma {:induction false} FilterAgree<T>(s: seq<T>, p: T -> bool, q: T -> bool)
    requires forall i :: 0 <= i < |s| ==> p(s[i]) == q(s[i])
    ensures Filter(s, p) == Filter(s, q)
  {
    if s != [] {
      FilterAgree(s[1..], p, q);
    }
  }

  /** A fresh array holding the given catalog: a new value for coinList. */
  method ArrayOf(coins: seq<CoinData>) returns (a: array<CoinData>)
    ensures fresh(a) && a[..] == coins
  {
    a := new CoinData[|coins|];
    forall i | 0 <= i < |coins| {
      a[i] := coins[i];
    }
  }

  class CryptoAutocomplete {
    /** The validateOnSelect property. */
    const validateOnSelect: bool
    /** The module state of the price API, of the storage and of the search
        engine. */
    const cache: Api.ValidityCache
    const store: CoinStorage.LocalStore
    const searcher: SearchUtils.Searcher

    var inputValue: string
    var coinList: array<CoinData>
    var userHistory: UserSearchHistory
    var searchResults: seq<SearchResult>
    var isLoading: bool
    var showDropdown: bool
    var isInitialized: bool
    var validationStatus: map<string, bool>
    /** The debounce timer: the search it will run, if one is scheduled. */
    var pending: Option<PendingSearch>
    var effects: seq<Effect>

    ghost predicate Valid()
      reads this, store
    {
      store.Valid()
    }

    constructor (validateOnSelect: bool, cache: Api.ValidityCache, store: CoinStorage.LocalStore, searcher: SearchUtils.Searcher)
      requires store.Valid()
      ensures Valid()
      ensures this.validateOnSelect == validateOnSelect && this.cache == cache && this.store == store && this.searcher == searcher
      ensures inputValue == "" && coinList[..] == [] && userHistory == [] && searchResults == []
      ensures !isLoading && !showDropdown && !isInitialized
      ensures validationStatus == map[] && pending == None && effects == []
    {
      this.validateOnSelect := validateOnSelect;
      this.cache := cache;
      this.store := store;
      this.searcher := searcher;
      inputValue := "";
      coinList := new CoinData[0];
      userHistory := [];
      searchResults := [];
      isLoading := false;
      showDropdown := false;
      isInitialized := false;
      validationStatus := map[];
      pending := None;
      effects := [];
    }

    /** isSymbolValid: a symbol never checked counts as valid. */
    function IsSymbolValid(symbol: string): (ok: bool)
      reads this
      ensures !ok <==> symbol in validationStatus && !validationStatus[symbol]
    {
      if symbol !in validationStatus then true else validationStatus[symbol]
    }

    /** initialize, run on mount: show the cached catalog and history, index
        the cached catalog if there is one, then replace both catalog and
        index with the fetched catalog's USDT pairs if the fetch returned
        any. The fresh catalog is not written back to storage. */
    method Initialize(now: int, exchange: Reply<Api.ExchangeInfo>, tickerReply: Reply<seq<Api.Ticker>>)
      requires Valid()
      modifies this`coinList, this`userHistory, this`isLoading, this`isInitialized, cache, searcher
      ensures Valid()
      ensures userHistory == CoinStorage.LoadSearchHistory(store.historySlot)
      ensures fresh(coinList)
      ensures var cached := CoinStorage.LoadCoinList(store.coinSlot);
              var fetched := FetchedCatalog(exchange, tickerReply);
              && coinList[..] == (if fetched != [] then Filter(fetched, Searchable) else cached)
              && searcher.engine == (if fetched != [] then Some(Filter(fetched, Searchable))
                                     else if cached != [] then Some(cached)
                                     else old(searcher.engine))
      ensures isInitialized && !isLoading
      ensures exchange.Ok? && tickerReply.Ok? && exchange.body.symbols.Some? ==>
        cache.State() == Api.CacheState(Api.BaseAssets(Api.ListedPairs(exchange.body.symbols.value)), {}, now)
      ensures !(exchange.Ok? && tickerReply.Ok?) ==> cache.State() == old(cache.State())
    {
      isLoading := true;
      ShowCached();
      var freshCoins := cache.GetAllCoinPairs(now, exchange, tickerReply);
      assert freshCoins == FetchedCatalog(exchange, tickerReply);
      UseFetched(freshCoins);
      isInitialized := true;
      isLoading := false;
    }

    /** The first half of initialize: the cached catalog and history. */
    method ShowCached()
      modifies this`coinList, this`userHistory, searcher
      ensures userHistory == CoinStorage.LoadSearchHistory(store.historySlot)
      ensures fresh(coinList) && coinList[..] == CoinStorage.LoadCoinList(store.coinSlot)
      ensures searcher.engine == if coinList[..] != [] then Some(coinList[..]) else old(searcher.engine)
    {
      var cachedCoins := CoinStorage.LoadCoinList(store.coinSlot);
      var history := CoinStorage.LoadSearchHistory(store.historySlot);
      coinList := ArrayOf(cachedCoins);
      userHistory := history;
      if |cachedCoins| > 0 {
        searcher.InitializeSearchEngine(cachedCoins);
      }
    }

    /** The second half of initialize: a non-empty fetched catalog replaces
        the cached one, restricted to its USDT pairs. */
    method UseFetched(freshCoins: seq<CoinData>)
      modifies this`coinList, searcher
      ensures freshCoins != [] ==>
        && fresh(coinList) && coinList[..] == Filter(freshCoins, Searchable)
        && searcher.engine == Some(Filter(freshCoins, Searchable))
      ensures freshCoins == [] ==> coinList == old(coinList) && searcher.engine == old(searcher.engine)
    {
      if |freshCoins| > 0 {
        var validCoins := Filter(freshCoins, Searchable);
        coinList := ArrayOf(validCoins);
        searcher.InitializeSearchEngine(validCoins);
      }
    }

    /** handleInputChange: store the value, open the dropdown for a
        non-blank value, and (re)schedule the search with the state of this
        moment, replacing any search still waiting. */
    method HandleInputChange(value: string)
      modifies this`inputValue, this`showDropdown, this`pending
      ensures inputValue == value
      ensures showDropdown == (Trim(value) != "" || old(showDropdown))
      ensures pending == Some(PendingSearch(value, isInitialized, coinList, userHistory))
    {
      inputValue := value;
      if Trim(value) != "" {
        showDropdown := true;
      }
      pending := Some(PendingSearch(value, isInitialized, coinList, userHistory));
    }

    /** The arrays a waiting search may sort. */
    function PendingArrays(): set<object>
      reads this
    {
      if pending.Some? then {pending.value.coins} else {}
    }

    /** The debounce timer fires: the scheduled search runs on the state its
        closure captured, if the component was initialised then. */
    method DebounceFires()
      modifies this`pending, this`searchResults, this`isLoading, searcher, PendingArrays()
      ensures pending == None
      ensures old(pending).Some? && old(pending).value.ready ==>
        var p := old(pending).value;
        && !isLoading
        && (p.query == "" ==>
              && searchResults == SearchUtils.Suggestions(old(p.coins[..]), p.history)
              && p.coins[..] == SearchUtils.ByVolume(old(p.coins[..]))
              && searcher.engine == old(searcher.engine))
        && (p.query != "" ==>
              && p.coins[..] == old(p.coins[..])
              && searcher.engine == (if old(searcher.engine).None? then Some(p.coins[..]) else old(searcher.engine))
              && searchResults == SearchUtils.MatchResults(p.coins[..], SearchUtils.Normalize(p.query),
                                                           searcher.fuse(searcher.engine.value, SearchUtils.Normalize(p.query))))
      ensures !(old(pending).Some? && old(pending).value.ready) ==>
        && searchResults == old(searchResults) && searcher.engine == old(searcher.engine) && isLoading == old(isLoading)
        && (old(pending).Some? ==> old(pending).value.coins[..] == old(pending.value.coins[..]))
    {
      if pending.None? {
        return;
      }
      var p := pending.value;
      pending := None;
      if p.ready {
        RunSearch(p.query, p.coins, p.history);
      }
    }

    /** What both handlers do to search: loading on, searchCoins, show its
        results, loading off. */
    method RunSearch(query: string, coins: array<CoinData>, history: UserSearchHistory)
      modifies this`searchResults, this`isLoading, searcher, coins
      ensures query == "" ==>
        && searchResults == SearchUtils.Suggestions(old(coins[..]), history)
        && coins[..] == SearchUtils.ByVolume(old(coins[..]))
        && searcher.engine == old(searcher.engine)
      ensures query != "" ==>
        && coins[..] == old(coins[..])
        && searcher.engine == (if old(searcher.engine).None? then Some(coins[..]) else old(searcher.engine))
        && searchResults == SearchUtils.MatchResults(coins[..], SearchUtils.Normalize(query),
                                                     searcher.fuse(searcher.engine.value, SearchUtils.Normalize(query)))
      ensures !isLoading
    {
      isLoading := true;
      var results := searcher.SearchCoins(query, coins, history);
      searchResults := results;
      isLoading := false;
    }

    /** handleInputFocus: on a blank field of an initialised component,
        show the suggestions (which sorts the catalog by volume); always open
        the dropdown. */
    method HandleInputFocus()
      modifies this`searchResults, this`isLoading, this`showDropdown, searcher, coinList
      ensures showDropdown
      ensures Trim(old(inputValue)) == "" && old(isInitialized) ==>
        && searchResults == SearchUtils.Suggestions(old(coinList[..]), userHistory)
        && coinList[..] == SearchUtils.ByVolume(old(coinList[..]))
        && !isLoading
      ensures !(Trim(old(inputValue)) == "" && old(isInitialized)) ==>
        searchResults == old(searchResults) && coinList[..] == old(coinList[..]) && isLoading == old(isLoading)
      ensures searcher.engine == old(searcher.engine)
    {
      if Trim(inputValue) == "" && isInitialized {
        ShowSuggestions();
      }
      showDropdown := true;
    }

    /** searchCoins('', coinList, userHistory) with its results shown. */
    method ShowSuggestions()
      modifies this`searchResults, this`isLoading, searcher, coinList
      ensures searchResults == SearchUtils.Suggestions(old(coinList[..]), userHistory)
      ensures coinList[..] == SearchUtils.ByVolume(old(coinList[..]))
      ensures !isLoading && searcher.engine == old(searcher.engine)
    {
      RunSearch("", coinList, userHistory);
    }

    /** handleSelectCoin: put the symbol in the field and close the dropdown;
        with validateOnSelect, check the pair, record the verdict and stop on
        an invalid one; otherwise record the symbol in the history and only
        then hand it to the parent. The component's own copy of the history
        is not refreshed. */
    method HandleSelectCoin(symbol: string, now: int, probe: Reply<()>, writeOk: bool)
      requires Valid()
      modifies this`inputValue, this`showDropdown, this`isLoading, this`validationStatus, this`effects, cache, store
      ensures Valid()
      ensures inputValue == symbol && !showDropdown
      ensures var check := Api.CheckPair(old(cache.State()), symbol, now, probe);
        && (validateOnSelect ==>
              && cache.State() == check.state
              && validationStatus == old(validationStatus)[symbol := check.isValid]
              && IsSymbolValid(symbol) == check.isValid
              && !isLoading)
        && (!validateOnSelect ==>
              cache.State() == old(cache.State()) && validationStatus == old(validationStatus) && isLoading == old(isLoading))
        && (validateOnSelect && !check.isValid ==>
              store.historySlot == old(store.historySlot) && effects == old(effects))
        && (!validateOnSelect || check.isValid ==>
              && store.historySlot == (if writeOk then Json(CoinStorage.Updated(CoinStorage.LoadSearchHistory(old(store.historySlot)), symbol, now))
                                       else old(store.historySlot))
              && effects == old(effects) + [HistoryUpdated(symbol), Selected(symbol)])
      ensures store.coinSlot == old(store.coinSlot)
    {
      inputValue := symbol;
      showDropdown := false;
      if validateOnSelect {
        isLoading := true;
        var isValid, requested := cache.IsValidTradingPair(symbol, now, probe);
        isLoading := false;
        validationStatus := validationStatus[symbol := isValid];
        if !isValid {
          return;
        }
      }
      store.UpdateSearchHistory(symbol, now, writeOk);
      effects := effects + [HistoryUpdated(symbol)];
      effects := effects + [Selected(symbol)];
    }
  }
}
