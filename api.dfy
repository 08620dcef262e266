/** The exchange client: the symbol-validity cache with its one-hour lifetime,
    the catalog build from the exchange's symbol list and 24-hour tickers, and
    the price lookup. The network is a parameter: each request's outcome is
    passed in as a Reply, and `now` stands for Date.now(). */
module Api {
  import opened Common
  import opened Seqs
  import opened Types

  /** 1000 * 60 * 60 milliseconds. */
  const VALIDATION_CACHE_DURATION: int := 3600000
  const TRENDING_THRESHOLD: real := 5.0

  // ---------------------------------------------------------------------------
  // The validity cache

  /** The module state: the symbols known valid, those known invalid, and
      when the catalog was last fetched. */
  datatype CacheState = CacheState(valid: set<string>, invalid: set<string>, lastValidationTime: int)

  /** The state at load time: both sets empty and the clock at 0. */
  const INITIAL_CACHE: CacheState := CacheState({}, {}, 0)

  predicate Fresh(c: CacheState, now: int) {
    now - c.lastValidationTime < VALIDATION_CACHE_DURATION
  }

  /** What the cache answers without a request, if anything: the valid set is
      consulted first, then the invalid set, and only while the cache is fresh. */
  function CacheAnswer(c: CacheState, symbol: string, now: int): (a: Option<bool>)
    ensures a == Some(true) <==> Fresh(c, now) && symbol in c.valid
    ensures a == Some(false) <==> Fresh(c, now) && symbol !in c.valid && symbol in c.invalid
  {
    if symbol in c.valid && Fresh(c, now) then Some(true)
    else if symbol in c.invalid && Fresh(c, now) then Some(false)
    else None
  }

  /** The outcome of one validity check: the new state, the answer, and
      whether a request went out. */
  datatype Check = Check(state: CacheState, isValid: bool, requested: bool)

  /** isValidTradingPair on a state: a cache answer, or one request whose ok
      reply records the symbol as valid and whose other outcomes (a non-ok
      reply or an exception) record it as invalid. */
  function CheckPair(c: CacheState, symbol: string, now: int, probe: Reply<()>): Check {
    match CacheAnswer(c, symbol, now)
    case Some(b) => Check(c, b, false)
    case None =>
      if probe.Ok? then Check(c.(valid := c.valid + {symbol}), true, true)
      else Check(c.(invalid := c.invalid + {symbol}), false, true)
  }

  /** A check asks the network exactly when the cache has no answer; it only
      ever adds the checked symbol, to the set matching its answer, and never
      moves the clock. */
  lemma CheckPairSpec(c: CacheState, symbol: string, now: int, probe: Reply<()>)
    ensures var r := CheckPair(c, symbol, now, probe);
      && (r.requested <==> !(Fresh(c, now) && (symbol in c.valid || symbol in c.invalid)))
      && (!r.requested ==> r.state == c)
      && (r.requested ==> r.isValid == probe.Ok?)
      && (r.isValid ==> symbol in r.state.valid)
      && (!r.isValid ==> symbol in r.state.invalid)
      && c.valid <= r.state.valid && r.state.valid <= c.valid + {symbol}
      && c.invalid <= r.state.invalid && r.state.invalid <= c.invalid + {symbol}
      && r.state.lastValidationTime == c.lastValidationTime
  {
  }

  /** While the cache is fresh, no symbol is ever in both sets. */
  lemma CheckKeepsDisjointWhileFresh(c: CacheState, symbol: string, now: int, probe: Reply<()>)
    requires c.valid !! c.invalid && Fresh(c, now)
    ensures CheckPair(c, symbol, now, probe).state.valid !! CheckPair(c, symbol, now, probe).state.invalid
  {
  }

  /** Once the cache is stale, a symbol known valid whose request fails is
      added to the invalid set too. */
  lemma StaleCheckCanOverlap()
    ensures var r := CheckPair(CacheState({"BTC"}, {}, 0), "BTC", VALIDATION_CACHE_DURATION, NotOk);
      "BTC" in r.state.valid && "BTC" in r.state.invalid && !r.isValid
  {
  }

  /** While the cache stays fresh, checking a symbol again gives the first
      answer again, from the cache. */
  lemma CheckSettles(c: CacheState, symbol: string, now: int, probe: Reply<()>, later: int, probe2: Reply<()>)
    requires Fresh(c, now) && Fresh(c, later)
    ensures var r := CheckPair(c, symbol, now, probe);
      CheckPair(r.state, symbol, later, probe2) == Check(r.state, r.isValid, false)
  {
  }

  // ---------------------------------------------------------------------------
  // The catalog build

  /** One entry of exchangeInfo.symbols. */
  datatype ExchangeSymbol = ExchangeSymbol(
    symbol: string, status: string, baseAsset: string, quoteAsset: string, isSpotTradingAllowed: bool)

  /** The parsed exchangeInfo reply; `symbols` is None when the field is absent. */
  datatype ExchangeInfo = ExchangeInfo(symbols: Option<seq<ExchangeSymbol>>)

  /** One entry of the 24-hour ticker reply, its numbers already parsed. */
  datatype Ticker = Ticker(symbol: string, volume: real, priceChangePercent: real)

  datatype Stats = Stats(volume: real, priceChangePercent: real)

  /** The ticker map built by the forEach: a later ticker for the same pair
      overwrites an earlier one. */
  function TickerMap(tickers: seq<Ticker>): (m: map<string, Stats>)
    ensures forall k :: k in m <==> exists i :: 0 <= i < |tickers| && tickers[i].symbol == k
    decreases |tickers|
  {
    if tickers == [] then map[]
    else
      var t := tickers[|tickers| - 1];
      var m := TickerMap(tickers[..|tickers| - 1]);
      assert forall i :: 0 <= i < |tickers| - 1 ==> tickers[..|tickers| - 1][i] == tickers[i];
      m[t.symbol := Stats(t.volume, t.priceChangePercent)]
  }

  /** A pair's entry in the ticker map comes from its last ticker. */
  lemma {:induction false} TickerMapLastWins(tickers: seq<Ticker>, i: nat)
    requires i < |tickers|
    requires forall j :: i < j < |tickers| ==> tickers[j].symbol != tickers[i].symbol
    ensures TickerMap(tickers)[tickers[i].symbol] == Stats(tickers[i].volume, tickers[i].priceChangePercent)
    decreases |tickers|
  {
    if i < |tickers| - 1 {
      var init := tickers[..|tickers| - 1];
      assert init[i] == tickers[i];
      TickerMapLastWins(init, i);
    }
  }

  /** Spot-tradable USDT pairs that are trading. */
  predicate Listed(s: ExchangeSymbol) {
    s.status == "TRADING" && s.quoteAsset == "USDT" && s.isSpotTradingAllowed
  }

  /** The ticker figures of a pair, zero when the ticker reply lacks it. */
  function StatsOf(tmap: map<string, Stats>, pair: string): Stats {
    if pair in tmap then tmap[pair] else Stats(0.0, 0.0)
  }

  /** The catalog entry of one listed pair: keyed by its base asset. */
  function ToCoin(s: ExchangeSymbol, tmap: map<string, Stats>): CoinData {
    var st := StatsOf(tmap, s.symbol);
    CoinData(s.baseAsset, s.baseAsset, s.quoteAsset, st.volume, "0", st.priceChangePercent,
             Abs(st.priceChangePercent) > TRENDING_THRESHOLD)
  }

  function ListedPairs(symbols: seq<ExchangeSymbol>): seq<ExchangeSymbol> {
    Filter(symbols, Listed)
  }

  /** The base assets of the listed pairs: the valid set after a catalog build. */
  function BaseAssets(listed: seq<ExchangeSymbol>): (assets: set<string>)
    ensures forall i :: 0 <= i < |listed| ==> listed[i].baseAsset in assets
    ensures forall a :: a in assets ==> exists i :: 0 <= i < |listed| && listed[i].baseAsset == a
  {
    set i | 0 <= i < |listed| :: listed[i].baseAsset
  }

  function Catalog(symbols: seq<ExchangeSymbol>, tickers: seq<Ticker>): seq<CoinData> {
    var tmap := TickerMap(tickers);
    Map(ListedPairs(symbols), (s: ExchangeSymbol) => ToCoin(s, tmap))
  }

  /** One catalog entry per listed pair, in exchange order: the base asset as
      symbol, USDT as quote, price "0", the pair's last ticker figures or
      zeros when it has none, and trending exactly when it moved more than 5%. */
  lemma CatalogSpec(symbols: seq<ExchangeSymbol>, tickers: seq<Ticker>)
    ensures |Catalog(symbols, tickers)| == |ListedPairs(symbols)|
    ensures Subsequence(ListedPairs(symbols), symbols)
    ensures forall i :: 0 <= i < |ListedPairs(symbols)| ==> Listed(ListedPairs(symbols)[i]) && ListedPairs(symbols)[i] in symbols
    ensures forall i :: 0 <= i < |symbols| && Listed(symbols[i]) ==> symbols[i] in ListedPairs(symbols)
    ensures forall i :: 0 <= i < |Catalog(symbols, tickers)| ==>
      var c, s := Catalog(symbols, tickers)[i], ListedPairs(symbols)[i];
      && c.symbol == s.baseAsset && c.baseAsset == s.baseAsset && c.quoteAsset == "USDT" && c.price == "0"
      && (c.isTrending <==> Abs(c.priceChangePercent) > TRENDING_THRESHOLD)
      && ((forall j :: 0 <= j < |tickers| ==> tickers[j].symbol != s.symbol) ==> c.volume == 0.0 && c.priceChangePercent == 0.0)
      && (forall j ::
            (0 <= j < |tickers| && tickers[j].symbol == s.symbol
             && forall k :: j < k < |tickers| ==> tickers[k].symbol != s.symbol)
            ==> c.volume == tickers[j].volume && c.priceChangePercent == tickers[j].priceChangePercent)
  {
    FilterIsSubsequence(symbols, Listed);
    var tmap := TickerMap(tickers);
    forall i, j | 0 <= i < |Catalog(symbols, tickers)| && 0 <= j < |tickers| && tickers[j].symbol == ListedPairs(symbols)[i].symbol
      && (forall k :: j < k < |tickers| ==> tickers[k].symbol != ListedPairs(symbols)[i].symbol)
      ensures tmap[tickers[j].symbol] == Stats(tickers[j].volume, tickers[j].priceChangePercent)
    {
      TickerMapLastWins(tickers, j);
    }
  }

  /** The valid set primed by a catalog build is exactly the set of symbols
      the build returns. */
  lemma BaseAssetsAreCatalogSymbols(symbols: seq<ExchangeSymbol>, tickers: seq<Ticker>)
    ensures BaseAssets(ListedPairs(symbols)) == set c | c in Catalog(symbols, tickers) :: c.symbol
  {
    var listed, cat := ListedPairs(symbols), Catalog(symbols, tickers);
    CatalogSpec(symbols, tickers);
    forall a | a in BaseAssets(listed) ensures exists c :: c in cat && c.symbol == a {
      var i :| 0 <= i < |listed| && listed[i].baseAsset == a;
      assert cat[i] in cat;
    }
    forall c | c in cat ensures c.symbol in BaseAssets(listed) {
      var i :| 0 <= i < |cat| && cat[i] == c;
      assert listed[i].baseAsset == c.symbol;
    }
  }

  /** Right after a successful build, every catalog symbol checks valid from
      the cache, without a request, for the next hour. */
  lemma CatalogValidForAnHour(symbols: seq<ExchangeSymbol>, tickers: seq<Ticker>, built: int,
                              i: nat, now: int, probe: Reply<()>)
    requires i < |Catalog(symbols, tickers)| && now - built < VALIDATION_CACHE_DURATION
    ensures var c := CacheState(BaseAssets(ListedPairs(symbols)), {}, built);
      CheckPair(c, Catalog(symbols, tickers)[i].symbol, now, probe) == Check(c, true, false)
  {
    var c := CacheState(BaseAssets(ListedPairs(symbols)), {}, built);
    assert Catalog(symbols, tickers)[i].symbol == ListedPairs(symbols)[i].baseAsset;
  }

  // ---------------------------------------------------------------------------
  // validateSymbols

  /** The answers of validateSymbols: every check sees the state as it was
      when the call began (all of them consult the cache before any reply
      arrives), and each symbol lands in `valid` or `invalid` by its answer. */
  function Split(c: CacheState, symbols: seq<string>, now: int, probes: seq<Reply<()>>): (r: (seq<string>, seq<string>))
    requires |probes| == |symbols|
    decreases |symbols|
  {
    if symbols == [] then ([], [])
    else
      var n := |symbols| - 1;
      var rest := Split(c, symbols[..n], now, probes[..n]);
      if CheckPair(c, symbols[n], now, probes[n]).isValid then (rest.0 + [symbols[n]], rest.1)
      else (rest.0, rest.1 + [symbols[n]])
  }

  /** Every input symbol is in exactly one of the two lists, the one its
      check answered; nothing else is in either. */
  lemma SplitPartition(c: CacheState, symbols: seq<string>, now: int, probes: seq<Reply<()>>)
    requires |probes| == |symbols|
    ensures multiset(Split(c, symbols, now, probes).0) + multiset(Split(c, symbols, now, probes).1) == multiset(symbols)
    ensures forall x :: x in Split(c, symbols, now, probes).0 ==>
      exists i :: 0 <= i < |symbols| && symbols[i] == x && CheckPair(c, x, now, probes[i]).isValid
    ensures forall x :: x in Split(c, symbols, now, probes).1 ==>
      exists i :: 0 <= i < |symbols| && symbols[i] == x && !CheckPair(c, x, now, probes[i]).isValid
  {
    SplitCounts(c, symbols, now, probes);
    SplitJustifiedByChecks(c, symbols, now, probes);
  }

  /** The two lists together hold each input symbol as often as the input does. */
  lemma {:induction false} SplitCounts(c: CacheState, symbols: seq<string>, now: int, probes: seq<Reply<()>>)
    requires |probes| == |symbols|
    ensures multiset(Split(c, symbols, now, probes).0) + multiset(Split(c, symbols, now, probes).1) == multiset(symbols)
    decreases |symbols|
  {
    if symbols != [] {
      var n := |symbols| - 1;
      SplitCounts(c, symbols[..n], now, probes[..n]);
      assert symbols == symbols[..n] + [symbols[n]];
    }
  }

  /** Each symbol in a list comes from an input position whose check gave that answer. */
  lemma {:induction false} SplitJustifiedByChecks(c: CacheState, symbols: seq<string>, now: int, probes: seq<Reply<()>>)
    requires |probes| == |symbols|
    ensures forall x :: x in Split(c, symbols, now, probes).0 ==>
      exists i :: 0 <= i < |symbols| && symbols[i] == x && CheckPair(c, x, now, probes[i]).isValid
    ensures forall x :: x in Split(c, symbols, now, probes).1 ==>
      exists i :: 0 <= i < |symbols| && symbols[i] == x && !CheckPair(c, x, now, probes[i]).isValid
    decreases |symbols|
  {
    if symbols != [] {
      var n := |symbols| - 1;
      var init, pinit, x := symbols[..n], probes[..n], symbols[n];
      SplitJustifiedByChecks(c, init, now, pinit);
      var rest := Split(c, init, now, pinit);
      assert symbols == init + [x];
      var r := Split(c, symbols, now, probes);
      var v := CheckPair(c, x, now, probes[n]).isValid;
      assert r == if v then (rest.0 + [x], rest.1) else (rest.0, rest.1 + [x]);
      forall y | y in r.0 ensures exists i :: 0 <= i < |symbols| && symbols[i] == y && CheckPair(c, y, now, probes[i]).isValid {
        if y in rest.0 {
          var i :| 0 <= i < n && init[i] == y && CheckPair(c, y, now, pinit[i]).isValid;
          assert symbols[i] == y && probes[i] == pinit[i];
        } else {
          assert symbols[n] == y;
        }
      }
      forall y | y in r.1 ensures exists i :: 0 <= i < |symbols| && symbols[i] == y && !CheckPair(c, y, now, probes[i]).isValid {
        if y in rest.1 {
          var i :| 0 <= i < n && init[i] == y && !CheckPair(c, y, now, pinit[i]).isValid;
          assert symbols[i] == y && probes[i] == pinit[i];
        } else {
          assert symbols[n] == y;
        }
      }
    }
  }

  /** The symbols whose check sends a request that comes back ok / not ok. */
  function Learned(c: CacheState, symbols: seq<string>, now: int, probes: seq<Reply<()>>, ok: bool): set<string>
    requires |probes| == |symbols|
  {
    set i | 0 <= i < |symbols| && CacheAnswer(c, symbols[i], now).None? && probes[i].Ok? == ok :: symbols[i]
  }

  // ---------------------------------------------------------------------------
  // The module state and the operations on it

  class ValidityCache {
    var valid: set<string>
    var invalid: set<string>
    var lastValidationTime: int

    function State(): CacheState
      reads this
    {
      CacheState(valid, invalid, lastValidationTime)
    }

    constructor ()
      ensures State() == INITIAL_CACHE
    {
      valid, invalid, lastValidationTime := {}, {}, 0;
    }

    /** isValidTradingPair. `probe` is how the ticker-price request would
        end; `requested` says whether it was sent. */
    method IsValidTradingPair(symbol: string, now: int, probe: Reply<()>) returns (isValid: bool, requested: bool)
      modifies this
      ensures Check(State(), isValid, requested) == CheckPair(old(State()), symbol, now, probe)
    {
      if symbol in valid && now - lastValidationTime < VALIDATION_CACHE_DURATION {
        return true, false;
      }
      if symbol in invalid && now - lastValidationTime < VALIDATION_CACHE_DURATION {
        return false, false;
      }
      requested := true;
      match probe {
        case Ok(_) =>
          valid := valid + {symbol};
          isValid := true;
        case NotOk =>
          invalid := invalid + {symbol};
          isValid := false;
        case Threw =>
          invalid := invalid + {symbol};
          isValid := false;
      }
    }

    /** getCryptoPrice (the validating one): no price request for a symbol
        that fails the check; null for a failed price request. */
    method GetCryptoPrice(symbol: string, now: int, probe: Reply<()>, priceReply: Reply<string>)
      returns (price: Option<string>, priceRequested: bool)
      modifies this
      ensures State() == CheckPair(old(State()), symbol, now, probe).state
      ensures priceRequested == CheckPair(old(State()), symbol, now, probe).isValid
      ensures price == if priceRequested && priceReply.Ok? then Some(priceReply.body) else None
    {
      var isValid, _ := IsValidTradingPair(symbol, now, probe);
      if !isValid {
        return None, false;
      }
      priceRequested := true;
      if priceReply.Ok? {
        price := Some(priceReply.body);
      } else {
        price := None;
      }
    }

    /** getAllCoinPairs. A failed exchange or ticker request, or an exception,
        yields []. The reset of both sets and the clock happens after both
        replies arrived and before the symbol list is read, so a reply lacking
        `symbols` still resets the cache. */
    method GetAllCoinPairs(now: int, exchange: Reply<ExchangeInfo>, tickerReply: Reply<seq<Ticker>>)
      returns (coinList: seq<CoinData>)
      modifies this
      ensures !(exchange.Ok? && tickerReply.Ok?) ==> coinList == [] && State() == old(State())
      ensures exchange.Ok? && tickerReply.Ok? && exchange.body.symbols.None? ==>
        coinList == [] && State() == CacheState({}, {}, now)
      ensures exchange.Ok? && tickerReply.Ok? && exchange.body.symbols.Some? ==>
        && coinList == Catalog(exchange.body.symbols.value, tickerReply.body)
        && State() == CacheState(BaseAssets(ListedPairs(exchange.body.symbols.value)), {}, now)
    {
      if !exchange.Ok? || !tickerReply.Ok? {
        return [];
      }
      var tickerMap := BuildTickerMap(tickerReply.body);
      valid := {};
      invalid := {};
      lastValidationTime := now;
      if exchange.body.symbols.None? {
        return [];
      }
      var listed := Filter(exchange.body.symbols.value, Listed);
      coinList := AddListed(listed, tickerMap);
    }

    /** The .map over the listed pairs: each pair's base asset goes into the
        valid set as its catalog entry is made. */
    method AddListed(listed: seq<ExchangeSymbol>, tickerMap: map<string, Stats>) returns (coinList: seq<CoinData>)
      modifies this
      ensures coinList == Map(listed, (s: ExchangeSymbol) => ToCoin(s, tickerMap))
      ensures valid == old(valid) + BaseAssets(listed)
      ensures invalid == old(invalid) && lastValidationTime == old(lastValidationTime)
    {
      coinList := [];
      var k := 0;
      while k < |listed|
        invariant 0 <= k <= |listed|
        invariant |coinList| == k
        invariant forall j :: 0 <= j < k ==> coinList[j] == ToCoin(listed[j], tickerMap)
        invariant valid == old(valid) + BaseAssets(listed[..k])
        invariant invalid == old(invalid) && lastValidationTime == old(lastValidationTime)
      {
        valid := valid + {listed[k].baseAsset};
        coinList := coinList + [ToCoin(listed[k], tickerMap)];
        BaseAssetsStep(listed, k);
        k := k + 1;
      }
      assert listed[..k] == listed;
    }

    /** validateSymbols: one check per symbol, all against the state at the
        start, their records added together. The two lists are given in
        input order. */
    method ValidateSymbols(symbols: seq<string>, now: int, probes: seq<Reply<()>>)
      returns (validList: seq<string>, invalidList: seq<string>)
      requires |probes| == |symbols|
      modifies this
      ensures (validList, invalidList) == Split(old(State()), symbols, now, probes)
      ensures valid == old(valid) + Learned(old(State()), symbols, now, probes, true)
      ensures invalid == old(invalid) + Learned(old(State()), symbols, now, probes, false)
      ensures lastValidationTime == old(lastValidationTime)
    {
      var start := State();
      validList, invalidList := [], [];
      var i := 0;
      while i < |symbols|
        invariant 0 <= i <= |symbols|
        invariant (validList, invalidList) == Split(start, symbols[..i], now, probes[..i])
        invariant valid == start.valid + Learned(start, symbols[..i], now, probes[..i], true)
        invariant invalid == start.invalid + Learned(start, symbols[..i], now, probes[..i], false)
        invariant lastValidationTime == start.lastValidationTime
      {
        var r := CheckPair(start, symbols[i], now, probes[i]);
        assert symbols[..i + 1][..i] == symbols[..i] && probes[..i + 1][..i] == probes[..i];
        if r.isValid {
          validList := validList + [symbols[i]];
        } else {
          invalidList := invalidList + [symbols[i]];
        }
        LearnedStep(start, symbols, now, probes, i);
        if r.requested {
          if r.isValid {
            valid := valid + {symbols[i]};
          } else {
            invalid := invalid + {symbols[i]};
          }
        }
        i := i + 1;
      }
      assert symbols[..i] == symbols && probes[..i] == probes;
    }
  }

  lemma BaseAssetsStep(listed: seq<ExchangeSymbol>, k: nat)
    requires k < |listed|
    ensures BaseAssets(listed[..k + 1]) == BaseAssets(listed[..k]) + {listed[k].baseAsset}
  {
    var a, b := listed[..k + 1], listed[..k];
    assert forall j :: 0 <= j < k ==> a[j] == b[j];
    assert a[k] == listed[k];
  }

  /** The tickerData.forEach filling the ticker map. */
  method BuildTickerMap(tickerData: seq<Ticker>) returns (tickerMap: map<string, Stats>)
    ensures tickerMap == TickerMap(tickerData)
  {
    tickerMap := map[];
    var i := 0;
    while i < |tickerData|
      invariant 0 <= i <= |tickerData|
      invariant tickerMap == TickerMap(tickerData[..i])
    {
      var t := tickerData[i];
      assert tickerData[..i + 1][..i] == tickerData[..i];
      tickerMap := tickerMap[t.symbol := Stats(t.volume, t.priceChangePercent)];
      i := i + 1;
    }
    assert tickerData[..i] == tickerData;
  }

  lemma LearnedStep(c: CacheState, symbols: seq<string>, now: int, probes: seq<Reply<()>>, i: nat)
    requires |probes| == |symbols| && i < |symbols|
    ensures var r := CheckPair(c, symbols[i], now, probes[i]);
      && Learned(c, symbols[..i + 1], now, probes[..i + 1], true)
         == Learned(c, symbols[..i], now, probes[..i], true) + (if r.requested && r.isValid then {symbols[i]} else {})
      && Learned(c, symbols[..i + 1], now, probes[..i + 1], false)
         == Learned(c, symbols[..i], now, probes[..i], false) + (if r.requested && !r.isValid then {symbols[i]} else {})
  {
    var s1, p1 := symbols[..i + 1], probes[..i + 1];
    var s0, p0 := symbols[..i], probes[..i];
    assert forall j :: 0 <= j < i ==> s1[j] == s0[j] && p1[j] == p0[j];
    assert s1[i] == symbols[i] && p1[i] == probes[i];
  }
}
