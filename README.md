# Crypto Tracker extension: a verified model of its core

This project models the logic of a browser extension that tracks crypto
prices against USDT on Binance. It covers six parts:

- **Coin search** (`SearchUtils`, from `src/utils/searchUtils.ts`). An empty query gives suggestions: up to 5 recently searched coins, 5 trending coins and 5 coins by volume, de-duplicated. A non-empty query gives ranked matches: an exact symbol match, up to 5 prefix matches and up to 10 fuzzy matches from the Fuse index, sorted by match type and then by score.
- **The exchange API layer** (`Api`, from `src/utils/api.ts`):
  - the one-hour validity cache of trading pairs;
  - the catalog built from the exchange info and the 24-hour tickers;
  - the price lookup;
  - bulk validation.
- **Local storage of the catalog and the search history** (`CoinStorage`, from `src/utils/coinStorage.ts`). This includes the history update, which counts uses, stamps the time and keeps the 50 most recent symbols.
- **Local storage of the portfolio** (`PortfolioStorage`, from `src/utils/portfolioStorage.ts`), with the migration from the old single-list format to wallets.
- **The popup watchlist** (`Watchlist`, from `src/main.ts`): add, remove, refresh all prices, the sort by symbol on every render, and load/save.
- **The search box component** (`Autocomplete`, from `src/components/features/CryptoAutocomplete.tsx`): initialisation, typing, focus and selection, including the optional validation of the selected symbol before it is recorded.

Shared modules:

- `Common`: Option, a network `Reply` and a storage `Slot`.
- `JsStrings`: `trim`, `toUpperCase`, `startsWith`, and the symbol order used by `localeCompare`.
- `Seqs`: `slice(0, n)`, `filter`, `map`, and the order and uniqueness facts.
- `StableSort`: `Array.prototype.sort` as a stable sort over a comparator.
- `Types`: the records the core passes around.

Modelling choices:

- **Network replies, parsed storage and the clock are parameters.**
  - A network reply is a `Reply<T>`: `Ok(body)`, `NotOk` (an HTTP error) or `Threw` (a network exception).
  - A stored key is a `Slot<T>`: absent, text that does not parse, or a parsed value.
  - `Date.now()` is passed in as `now`.
  - The Fuse engine is a function from an indexed catalog and a query to hits.
- **Module-level and component state are classes.**
  - `Searcher` holds the search engine.
  - `ValidityCache` holds the two validity sets and the validation time.
  - `LocalStore` holds the storage keys.
  - `Watchlist` holds the popup's list.
  - `CryptoAutocomplete` holds the component.
- **The in-place sort of the caller's catalog array is an `array` sorted in place.** The empty-query search sorts the catalog by volume, so every later search sees the catalog in that order.
- **`Array.prototype.sort` is a stable insertion sort.** `StableSort.SortIsTheStableSort` proves that every arrangement that is ordered and keeps equal elements in their original order is this one, so any stable sort gives the same result.

Behaviour of the code that the contracts make explicit:

- **Suggestion de-duplication goes through a `Map`.** A symbol that appears twice keeps the position of its first appearance but the entry (the label) of its last. For example, a coin that is both recent and popular is listed where the history put it, labelled popular.
- **The popular suggestions are the catalog sorted by descending volume.** Trending is computed before that sort and popular after it.
- **The validity sets are disjoint only while the cache is fresh.** After an hour, a symbol known valid is probed again, and a failing probe adds it to the invalid set as well (`Api.StaleCheckCanOverlap`).
- **`validateSymbols` splits the symbols into valid and invalid by their own checks.** All checks see the cache as it was at the call: each check's cache lookup runs before any request completes.
- **A whitespace-only query is not empty.** It takes the matching path with the normalised query `""`, for which every catalog symbol is a prefix match.
- **The component's copy of the search history is never reloaded after a selection.** Suggestions keep showing the history as it was at initialisation.
- **The fresh catalog is fetched but not written back to storage during initialisation.** Only a read of the cached catalog follows the fetch.

## Model

| member | source | states |
|---|---|---|
| SearchUtils.Searcher.constructor | src/utils/searchUtils.ts:4 | The search engine starts unset. |
| SearchUtils.Searcher.InitializeSearchEngine | src/utils/searchUtils.ts:6-15 | The engine is (re)built over exactly the given catalog. |
| SearchUtils.Searcher.SearchCoins | src/utils/searchUtils.ts:17-154 | An empty query returns the de-duplicated suggestions for the catalog as it was, leaves the caller's array sorted by volume and leaves the engine alone. Any other query leaves the array alone, builds the engine only if there was none, and returns the ranked matches for the trimmed, upper-cased query. |
| SearchUtils.SuggestInPlace | src/utils/searchUtils.ts:25-74 | History, trending and popular items are pushed in turn and de-duplicated; the catalog array ends sorted by volume. |
| SearchUtils.SortByVolume | src/utils/searchUtils.ts:58-59 | The array is sorted in place into the stable descending-volume order of its old contents. |
| SearchUtils.FindBySymbol | src/utils/searchUtils.ts:31 | `find` returns nothing exactly when no coin has the symbol; otherwise it returns the first coin that has it. |
| SearchUtils.ComparatorsArePreorders | src/utils/searchUtils.ts:28 | The three comparators used in the search (biggest move first, highest volume first, the match-type priority then score) are total preorders, so sorting by them is well defined. |
| SearchUtils.HistoryItemsSpec | src/utils/searchUtils.ts:27-40 | Up to 5 history items are returned. They come from the 5 most recent entries, none of which is older than an entry left out. Each item is in the catalog, is scored 0 and is labelled history. Every recent entry that is in the catalog appears. The items come most recent first, in the order of the recent entries they come from. |
| SearchUtils.RecentSpec | src/utils/searchUtils.ts:27-29 | The recent list holds five entries, or every entry when the history is shorter. Ordering the history by descending `lastSearched` keeps every entry exactly once. The first five come most recent first, and no entry after them is more recent than any of them. |
| SearchUtils.TrendingItemsSpec | src/utils/searchUtils.ts:45-53 | Up to 5 trending items are returned. They are catalog coins flagged trending, ordered by absolute 24-hour change, and none moved less than a trending coin left out. When fewer than 5 coins are trending, all of them appear. |
| SearchUtils.TopMoversAhead | src/utils/searchUtils.ts:45-48 | A trending coin that is left out moved no more than any coin that was kept. When fewer than five coins are trending, none is left out. |
| SearchUtils.PopularItemsSpec | src/utils/searchUtils.ts:58-65 | The volume order is a sorted permutation of the catalog. The popular items are its first min(5, n) coins, scored 0 and labelled popular, with none below a coin left out. |
| SearchUtils.MapFrom | src/utils/searchUtils.ts:70-72 | The `Map` built from the results has distinct keys, and a key has an entry exactly when it is listed. |
| SearchUtils.MapFromEntries | src/utils/searchUtils.ts:70-72 | A symbol's entry in the `Map` is its last occurrence in the pushed list. |
| SearchUtils.MapFromOrder | src/utils/searchUtils.ts:70-72 | The `Map` lists its keys in the order of their first occurrence. |
| SearchUtils.DeduplicateFacts | src/utils/searchUtils.ts:70-72 | The de-duplicated list has each symbol once. Every pushed symbol is kept, each one at the place of its first occurrence and with the entry of its last. Nothing new is invented. |
| SearchUtils.SuggestionsSpec | src/utils/searchUtils.ts:25-74 | The suggestions have unique symbols, all scored 0 and labelled history, trending or popular. There are at most 5 of each label, and every pushed symbol survives. |
| SearchUtils.NormalizeSpec | src/utils/searchUtils.ts:82 | The normalised query is empty exactly when the query is all whitespace, and normalising twice changes nothing. |
| SearchUtils.ExactItemsSpec | src/utils/searchUtils.ts:85-95 | There is at most one exact item. It is present exactly when some coin has the normalised query as its symbol, and it is scored 0. |
| SearchUtils.PrefixItemsSpec | src/utils/searchUtils.ts:98-110 | Up to 5 prefix items are returned, in catalog order. Each extends the query without being equal to it and is scored 0.1. They are the first such coins of the catalog: a matching coin with fewer than 5 matching coins before it is kept. When there are fewer than 5, every such coin appears. |
| SearchUtils.HitScore | src/utils/searchUtils.ts:119 | A hit without a score, or with score 0, is scored 0.5; otherwise it keeps its own score. |
| SearchUtils.FuzzyItemsSpec | src/utils/searchUtils.ts:113-130 | At most 10 fuzzy items are returned, taken from the first 10 hits. Exactly the hits whose symbol is not already among the exact and prefix items survive. |
| SearchUtils.CollectedSpec | src/utils/searchUtils.ts:84-130 | Every collected item is justified by its kind: an exact match, a prefix of the right shape, or a fuzzy hit. Fuzzy items add only new symbols. There is at most 1 exact item, 5 prefix items and 10 fuzzy items. An exact match is always collected. |
| SearchUtils.RankedSpec | src/utils/searchUtils.ts:133-153 | The final sort is a permutation, is ordered by type priority and then score, and keeps ties in push order. |
| SearchUtils.MatchResults | src/utils/searchUtils.ts:82-153 | The matching path's result is the ranked list of the collected items. |
| SearchUtils.MatchResultsSpec | src/utils/searchUtils.ts:82-153 | The ranked results keep every collected item and the limits per kind. When a coin matches exactly, its exact item comes first. |
| SearchUtils.RankedExactFirst | src/utils/searchUtils.ts:82-153 | When a catalog coin's symbol equals the normalised query, the first ranked result is that exact match, scored 0. |
| Types.TypeRank | src/utils/searchUtils.ts:135-142 | The priority table gives ranks 0 to 5, and only the exact type has rank 0. |
| Types.TypeRankInjective | src/utils/searchUtils.ts:135-145 | Two match types have the same rank exactly when they are the same type. |
| JsStrings.Trim | src/utils/searchUtils.ts:82 | `trim` returns the slice of the input between its leading and trailing whitespace. It is empty exactly for all-whitespace input. |
| JsStrings.TrimOfTrimmed | src/main.ts:200 | Text with no whitespace at either end trims to itself. |
| JsStrings.ToUpperIdempotent | src/utils/searchUtils.ts:82 | Upper-casing twice is the same as upper-casing once. |
| StableSort.SortIsTheStableSort | src/utils/searchUtils.ts:28 | Any ordered arrangement that keeps equal elements in their original order is the one the model's sort gives. |
| StableSort.TopPrefix | src/utils/searchUtils.ts:28-29 | Each element in the first k places of a sorted list comes before every element after them. |
| Api.CacheAnswer | src/utils/api.ts:40-49 | The cache answers "valid" exactly when it is fresh and knows the symbol as valid. It answers "invalid" exactly when it is fresh and knows the symbol only as invalid. |
| Api.CheckPairSpec | src/utils/api.ts:38-68 | A request is made exactly when the fresh cache knows nothing of the symbol. The verdict is then whether the request succeeded. The symbol is added to the set of its verdict and nothing else changes; without a request the state is unchanged. |
| Api.CheckKeepsDisjointWhileFresh | src/utils/api.ts:38-68 | While the cache is fresh, a check keeps the valid and invalid sets disjoint. |
| Api.StaleCheckCanOverlap | src/utils/api.ts:40-66 | A symbol known valid, checked after an hour with a failing request, ends up in both sets. |
| Api.CheckSettles | src/utils/api.ts:38-68 | Checking the same symbol again while the cache stays fresh gives the same verdict without a request. |
| Api.ValidityCache.constructor | src/utils/api.ts:4-7 | Both sets start empty and the validation time starts at 0. |
| Api.ValidityCache.IsValidTradingPair | src/utils/api.ts:38-68 | The verdict, whether a request was made, and the new cache state are those of the check. |
| Api.ValidityCache.GetCryptoPrice | src/utils/api.ts:14-31 | The price is requested only for a symbol the check finds valid. A failed price request gives null. |
| Api.TickerMap | src/utils/api.ts:93-99 | The ticker map has a key for every ticker symbol and no other. |
| Api.TickerMapLastWins | src/utils/api.ts:94-99 | A symbol's figures are those of its last ticker. |
| Api.BuildTickerMap | src/utils/api.ts:93-99 | The `forEach` loop builds exactly the ticker map. |
| Api.BaseAssetsAreCatalogSymbols | src/utils/api.ts:107-120 | The valid set primed while the catalog is built holds exactly the symbols of the returned catalog, no more and no fewer. |
| Api.CatalogSpec | src/utils/api.ts:107-129 | There is one entry per pair that is trading, quoted in USDT and spot-enabled. The listed pairs keep their exchange order. Each entry has the base asset as its symbol, USDT as its quote and price "0", and is trending exactly when it moved more than 5%. It takes the last ticker's figures for its pair, or zeros when there is none. |
| Api.CatalogValidForAnHour | src/utils/api.ts:102-129 | For an hour after a catalog is built, every catalog symbol is valid without a request. |
| Api.ValidityCache.GetAllCoinPairs | src/utils/api.ts:74-136 | A failed request gives [] and leaves the cache alone. Otherwise both sets are cleared and the clock is reset. A reply without symbols then gives []; a reply with symbols gives the catalog, and its base assets become the valid set. |
| Api.ValidityCache.AddListed | src/utils/api.ts:107-129 | The `.map` over the listed pairs returns their catalog entries and adds each base asset to the valid set. |
| Api.SplitPartition | src/utils/api.ts:143-164 | Every symbol lands in exactly one of the two lists, the one its own check decides. |
| Api.ValidityCache.ValidateSymbols | src/utils/api.ts:143-164 | The two lists are the split of the symbols by their checks against the starting cache. Each set gains exactly the symbols a request decided for it. |
| CoinStorage.LoadCoinList | src/utils/coinStorage.ts:27-46 | A non-empty result is exactly the stored array. A missing key, unparsable text or a non-array value gives []. |
| CoinStorage.LoadSearchHistory | src/utils/coinStorage.ts:63-78 | A non-empty result is exactly the stored object. A missing key or unparsable text gives {}. |
| CoinStorage.LocalStore.constructor | src/utils/coinStorage.ts:3-4 | The store starts with the given contents of the two keys. |
| CoinStorage.LocalStore.SaveCoinList | src/utils/coinStorage.ts:7-24 | A successful write stores the list, so it loads back unchanged. A failed write leaves the key as it was. It never fails. |
| CoinStorage.LocalStore.SaveSearchHistory | src/utils/coinStorage.ts:49-60 | A successful write stores the history, so it loads back unchanged. A failed write leaves the key as it was. |
| CoinStorage.LocalStore.UpdateSearchHistory | src/utils/coinStorage.ts:81-108 | The stored history becomes the updated history of what was loaded. The keys stay distinct. |
| CoinStorage.IndexOf | src/utils/coinStorage.ts:84-85 | The lookup finds the symbol's key if there is one, and reports -1 exactly when there is none. |
| CoinStorage.BumpSpec | src/utils/coinStorage.ts:84-87 | The symbol's count goes up by one (to 1 when new) and its time becomes now. Every other entry is unchanged. A new symbol is added last, and the keys stay distinct. |
| CoinStorage.UpdatedSpec | src/utils/coinStorage.ts:84-104 | The saved history never holds more than 50 entries, all of them from the updated history, with distinct keys. Up to 50 entries are saved as they are. Past 50, exactly 50 are kept, none older than an entry that was dropped. |
| CoinStorage.TrimmedSpec | src/utils/coinStorage.ts:90-94 | Trimming keeps the 50 most recent entries, most recent first. |
| CoinStorage.TrimmedNewest | src/utils/coinStorage.ts:90-94 | No entry dropped by the trim was searched more recently than an entry it kept. |
| CoinStorage.UpdatedKeepsNewest | src/utils/coinStorage.ts:84-101 | The symbol just selected survives the trim whenever the clock has moved on since every stored entry. |
| CoinStorage.Rebuild | src/utils/coinStorage.ts:96-99 | Copying entries with distinct keys into a fresh object lists them in the same order. |
| PortfolioStorage.LoadPortfolio | src/utils/portfolioStorage.ts:24-65 | The old format (an items array and no wallets) becomes one default wallet with those items, stamped with its own truthy time or now. The current format (a wallets array) comes back unchanged. Anything else, including a missing key or a parse error, gives one empty default wallet stamped now. |
| PortfolioStorage.LoadPortfolioShape | src/utils/portfolioStorage.ts:24-65 | A loaded portfolio has a wallet unless a current-format portfolio with none was stored. When it did not come through unchanged, it has exactly the default wallet and a truthy time. |
| PortfolioStorage.SavePortfolio | src/utils/portfolioStorage.ts:5-22 | A successful write stores the portfolio in the current format. A failed one leaves the key as it was. |
| PortfolioStorage.SaveThenLoad | src/utils/portfolioStorage.ts:5-22 | A saved portfolio loads back unchanged, at any clock. |
| PortfolioStorage.LoadIsIdempotent | src/utils/portfolioStorage.ts:32-45 | Saving a loaded portfolio and loading it again goes through the current-format branch and gives the same portfolio. |
| PortfolioStorage.MigrationKeepsItems | src/utils/portfolioStorage.ts:32-37 | Migration puts every stored item, in order, into the single default wallet. |
| Watchlist.BySymbolIsTotalPreorder | src/main.ts:98 | The symbol comparator is a total preorder. |
| Watchlist.SortBySymbolSpec | src/main.ts:98 | The render sort is an ordered permutation that keeps ties in place and keeps symbols unique. It leaves an ordered list unchanged. |
| Watchlist.Shown | src/main.ts:100-101 | A row is drawn for exactly the entries with a non-empty price. |
| Watchlist.AddedSpec | src/main.ts:151-160 | Adding a new symbol adds exactly one entry with no previous price. The list stays ordered and its symbols stay unique. |
| Watchlist.RemovedSpec | src/main.ts:164-168 | Removal drops exactly the symbol's entries and keeps every other entry as often as it was there. Symbols stay unique, and an ordered list keeps the rest in their relative order. |
| Watchlist.RefreshSpec | src/main.ts:122-130 | A refresh keeps the length and the symbol at every position. Where a truthy quote came, the old price moves into the previous price, the quote becomes the price and the entry is stamped with the lookup time. Every other entry is left as it was. Symbols stay unique, and an ordered list is not reordered. |
| Watchlist.AddChanges | src/main.ts:151-160 | A successful add always changes the list. |
| Watchlist.Watchlist.constructor | src/main.ts:15 | The list starts empty. |
| Watchlist.Watchlist.RenderPriceList | src/main.ts:80-119 | The list is sorted in place by symbol, and the rows drawn are the priced entries. |
| Watchlist.Watchlist.SaveCryptoList | src/main.ts:171-173 | The list is written under its key. |
| Watchlist.Watchlist.LoadCryptoList | src/main.ts:176-187 | A stored array replaces the list, sorted and rendered. Unparsable text or a non-array value empties the list. Stored null leaves the drawn rows as they were, because the render throws at the length test. Any other non-array value clears the rows before the sort throws. Nothing stored leaves the list unchanged. |
| Watchlist.Watchlist.AddCrypto | src/main.ts:137-161 | The symbol is upper-cased. A symbol already present gives false with no lookup and no change. A failed or empty quote gives false with no change. Otherwise the entry is added, the list is re-sorted and saved, and the result is true. |
| Watchlist.Watchlist.RemoveCrypto | src/main.ts:164-168 | The list loses the symbol's entries, is re-sorted and is saved. |
| Watchlist.Watchlist.UpdateAllPrices | src/main.ts:122-134 | Every entry is refreshed by its own lookup, in list order; then the list is re-sorted and saved. |
| Watchlist.Watchlist.SubmitInput | src/main.ts:199-220 | The field is trimmed. A blank field does nothing. Otherwise the upper-cased symbol is added exactly when it is not watched yet and its quote is truthy, and the list then is the sorted list with the new entry. The field is cleared exactly when the add succeeded. |
| Autocomplete.CryptoAutocomplete.constructor | src/components/features/CryptoAutocomplete.tsx:26-38 | The component state starts empty, closed and uninitialised. |
| Autocomplete.CryptoAutocomplete.IsSymbolValid | src/components/features/CryptoAutocomplete.tsx:216-219 | A symbol counts as invalid exactly when it was checked and found invalid. |
| Autocomplete.CryptoAutocomplete.Initialize | src/components/features/CryptoAutocomplete.tsx:49-85 | The cached history is loaded. The catalog shown and indexed is the fetched catalog's USDT pairs when the fetch returned any, else the cached catalog. The component ends initialised and not loading. |
| Autocomplete.CryptoAutocomplete.ShowCached | src/components/features/CryptoAutocomplete.tsx:54-62 | The cached catalog and history are shown, and the engine is built over a non-empty cached catalog. |
| Autocomplete.CryptoAutocomplete.UseFetched | src/components/features/CryptoAutocomplete.tsx:65-77 | A non-empty fetched catalog, restricted to USDT pairs with a base asset, replaces the catalog and the index. |
| Autocomplete.FetchedFilterDropsOnlyNamelessAssets | src/components/features/CryptoAutocomplete.tsx:69-71 | The USDT test in the filter never removes a fetched coin; only an empty base asset does. |
| Autocomplete.CryptoAutocomplete.HandleInputChange | src/components/features/CryptoAutocomplete.tsx:112-134 | The value is stored, and the dropdown opens for a non-blank value. The scheduled search replaces any earlier one and captures the value, the initialised flag, the catalog and the history of this moment. |
| Autocomplete.CryptoAutocomplete.DebounceFires | src/components/features/CryptoAutocomplete.tsx:126-133 | The scheduled search runs on the captured state if the component was initialised then, and shows its results. |
| Autocomplete.CryptoAutocomplete.RunSearch | src/components/features/CryptoAutocomplete.tsx:128-131 | Loading is switched off again and `searchCoins` results are shown. An empty query shows the suggestions and leaves the catalog sorted by volume. Any other query leaves the catalog unchanged, builds the engine on first use and shows the ranked matches. |
| Autocomplete.CryptoAutocomplete.HandleInputFocus | src/components/features/CryptoAutocomplete.tsx:164-174 | On a blank field of an initialised component, the suggestions are shown and the catalog ends sorted by volume. The dropdown always opens. |
| Autocomplete.CryptoAutocomplete.ShowSuggestions | src/components/features/CryptoAutocomplete.tsx:167-170 | The suggestions for the current catalog and history are shown, the catalog ends sorted by volume and loading is off again. |
| Autocomplete.CryptoAutocomplete.HandleSelectCoin | src/components/features/CryptoAutocomplete.tsx:137-161 | The field takes the symbol and the dropdown closes. With validation on, the check's verdict is recorded, and an invalid symbol stops there: no history update and no callback. Otherwise the history update completes before the parent is called. The component's own history copy is unchanged. |

## Left out

- The Fuse engine is an oracle. Its options (keys, threshold 0.3, distance 100) and its scoring are not modelled. The engine keeps a reference to the array it was built on; the model keeps a snapshot, so a later in-place sort of that array is not seen by the index.
- `fetch`, the HTTP status and JSON decoding of replies are parameters (`Reply`). Exceptions inside the `try` blocks are the `Threw` case.
- `JSON.parse` and `JSON.stringify` are parameters: storage holds already-parsed values (`Slot`).
  - Objects are taken to list their keys in insertion order. A JavaScript object always lists keys that look like array indices (a symbol such as `1000`) first, in numeric order, including right after `updateSearchHistory` writes one; that is not modelled.
  - A history key holding a value that is not an object (for example `null`, which makes the update throw) is not modelled.
  - A watchlist key holding the JSON string `""` is not modelled.
- `Date.now()` is a parameter. `Autocomplete.CryptoAutocomplete.HandleSelectCoin` uses one clock reading for both the validation and the history update.
- `CoinStorage.UpdatedKeepsNewest` requires a clock that moved since every stored entry. With 51 entries sharing one timestamp, the stable sort can drop the newly added key, which comes last.
- `Api.ValidityCache.ValidateSymbols` lists the symbols in input order. The code pushes them in the order the requests complete, which is concurrency. All checks are taken to see the starting cache.
- Concurrency between handlers is not modelled. This covers an add or a remove during `updateAllPrices`, overlapping initialisation and typing, and a stale response overwriting a newer one.
- Timers: the 300 ms debounce delay and the 15-second refresh interval are not modelled. The debounce is modelled as a scheduled search that `DebounceFires` runs. The click-outside handler and the timer cleanup on unmount are UI glue.
- Floating point:
  - volume, 24-hour change and scores are exact reals;
  - `parseFloat` of ticker fields and NaN are not modelled;
  - `formatPrice`, `getTrend`, `src/utils/formatters.ts` and the portfolio metrics are left out.
- `JsStrings.ToUpper` upper-cases ASCII letters only. `JsStrings.LexLe` is code-unit order; it agrees with `localeCompare` on symbols made of digits and upper-case letters only.
- `Watchlist.Watchlist.LoadCryptoList` treats every stored non-array value other than null as one that makes the render throw. The JSON string `""` and an object whose `length` is 0 pass the length test of the render instead: they draw the empty state and do not throw, so the program keeps that value as its list where the model holds `[]`.
- `Watchlist.Watchlist.SaveCryptoList` always succeeds. A full storage makes `setItem` throw there, and that rejection is not modelled.
- `PortfolioStorage.LoadPortfolio` keeps only `wallets` and `lastUpdated` of a current-format value. Other properties that pass through with it are not represented.
- DOM rendering, `alert`, icons and labels are not modelled. Only the list of symbols drawn by `renderPriceList` is kept.
- Not modelled:
  - `src/sidepanel.js` and `src/popup.js`, which repeat the watchlist logic over `chrome.storage`;
  - `src/utils/storage.ts`;
  - the React pages and forms.
- The read of the cached catalog after a successful fetch (`src/components/features/CryptoAutocomplete.tsx:76`) changes nothing and is not a step of `Initialize`.
