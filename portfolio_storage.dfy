/** The stored portfolio under the key cryptoTracker_portfolio. Portfolios
    saved by older versions hold one flat `items` array; current ones hold a
    `wallets` array. Loading converts the old shape, passes the current one
    through and falls back to one empty wallet for anything else. */
module PortfolioStorage {
  import opened Common

  datatype PortfolioItem = PortfolioItem(symbol: string, amount: real, purchasePrice: real, purchaseDate: int)

  datatype Wallet = Wallet(id: string, name: string, items: seq<PortfolioItem>)

  /** A `lastUpdated` property: missing, or a number of milliseconds. */
  datatype Stamp = Unset | At(ms: int)

  /** A stamp JavaScript treats as true: present and non-zero. */
  predicate Truthy(s: Stamp) {
    s.At? && s.ms != 0
  }

  datatype Portfolio = Portfolio(wallets: seq<Wallet>, lastUpdated: Stamp)

  /** A property of the parsed value as the load tests it: a falsy value
      (missing, null, false, 0, ""), an array, or some other truthy value. */
  datatype Prop<T> = NoValue | Elems(elems: seq<T>) | OtherTruthy

  /** The parsed text: an object with the three properties the load reads,
      or anything else (a primitive or an array, whose `items` and `wallets`
      are undefined). */
  datatype Parsed = NotObject | Object(items: Prop<PortfolioItem>, wallets: Prop<Wallet>, lastUpdated: Stamp)

  const DEFAULT_WALLET_ID: string := "default"
  const DEFAULT_WALLET_NAME: string := "Default Wallet"

  function DefaultWallet(items: seq<PortfolioItem>): (w: Wallet)
    ensures w.id == DEFAULT_WALLET_ID && w.name == DEFAULT_WALLET_NAME && w.items == items
  {
    Wallet(DEFAULT_WALLET_ID, DEFAULT_WALLET_NAME, items)
  }

  /** The old format: an `items` array and a falsy `wallets`. */
  predicate IsLegacy(v: Parsed) {
    v.Object? && v.items.Elems? && v.wallets.NoValue?
  }

  /** The current format: a `wallets` array. */
  predicate IsCurrent(v: Parsed) {
    v.Object? && v.wallets.Elems?
  }

  /** loadPortfolio, with `now` for Date.now(). */
  function LoadPortfolio(slot: Slot<Parsed>, now: int): (p: Portfolio)
    ensures slot.Json? && IsLegacy(slot.value) ==>
      && p.wallets == [DefaultWallet(slot.value.items.elems)]
      && p.lastUpdated == (if Truthy(slot.value.lastUpdated) then slot.value.lastUpdated else At(now))
    ensures slot.Json? && IsCurrent(slot.value) ==>
      p == Portfolio(slot.value.wallets.elems, slot.value.lastUpdated)
    ensures !(slot.Json? && (IsLegacy(slot.value) || IsCurrent(slot.value))) ==>
      p == Portfolio([DefaultWallet([])], At(now))
  {
    if slot.Json? && slot.value.Object? then
      var v := slot.value;
      if v.items.Elems? && v.wallets.NoValue? then
        Portfolio([DefaultWallet(v.items.elems)], if Truthy(v.lastUpdated) then v.lastUpdated else At(now))
      else if v.wallets.Elems? then
        Portfolio(v.wallets.elems, v.lastUpdated)
      else
        Portfolio([DefaultWallet([])], At(now))
    else
      Portfolio([DefaultWallet([])], At(now))
  }

  /** What JSON.parse gives back for the text JSON.stringify wrote: an object
      with a `wallets` array, no `items`, and the stamp (an unset one is
      omitted and reads back as unset). */
  function Encode(p: Portfolio): (v: Parsed)
    ensures IsCurrent(v) && !IsLegacy(v)
  {
    Object(NoValue, Elems(p.wallets), p.lastUpdated)
  }

  /** savePortfolio; `writeOk` is false when setItem throws, which leaves the
      key as it was. It always resolves. */
  function SavePortfolio(slot: Slot<Parsed>, p: Portfolio, writeOk: bool): (slot': Slot<Parsed>)
    ensures writeOk ==> slot' == Json(Encode(p))
    ensures !writeOk ==> slot' == slot
  {
    if writeOk then Json(Encode(p)) else slot
  }

  /** Whatever was stored, the loaded portfolio has at least one wallet
      unless the stored one was a current-format portfolio with none, and
      its stamp is truthy unless it came through unchanged. */
  lemma LoadPortfolioShape(slot: Slot<Parsed>, now: int)
    requires now != 0
    ensures LoadPortfolio(slot, now).wallets == [] ==> slot.Json? && slot.value.Object? && slot.value.wallets == Elems([])
    ensures !(slot.Json? && IsCurrent(slot.value)) ==>
      && Truthy(LoadPortfolio(slot, now).lastUpdated)
      && |LoadPortfolio(slot, now).wallets| == 1
      && LoadPortfolio(slot, now).wallets[0].id == DEFAULT_WALLET_ID
  {
  }

  /** A saved portfolio loads back unchanged, whatever the clock says. */
  lemma SaveThenLoad(slot: Slot<Parsed>, p: Portfolio, now: int)
    ensures LoadPortfolio(SavePortfolio(slot, p, true), now) == p
  {
  }

  /** Migration happens once: saving a loaded portfolio and loading it again
      gives the same portfolio, through the current-format branch. */
  lemma LoadIsIdempotent(slot: Slot<Parsed>, now: int, later: int)
    ensures IsCurrent(SavePortfolio(slot, LoadPortfolio(slot, now), true).value)
    ensures LoadPortfolio(SavePortfolio(slot, LoadPortfolio(slot, now), true), later) == LoadPortfolio(slot, now)
  {
    SaveThenLoad(slot, LoadPortfolio(slot, now), later);
  }

  /** Migration keeps every item: the items of the loaded wallets are the
      stored flat list. */
  lemma MigrationKeepsItems(items: seq<PortfolioItem>, stamp: Stamp, now: int)
    ensures LoadPortfolio(Json(Object(Elems(items), NoValue, stamp)), now).wallets[0].items == items
    ensures |LoadPortfolio(Json(Object(Elems(items), NoValue, stamp)), now).wallets| == 1
  {
  }
}
