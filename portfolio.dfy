/**
 * Holdings and the portfolio: the total value summed in renderLoop
 * (app.js:864-907), the sampled portfolio history of updatePortfolioHistory
 * (app.js:964-975), the holding setter updateHolding (app.js:728-738) and
 * the map merge of confirmImport (app.js:1401-1422).
 */
module Portfolio {
  import opened Common
  import opened Config
  import opened History
  import opened Ticks

  /** `state.holdings[id] || 0` */
  function Held(holdings: map<string, real>, id: string): real
  {
    if id in holdings then holdings[id] else 0.0
  }

  /** One coin's contribution to `totalUSD`: nothing while it has no price yet. */
  function CoinValue(c: Coin, prices: map<string, PriceData>, holdings: map<string, real>): real
  {
    if c.id in prices then Held(holdings, c.id) * prices[c.id].price else 0.0
  }

  /** Σ holding × price over the coins `cs`, in their order. */
  function TotalValue(cs: seq<Coin>, prices: map<string, PriceData>, holdings: map<string, real>): real
  {
    if |cs| == 0 then 0.0
    else TotalValue(cs[..|cs| - 1], prices, holdings) + CoinValue(cs[|cs| - 1], prices, holdings)
  }

  lemma ProductNonNegative(x: real, y: real)
    requires x >= 0.0 && y >= 0.0
    ensures x * y >= 0.0
  {
  }

  /** With non-negative holdings and positive prices the portfolio is never worth less than nothing. */
  lemma {:induction false} TotalValueNonNegative(cs: seq<Coin>, prices: map<string, PriceData>, holdings: map<string, real>)
    requires forall id :: id in holdings ==> holdings[id] >= 0.0
    requires forall id :: id in prices ==> prices[id].price > 0.0
    ensures TotalValue(cs, prices, holdings) >= 0.0
  {
    if |cs| > 0 {
      TotalValueNonNegative(cs[..|cs| - 1], prices, holdings);
      var c := cs[|cs| - 1];
      if c.id in prices {
        ProductNonNegative(Held(holdings, c.id), prices[c.id].price);
      }
    }
  }

  /** Only coins that are held and priced count: with no such coin the total is zero. */
  lemma {:induction false} TotalValueOfNothingHeld(cs: seq<Coin>, prices: map<string, PriceData>, holdings: map<string, real>)
    requires forall c :: c in cs ==> c.id !in prices || Held(holdings, c.id) == 0.0
    ensures TotalValue(cs, prices, holdings) == 0.0
  {
    if |cs| > 0 {
      TotalValueOfNothingHeld(cs[..|cs| - 1], prices, holdings);
      assert cs[|cs| - 1] in cs;
    }
  }

  /** Raising one holding (with a positive price) never lowers the total. */
  lemma {:induction false} TotalValueMonotone(cs: seq<Coin>, prices: map<string, PriceData>, holdings: map<string, real>, id: string, q: real)
    requires forall k :: k in prices ==> prices[k].price > 0.0
    requires q >= Held(holdings, id)
    ensures TotalValue(cs, prices, holdings) <= TotalValue(cs, prices, holdings[id := q])
  {
    if |cs| > 0 {
      TotalValueMonotone(cs[..|cs| - 1], prices, holdings, id, q);
      var c := cs[|cs| - 1];
      if c.id in prices && c.id == id {
        assert Held(holdings[id := q], id) == q;
        assert Held(holdings, id) * prices[id].price <= q * prices[id].price;
      }
    }
  }

  /**
   * updatePortfolioHistory: nothing is recorded for a total that is not
   * positive; otherwise a sample is appended at most every
   * PortfolioUpdateInterval milliseconds, the oldest shifted out past
   * MaxPortfolioHistory.
   */
  function RecordPortfolio(history: seq<Point>, now: int, total: real): (r: seq<Point>)
    ensures total <= 0.0 ==> r == history
    ensures r != history <==> total > 0.0 && Due(history, now, PortfolioUpdateInterval)
    ensures r != history ==> r == Newest(history + [Point(now, total)], Common.Max(|history|, MaxPortfolioHistory))
    ensures |r| <= Common.Max(|history|, MaxPortfolioHistory)
    ensures Spaced(history, PortfolioUpdateInterval) ==> Spaced(r, PortfolioUpdateInterval)
  {
    if total <= 0.0 then history
    else ThrottledPush(history, now, total, PortfolioUpdateInterval, MaxPortfolioHistory)
  }

  /**
   * updateHolding: a parsed value that is a non-negative number is stored;
   * otherwise an empty or null input removes the holding, and anything else
   * leaves it alone. No other coin's holding changes.
   */
  function UpdatedHoldings(holdings: map<string, real>, coinId: string, value: Option<string>, parsed: Option<real>): (r: map<string, real>)
    ensures parsed.Some? && parsed.value >= 0.0 ==> coinId in r && r[coinId] == parsed.value
    ensures !(parsed.Some? && parsed.value >= 0.0) && (value.None? || value.value == "") ==> coinId !in r
    ensures !(parsed.Some? && parsed.value >= 0.0) && value.Some? && value.value != "" ==> r == holdings
    ensures forall k :: k != coinId ==> (k in r <==> k in holdings)
    ensures forall k :: k != coinId && k in r ==> r[k] == holdings[k]
  {
    if parsed.Some? && parsed.value >= 0.0 then holdings[coinId := parsed.value]
    else if value.None? || value.value == "" then holdings - {coinId}
    else holdings
  }

  /** `{ ...base, ...incoming }`: every key of either, the incoming value winning. */
  function Merge(base: map<string, real>, incoming: map<string, real>): (r: map<string, real>)
    ensures r.Keys == base.Keys + incoming.Keys
    ensures forall k :: k in incoming ==> r[k] == incoming[k]
    ensures forall k :: k in base && k !in incoming ==> r[k] == base[k]
  {
    base + incoming
  }

  /** The parts of an imported file that confirmImport looks at; None where the key is absent. */
  datatype ImportData = ImportData(
    holdings: Option<map<string, real>>,
    alerts: Option<map<string, real>>,
    portfolioHistory: Option<seq<Point>>)

  /** confirmImport's history rule: a non-empty imported history replaces the current one. */
  function ImportedHistory(current: seq<Point>, data: ImportData): (r: seq<Point>)
    ensures data.portfolioHistory.Some? && |data.portfolioHistory.value| > 0 ==> r == data.portfolioHistory.value
    ensures data.portfolioHistory.None? || |data.portfolioHistory.value| == 0 ==> r == current
  {
    if data.portfolioHistory.Some? && |data.portfolioHistory.value| > 0 then data.portfolioHistory.value
    else current
  }
}
