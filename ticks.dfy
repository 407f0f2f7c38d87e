/**
 * Normalising one Binance 24h-ticker payload: resolving its stream symbol
 * to an instrument (app.js:468-473), validating the last price, deriving the
 * previous price and the degraded 24h fields (app.js:514-534), and the
 * tick-to-tick "whale" test (app.js:554-560).
 */
module Ticks {
  import opened Common
  import opened Config

  /**
   * The `data` object of a combined-stream message. `symbol` is field `s`;
   * the numeric fields `c`, `P`, `h`, `l`, `v`, `q` are given as the result
   * of `parseFloat`, None standing for NaN.
   */
  datatype TickData = TickData(
    symbol: Option<string>,
    lastPrice: Option<real>,
    changePercent: Option<real>,
    high: Option<real>,
    low: Option<real>,
    volume: Option<real>,
    quoteVolume: Option<real>)

  /** `state.prices[id]`: last accepted price, 24h change and the price before it. */
  datatype PriceData = PriceData(price: real, change: real, prev: real)

  /** `state.marketData[id]`: the 24h high, low and volumes. */
  datatype MarketData = MarketData(high: real, low: real, volume: real, quoteVolume: real)

  /** What `logWhaleMovement` is told: the coin, the price, buy or sell, and the move in percent. */
  datatype WhaleEvent = WhaleEvent(coinId: string, price: real, isBuy: bool, changePercent: real)

  /** `parseFloat(x) || 0`: NaN and 0 both become 0. */
  function OrZero(x: Option<real>): (r: real)
    ensures x.None? ==> r == 0.0
    ensures x.Some? ==> r == x.value
  {
    match x
    case Some(v) => v
    case None => 0.0
  }

  /** `isNaN(price) || price <= 0` rejects the whole tick. */
  predicate Accepts(d: TickData)
  {
    d.lastPrice.Some? && d.lastPrice.value > 0.0
  }

  /** `state.prices[id]?.price || price`: the last accepted price, or the incoming one on a first tick. */
  function PrevPrice(stored: Option<PriceData>, price: real): real
  {
    if stored.Some? && stored.value.price != 0.0 then stored.value.price else price
  }

  /** The four 24h fields, each `parseFloat(x) || 0`. */
  function MarketDataOf(d: TickData): (r: MarketData)
    ensures r.high == OrZero(d.high) && r.low == OrZero(d.low)
    ensures r.volume == OrZero(d.volume) && r.quoteVolume == OrZero(d.quoteVolume)
  {
    MarketData(OrZero(d.high), OrZero(d.low), OrZero(d.volume), OrZero(d.quoteVolume))
  }

  function Abs(x: real): real
  {
    if x < 0.0 then -x else x
  }

  /** `Math.abs((price - prev) / prev) * 100` */
  function MovePercent(prev: real, price: real): real
    requires prev != 0.0
  {
    Abs((price - prev) / prev) * 100.0
  }

  /** Comparing the percentage with a threshold is comparing the absolute move with that share of `prev`. */
  lemma MovePercentAbove(prev: real, price: real, threshold: real)
    requires prev > 0.0
    ensures MovePercent(prev, price) > threshold <==> Abs(price - prev) * 100.0 > threshold * prev
  {
    var q := (price - prev) / prev;
    assert q * prev == price - prev;
    assert Abs(q) * prev == Abs(price - prev);
    var pct := MovePercent(prev, price);
    assert pct * prev == Abs(price - prev) * 100.0;
    if pct > threshold {
      assert pct * prev > threshold * prev;
    } else {
      assert pct * prev <= threshold * prev;
    }
  }

  /**
   * The whale test: a move of more than WhaleThresholdPercent of the
   * previous price, stated without the division.
   */
  function Whale(coin: Coin, prev: real, price: real): (r: Option<WhaleEvent>)
    ensures r.Some? <==> prev > 0.0 && Abs(price - prev) * 100.0 > WhaleThresholdPercent * prev
    ensures r.Some? ==> r.value.coinId == coin.id && r.value.price == price
    ensures r.Some? ==> price != prev && (r.value.isBuy <==> price > prev)
    ensures r.Some? ==> r.value.changePercent == MovePercent(prev, price)
  {
    if prev > 0.0 then
      var pct := MovePercent(prev, price);
      MovePercentAbove(prev, price, WhaleThresholdPercent);
      if pct > WhaleThresholdPercent then Some(WhaleEvent(coin.id, price, price > prev, pct)) else None
    else
      None
  }

  /**
   * The routing of `onmessage`: drop a message without `data.s` (or with an
   * empty one), lower-case the symbol and look it up among the stream keys.
   * None for `msg` stands for a message that is not JSON or has no `data`.
   */
  function Route(msg: Option<TickData>): (r: Option<Coin>)
    ensures r.Some? <==>
      msg.Some? && msg.value.symbol.Some? &&
      exists c :: c in Coins && c.binance == Lower(msg.value.symbol.value)
    ensures r.Some? ==> r.value in Coins && r.value.binance == Lower(msg.value.symbol.value)
  {
    if msg.None? || msg.value.symbol.None? || msg.value.symbol.value == "" then None
    else FindByBinance(Lower(msg.value.symbol.value))
  }

  /** A first tick never looks like a move: its previous price is its own price. */
  lemma FirstTickIsNotWhale(coin: Coin, price: real)
    ensures Whale(coin, PrevPrice(None, price), price).None?
  {
  }

  /** Example: the upper-case symbol that Binance sends resolves to bitcoin. */
  lemma RouteIsCaseInsensitive()
    ensures Route(Some(TickData(Some("BTCUSDT"), None, None, None, None, None, None))) == Some(Coins[0])
  {
    assert Lower("BTCUSDT") == "btcusdt";
    FindByBinanceOfCoin(0);
  }
}
