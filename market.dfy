/**
 * The market state the tick handler owns (the `prices`, `marketData`,
 * `priceHistory`, `alerts` and `alertHistory` parts of `state`,
 * app.js:50-73) and the effect of one inbound message on it: routing
 * (app.js:460-477), processTick (app.js:514-564) and, inside it,
 * checkPriceAlert / triggerAlert (app.js:632-674).
 */
module Market {
  import opened Common
  import opened Config
  import opened History
  import opened Ticks
  import opened Alerts

  datatype MarketState = MarketState(
    prices: map<string, PriceData>,
    marketData: map<string, MarketData>,
    priceHistory: map<string, seq<Point>>,
    alerts: map<string, real>,
    alertHistory: seq<AlertRecord>)

  /** The new state and the two notifications a tick can raise. */
  datatype TickOutcome = TickOutcome(after: MarketState, whale: Option<WhaleEvent>, fired: Option<AlertRecord>)

  function Lookup<V>(m: map<string, V>, k: string): Option<V>
  {
    if k in m then Some(m[k]) else None
  }

  /**
   * What the tick handler keeps true: a coin has a price, market data and a
   * history together or not at all, only configured coins appear, stored
   * prices are positive, and every history is bounded and sampled at most
   * once per ChartUpdateInterval. Alerts and their log are unconstrained.
   */
  predicate PricesWellFormed(prices: map<string, PriceData>, marketData: map<string, MarketData>,
                             priceHistory: map<string, seq<Point>>)
  {
    && marketData.Keys == prices.Keys
    && priceHistory.Keys == prices.Keys
    && prices.Keys <= CoinIds()
    && (forall id :: id in prices ==> prices[id].price > 0.0 && prices[id].prev > 0.0)
    && (forall id :: id in priceHistory ==>
          |priceHistory[id]| <= MaxPriceHistory && Spaced(priceHistory[id], ChartUpdateInterval))
  }

  predicate WellFormed(m: MarketState)
  {
    PricesWellFormed(m.prices, m.marketData, m.priceHistory)
  }

  /** The state before any message: nothing priced yet, alerts and their log as loaded. */
  function InitialMarket(alerts: map<string, real>, alertHistory: seq<AlertRecord>): (m: MarketState)
    ensures WellFormed(m)
    ensures m.prices == map[] && m.alerts == alerts && m.alertHistory == alertHistory
  {
    MarketState(map[], map[], map[], alerts, alertHistory)
  }

  /** The price a tick is compared against: the coin's stored price, or its own on a first tick. */
  function TickPrev(m: MarketState, coin: Coin, price: real): real
  {
    PrevPrice(Lookup(m.prices, coin.id), price)
  }

  /** The coin's price history after a tick at `price`. */
  function TickHistory(m: MarketState, coin: Coin, price: real, now: int): seq<Point>
  {
    var history := if coin.id in m.priceHistory then m.priceHistory[coin.id] else [];
    ThrottledPush(history, now, price, ChartUpdateInterval, MaxPriceHistory)
  }

  /** Whether the coin's alert fires on a tick at `price`. */
  function TickFires(m: MarketState, coin: Coin, price: real): bool
  {
    AlertFires(Lookup(m.alerts, coin.id), TickPrev(m, coin, price), price)
  }

  /** The history entry triggerAlert logs for a tick at `price`. */
  function TickRecord(m: MarketState, coin: Coin, price: real, now: int): AlertRecord
  {
    var target := Lookup(m.alerts, coin.id);
    AlertRecord(coin.id, coin.name, coin.symbol, price, if target.Some? then target.value else 0.0, now)
  }

  /** processTick for `coin` at time `now`. */
  function ApplyTick(m: MarketState, coin: Coin, d: TickData, now: int): TickOutcome
  {
    if !Accepts(d) then TickOutcome(m, None, None)
    else
      var price := d.lastPrice.value;
      var prev := TickPrev(m, coin, price);
      var fires := TickFires(m, coin, price);
      var after := MarketState(
        m.prices[coin.id := PriceData(price, OrZero(d.changePercent), prev)],
        m.marketData[coin.id := MarketDataOf(d)],
        m.priceHistory[coin.id := TickHistory(m, coin, price, now)],
        if fires then m.alerts - {coin.id} else m.alerts,
        if fires then LogAlert(m.alertHistory, TickRecord(m, coin, price, now)) else m.alertHistory);
      TickOutcome(after, Whale(coin, prev, price), if fires then Some(TickRecord(m, coin, price, now)) else None)
  }

  /** onmessage after the heartbeat reset: unroutable messages are dropped. */
  function Deliver(m: MarketState, msg: Option<TickData>, now: int): TickOutcome
  {
    match Route(msg)
    case None => TickOutcome(m, None, None)
    case Some(coin) => ApplyTick(m, coin, msg.value, now)
  }

  /** A tick whose price is NaN or not positive changes nothing and raises nothing. */
  lemma RejectedTickChangesNothing(m: MarketState, coin: Coin, d: TickData, now: int)
    requires !Accepts(d)
    ensures ApplyTick(m, coin, d, now) == TickOutcome(m, None, None)
  {
  }

  /** A message without a known stream symbol changes nothing and raises nothing. */
  lemma UnroutedMessageChangesNothing(m: MarketState, msg: Option<TickData>, now: int)
    requires msg.None? || msg.value.symbol.None? ||
             forall c :: c in Coins ==> c.binance != Lower(msg.value.symbol.value)
    ensures Deliver(m, msg, now) == TickOutcome(m, None, None)
  {
  }

  /** Every tick keeps the market state well formed. */
  lemma TickPreservesWellFormed(m: MarketState, coin: Coin, d: TickData, now: int)
    requires WellFormed(m) && coin in Coins
    ensures WellFormed(ApplyTick(m, coin, d, now).after)
  {
    if Accepts(d) {
      var price := d.lastPrice.value;
      var a := ApplyTick(m, coin, d, now).after;
      var h := TickHistory(m, coin, price, now);
      assert a.prices == m.prices[coin.id := PriceData(price, OrZero(d.changePercent), TickPrev(m, coin, price))];
      assert a.priceHistory == m.priceHistory[coin.id := h];
      assert coin.id in CoinIds();
      assert |h| <= MaxPriceHistory && Spaced(h, ChartUpdateInterval);
      forall id | id in a.prices ensures a.prices[id].price > 0.0 && a.prices[id].prev > 0.0 {
        if id != coin.id {
          assert a.prices[id] == m.prices[id];
        }
      }
      forall id | id in a.priceHistory
        ensures |a.priceHistory[id]| <= MaxPriceHistory && Spaced(a.priceHistory[id], ChartUpdateInterval)
      {
        if id != coin.id {
          assert a.priceHistory[id] == m.priceHistory[id];
        }
      }
    }
  }

  lemma DeliverPreservesWellFormed(m: MarketState, msg: Option<TickData>, now: int)
    requires WellFormed(m)
    ensures WellFormed(Deliver(m, msg, now).after)
  {
    if Route(msg).Some? {
      TickPreservesWellFormed(m, Route(msg).value, msg.value, now);
    }
  }

  /**
   * An accepted tick stores its price with the previously accepted price as
   * `prev` (its own price on a first tick), and leaves every other coin alone.
   */
  lemma AcceptedTickUpdatesOnlyItsCoin(m: MarketState, coin: Coin, d: TickData, now: int)
    requires WellFormed(m) && Accepts(d)
    ensures var a := ApplyTick(m, coin, d, now).after;
      && coin.id in a.prices && a.prices[coin.id].price == d.lastPrice.value
      && a.prices[coin.id].prev == (if coin.id in m.prices then m.prices[coin.id].price else d.lastPrice.value)
      && a.prices[coin.id].change == (if d.changePercent.Some? then d.changePercent.value else 0.0)
      && coin.id in a.marketData
      && a.marketData[coin.id] == MarketData(OrZero(d.high), OrZero(d.low), OrZero(d.volume), OrZero(d.quoteVolume))
      && (forall id :: id != coin.id ==>
            Lookup(a.prices, id) == Lookup(m.prices, id)
            && Lookup(a.marketData, id) == Lookup(m.marketData, id)
            && Lookup(a.priceHistory, id) == Lookup(m.priceHistory, id)
            && Lookup(a.alerts, id) == Lookup(m.alerts, id))
  {
  }

  /**
   * The price history of the ticking coin gains a sample exactly when it was
   * empty or its newest sample is more than ChartUpdateInterval old; the new
   * sample then ends it, and a full history loses exactly its oldest sample.
   */
  lemma TickSamplesHistory(m: MarketState, coin: Coin, d: TickData, now: int)
    requires WellFormed(m) && Accepts(d)
    ensures var before := if coin.id in m.priceHistory then m.priceHistory[coin.id] else [];
      var h := ApplyTick(m, coin, d, now).after.priceHistory[coin.id];
      && (h != before <==> Due(before, now, ChartUpdateInterval))
      && (h != before ==> |h| > 0 && h[|h| - 1] == Point(now, d.lastPrice.value))
      && (h != before && |before| == MaxPriceHistory ==> h == before[1..] + [Point(now, d.lastPrice.value)])
      && |h| <= MaxPriceHistory
  {
    var before := if coin.id in m.priceHistory then m.priceHistory[coin.id] else [];
    var h := ThrottledPush(before, now, d.lastPrice.value, ChartUpdateInterval, MaxPriceHistory);
    assert ApplyTick(m, coin, d, now).after.priceHistory[coin.id] == h;
  }

  /** A first tick for a coin never flags a whale move and never fires its alert. */
  lemma FirstTickIsQuiet(m: MarketState, coin: Coin, d: TickData, now: int)
    requires coin.id !in m.prices
    ensures var o := ApplyTick(m, coin, d, now);
      o.whale.None? && o.fired.None? && o.after.alerts == m.alerts && o.after.alertHistory == m.alertHistory
  {
  }

  /**
   * An alert fires exactly when the coin has a non-zero target that the move
   * from the previous price to the new one crosses; firing removes that
   * alert only and logs it newest-first.
   */
  lemma AlertFiresOnCrossing(m: MarketState, coin: Coin, d: TickData, now: int)
    requires WellFormed(m) && Accepts(d)
    ensures var o := ApplyTick(m, coin, d, now);
      var price := d.lastPrice.value;
      var prev := if coin.id in m.prices then m.prices[coin.id].price else price;
      && (o.fired.Some? <==>
            coin.id in m.alerts && m.alerts[coin.id] != 0.0
            && ((prev < m.alerts[coin.id] <= price) || (price <= m.alerts[coin.id] < prev)))
      && (o.fired.Some? ==>
            && o.fired.value.targetPrice == m.alerts[coin.id]
            && o.fired.value.price == price
            && o.after.alerts == m.alerts - {coin.id}
            && o.after.alertHistory == LogAlert(m.alertHistory, o.fired.value))
      && (o.fired.None? ==> o.after.alerts == m.alerts && o.after.alertHistory == m.alertHistory)
  {
    var price := d.lastPrice.value;
    var prev := PrevPrice(Lookup(m.prices, coin.id), price);
    assert prev == if coin.id in m.prices then m.prices[coin.id].price else price;
    assert prev != 0.0;
    var o := ApplyTick(m, coin, d, now);
    assert o.fired.Some? <==> AlertFires(Lookup(m.alerts, coin.id), prev, price);
  }

  /** A triggered alert is one-shot: the coin's next tick cannot fire it again. */
  lemma AlertIsOneShot(m: MarketState, coin: Coin, d1: TickData, now1: int, d2: TickData, now2: int)
    requires ApplyTick(m, coin, d1, now1).fired.Some?
    ensures ApplyTick(ApplyTick(m, coin, d1, now1).after, coin, d2, now2).fired.None?
  {
    var a := ApplyTick(m, coin, d1, now1).after;
    assert coin.id !in a.alerts;
  }

  /** The worked example: prev 100, target 105; a tick at 106 fires, the following tick at 107 does not. */
  lemma AlertExample(coin: Coin, t: int)
    ensures var m := MarketState(map[coin.id := PriceData(100.0, 0.0, 100.0)], map[], map[],
                                 map[coin.id := 105.0], []);
      var d106 := TickData(Some(coin.binance), Some(106.0), None, None, None, None, None);
      var d107 := TickData(Some(coin.binance), Some(107.0), None, None, None, None, None);
      var o1 := ApplyTick(m, coin, d106, t);
      var o2 := ApplyTick(o1.after, coin, d107, t + 1000);
      && o1.fired == Some(AlertRecord(coin.id, coin.name, coin.symbol, 106.0, 105.0, t))
      && o1.after.alertHistory == [o1.fired.value]
      && o2.fired.None?
      && o2.after.prices[coin.id].prev == 106.0
  {
  }
}
