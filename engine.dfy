/**
 * The dashboard's engine: the fields of `state` (app.js:50-73) that the
 * event handlers update in place, the heartbeat timestamp (app.js:1489),
 * and one method per handler. Clock readings (`Date.now()`) and the results
 * of `parseFloat` are parameters; every method states its new state in terms
 * of the pure step functions whose properties the other modules prove.
 */
module Engine {
  import opened Common
  import opened Config
  import opened History
  import opened Ticks
  import opened Alerts
  import opened Portfolio
  import opened Connection
  import opened Market

  class Engine {
    var prices: map<string, PriceData>
    var marketData: map<string, MarketData>
    var priceHistory: map<string, seq<Point>>
    var alerts: map<string, real>
    var alertHistory: seq<AlertRecord>
    var holdings: map<string, real>
    var portfolioHistory: seq<Point>
    var reconnectAttempts: nat
    var lastHeartbeat: int
    var status: ConnectionStatus

    /** The part of the state a tick can touch. */
    function Market(): MarketState
      reads this
    {
      MarketState(prices, marketData, priceHistory, alerts, alertHistory)
    }

    /** WellFormed(Market()), read from the three fields it constrains. */
    ghost predicate Valid()
      reads this`prices, this`marketData, this`priceHistory
    {
      PricesWellFormed(prices, marketData, priceHistory)
    }

    /**
     * Module start-up: holdings, alerts, portfolio history and alert history
     * come from storage (any values), everything else starts empty, and the
     * heartbeat clock starts at `now`.
     */
    constructor (storedHoldings: map<string, real>, storedAlerts: map<string, real>,
                 storedPortfolioHistory: seq<Point>, storedAlertHistory: seq<AlertRecord>, now: int)
      ensures Valid()
      ensures Market() == InitialMarket(storedAlerts, storedAlertHistory)
      ensures holdings == storedHoldings && portfolioHistory == storedPortfolioHistory
      ensures reconnectAttempts == 0 && lastHeartbeat == now && status == Connecting
    {
      prices, marketData, priceHistory := map[], map[], map[];
      alerts, alertHistory := storedAlerts, storedAlertHistory;
      holdings, portfolioHistory := storedHoldings, storedPortfolioHistory;
      reconnectAttempts, lastHeartbeat, status := 0, now, Connecting;
    }

    /** processTick (app.js:514-564). */
    method ProcessTick(coin: Coin, d: TickData, now: int) returns (whale: Option<WhaleEvent>, fired: Option<AlertRecord>)
      modifies this`prices, this`marketData, this`priceHistory, this`alerts, this`alertHistory
      ensures TickOutcome(Market(), whale, fired) == ApplyTick(old(Market()), coin, d, now)
    {
      ghost var m0 := Market();
      if d.lastPrice.None? || d.lastPrice.value <= 0.0 {
        return None, None;
      }
      var price := d.lastPrice.value;
      var prev := PrevPrice(Lookup(prices, coin.id), price);
      assert prev == TickPrev(m0, coin, price);
      prices := prices[coin.id := PriceData(price, OrZero(d.changePercent), prev)];
      marketData := marketData[coin.id := MarketDataOf(d)];

      UpdatePriceHistory(coin, price, now);
      assert priceHistory == m0.priceHistory[coin.id := TickHistory(m0, coin, price, now)];

      whale := Whale(coin, prev, price);
      fired := CheckPriceAlert(coin, price, now);
      assert fired == ApplyTick(m0, coin, d, now).fired;
      assert Market() == ApplyTick(m0, coin, d, now).after;
    }

    /** The chart-history step of processTick (app.js:536-552): push when due, then shift past MaxPriceHistory. */
    method UpdatePriceHistory(coin: Coin, price: real, now: int)
      modifies this`priceHistory
      ensures var before := if coin.id in old(priceHistory) then old(priceHistory)[coin.id] else [];
        priceHistory == old(priceHistory)[coin.id := ThrottledPush(before, now, price, ChartUpdateInterval, MaxPriceHistory)]
    {
      var history := if coin.id in priceHistory then priceHistory[coin.id] else [];
      if Due(history, now, ChartUpdateInterval) {
        history := history + [Point(now, price)];
        if |history| > MaxPriceHistory {
          history := history[1..];
        }
      }
      priceHistory := priceHistory[coin.id := history];
    }

    /**
     * checkPriceAlert (app.js:632-646), run after the coin's new price is
     * stored: the alert fires when the move from the stored `prev` to
     * `price` crosses the coin's non-zero target.
     */
    method CheckPriceAlert(coin: Coin, price: real, now: int) returns (fired: Option<AlertRecord>)
      modifies this`alerts, this`alertHistory
      ensures var prev := if coin.id in prices then prices[coin.id].prev else 0.0;
        fired.Some? == AlertFires(Lookup(old(alerts), coin.id), prev, price)
      ensures fired.Some? ==>
        && coin.id in old(alerts)
        && fired.value == AlertRecord(coin.id, coin.name, coin.symbol, price, old(alerts)[coin.id], now)
        && alerts == old(alerts) - {coin.id}
        && alertHistory == LogAlert(old(alertHistory), fired.value)
      ensures fired.None? ==> alerts == old(alerts) && alertHistory == old(alertHistory)
    {
      if coin.id !in alerts || alerts[coin.id] == 0.0 {
        return None;
      }
      var target := alerts[coin.id];
      if coin.id !in prices || prices[coin.id].prev == 0.0 {
        return None;
      }
      var prev := prices[coin.id].prev;
      var crossedUp := price >= target && prev < target;
      var crossedDown := price <= target && prev > target;
      if crossedUp || crossedDown {
        var record := TriggerAlert(coin, price, target, now);
        return Some(record);
      }
      return None;
    }

    /** triggerAlert (app.js:648-674) without the notification, sound and toast: log the alert, then delete it. */
    method TriggerAlert(coin: Coin, price: real, target: real, now: int) returns (record: AlertRecord)
      modifies this`alerts, this`alertHistory
      ensures record == AlertRecord(coin.id, coin.name, coin.symbol, price, target, now)
      ensures alertHistory == LogAlert(old(alertHistory), record)
      ensures alerts == old(alerts) - {coin.id}
    {
      record := AddToAlertHistory(coin, price, target, now);
      alerts := alerts - {coin.id};
    }

    /** addToAlertHistory (app.js:1222-1240) without the storage and rendering: unshift, then pop past 20. */
    method AddToAlertHistory(coin: Coin, price: real, target: real, now: int) returns (entry: AlertRecord)
      modifies this`alertHistory
      ensures entry == AlertRecord(coin.id, coin.name, coin.symbol, price, target, now)
      ensures alertHistory == LogAlert(old(alertHistory), entry)
    {
      entry := AlertRecord(coin.id, coin.name, coin.symbol, price, target, now);
      alertHistory := [entry] + alertHistory;
      if |alertHistory| > MaxAlertHistory {
        alertHistory := alertHistory[..|alertHistory| - 1];
      }
    }

    /**
     * onmessage (app.js:460-477): every message first resets the heartbeat;
     * `msg` is None when the payload is not JSON or has no `data`.
     */
    method OnMessage(msg: Option<TickData>, now: int) returns (whale: Option<WhaleEvent>, fired: Option<AlertRecord>)
      requires Valid()
      modifies this`lastHeartbeat, this`prices, this`marketData, this`priceHistory, this`alerts, this`alertHistory
      ensures Valid()
      ensures lastHeartbeat == now
      ensures TickOutcome(Market(), whale, fired) == Deliver(old(Market()), msg, now)
    {
      DeliverPreservesWellFormed(Market(), msg, now);
      lastHeartbeat := now;
      var coin := Route(msg);
      if coin.Some? {
        whale, fired := ProcessTick(coin.value, msg.value, now);
      } else {
        whale, fired := None, None;
      }
    }

    /** onopen (app.js:454-458): the attempt counter starts again from zero. */
    method OnOpen()
      modifies this`reconnectAttempts, this`status
      ensures reconnectAttempts == 0 && status == Connected
    {
      status := Connected;
      reconnectAttempts := 0;
    }

    /** onerror (app.js:479-482): reported only; the close handler does the reconnecting. */
    method OnError()
      modifies this`status
      ensures status == Errored
    {
      status := Errored;
    }

    /** onclose (app.js:484-494): one more attempt, and the delay before connectWebSocket runs again. */
    method OnClose() returns (delay: nat)
      modifies this`reconnectAttempts, this`status
      ensures reconnectAttempts == old(reconnectAttempts) + 1 && status == Connecting
      ensures delay == ReconnectDelay(reconnectAttempts)
    {
      status := Connecting;
      reconnectAttempts := reconnectAttempts + 1;
      delay := ReconnectDelay(reconnectAttempts);
    }

    /** The heartbeat timer's body (app.js:1494-1504): whether to force a reconnect now. */
    method CheckHeartbeat(now: int) returns (reconnect: bool)
      ensures reconnect == Stale(lastHeartbeat, now)
      ensures reconnect <==> now - lastHeartbeat > HeartbeatTimeout
    {
      reconnect := Stale(lastHeartbeat, now);
    }

    /** confirmAlert (app.js:180-200): `ok` is false where the source shows an error or returns early. */
    method ConfirmAlert(coinId: Option<string>, target: Option<real>) returns (ok: bool)
      requires Valid()
      modifies this`alerts
      ensures Valid()
      ensures ok <==> coinId.Some? && coinId.value != "" && target.Some? && target.value > 0.0
      ensures alerts == ConfirmedAlerts(old(alerts), coinId, target)
    {
      if coinId.None? || coinId.value == "" {
        return false;
      }
      if target.None? || target.value <= 0.0 {
        return false;
      }
      alerts := alerts[coinId.value := target.value];
      ok := true;
    }

    /** updateHolding (app.js:728-738); `value` is the raw input (None for null), `parsed` its parseFloat. */
    method UpdateHolding(coinId: string, value: Option<string>, parsed: Option<real>)
      modifies this`holdings
      ensures holdings == UpdatedHoldings(old(holdings), coinId, value, parsed)
    {
      if parsed.Some? && parsed.value >= 0.0 {
        holdings := holdings[coinId := parsed.value];
      } else if value.None? || value.value == "" {
        holdings := holdings - {coinId};
      }
    }

    /** confirmImport (app.js:1401-1422): merge holdings and alerts, replace a non-empty history. */
    method ConfirmImport(pending: Option<ImportData>)
      requires Valid()
      modifies this`holdings, this`alerts, this`portfolioHistory
      ensures Valid()
      ensures pending.None? ==> holdings == old(holdings) && alerts == old(alerts) && portfolioHistory == old(portfolioHistory)
      ensures pending.Some? ==>
        var data := pending.value;
        && holdings == (if data.holdings.Some? then Merge(old(holdings), data.holdings.value) else old(holdings))
        && alerts == (if data.alerts.Some? then Merge(old(alerts), data.alerts.value) else old(alerts))
        && portfolioHistory == ImportedHistory(old(portfolioHistory), data)
    {
      if pending.None? {
        return;
      }
      var data := pending.value;
      if data.holdings.Some? {
        holdings := Merge(holdings, data.holdings.value);
      }
      if data.alerts.Some? {
        alerts := Merge(alerts, data.alerts.value);
      }
      if data.portfolioHistory.Some? && |data.portfolioHistory.value| > 0 {
        portfolioHistory := data.portfolioHistory.value;
      }
    }

    /** The `totalUSD` accumulation of renderLoop (app.js:865-907). */
    method PortfolioTotal() returns (total: real)
      ensures total == TotalValue(Coins, prices, holdings)
    {
      total := 0.0;
      var i := 0;
      while i < |Coins|
        invariant 0 <= i <= |Coins|
        invariant total == TotalValue(Coins[..i], prices, holdings)
      {
        var coin := Coins[i];
        if coin.id in prices {
          var held := if coin.id in holdings then holdings[coin.id] else 0.0;
          total := total + held * prices[coin.id].price;
        }
        assert Coins[..i + 1][..i] == Coins[..i];
        i := i + 1;
      }
      assert Coins[..i] == Coins;
    }

    /** updatePortfolioHistory (app.js:964-975), without the chart and storage side effects. */
    method UpdatePortfolioHistory(now: int, totalDisplay: real)
      modifies this`portfolioHistory
      ensures portfolioHistory == RecordPortfolio(old(portfolioHistory), now, totalDisplay)
    {
      if totalDisplay <= 0.0 {
        return;
      }
      if |portfolioHistory| == 0 || now - portfolioHistory[|portfolioHistory| - 1].t > PortfolioUpdateInterval {
        portfolioHistory := portfolioHistory + [Point(now, totalDisplay)];
        if |portfolioHistory| > MaxPortfolioHistory {
          portfolioHistory := portfolioHistory[1..];
        }
      }
    }

    /**
     * The state part of renderLoop (app.js:864-934): sum the portfolio in US
     * dollars and record it converted at `rate` (1 for USD, the exchange rate
     * for AUD).
     */
    method RenderLoop(now: int, rate: real) returns (totalUSD: real)
      modifies this`portfolioHistory
      ensures totalUSD == TotalValue(Coins, prices, holdings)
      ensures portfolioHistory == RecordPortfolio(old(portfolioHistory), now, totalUSD * rate)
    {
      totalUSD := PortfolioTotal();
      UpdatePortfolioHistory(now, totalUSD * rate);
    }
  }
}
