# EtherDash tick engine

A Dafny model of the bookkeeping core of the EtherDash crypto dashboard
(`app.js`). The dashboard subscribes to Binance 24h-ticker streams for seven
coins. Each inbound message is routed to a coin and processed as a *tick*:

- the last price is validated and stored with the price before it;
- the 24h market fields are stored;
- a throttled, capped price history is sampled;
- tick-to-tick moves above 1% are flagged as "whale" moves;
- one-shot price alerts fire when a move crosses their target and are logged
  newest-first in a capped alert history.

Around the tick handler sit:

- the configuration setters: alert confirmation, holding updates and the
  import merge;
- the portfolio total and its throttled, capped history;
- the reconnect back-off and the heartbeat staleness test of the WebSocket
  connection;
- two pure display helpers: the 24h range-bar position and the card ordering.

The model has two layers.

- Pure functions and lemmas, one module per concern:
  - `Common`: bounded push / unshift.
  - `Config`: coins, constants and stream-key lookup.
  - `History`: throttled capped histories.
  - `Ticks`: payload normalisation, routing and the whale test.
  - `Alerts`: the crossing test, the alert log and alert confirmation.
  - `Portfolio`: the total, portfolio history, holdings and the merge.
  - `Connection`: back-off and staleness.
  - `Display`: range position and ordering.
  - `Market`: the effect of one message on the market state, with its
    invariant.
- The class `Engine.Engine`. Its fields mirror the dashboard's `state` object
  (app.js:50-73) plus the heartbeat timestamp (app.js:1489). Its methods are
  the event handlers, which update those fields in place. Each method's
  postcondition ties the new fields to the pure step function whose
  properties the lemmas prove. The class invariant `Valid()` is the market
  invariant `Market.WellFormed`, read from the three fields it constrains
  (prices, market data and price histories).

Clock readings (`Date.now()`) are `now: int` parameters. Results of
`parseFloat` are `Option<real>` inputs, with `None` standing for NaN.
Prices and totals are `real`.

## Model

| member | source | states |
|---|---|---|
| Common.PushCapped | app.js:544-548 | `push` then one `shift` past the cap: the result is the newest `max(len, cap)` elements of `h + [x]`; it ends in `x`, and its other elements are the old ones with only the oldest possibly dropped |
| Common.PushFrontCapped | app.js:1232-1237 | `unshift` then one `pop` past the cap: the result is the oldest `max(len, cap)` elements of `[x] + h`; it starts with `x`, and the old order follows with only the last element possibly dropped |
| Config.FindIn | app.js:470 | `find` by stream key: a found coin is in the list and carries the key; None exactly when no coin carries it; the coin found is the first in list order that carries the key |
| Config.CoinsAreDistinct | app.js:13-21 | the configured stream keys, ids and names are pairwise distinct, and every stream key is already lower case |
| Config.FindByBinanceOfCoin | app.js:470 | every configured stream key resolves to exactly its own coin |
| History.ThrottledPush | app.js:541-549 | the history changes exactly when it is empty or its newest sample is more than the gap old; it then gains the sample at the end and loses only its oldest element when full; its length stays within `max(len, cap)`; spacing of more than the gap between consecutive samples is preserved |
| Ticks.MovePercentAbove | app.js:556-557 | `abs((price - prev) / prev) * 100 > threshold` is equivalent to the division-free `abs(price - prev) * 100 > threshold * prev` for a positive `prev` |
| Ticks.Whale | app.js:554-560 | a whale move is flagged exactly when `prev > 0` and the move exceeds 1% of `prev`; the event names the coin and the new price, reports the percentage move from `prev`, and it is a buy exactly when the price rose |
| Ticks.OrZero | app.js:524 | `parseFloat` with the `or 0` default: an unparseable field (NaN) reads as 0, a parsed one as itself |
| Ticks.MarketDataOf | app.js:529-534 | each of the four 24h fields is its parsed value, or 0 when it does not parse |
| Ticks.Route | app.js:467-473 | a message is routed exactly when it has data with a symbol whose lower-cased form is some coin's stream key, and it is routed to such a coin |
| Ticks.FirstTickIsNotWhale | app.js:520-560 | on a first tick (no stored price) `prev` is the price itself, so no whale move is flagged |
| Ticks.RouteIsCaseInsensitive | app.js:470 | the upper-case symbol `BTCUSDT` that Binance sends routes to bitcoin |
| Alerts.AlertFires | app.js:632-646 | a fired alert has a present, non-zero target and a non-zero previous price, and the price moved off `prev`, which differs from the target |
| Alerts.AlertFiresIffBetween | app.js:641-643 | for a non-zero target and prev, the alert fires if and only if the target lies between prev and price (inclusive) and differs from prev |
| Alerts.AlertCrossingExample | app.js:641-645 | 100 to 106 fires a 105 target; 106 to 107 does not; 105 to 104 does not (prev equals the target) |
| Alerts.LogAlert | app.js:1232-1237 | the new entry is at index 0; the old log follows in order, with only its last entry dropped past 20; the length grows by one below 20 and is otherwise unchanged |
| Alerts.ConfirmedAlerts | app.js:186-194 | with no current coin, or a NaN or non-positive target, the alerts are unchanged; otherwise only the coin's key is set to the target, and every other key keeps its value and no other key appears |
| Portfolio.TotalValueNonNegative | app.js:906-907 | with non-negative holdings and positive prices, Σ holding × price is non-negative |
| Portfolio.TotalValueOfNothingHeld | app.js:870-907 | coins without a price or without a holding contribute nothing, so with no such coin held the total is 0 |
| Portfolio.TotalValueMonotone | app.js:906-907 | raising one holding never lowers the total when prices are positive |
| Portfolio.RecordPortfolio | app.js:964-975 | nothing is recorded for a total ≤ 0; the history changes exactly when the total is positive and it is empty or its newest sample is more than 10 s old; it then gains the sample, its length stays within `max(len, 100)` by shifting the oldest, and the 10 s spacing is preserved |
| Portfolio.UpdatedHoldings | app.js:728-735 | a parsed value ≥ 0 is stored; otherwise `''` or null deletes the holding and any other input leaves the holdings unchanged; no other key changes |
| Portfolio.Merge | app.js:1406-1416 | `{...base, ...incoming}`: the keys of both, the incoming value winning on shared keys |
| Portfolio.ImportedHistory | app.js:1418-1421 | a non-empty imported history replaces the current one; a missing or empty one leaves it |
| Connection.ReconnectDelay | app.js:487-491 | `min(5000·attempts, 30000)`: at most 30000, at most 5000·attempts, and equal to one of them |
| Connection.ReconnectDelayMonotone | app.js:487-491 | more attempts never shorten the delay |
| Connection.ReconnectDelayCapped | app.js:487-491 | from the sixth attempt on, the delay is 30000 |
| Connection.ReconnectDelayExamples | app.js:487-491 | attempts 1, 2, 3 and 7 give 5000, 10000, 15000 and 30000 |
| Connection.StaleExamples | app.js:1496 | a heartbeat 31 s old is stale; one exactly 30 s old is not |
| Display.RangePosition | app.js:586-590 | defined exactly when high > low; the position lies in [0, 100]; it is 0 at or below the low and 100 at or above the high; inside the range it is `(price - low) / (high - low) * 100` |
| Display.RangePositionMonotone | app.js:586-590 | a higher price never moves the indicator left |
| Display.IndexOf | app.js:1125-1126 | `indexOf`: -1 exactly when absent, otherwise the index of the first occurrence |
| Display.IndexOfDistinct | app.js:1125-1126 | in an order without repeats, the index of the i-th id is i |
| Display.InsertByKey | app.js:1124-1147 | one stable insertion step: the result stays sorted by key and is the old list plus the element, as a multiset |
| Display.SortByKey | app.js:1124-1147 | `sort` by comparator `key(a) - key(b)`: the result is sorted by key and is a permutation of the input |
| Display.InsertByKeyStable | app.js:1124-1147 | stable insertion: two elements of the result with equal keys come from positions `a < b` of the old list followed by the inserted element |
| Display.SortByKeyStable | app.js:1124-1147 | stability of `sort`: two elements of the result with equal keys come from positions `a < b` of the input, so equal keys keep their input order |
| Display.SortByKeyOfSorted | app.js:1124-1147 | stability: a list already in key order is returned unchanged |
| Display.SortedCoins | app.js:1119-1151 | getSortedCoins returns a permutation of the configured coins in ascending comparator key |
| Display.SortedCoinsOrder | app.js:1119-1151 | per `sortBy`: coin-order index ascending; price descending or ascending; 24h change descending or ascending; holding value descending |
| Display.SortedCoinsUnrecognised | app.js:1145 | a `sortBy` the comparator does not recognise (comparator 0) keeps the configured order |
| Display.SortedCoinsDefaultOrder | app.js:1122-1128 | the initial coin order (app.js:68, the ids in configuration order) keeps the configured order |
| Market.InitialMarket | app.js:50-73 | the state before any message is well formed: nothing is priced yet, and alerts and their log are as loaded |
| Market.RejectedTickChangesNothing | app.js:515-518 | a tick whose price is NaN or ≤ 0 leaves every map and the alert log unchanged and raises nothing |
| Market.UnroutedMessageChangesNothing | app.js:467-473 | a message without data, without a symbol or with an unknown symbol changes nothing and raises nothing |
| Market.TickPreservesWellFormed | app.js:514-564 | every tick keeps the market invariant: prices, market data and histories share keys that are configured coin ids; stored prices and `prev` are positive; histories hold at most 50 samples more than 1 s apart |
| Market.DeliverPreservesWellFormed | app.js:460-477 | every message keeps the market invariant |
| Market.AcceptedTickUpdatesOnlyItsCoin | app.js:520-534 | an accepted tick stores its price with `prev` equal to the previously stored price (its own price on a first tick), the 24h change and the four market-data fields as parsed with 0 for an unparseable one; every other coin's price, market data, history and alert is unchanged |
| Market.TickSamplesHistory | app.js:536-549 | the coin's history gains a sample exactly when it is due; the new sample ends it; a full history loses exactly its oldest sample; the length stays ≤ 50 |
| Market.FirstTickIsQuiet | app.js:520-564 | a coin's first tick flags no whale move, fires no alert and leaves the alerts and their log unchanged |
| Market.AlertFiresOnCrossing | app.js:632-674 | the coin's alert fires if and only if its non-zero target is crossed upward (`prev < target <= price`) or downward (`price <= target < prev`); firing logs the alert newest-first and deletes only that coin's alert; otherwise the alerts and the log are unchanged |
| Market.AlertIsOneShot | app.js:671 | after an alert fires, the coin's next tick cannot fire it again |
| Market.AlertExample | app.js:632-674 | prev 100, target 105: a tick at 106 fires and logs one entry; the next tick at 107 does not fire, and its `prev` is 106 |
| Engine.Engine.constructor | app.js:50-73 | the stored holdings, alerts and both histories are loaded; the rest starts empty; attempts start at 0; the heartbeat (app.js:1489) starts at `now`; the invariant holds |
| Engine.Engine.ProcessTick | app.js:514-564 | the new market fields and both notifications are those of `Market.ApplyTick` on the old market state |
| Engine.Engine.UpdatePriceHistory | app.js:536-552 | the coin's history becomes `ThrottledPush` of its old history, and the other coins' histories are kept |
| Engine.Engine.CheckPriceAlert | app.js:632-646 | fires exactly when `AlertFires` holds for the coin's target and stored `prev`; on firing the record carries that target, the alert is deleted and the log is `LogAlert` of the old log; otherwise nothing changes |
| Engine.Engine.TriggerAlert | app.js:648-674 | the record is logged with `LogAlert` and the coin's alert is deleted |
| Engine.Engine.AddToAlertHistory | app.js:1222-1237 | the entry is built from the coin, price, target and time, and the log becomes `LogAlert` of the old log |
| Engine.Engine.OnMessage | app.js:460-477 | the heartbeat is reset to `now` for every message; the market fields and notifications are those of `Market.Deliver`; the invariant is kept |
| Engine.Engine.OnOpen | app.js:454-458 | the attempt counter is 0 and the status is connected |
| Engine.Engine.OnError | app.js:479-482 | the status is error; the counter is unchanged |
| Engine.Engine.OnClose | app.js:484-494 | the counter grows by one, and the delay is `ReconnectDelay` of the new count |
| Engine.Engine.CheckHeartbeat | app.js:1494-1504 | a reconnect is forced exactly when the heartbeat is `Stale`, that is when more than 30 s have passed since the last message |
| Engine.Engine.ConfirmAlert | app.js:184-194 | succeeds exactly for a current coin and a positive target; the alerts become `ConfirmedAlerts`; the invariant is kept |
| Engine.Engine.UpdateHolding | app.js:728-735 | the holdings become `UpdatedHoldings` of the old holdings |
| Engine.Engine.ConfirmImport | app.js:1401-1421 | no pending import changes nothing; otherwise present holdings and alerts are merged in with `Merge`, and the history becomes `ImportedHistory` |
| Engine.Engine.PortfolioTotal | app.js:864-907 | the `forEach` accumulation equals `TotalValue` over the configured coins |
| Engine.Engine.UpdatePortfolioHistory | app.js:964-975 | the portfolio history becomes `RecordPortfolio` of the old history |
| Engine.Engine.RenderLoop | app.js:864-934 | the US-dollar total is `TotalValue`, and the history records it converted at the given rate |

## Left out

- DOM rendering, charts, toasts, modals, the whale list, sparklines, themes
  and drag-and-drop are presentation over browser APIs. The model keeps only
  the values they display.
- REST polling (exchange rate, fear and greed, gas, news, dominance) is
  one-shot network I/O.
- `localStorage` is not modelled. Saves are no-ops. Loaded values are
  constructor arguments.
- `FileReader` parsing of an import is not modelled. Only the merge in
  `confirmImport` is.
- Browser notifications and alert sounds are foreign calls.
- Engine.Engine.TriggerAlert: assumes the browser provides the `Notification`
  API. app.js:650 reads `Notification.permission` without the
  `'Notification' in window` guard that app.js:702 uses. Without the API the
  ReferenceError leaves `triggerAlert` before `addToAlertHistory` (app.js:668)
  and before the alert is deleted (app.js:671). The `onmessage` catch
  (app.js:474-476) swallows it, so the alert stays armed and is never logged,
  and it is raised again on every later crossing. The model does not have
  this path.
- Market.AlertFiresOnCrossing, Market.AlertIsOneShot and Market.AlertExample:
  the logging and one-shot deletion they state hold under the same
  assumption that the `Notification` API exists.
- The WebSocket object and the timers are not modelled:
  - Opening, closing and reconnecting are method calls, and `OnClose` returns
    the delay it would wait.
  - Interleaving of an old socket's handlers with a new one's is concurrency.
  - The code has no guard against a stale handler, and none is modelled.
- `JSON.parse` failures and messages without `data` are the `None` message.
  A non-string `data.s`, which makes `toLowerCase` throw inside the handler's
  `try`, is not modelled.
- `Ticks.Route`: `toLowerCase` is modelled on ASCII letters only. Every
  stream key is plain lower-case ASCII without `i` or `k`, so the Unicode
  special cases cannot make a symbol match.
- `parseFloat` is an input `Option<real>`. Infinity and the rest of IEEE-754
  behaviour (rounding, overflow) are not modelled. Values inside imported or
  stored maps are taken to be numbers, not NaN.
- `Date.now()` is read once per event. In the code, `processTick` and
  `addToAlertHistory` each read the clock; the model gives both the same
  `now`.
- The `name-asc` sort with `localeCompare` depends on locale collation. It
  is treated as unrecognised (comparator 0).
- `updatePortfolioChange` and `initialPortfolioValue` feed only the display
  of the percentage change.
- The code has no moving-average, RSI or cooldown-debounced volatility
  logic. The only volatility check is the per-tick whale test, which has no
  cooldown. The model follows the code.
- `sw.js` (the service worker) is a wrapper over the Cache Storage and fetch
  APIs.
