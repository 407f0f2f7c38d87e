/**
 * Price alerts: the threshold-crossing test of checkPriceAlert
 * (app.js:632-646), the alert-history log of addToAlertHistory
 * (app.js:1222-1237) and the validation of confirmAlert (app.js:180-194).
 */
module Alerts {
  import opened Common
  import opened Config

  /** One entry of `state.alertHistory`. */
  datatype AlertRecord = AlertRecord(
    coinId: string,
    coinName: string,
    coinSymbol: string,
    price: real,
    targetPrice: real,
    timestamp: int)

  function Min(a: real, b: real): real { if a < b then a else b }
  function Max(a: real, b: real): real { if a < b then b else a }

  /**
   * checkPriceAlert: an absent or zero target and a zero previous price are
   * skipped (`!targetPrice`, `!prevPrice`); otherwise the alert fires when the
   * move from `prev` to `price` crosses the target upwards or downwards.
   */
  function AlertFires(target: Option<real>, prev: real, price: real): (r: bool)
    ensures r ==> target.Some? && target.value != 0.0 && prev != 0.0
    ensures r ==> prev != price && prev != target.value
  {
    && target.Some? && target.value != 0.0
    && prev != 0.0
    && ((price >= target.value && prev < target.value) || (price <= target.value && prev > target.value))
  }

  /**
   * The crossing test, stated geometrically: the target lies between the two
   * prices (inclusive) and is not the previous price itself.
   */
  lemma AlertFiresIffBetween(target: real, prev: real, price: real)
    requires target != 0.0 && prev != 0.0
    ensures AlertFires(Some(target), prev, price) <==>
      Min(prev, price) <= target <= Max(prev, price) && target != prev
  {
  }

  /** Example from the alert contract: 100 -> 106 fires a 105 target, 106 -> 107 does not. */
  lemma AlertCrossingExample()
    ensures AlertFires(Some(105.0), 100.0, 106.0)
    ensures !AlertFires(Some(105.0), 106.0, 107.0)
    ensures !AlertFires(Some(105.0), 105.0, 104.0)
  {
  }

  /** addToAlertHistory: newest first, at most MaxAlertHistory entries kept (unless already longer). */
  function LogAlert(history: seq<AlertRecord>, e: AlertRecord): (r: seq<AlertRecord>)
    ensures |r| == if |history| < MaxAlertHistory then |history| + 1 else |history|
    ensures |r| <= Common.Max(|history|, MaxAlertHistory)
    ensures r[0] == e
    ensures r[1..] == history[..|r| - 1]
  {
    PushFrontCapped(history, e, MaxAlertHistory)
  }

  /**
   * confirmAlert: with no current coin (null or '') or a target that is NaN
   * or not positive the alerts are left alone; otherwise only the current
   * coin's target is set.
   */
  function ConfirmedAlerts(alerts: map<string, real>, coinId: Option<string>, target: Option<real>): (r: map<string, real>)
    ensures coinId.None? || coinId.value == "" || target.None? || target.value <= 0.0 ==> r == alerts
    ensures coinId.Some? && coinId.value != "" && target.Some? && target.value > 0.0 ==>
      r.Keys == alerts.Keys + {coinId.value} && r[coinId.value] == target.value
    ensures forall k :: k in alerts && (coinId.None? || k != coinId.value) ==> k in r && r[k] == alerts[k]
    ensures forall k :: k in r ==> k in alerts || (coinId.Some? && k == coinId.value)
  {
    if coinId.None? || coinId.value == "" then alerts
    else if target.None? || target.value <= 0.0 then alerts
    else alerts[coinId.value := target.value]
  }
}
