/**
 * The fixed instrument list and the tuning constants of the dashboard
 * (app.js:13-45), plus resolution of a feed-stream key to an instrument.
 */
module Config {
  import opened Common

  /** An instrument: CoinGecko-style id, ticker symbol, display name and Binance stream key. */
  datatype Coin = Coin(id: string, symbol: string, name: string, binance: string)

  const Coins: seq<Coin> := [
    Coin("bitcoin", "BTC", "Bitcoin", "btcusdt"),
    Coin("ethereum", "ETH", "Ethereum", "ethusdt"),
    Coin("solana", "SOL", "Solana", "solusdt"),
    Coin("ripple", "XRP", "XRP", "xrpusdt"),
    Coin("cardano", "ADA", "Cardano", "adausdt"),
    Coin("dogecoin", "DOGE", "Dogecoin", "dogeusdt"),
    Coin("pepe", "PEPE", "Pepe", "pepeusdt")
  ]

  const MaxReconnectDelay: nat := 30000
  const ReconnectBaseDelay: nat := 5000
  const ChartUpdateInterval: nat := 1000
  const PortfolioUpdateInterval: nat := 10000
  const WhaleThresholdPercent: real := 1.0
  const MaxPriceHistory: nat := 50
  const MaxPortfolioHistory: nat := 100
  const MaxAlertHistory: nat := 20
  const HeartbeatTimeout: nat := 30000
  const HeartbeatCheckInterval: nat := 10000

  /** The ids of all configured instruments. */
  function CoinIds(): set<string>
  {
    set c | c in Coins :: c.id
  }

  /** `String.prototype.toLowerCase` on one character, restricted to ASCII letters. */
  function LowerChar(c: char): char
  {
    if 'A' <= c <= 'Z' then (c as int + 32) as char else c
  }

  function Lower(s: string): string
  {
    seq(|s|, i requires 0 <= i < |s| => LowerChar(s[i]))
  }

  /** `cs.find(c => c.binance === key)`: the first instrument with that stream key. */
  function FindIn(cs: seq<Coin>, key: string): (r: Option<Coin>)
    ensures r.Some? ==> r.value in cs && r.value.binance == key
    ensures r.None? <==> forall c :: c in cs ==> c.binance != key
    ensures r.Some? ==> exists i :: 0 <= i < |cs| && cs[i] == r.value && forall j :: 0 <= j < i ==> cs[j].binance != key
  {
    if |cs| == 0 then None
    else if cs[0].binance == key then Some(cs[0])
    else
      var r := FindIn(cs[1..], key);
      assert r.Some? ==> exists i :: 0 <= i < |cs| && cs[i] == r.value && forall j :: 0 <= j < i ==> cs[j].binance != key by {
        if r.Some? {
          var i :| 0 <= i < |cs[1..]| && cs[1..][i] == r.value && forall j :: 0 <= j < i ==> cs[1..][j].binance != key;
          assert cs[i + 1] == r.value;
          forall j | 0 < j < i + 1 ensures cs[j].binance != key {
            assert cs[j] == cs[1..][j - 1];
          }
        }
      }
      r
  }

  function FindByBinance(key: string): Option<Coin>
  {
    FindIn(Coins, key)
  }

  /** Stream keys, ids and names each identify one instrument, and every stream key is already lower case. */
  lemma CoinsAreDistinct()
    ensures forall i, j :: 0 <= i < j < |Coins| ==>
      Coins[i].binance != Coins[j].binance && Coins[i].id != Coins[j].id && Coins[i].name != Coins[j].name
    ensures forall i :: 0 <= i < |Coins| ==> Lower(Coins[i].binance) == Coins[i].binance
  {
    forall i | 0 <= i < |Coins| ensures Lower(Coins[i].binance) == Coins[i].binance {
      var b := Coins[i].binance;
      assert forall k :: 0 <= k < |b| ==> !('A' <= b[k] <= 'Z');
    }
  }

  /** A stream key resolves to exactly the instrument that carries it. */
  lemma {:induction false} FindByBinanceOfCoin(i: nat)
    requires i < |Coins|
    ensures FindByBinance(Coins[i].binance) == Some(Coins[i])
  {
    CoinsAreDistinct();
    var r := FindByBinance(Coins[i].binance);
    assert r.Some?;
    var j :| 0 <= j < |Coins| && Coins[j] == r.value;
    assert Coins[j].binance == Coins[i].binance;
  }
}
