/**
 * Pure helpers of the display layer: the clamped position of the price
 * inside its 24h range (app.js:584-590) and the ordering of the instrument
 * cards by getSortedCoins (app.js:1119-1151).
 */
module Display {
  import opened Common
  import opened Config
  import opened Ticks
  import opened Portfolio

  lemma MulStrictMono(x: real, y: real, c: real)
    requires x < y && c > 0.0
    ensures x * c < y * c
  {
  }

  /** Dividing by a positive range keeps order and maps [0, range] into [0, 1]. */
  lemma DivideByRange(a: real, b: real, range: real)
    requires range > 0.0 && a <= b
    ensures a / range <= b / range
    ensures a >= range ==> a / range >= 1.0
    ensures b <= range ==> b / range <= 1.0
  {
    var qa, qb := a / range, b / range;
    assert qa * range == a && qb * range == b;
    if qa > qb { MulStrictMono(qb, qa, range); }
    if a >= range && qa < 1.0 { MulStrictMono(qa, 1.0, range); }
    if b <= range && qb > 1.0 { MulStrictMono(1.0, qb, range); }
  }

  /**
   * The range-bar position in percent: defined only when the 24h high is
   * above the low, and then `(price - low) / (high - low) * 100` clamped
   * to [0, 100].
   */
  function RangePosition(price: real, low: real, high: real): (r: Option<real>)
    ensures r.Some? <==> high > low
    ensures r.Some? ==> 0.0 <= r.value <= 100.0
    ensures r.Some? && price <= low ==> r.value == 0.0
    ensures r.Some? && price >= high ==> r.value == 100.0
    ensures r.Some? && low <= price <= high ==> r.value * (high - low) == (price - low) * 100.0
  {
    if high > low then
      var range := high - low;
      var position := ((price - low) / range) * 100.0;
      assert position * range == (price - low) * 100.0;
      DivideByRange(price - low, price - low, range);
      assert price >= low ==> position >= 0.0 by {
        if price >= low { DivideByRange(0.0, price - low, range); }
      }
      Some(if position < 0.0 then 0.0 else if position > 100.0 then 100.0 else position)
    else
      None
  }

  /** A higher price never moves the indicator to the left. */
  lemma RangePositionMonotone(p1: real, p2: real, low: real, high: real)
    requires high > low && p1 <= p2
    ensures RangePosition(p1, low, high).value <= RangePosition(p2, low, high).value
  {
    DivideByRange(p1 - low, p2 - low, high - low);
  }

  /** `arr.indexOf(x)`: the first index of `x`, or -1. */
  function IndexOf(s: seq<string>, x: string): (r: int)
    ensures -1 <= r < |s|
    ensures r == -1 <==> x !in s
    ensures r >= 0 ==> s[r] == x && x !in s[..r]
  {
    if |s| == 0 then -1
    else if s[0] == x then 0
    else
      var k := IndexOf(s[1..], x);
      assert k >= 0 ==> s[1..][..k] == s[1..k + 1];
      if k == -1 then -1 else k + 1
  }

  /** In a list without repeats, the index of the element at `i` is `i`. */
  lemma IndexOfDistinct(s: seq<string>, i: nat)
    requires i < |s|
    requires forall a, b :: 0 <= a < b < |s| ==> s[a] != s[b]
    ensures IndexOf(s, s[i]) == i
  {
    assert s[i] in s;
    var k := IndexOf(s, s[i]);
    assert s[k] == s[i];
  }

  predicate SortedBy<T>(s: seq<T>, key: T -> real)
  {
    forall i, j :: 0 <= i < j < |s| ==> key(s[i]) <= key(s[j])
  }

  /** Insert `x` into a list sorted by `key`, after every element whose key is not greater. */
  function InsertByKey<T>(x: T, s: seq<T>, key: T -> real): (r: seq<T>)
    requires SortedBy(s, key)
    ensures SortedBy(r, key)
    ensures multiset(r) == multiset(s) + multiset{x}
    ensures forall i :: 0 <= i < |r| ==> r[i] == x || r[i] in s
  {
    if |s| == 0 then [x]
    else if key(x) < key(s[0]) then [x] + s
    else
      var rest := InsertByKey(x, s[1..], key);
      InsertAfterHead(x, s, key, rest);
      [s[0]] + rest
  }

  /** The step of InsertByKey that keeps the head: `[s[0]] + rest` is sorted and holds `s` and `x`. */
  lemma InsertAfterHead<T>(x: T, s: seq<T>, key: T -> real, rest: seq<T>)
    requires SortedBy(s, key) && |s| > 0 && key(s[0]) <= key(x)
    requires SortedBy(rest, key)
    requires multiset(rest) == multiset(s[1..]) + multiset{x}
    requires forall i :: 0 <= i < |rest| ==> rest[i] == x || rest[i] in s[1..]
    ensures SortedBy([s[0]] + rest, key)
    ensures multiset([s[0]] + rest) == multiset(s) + multiset{x}
    ensures forall i :: 0 <= i < |[s[0]] + rest| ==> ([s[0]] + rest)[i] == x || ([s[0]] + rest)[i] in s
  {
    forall i | 0 <= i < |rest| ensures key(s[0]) <= key(rest[i]) && (rest[i] == x || rest[i] in s) {
      if rest[i] != x {
        var j :| 0 <= j < |s[1..]| && s[1..][j] == rest[i];
        assert s[j + 1] == rest[i];
      }
    }
    var r := [s[0]] + rest;
    forall i, j | 0 <= i < j < |r| ensures key(r[i]) <= key(r[j]) {
      assert r[j] == rest[j - 1];
      if i > 0 { assert r[i] == rest[i - 1]; }
    }
    forall i | 0 <= i < |r| ensures r[i] == x || r[i] in s {
      if i > 0 { assert r[i] == rest[i - 1]; }
    }
    assert s == [s[0]] + s[1..];
  }

  /**
   * `Array.prototype.sort` with the comparator `key(a) - key(b)`. The sort
   * is stable, so it is the insertion sort that inserts each element after
   * the earlier ones with an equal key.
   */
  function SortByKey<T>(s: seq<T>, key: T -> real): (r: seq<T>)
    ensures |r| == |s|
    ensures SortedBy(r, key)
    ensures multiset(r) == multiset(s)
  {
    if |s| == 0 then []
    else
      assert s == s[..|s| - 1] + [s[|s| - 1]];
      var r := InsertByKey(s[|s| - 1], SortByKey(s[..|s| - 1], key), key);
      assert |r| == |multiset(r)| == |multiset(s)|;
      r
  }

  lemma {:induction false} InsertByKeyLast<T>(x: T, s: seq<T>, key: T -> real)
    requires SortedBy(s, key)
    requires forall i :: 0 <= i < |s| ==> key(s[i]) <= key(x)
    ensures InsertByKey(x, s, key) == s + [x]
  {
    if |s| > 0 {
      InsertByKeyLast(x, s[1..], key);
      assert s == [s[0]] + s[1..];
    }
  }

  /**
   * Inserting keeps equal keys in arrival order: two elements of the result
   * with equal keys sit at positions `a < b` of `s + [x]`.
   */
  lemma {:induction false} InsertByKeyStable<T>(x: T, s: seq<T>, key: T -> real, i: nat, j: nat) returns (a: nat, b: nat)
    requires SortedBy(s, key)
    requires i < j < |InsertByKey(x, s, key)|
    requires key(InsertByKey(x, s, key)[i]) == key(InsertByKey(x, s, key)[j])
    ensures a < b < |s| + 1
    ensures (s + [x])[a] == InsertByKey(x, s, key)[i] && (s + [x])[b] == InsertByKey(x, s, key)[j]
    decreases |s|, 1
  {
    var r := InsertByKey(x, s, key);
    if key(x) < key(s[0]) {
      if i == 0 {
        assert false;
      }
      a, b := i - 1, j - 1;
      assert r[i] == s[a] && r[j] == s[b];
    } else if i == 0 {
      var tail := s[1..];
      var rest := InsertByKey(x, tail, key);
      assert r[j] == rest[j - 1];
      a := 0;
      if rest[j - 1] == x {
        b := |s|;
      } else {
        var k :| 0 <= k < |tail| && tail[k] == rest[j - 1];
        b := k + 1;
        assert s[b] == tail[k];
      }
    } else {
      a, b := InsertByKeyStableLater(x, s, key, i, j);
    }
  }

  /** The case of InsertByKeyStable where `x` goes after the head and neither element is the head. */
  lemma {:induction false} InsertByKeyStableLater<T>(x: T, s: seq<T>, key: T -> real, i: nat, j: nat) returns (a: nat, b: nat)
    requires SortedBy(s, key) && |s| > 0 && key(s[0]) <= key(x)
    requires 0 < i < j < |InsertByKey(x, s, key)|
    requires key(InsertByKey(x, s, key)[i]) == key(InsertByKey(x, s, key)[j])
    ensures a < b < |s| + 1
    ensures (s + [x])[a] == InsertByKey(x, s, key)[i] && (s + [x])[b] == InsertByKey(x, s, key)[j]
    decreases |s|, 0
  {
    var r := InsertByKey(x, s, key);
    var tail := s[1..];
    var rest := InsertByKey(x, tail, key);
    assert r[i] == rest[i - 1] && r[j] == rest[j - 1];
    assert SortedBy(tail, key);
    var c, d := InsertByKeyStable(x, tail, key, i - 1, j - 1);
    a, b := c + 1, d + 1;
    assert (s + [x])[a] == (tail + [x])[c] by {
      if c < |tail| { assert s[a] == tail[c]; }
    }
    assert (s + [x])[b] == (tail + [x])[d] by {
      if d < |tail| { assert s[b] == tail[d]; }
    }
  }

  /** Every element of the sorted list comes from some position of the input. */
  lemma SortByKeySource<T>(s: seq<T>, key: T -> real, c: nat) returns (a: nat)
    requires c < |SortByKey(s, key)|
    ensures a < |s| && s[a] == SortByKey(s, key)[c]
  {
    var r := SortByKey(s, key);
    assert r[c] in multiset(r);
    a :| 0 <= a < |s| && s[a] == r[c];
  }

  /**
   * One insertion step of SortByKeyStable: the two equal-key elements of the
   * sorted list come from positions `c < d` of the sorted prefix, where `d`
   * is the length of the prefix when the second one is the last input.
   */
  lemma SortByKeyStableStep<T>(s: seq<T>, key: T -> real, i: nat, j: nat) returns (c: nat, d: nat)
    requires |s| > 0
    requires i < j < |SortByKey(s, key)|
    requires key(SortByKey(s, key)[i]) == key(SortByKey(s, key)[j])
    ensures c < d < |s|
    ensures SortByKey(s[..|s| - 1], key)[c] == SortByKey(s, key)[i]
    ensures d < |s| - 1 ==> SortByKey(s[..|s| - 1], key)[d] == SortByKey(s, key)[j]
    ensures d == |s| - 1 ==> s[|s| - 1] == SortByKey(s, key)[j]
  {
    var rest := SortByKey(s[..|s| - 1], key);
    c, d := InsertByKeyStable(s[|s| - 1], rest, key, i, j);
    assert rest[c] == (rest + [s[|s| - 1]])[c];
    assert d < |rest| ==> rest[d] == (rest + [s[|s| - 1]])[d];
  }

  /**
   * Stability: two elements of the sorted list with equal keys sit at
   * positions `a < b` of the input, so they come out in the order in which
   * they went in.
   */
  lemma {:induction false} SortByKeyStable<T>(s: seq<T>, key: T -> real, i: nat, j: nat) returns (a: nat, b: nat)
    requires i < j < |SortByKey(s, key)|
    requires key(SortByKey(s, key)[i]) == key(SortByKey(s, key)[j])
    ensures a < b < |s|
    ensures s[a] == SortByKey(s, key)[i] && s[b] == SortByKey(s, key)[j]
  {
    var init := s[..|s| - 1];
    var c, d := SortByKeyStableStep(s, key, i, j);
    if d < |init| {
      a, b := SortByKeyStable(init, key, c, d);
      assert s[a] == init[a] && s[b] == init[b];
    } else {
      b := |s| - 1;
      a := SortByKeySource(init, key, c);
      assert s[a] == init[a];
    }
  }

  /** Stability: a list already in key order is left exactly as it is. */
  lemma {:induction false} SortByKeyOfSorted<T>(s: seq<T>, key: T -> real)
    requires SortedBy(s, key)
    ensures SortByKey(s, key) == s
  {
    if |s| > 0 {
      var init := s[..|s| - 1];
      assert SortedBy(init, key);
      SortByKeyOfSorted(init, key);
      InsertByKeyLast(s[|s| - 1], init, key);
      assert init + [s[|s| - 1]] == s;
    }
  }

  /** The `sortBy` values with a numeric comparator; any other value compares all coins equal. */
  datatype SortMode = Default | PriceDesc | PriceAsc | ChangeDesc | ChangeAsc | ValueDesc | Unrecognised

  /** `state.prices[id]?.price || 0` */
  function PriceOf(prices: map<string, PriceData>, id: string): real
  {
    if id in prices then prices[id].price else 0.0
  }

  /** `state.prices[id]?.change || 0` */
  function ChangeOf(prices: map<string, PriceData>, id: string): real
  {
    if id in prices then prices[id].change else 0.0
  }

  /** The key whose difference is each comparator of getSortedCoins. */
  function SortKey(mode: SortMode, coinOrder: seq<string>, prices: map<string, PriceData>,
                   holdings: map<string, real>, c: Coin): real
  {
    match mode
    case Default => IndexOf(coinOrder, c.id) as real
    case PriceDesc => -PriceOf(prices, c.id)
    case PriceAsc => PriceOf(prices, c.id)
    case ChangeDesc => -ChangeOf(prices, c.id)
    case ChangeAsc => ChangeOf(prices, c.id)
    case ValueDesc => -(Held(holdings, c.id) * PriceOf(prices, c.id))
    case Unrecognised => 0.0
  }

  /** getSortedCoins: a reordering of the configured coins in ascending comparator key. */
  function SortedCoins(mode: SortMode, coinOrder: seq<string>, prices: map<string, PriceData>,
                       holdings: map<string, real>): (r: seq<Coin>)
    ensures multiset(r) == multiset(Coins)
    ensures forall i, j :: 0 <= i < j < |r| ==>
      SortKey(mode, coinOrder, prices, holdings, r[i]) <= SortKey(mode, coinOrder, prices, holdings, r[j])
  {
    SortByKey(Coins, c => SortKey(mode, coinOrder, prices, holdings, c))
  }

  /** What each `sortBy` value means for the order of the cards. */
  lemma SortedCoinsOrder(mode: SortMode, coinOrder: seq<string>, prices: map<string, PriceData>,
                         holdings: map<string, real>, i: nat, j: nat)
    requires i < j < |SortedCoins(mode, coinOrder, prices, holdings)|
    ensures var r := SortedCoins(mode, coinOrder, prices, holdings);
      && (mode == Default ==> IndexOf(coinOrder, r[i].id) <= IndexOf(coinOrder, r[j].id))
      && (mode == PriceDesc ==> PriceOf(prices, r[i].id) >= PriceOf(prices, r[j].id))
      && (mode == PriceAsc ==> PriceOf(prices, r[i].id) <= PriceOf(prices, r[j].id))
      && (mode == ChangeDesc ==> ChangeOf(prices, r[i].id) >= ChangeOf(prices, r[j].id))
      && (mode == ChangeAsc ==> ChangeOf(prices, r[i].id) <= ChangeOf(prices, r[j].id))
      && (mode == ValueDesc ==>
            Held(holdings, r[i].id) * PriceOf(prices, r[i].id) >= Held(holdings, r[j].id) * PriceOf(prices, r[j].id))
  {
    var r := SortedCoins(mode, coinOrder, prices, holdings);
    assert SortKey(mode, coinOrder, prices, holdings, r[i]) <= SortKey(mode, coinOrder, prices, holdings, r[j]);
  }

  /** An unrecognised `sortBy` keeps the configured order. */
  lemma SortedCoinsUnrecognised(coinOrder: seq<string>, prices: map<string, PriceData>, holdings: map<string, real>)
    ensures SortedCoins(Unrecognised, coinOrder, prices, holdings) == Coins
  {
    var key := c => SortKey(Unrecognised, coinOrder, prices, holdings, c);
    assert forall c :: key(c) == 0.0;
    assert SortedBy(Coins, key);
    SortByKeyOfSorted(Coins, key);
  }

  /** The initial `coinOrder` (the ids in configuration order) keeps the configured order. */
  lemma SortedCoinsDefaultOrder(prices: map<string, PriceData>, holdings: map<string, real>)
    ensures SortedCoins(Default, seq(|Coins|, i requires 0 <= i < |Coins| => Coins[i].id), prices, holdings) == Coins
  {
    var order := seq(|Coins|, i requires 0 <= i < |Coins| => Coins[i].id);
    CoinsAreDistinct();
    var key := c => SortKey(Default, order, prices, holdings, c);
    forall i | 0 <= i < |Coins| ensures key(Coins[i]) == i as real {
      IndexOfDistinct(order, i);
    }
    SortByKeyOfSorted(Coins, key);
  }
}
