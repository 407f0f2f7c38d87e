/**
 * Throttled, bounded histories: the per-coin price history of processTick
 * (app.js:536-552) and the portfolio history of updatePortfolioHistory
 * (app.js:964-975) share one shape. A sample is appended only when the
 * history is empty or the newest sample is more than `gap` milliseconds
 * old; after the append the oldest sample is shifted out when the history
 * is longer than `cap`.
 */
module History {
  import opened Common

  /** A timestamped value: `{t, p}` for a price sample, `{t, v}` for a portfolio sample. */
  datatype Point = Point(t: int, v: real)

  /** Consecutive timestamps differ by more than `gap`. */
  predicate Spaced(h: seq<Point>, gap: nat)
  {
    forall i :: 0 < i < |h| ==> h[i].t - h[i - 1].t > gap
  }

  /** `!h.length || now - h[h.length - 1].t > gap` */
  predicate Due(h: seq<Point>, now: int, gap: nat)
  {
    |h| == 0 || now - h[|h| - 1].t > gap
  }

  lemma SpacedSuffix(h: seq<Point>, gap: nat, k: nat)
    requires k <= |h|
    ensures Spaced(h, gap) ==> Spaced(h[k..], gap)
  {
    if Spaced(h, gap) {
      forall i | 0 < i < |h[k..]| ensures h[k..][i].t - h[k..][i - 1].t > gap {
        assert h[k..][i] == h[k + i] && h[k..][i - 1] == h[k + i - 1];
      }
    }
  }

  function ThrottledPush(h: seq<Point>, now: int, v: real, gap: nat, cap: nat): (r: seq<Point>)
    requires cap > 0
    ensures r != h <==> Due(h, now, gap)
    ensures Due(h, now, gap) ==> r == Newest(h + [Point(now, v)], Max(|h|, cap))
    ensures Due(h, now, gap) && |h| < cap ==> r == h + [Point(now, v)]
    ensures Due(h, now, gap) && |h| >= cap ==> r == h[1..] + [Point(now, v)]
    ensures |r| <= Max(|h|, cap)
    ensures Spaced(h, gap) ==> Spaced(r, gap)
  {
    if Due(h, now, gap) then
      var r := PushCapped(h, Point(now, v), cap);
      assert r[|r| - 1] == Point(now, v);
      assert |h| >= cap ==> r == h[1..] + [Point(now, v)] by {
        if |h| >= cap { assert (h + [Point(now, v)])[1..] == h[1..] + [Point(now, v)]; }
      }
      assert Spaced(h, gap) ==> Spaced(h + [Point(now, v)], gap);
      SpacedSuffix(h + [Point(now, v)], gap, |h| + 1 - |r|);
      r
    else
      h
  }
}
