/**
 * Shared building blocks: an Option type for values the browser may not
 * supply (a missing key, a NaN from parseFloat), and the two bounded-buffer
 * shapes the dashboard uses: "push, then shift once when over the cap"
 * (price and portfolio history) and "unshift, then pop once when over the
 * cap" (alert history).
 */
module Common {

  datatype Option<T> = None | Some(value: T)

  function Max(a: int, b: int): int
  {
    if a < b then b else a
  }

  /** The last `n` elements of `s`, or all of `s` when it is shorter. */
  function Newest<T>(s: seq<T>, n: nat): seq<T>
  {
    if |s| <= n then s else s[|s| - n..]
  }

  /** The first `n` elements of `s`, or all of `s` when it is shorter. */
  function Oldest<T>(s: seq<T>, n: nat): seq<T>
  {
    if |s| <= n then s else s[..n]
  }

  /**
   * `h.push(x); if (h.length > cap) h.shift();`
   * The result keeps the newest max(|h|, cap) elements of h + [x]: an
   * over-full buffer (one loaded from storage) never grows, and the new
   * element is always the last one.
   */
  function PushCapped<T>(h: seq<T>, x: T, cap: nat): (r: seq<T>)
    requires cap > 0
    ensures r == Newest(h + [x], Max(|h|, cap))
    ensures |r| == if |h| < cap then |h| + 1 else |h|
    ensures |r| > 0 && r[|r| - 1] == x
    ensures r[..|r| - 1] == h[|h| + 1 - |r|..]
  {
    var pushed := h + [x];
    if |pushed| > cap then
      assert pushed[1..][..|h| - 1] == h[1..];
      pushed[1..]
    else
      assert pushed[..|h|] == h;
      pushed
  }

  /**
   * `h.unshift(x); if (h.length > cap) h.pop();`
   * The new element is first, the old elements follow in their old order,
   * and the buffer never grows past max(|h|, cap).
   */
  function PushFrontCapped<T>(h: seq<T>, x: T, cap: nat): (r: seq<T>)
    requires cap > 0
    ensures r == Oldest([x] + h, Max(|h|, cap))
    ensures |r| == if |h| < cap then |h| + 1 else |h|
    ensures r[0] == x
    ensures r[1..] == h[..|r| - 1]
  {
    var unshifted := [x] + h;
    if |unshifted| > cap then unshifted[..|unshifted| - 1] else unshifted
  }
}
