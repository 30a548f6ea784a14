/** Ticks, OHLC candles and the per-timeframe fold of one tick into a candle series. */
module Candles {

  /** A price in fixed point: an integer count of units of 10^-digits (hundredths for digits = 2).
      The engine only compares and copies prices, so nothing is lost by this representation. */
  type Price = int

  /** One (timestamp in milliseconds, price) observation. */
  datatype Tick = Tick(time: int, price: Price)

  /** One open/high/low/close summary of the ticks of the bucket that begins at `start`. */
  datatype Candle = Candle(start: int, open: Price, high: Price, low: Price, close: Price)

  /** The fixed catalogue of five timeframes, 15s, 1m, 5m, 15m and 1h, by index. */
  type Timeframe = tf: nat | tf < 5

  const Durations: seq<int> := [15000, 60000, 300000, 900000, 3600000]

  function Duration(tf: Timeframe): (d: int)
    ensures d > 0 && d % 15000 == 0
  {
    Durations[tf]
  }

  function Max(a: int, b: int): int { if a < b then b else a }
  function Min(a: int, b: int): int { if a < b then a else b }

  /** Start of the bucket of width `d` that holds `t`: floor(t / d) * d.
      Dafny's division is Euclidean, which for d > 0 is floor division. */
  function BucketStart(t: int, d: int): (b: int)
    requires d > 0
    ensures b % d == 0 && b <= t < b + d
  {
    FloorDivMul(t, d);
    (t / d) * d
  }

  lemma FloorDivMul(t: int, d: int)
    requires d > 0
    ensures ((t / d) * d) % d == 0 && (t / d) * d <= t < (t / d) * d + d
  {
    var q := t / d;
    assert t == q * d + t % d;
    assert (q * d) % d == 0 by {
      MulMod(q, d);
    }
  }

  lemma {:induction false} MulMod(q: int, d: int)
    requires d > 0
    ensures (q * d) % d == 0
  {
    var m := q * d;
    assert m == q * d + 0;
    DivModUnique(m, d, q, 0);
  }

  /** Euclidean division and remainder are determined by m == q * d + r with 0 <= r < d. */
  lemma DivModUnique(m: int, d: int, q: int, r: int)
    requires d > 0 && m == q * d + r && 0 <= r < d
    ensures m / d == q && m % d == r
  {
    var q', r' := m / d, m % d;
    assert m == q' * d + r';
    assert (q' - q) * d == r - r';
    MulBounded(q' - q, d);
  }

  /** A multiple of `d` strictly between -d and d is zero. */
  lemma MulBounded(k: int, d: int)
    requires d > 0 && -d < k * d < d
    ensures k == 0
  {
  }

  /** The aligned bucket start is the only multiple of `d` whose bucket holds `t`. */
  lemma BucketStartUnique(t: int, d: int, b: int)
    requires d > 0 && b % d == 0 && b <= t < b + d
    ensures b == BucketStart(t, d)
  {
    var k := b / d;
    assert b == k * d;
    assert t == k * d + (t - b);
    DivModUnique(t, d, k, t - b);
  }

  /** Bucket starts do not go backwards when time does not. */
  lemma BucketStartMonotone(t1: int, t2: int, d: int)
    requires d > 0 && t1 <= t2
    ensures BucketStart(t1, d) <= BucketStart(t2, d)
  {
    var k1, k2 := t1 / d, t2 / d;
    assert k1 * d <= t1 <= t2 < k2 * d + d;
    assert (k1 - k2) * d < d;
    MulBelow(k1 - k2, d);
    assert k1 * d <= k2 * d;
  }

  lemma MulBelow(k: int, d: int)
    requires d > 0 && k * d < d
    ensures k <= 0
  {
  }

  /** A fresh candle: every price is the price of the tick that opened it. */
  function Opened(start: int, p: Price): Candle
  {
    Candle(start, p, p, p, p)
  }

  /** All four prices equal: the heuristic for "touched by one tick only" (a flat market looks the same). */
  predicate IsFlat(c: Candle)
  {
    c.open == c.high && c.open == c.low && c.open == c.close
  }

  /** The unconditional part of the fold: raise the high, lower the low, set the close. */
  function Touch(c: Candle, p: Price): (r: Candle)
    ensures r.start == c.start && r.open == c.open && r.close == p
    ensures r.high >= c.high && r.high >= p && (r.high == c.high || r.high == p)
    ensures r.low <= c.low && r.low <= p && (r.low == c.low || r.low == p)
  {
    c.(high := Max(c.high, p), low := Min(c.low, p), close := p)
  }

  /** A well-formed candle of a timeframe of width `d`: aligned start, low <= open, close <= high. */
  predicate CandleOk(c: Candle, d: int)
  {
    d > 0 && c.start % d == 0 && c.low <= c.open <= c.high && c.low <= c.close <= c.high
  }

  /** The state kept for one timeframe: the current candle, the closed candles in order of
      closing, and the closed candles indexed by their bucket start. */
  datatype Series = Series(current: Candle, closed: seq<Candle>, index: map<int, Candle>)

  /** Fold one tick (t, p) into the series of a timeframe of width `d`. */
  function FoldSeries(s: Series, d: int, t: int, p: Price): (r: Series)
    requires d > 0
    ensures r.current.start == BucketStart(t, d) && r.current.close == p
    ensures s.current.start == BucketStart(t, d) <==> r.closed == s.closed
    ensures |r.closed| <= |s.closed| + 1
  {
    var c := Touch(s.current, p);
    var b := BucketStart(t, d);
    if s.current.start == b then Series(c, s.closed, s.index)
    else Series(Opened(b, p), s.closed + [c], s.index[s.current.start := c])
  }

  /** A tick in the current bucket changes only the current candle, keeps its start and open,
      and closes nothing. */
  lemma SameBucket(s: Series, d: int, t: int, p: Price)
    requires d > 0 && s.current.start == BucketStart(t, d)
    ensures var r := FoldSeries(s, d, t, p);
      r.closed == s.closed && r.index == s.index &&
      r.current.start == s.current.start && r.current.open == s.current.open &&
      r.current.high == Max(s.current.high, p) && r.current.low == Min(s.current.low, p) &&
      r.current.close == p
  {
  }

  /** A tick in another bucket closes exactly one candle: the old current candle updated with the
      tick's price, appended and indexed under its old start; skipped buckets are not synthesised.
      A fresh candle opens at the tick's bucket. */
  lemma Rollover(s: Series, d: int, t: int, p: Price)
    requires d > 0 && s.current.start != BucketStart(t, d)
    ensures var r := FoldSeries(s, d, t, p);
      var closing := s.current.(high := Max(s.current.high, p), low := Min(s.current.low, p), close := p);
      r.closed == s.closed + [closing] &&
      r.index == s.index[s.current.start := closing] &&
      r.current == Opened(BucketStart(t, d), p)
  {
  }

  /** The invariant of one timeframe's series with respect to the last folded tick `last`:
      every candle is well formed, the current candle holds `last`, and the index only maps
      the start of a closed candle to a closed candle with that start. */
  predicate SeriesOk(s: Series, d: int, last: Tick)
  {
    && CandleOk(s.current, d)
    && s.current.start == (if d > 0 then BucketStart(last.time, d) else 0)
    && s.current.close == last.price
    && (forall i :: 0 <= i < |s.closed| ==> CandleOk(s.closed[i], d))
    && (forall i :: 0 <= i < |s.closed| ==> s.closed[i].start in s.index)
    && (forall k :: k in s.index ==> s.index[k] in s.closed && s.index[k].start == k)
  }

  /** Chronological order, which holds when ticks arrive with increasing timestamps: closed starts
      strictly increase, all lie before the current start, and the index finds each closed candle. */
  predicate Chronological(s: Series)
  {
    && (forall i, j :: 0 <= i < j < |s.closed| ==> s.closed[i].start < s.closed[j].start)
    && (forall i :: 0 <= i < |s.closed| ==> s.closed[i].start < s.current.start)
    && (forall i :: 0 <= i < |s.closed| ==> s.closed[i].start in s.index && s.index[s.closed[i].start] == s.closed[i])
  }

  /** A series seeded by one tick satisfies both invariants. */
  lemma OpenedOk(d: int, last: Tick)
    requires d > 0
    ensures SeriesOk(Series(Opened(BucketStart(last.time, d), last.price), [], map[]), d, last)
    ensures Chronological(Series(Opened(BucketStart(last.time, d), last.price), [], map[]))
  {
  }

  /** Folding the next tick keeps a series well formed, whatever the timestamp. */
  lemma FoldKeepsOk(s: Series, d: int, last: Tick, t: int, p: Price)
    requires d > 0 && SeriesOk(s, d, last)
    ensures SeriesOk(FoldSeries(s, d, t, p), d, Tick(t, p))
  {
    var r := FoldSeries(s, d, t, p);
    var c := Touch(s.current, p);
    assert CandleOk(c, d);
    if s.current.start != BucketStart(t, d) {
      assert r.closed == s.closed + [c];
      forall i | 0 <= i < |r.closed| ensures CandleOk(r.closed[i], d) && r.closed[i].start in r.index {
        if i < |s.closed| {
          assert r.closed[i] == s.closed[i];
        }
      }
      forall k | k in r.index ensures r.index[k] in r.closed && r.index[k].start == k {
        if k != s.current.start {
          assert s.index[k] in s.closed;
        }
      }
    }
  }

  /** Folding a tick no earlier than the last one keeps the series chronological. */
  lemma FoldKeepsChronological(s: Series, d: int, last: Tick, t: int, p: Price)
    requires d > 0 && SeriesOk(s, d, last) && Chronological(s) && last.time <= t
    ensures Chronological(FoldSeries(s, d, t, p))
  {
    var r := FoldSeries(s, d, t, p);
    var b := BucketStart(t, d);
    BucketStartMonotone(last.time, t, d);
    if s.current.start != b {
      var c := Touch(s.current, p);
      assert r.closed == s.closed + [c];
      assert s.current.start < b;
      forall i | 0 <= i < |r.closed|
        ensures r.closed[i].start < r.current.start
        ensures r.closed[i].start in r.index && r.index[r.closed[i].start] == r.closed[i]
      {
        if i < |s.closed| {
          assert r.closed[i] == s.closed[i];
          assert s.closed[i].start < s.current.start;
        }
      }
    }
  }
}
