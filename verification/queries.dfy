/** The read-only queries over the engine's state: the tail of a series, the candles a chart
    is given, and the down-sampled tick list of the development snapshot. */
module Queries {
  import opened Candles

  /** JavaScript's `s.slice(-m)`: a negative start counts from the end, and since -0 is 0,
      `m == 0` gives the whole sequence; a negative `m` drops the first -m elements. */
  function SliceLast<T>(s: seq<T>, m: int): (r: seq<T>)
    ensures |r| <= |s| && r == s[|s| - |r|..]
    ensures m >= 1 ==> |r| == Min(m, |s|)
    ensures m == 0 ==> r == s
    ensures m < 0 ==> |r| == Max(|s| + m, 0)
  {
    var start := -m;
    var from := if start < 0 then Max(|s| + start, 0) else Min(start, |s|);
    s[from..]
  }

  /** The current candle is shown after the closed ones only when it has moved away from a flat
      candle and does not repeat the bucket of the last candle shown. */
  predicate ShowsCurrent(shown: seq<Candle>, current: Candle)
  {
    !IsFlat(current) && (shown == [] || shown[|shown| - 1].start != current.start)
  }

  /** The chart's view of one timeframe: the last `maxCandles` closed candles, followed by the
      current candle when `ShowsCurrent` holds. */
  function OhlcData(closed: seq<Candle>, current: Candle, maxCandles: int): (r: seq<Candle>)
    ensures var tail := SliceLast(closed, maxCandles);
      && (r == tail || r == tail + [current])
      && (r == tail + [current] <==> ShowsCurrent(tail, current))
    ensures maxCandles >= 1 ==> |r| <= maxCandles + 1
    ensures maxCandles == 0 ==> |r| >= |closed| && r[..|closed|] == closed
  {
    var candles := SliceLast(closed, maxCandles);
    if IsFlat(current) then candles
    else if |candles| == 0 then candles + [current]
    else if current.start != candles[|candles| - 1].start then candles + [current]
    else candles
  }

  /** When every closed candle lies before the current bucket, a current candle that is not flat
      is always shown, as the last element. */
  lemma {:induction false} OhlcDataShowsMovedCandle(closed: seq<Candle>, current: Candle, maxCandles: int)
    requires forall i :: 0 <= i < |closed| ==> closed[i].start < current.start
    requires !IsFlat(current)
    ensures var r := OhlcData(closed, current, maxCandles);
      |r| >= 1 && r[|r| - 1] == current && |r| == |SliceLast(closed, maxCandles)| + 1
  {
    var tail := SliceLast(closed, maxCandles);
    if tail != [] {
      assert tail[|tail| - 1] == closed[|closed| - 1];
    }
  }

  function Abs(x: int): nat { if x < 0 then -x else x }

  /** `index % gap === 0` in JavaScript for a non-negative index: zero exactly when |gap| divides
      the index; a remainder by zero is NaN, which equals nothing. */
  predicate KeepIndex(i: nat, gap: int)
  {
    gap != 0 && i % Abs(gap) == 0
  }

  /** `s.filter((_, index) => index % gap === 0)`, scanning from index `i`. */
  function FilterFrom<T>(s: seq<T>, gap: int, i: nat): seq<T>
    decreases |s| - i
  {
    if i >= |s| then []
    else (if KeepIndex(i, gap) then [s[i]] else []) + FilterFrom(s, gap, i + 1)
  }

  function EveryNth<T>(s: seq<T>, gap: int): seq<T>
  {
    FilterFrom(s, gap, 0)
  }

  /** Reference definition: with a stride of g > 0, the elements at indices 0, g, 2g, ... */
  function Strided<T>(s: seq<T>, g: nat): (r: seq<T>)
    requires g > 0
    ensures |r| == (|s| + g - 1) / g
  {
    seq((|s| + g - 1) / g, k requires 0 <= k < (|s| + g - 1) / g => StridedAt(s, g, k))
  }

  function StridedAt<T>(s: seq<T>, g: nat, k: nat): T
    requires g > 0 && k < (|s| + g - 1) / g
  {
    StrideInRange(|s|, g, k);
    s[k * g]
  }

  lemma StrideInRange(n: nat, g: nat, k: nat)
    requires g > 0 && k < (n + g - 1) / g
    ensures k * g < n
  {
    var q := (n + g - 1) / g;
    assert q * g <= n + g - 1;
    assert (k + 1) * g <= q * g;
  }

  /** Indices strictly between two consecutive multiples of |gap| are dropped. */
  lemma {:induction false} SkipBetween<T>(s: seq<T>, gap: int, base: nat, i: nat)
    requires gap != 0 && base % Abs(gap) == 0 && base < i <= base + Abs(gap)
    ensures FilterFrom(s, gap, i) == FilterFrom(s, gap, if base + Abs(gap) < |s| then base + Abs(gap) else |s|)
    decreases base + Abs(gap) - i
  {
    var g := Abs(gap);
    var e := if base + g < |s| then base + g else |s|;
    if i < e {
      assert i % g != 0 by {
        DivModUnique(i, g, base / g, i - base);
      }
      SkipBetween(s, gap, base, i + 1);
    } else if i < |s| {
      assert i == base + g;
    }
  }

  /** Scanning from the multiple j * |gap| yields the strided elements from the j-th on. */
  lemma {:induction false} FilterFromStride<T>(s: seq<T>, gap: int, j: nat)
    requires gap != 0 && j <= (|s| + Abs(gap) - 1) / Abs(gap)
    ensures var g := Abs(gap);
      FilterFrom(s, gap, j * g) == Strided(s, g)[j..]
    decreases (|s| + Abs(gap) - 1) / Abs(gap) - j
  {
    var g := Abs(gap);
    var q := (|s| + g - 1) / g;
    if j < q {
      StrideInRange(|s|, g, j);
      assert (j * g) % g == 0 by { MulMod(j, g); }
      SkipBetween(s, gap, j * g, j * g + 1);
      if (j + 1) * g < |s| {
        assert j + 1 <= q by { StrideBound(|s|, g, j + 1); }
        FilterFromStride(s, gap, j + 1);
        assert j * g + g == (j + 1) * g;
      } else {
        assert j + 1 == q by { StrideLast(|s|, g, j); }
      }
      assert Strided(s, g)[j..] == [s[j * g]] + Strided(s, g)[j + 1..];
    } else {
      assert j * g >= |s| by { StrideBeyond(|s|, g, j); }
    }
  }

  lemma StrideBound(n: nat, g: nat, k: nat)
    requires g > 0 && k * g < n
    ensures k < (n + g - 1) / g
  {
    var q := (n + g - 1) / g;
    assert n + g - 1 < (q + 1) * g;
    assert k * g < (q + 1) * g - g + 1;
    MulBelow(k - q, g);
  }

  lemma StrideLast(n: nat, g: nat, j: nat)
    requires g > 0 && j < (n + g - 1) / g && (j + 1) * g >= n
    ensures j + 1 == (n + g - 1) / g
  {
    var q := (n + g - 1) / g;
    StrideInRange(n, g, q - 1);
    assert (q - 1) * g < n <= (j + 1) * g;
    MulBelow(q - 1 - (j + 1), g);
  }

  lemma StrideBeyond(n: nat, g: nat, j: nat)
    requires g > 0 && j >= (n + g - 1) / g
    ensures j * g >= n
  {
    var q := (n + g - 1) / g;
    assert n + g - 1 < (q + 1) * g;
    assert j * g >= q * g;
  }

  /** Down-sampling keeps exactly the elements at indices 0, |gap|, 2|gap|, ... in order, and
      nothing at all when `gap` is zero. */
  lemma EveryNthIsStrided<T>(s: seq<T>, gap: int)
    ensures gap == 0 ==> EveryNth(s, gap) == []
    ensures gap != 0 ==> EveryNth(s, gap) == Strided(s, Abs(gap))
  {
    if gap == 0 {
      NothingKept(s, gap, 0);
    } else {
      FilterFromStride(s, gap, 0);
    }
  }

  lemma {:induction false} NothingKept<T>(s: seq<T>, gap: int, i: nat)
    requires gap == 0
    ensures FilterFrom(s, gap, i) == []
    decreases |s| - i
  {
    if i < |s| {
      NothingKept(s, gap, i + 1);
    }
  }
}
