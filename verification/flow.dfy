/** The engine's tick-and-candle state as a value, and the specification of its transitions:
    seeding, one tick step, a run of single steps, and the chunked batch run. */
module Flow {
  import opened Candles
  import opened PriceOracle

  const Blank := Series(Candle(0, 0, 0, 0, 0), [], map[])

  /** The five series, indexed by timeframe. */
  type Book = b: seq<Series> | |b| == 5 witness [Blank, Blank, Blank, Blank, Blank]

  /** The cursor (all ticks, the last tick, the tick count) and the candle book. */
  datatype Engine = Engine(ticks: seq<Tick>, lastTick: Tick, tickCount: int, book: Book)

  /** The book made of the per-timeframe current candles, closed candles and indexes. */
  function Assemble(current: seq<Candle>, closed: seq<seq<Candle>>, index: seq<map<int, Candle>>): (b: Book)
    requires |current| == 5 && |closed| == 5 && |index| == 5
    ensures forall tf: Timeframe :: b[tf] == Series(current[tf], closed[tf], index[tf])
  {
    seq(5, tf requires 0 <= tf < 5 => Series(current[tf], closed[tf], index[tf]))
  }

  /** Fold one tick into every timeframe, each independently of the others. */
  function FoldAll(b: Book, t: int, p: Price): Book
  {
    seq(5, tf requires 0 <= tf < 5 => FoldSeries(b[tf], Duration(tf), t, p))
  }

  /** The state right after a successful initialisation at `start` with price `price`. */
  function Initial(start: int, price: Price): Engine
  {
    var seedTick := Tick(start, price);
    Engine([seedTick], seedTick, 1,
      seq(5, tf requires 0 <= tf < 5 => Series(Opened(BucketStart(start, Duration(tf)), price), [], map[])))
  }

  /** One tick step with the price `p`: the tick one interval after the last one is appended,
      becomes the last tick, is counted and is folded into every timeframe. */
  function Advance(f: Engine, interval: int, p: Price): Engine
  {
    var t := f.lastTick.time + interval;
    Engine(f.ticks + [Tick(t, p)], Tick(t, p), f.tickCount + 1, FoldAll(f.book, t, p))
  }

  /** The price the single-tick path asks for: from the last price, at the current tick count. */
  function NextPrice(o: Oracle, prm: Params, f: Engine): Price
  {
    o.next(prm.seed, f.lastTick.price, prm.volatility, f.tickCount, prm.digits)
  }

  /** `n` single-tick steps, each priced by the oracle. */
  function Run(f: Engine, o: Oracle, prm: Params, n: nat): Engine
    decreases n
  {
    if n == 0 then f
    else
      var g := Run(f, o, prm, n - 1);
      Advance(g, prm.tickInterval, NextPrice(o, prm, g))
  }

  /** Step with each of the prices `ps` in turn. */
  function Feed(f: Engine, interval: int, ps: seq<Price>): Engine
    decreases |ps|
  {
    if ps == [] then f
    else Advance(Feed(f, interval, ps[..|ps| - 1]), interval, ps[|ps| - 1])
  }

  /** Feeding one more price of `ps` is one more step. */
  lemma FeedStep(f: Engine, interval: int, ps: seq<Price>, i: nat)
    requires i < |ps|
    ensures Feed(f, interval, ps[..i + 1]) == Advance(Feed(f, interval, ps[..i]), interval, ps[i])
  {
    assert ps[..i + 1][..i] == ps[..i];
  }

  /** The `count` prices one batch request returns from the current state. */
  function BatchPrices(o: Oracle, prm: Params, f: Engine, count: nat): seq<Price>
  {
    seq(count, i requires 0 <= i < count => o.batch(prm.seed, f.lastTick.price, prm.volatility, f.tickCount, prm.digits, count, i))
  }

  /** The batch path: while ticks remain, request a chunk of at most `size` prices from the
      current state and step with each of them. */
  function BatchRun(f: Engine, o: Oracle, prm: Params, remaining: int, size: int): Engine
    requires remaining <= 0 || size > 0
    decreases remaining
  {
    if remaining <= 0 then f
    else
      var n := Min(remaining, size);
      BatchRun(Feed(f, prm.tickInterval, BatchPrices(o, prm, f, n)), o, prm, remaining - n, size)
  }

  /** Consecutive ticks are exactly `interval` apart. */
  predicate Spaced(ticks: seq<Tick>, interval: int)
  {
    forall j :: 0 < j < |ticks| ==> ticks[j].time == ticks[j - 1].time + interval
  }

  /** The invariant of every initialised state: the last tick ends the tick list, the tick count
      is the number of ticks, and every series is well formed with respect to the last tick. */
  predicate Coherent(f: Engine)
  {
    && |f.ticks| >= 1
    && f.lastTick == f.ticks[|f.ticks| - 1]
    && f.tickCount == |f.ticks|
    && (forall tf: Timeframe :: SeriesOk(f.book[tf], Duration(tf), f.lastTick))
  }

  /** Every series is in chronological order. */
  predicate InOrder(f: Engine)
  {
    forall tf: Timeframe :: Chronological(f.book[tf])
  }

  /** `r` is `f` followed by `n` more ticks, spaced by `interval` from the last tick of `f`,
      with the tick count raised by `n` and the last of them as the last tick. */
  predicate Extends(f: Engine, r: Engine, interval: int, n: nat)
  {
    && |r.ticks| == |f.ticks| + n
    && r.ticks[..|f.ticks|] == f.ticks
    && r.tickCount == f.tickCount + n
    && (n > 0 ==> r.ticks[|f.ticks|].time == f.lastTick.time + interval)
    && (forall j :: |f.ticks| < j < |r.ticks| ==> r.ticks[j].time == r.ticks[j - 1].time + interval)
    && r.lastTick == (if n == 0 then f.lastTick else r.ticks[|r.ticks| - 1])
  }

  /** Initialisation seeds every timeframe with a flat candle at the aligned start of its bucket,
      closes nothing, and makes the seed tick the only tick. */
  lemma InitialState(start: int, price: Price)
    ensures var f := Initial(start, price);
      && f.ticks == [Tick(start, price)] && f.lastTick == Tick(start, price) && f.tickCount == 1
      && (forall tf: Timeframe ::
            var c := f.book[tf].current;
            && c.start % Duration(tf) == 0 && c.start <= start < c.start + Duration(tf)
            && c.open == price && IsFlat(c)
            && f.book[tf].closed == [] && f.book[tf].index == map[])
      && Coherent(f) && InOrder(f) && (forall interval :: Spaced(f.ticks, interval))
  {
  }

  /** A book whose every series is freshly opened at `start` with `price` and has closed
      nothing is the initial book. */
  lemma InitialBook(start: int, price: Price, b: Book)
    requires forall tf: Timeframe :: b[tf] == Series(Opened(BucketStart(start, Duration(tf)), price), [], map[])
    ensures b == Initial(start, price).book
  {
  }

  /** The state with every closed series and index emptied and the current candles kept. */
  function Cleared(f: Engine): Engine
  {
    f.(book := seq(5, tf requires 0 <= tf < 5 => Series(f.book[tf].current, [], map[])))
  }

  /** Emptying the closed series keeps the state coherent and trivially in order. */
  lemma ClearedKeeps(f: Engine)
    ensures Coherent(f) ==> Coherent(Cleared(f))
    ensures InOrder(Cleared(f))
  {
    var r := Cleared(f);
    if Coherent(f) {
      forall tf: Timeframe ensures SeriesOk(r.book[tf], Duration(tf), r.lastTick) {
        assert SeriesOk(f.book[tf], Duration(tf), f.lastTick);
      }
    }
  }

  /** One step keeps the state coherent. */
  lemma AdvanceCoherent(f: Engine, interval: int, p: Price)
    requires Coherent(f)
    ensures Coherent(Advance(f, interval, p))
  {
    var r := Advance(f, interval, p);
    var t := f.lastTick.time + interval;
    forall tf: Timeframe ensures SeriesOk(r.book[tf], Duration(tf), r.lastTick) {
      FoldKeepsOk(f.book[tf], Duration(tf), f.lastTick, t, p);
    }
  }

  /** One step keeps the series in order when the interval is not negative. */
  lemma AdvanceInOrder(f: Engine, interval: int, p: Price)
    requires Coherent(f) && InOrder(f) && interval >= 0
    ensures InOrder(Advance(f, interval, p))
  {
    var r := Advance(f, interval, p);
    var t := f.lastTick.time + interval;
    forall tf: Timeframe ensures Chronological(r.book[tf]) {
      FoldKeepsChronological(f.book[tf], Duration(tf), f.lastTick, t, p);
    }
  }

  /** One step appends one tick, one interval after the last. */
  lemma AdvanceExtends(f: Engine, interval: int, p: Price)
    ensures Extends(f, Advance(f, interval, p), interval, 1)
  {
  }

  /** Extension composes. */
  lemma ExtendsTrans(f: Engine, g: Engine, h: Engine, interval: int, a: nat, b: nat)
    requires Extends(f, g, interval, a) && Extends(g, h, interval, b)
    ensures Extends(f, h, interval, a + b)
  {
    var n, m := |f.ticks|, |g.ticks|;
    assert h.ticks[..n] == h.ticks[..m][..n];
    forall j | n < j < |h.ticks| ensures h.ticks[j].time == h.ticks[j - 1].time + interval {
      if j < m {
        assert h.ticks[j] == g.ticks[j] && h.ticks[j - 1] == g.ticks[j - 1];
      } else if j == m {
        assert h.ticks[j - 1] == g.ticks[j - 1];
      }
    }
    if a > 0 {
      assert h.ticks[n] == g.ticks[n];
    }
  }

  /** A step from a spaced, coherent state keeps the spacing once it extends it. */
  lemma ExtendsSpaced(f: Engine, r: Engine, interval: int, n: nat)
    requires Coherent(f) && Extends(f, r, interval, n) && Spaced(f.ticks, interval)
    ensures Spaced(r.ticks, interval)
  {
    forall j | 0 < j < |r.ticks| ensures r.ticks[j].time == r.ticks[j - 1].time + interval {
      if j < |f.ticks| {
        assert r.ticks[j] == f.ticks[j] && r.ticks[j - 1] == f.ticks[j - 1];
      } else if j == |f.ticks| {
        assert r.ticks[j - 1] == f.ticks[j - 1];
      }
    }
  }

  /** After `n` single steps the tick count has grown by `n` and the last price is the oracle's
      chained price from the last price at the old tick count. */
  lemma {:induction false} RunCursor(f: Engine, o: Oracle, prm: Params, n: nat)
    ensures Run(f, o, prm, n).tickCount == f.tickCount + n
    ensures Run(f, o, prm, n).lastTick.price == Chain(o, prm.seed, prm.volatility, prm.digits, f.lastTick.price, f.tickCount, n)
    decreases n
  {
    if n > 0 {
      RunCursor(f, o, prm, n - 1);
    }
  }

  /** A run of `n` single steps keeps the invariants and appends exactly `n` spaced ticks. */
  lemma {:induction false} RunKeeps(f: Engine, o: Oracle, prm: Params, n: nat)
    requires Coherent(f)
    ensures var r := Run(f, o, prm, n);
      && Coherent(r)
      && Extends(f, r, prm.tickInterval, n)
      && (InOrder(f) && prm.tickInterval >= 0 ==> InOrder(r))
    decreases n
  {
    if n > 0 {
      var g := Run(f, o, prm, n - 1);
      RunKeeps(f, o, prm, n - 1);
      AdvanceCoherent(g, prm.tickInterval, NextPrice(o, prm, g));
      AdvanceExtends(g, prm.tickInterval, NextPrice(o, prm, g));
      if InOrder(f) && prm.tickInterval >= 0 {
        AdvanceInOrder(g, prm.tickInterval, NextPrice(o, prm, g));
      }
      ExtendsTrans(f, g, Run(f, o, prm, n), prm.tickInterval, n - 1, 1);
    }
  }

  /** Running `a` steps and then `b` steps is running `a + b` steps. */
  lemma {:induction false} RunAdd(f: Engine, o: Oracle, prm: Params, a: nat, b: nat)
    ensures Run(Run(f, o, prm, a), o, prm, b) == Run(f, o, prm, a + b)
    decreases b
  {
    if b > 0 {
      RunAdd(f, o, prm, a, b - 1);
    }
  }

  /** Stepping with a prefix of a batch is running single steps, when the batch agrees with
      chained single requests. */
  lemma {:induction false} FeedPrefixIsRun(f: Engine, o: Oracle, prm: Params, count: nat, i: nat)
    requires BatchAgrees(o) && i <= count
    ensures Feed(f, prm.tickInterval, BatchPrices(o, prm, f, count)[..i]) == Run(f, o, prm, i)
    decreases i
  {
    if i > 0 {
      FeedPrefixIsRun(f, o, prm, count, i - 1);
      FeedStep(f, prm.tickInterval, BatchPrices(o, prm, f, count), i - 1);
      BatchPriceIsNext(f, o, prm, count, i - 1);
    }
  }

  /** Element `i` of a batch is the price the single path asks for after `i` single steps. */
  lemma BatchPriceIsNext(f: Engine, o: Oracle, prm: Params, count: nat, i: nat)
    requires BatchAgrees(o) && i < count
    ensures BatchPrices(o, prm, f, count)[i] == NextPrice(o, prm, Run(f, o, prm, i))
  {
    RunCursor(f, o, prm, i);
  }

  /** Stepping with a whole batch is running as many single steps. */
  lemma ChunkIsRun(f: Engine, o: Oracle, prm: Params, count: nat)
    requires BatchAgrees(o)
    ensures Feed(f, prm.tickInterval, BatchPrices(o, prm, f, count)) == Run(f, o, prm, count)
  {
    var ps := BatchPrices(o, prm, f, count);
    FeedPrefixIsRun(f, o, prm, count, count);
    assert ps[..count] == ps;
  }

  /** The central consistency property: whatever the chunk size, the batch path yields the same
      state as the same number of single steps, when the batch oracle agrees with chained single
      requests. */
  lemma {:induction false} BatchRunIsRun(f: Engine, o: Oracle, prm: Params, remaining: int, size: int)
    requires BatchAgrees(o) && size > 0
    ensures BatchRun(f, o, prm, remaining, size) == Run(f, o, prm, if remaining < 0 then 0 else remaining)
    decreases remaining
  {
    if remaining > 0 {
      var n := Min(remaining, size);
      var g := Feed(f, prm.tickInterval, BatchPrices(o, prm, f, n));
      ChunkIsRun(f, o, prm, n);
      BatchRunIsRun(g, o, prm, remaining - n, size);
      RunAdd(f, o, prm, n, remaining - n);
    }
  }

  /** Stepping with any prices keeps the invariants. */
  lemma {:induction false} FeedKeeps(f: Engine, interval: int, ps: seq<Price>)
    requires Coherent(f)
    ensures Coherent(Feed(f, interval, ps))
    ensures InOrder(f) && interval >= 0 ==> InOrder(Feed(f, interval, ps))
    decreases |ps|
  {
    if ps != [] {
      var init := ps[..|ps| - 1];
      var g := Feed(f, interval, init);
      FeedKeeps(f, interval, init);
      AdvanceCoherent(g, interval, ps[|ps| - 1]);
      if InOrder(f) && interval >= 0 {
        AdvanceInOrder(g, interval, ps[|ps| - 1]);
      }
    }
  }

  /** Stepping with any prices appends one tick per price, spaced by the interval and carrying
      that price. */
  lemma {:induction false} FeedExtends(f: Engine, interval: int, ps: seq<Price>)
    ensures var r := Feed(f, interval, ps);
      && Extends(f, r, interval, |ps|)
      && (forall j :: 0 <= j < |ps| ==> r.ticks[|f.ticks| + j].price == ps[j])
    decreases |ps|
  {
    if ps != [] {
      var init := ps[..|ps| - 1];
      var g := Feed(f, interval, init);
      var r := Feed(f, interval, ps);
      FeedExtends(f, interval, init);
      AdvanceExtends(g, interval, ps[|ps| - 1]);
      ExtendsTrans(f, g, r, interval, |init|, 1);
      forall j | 0 <= j < |ps| ensures r.ticks[|f.ticks| + j].price == ps[j] {
        if j < |init| {
          assert r.ticks[|f.ticks| + j] == g.ticks[|f.ticks| + j];
        }
      }
    }
  }

  /** The batch path, with any batch oracle, keeps the invariants and appends exactly `remaining`
      ticks spaced by the interval (none when `remaining` is not positive), whatever the chunk size. */
  lemma {:induction false} BatchRunKeeps(f: Engine, o: Oracle, prm: Params, remaining: int, size: int)
    requires Coherent(f) && (remaining <= 0 || size > 0)
    ensures var r := BatchRun(f, o, prm, remaining, size);
      && Coherent(r)
      && Extends(f, r, prm.tickInterval, if remaining < 0 then 0 else remaining)
      && (InOrder(f) && prm.tickInterval >= 0 ==> InOrder(r))
    decreases remaining
  {
    if remaining > 0 {
      var n := Min(remaining, size);
      var ps := BatchPrices(o, prm, f, n);
      var g := Feed(f, prm.tickInterval, ps);
      FeedKeeps(f, prm.tickInterval, ps);
      FeedExtends(f, prm.tickInterval, ps);
      BatchRunKeeps(g, o, prm, remaining - n, size);
      ExtendsTrans(f, g, BatchRun(f, o, prm, remaining, size), prm.tickInterval, n, remaining - n);
    } else {
      assert f.ticks[..|f.ticks|] == f.ticks;
    }
  }

  /** The session invariant over the state and the session's flags: a running session is
      initialised, an initialised one is seeded, a seeded one is coherent, and an initialised
      one has evenly spaced ticks and, with a non-negative interval, ordered series. */
  predicate SessionOk(f: Engine, initialized: bool, seeded: bool, running: bool, interval: int)
  {
    && (running ==> initialized)
    && (initialized ==> seeded)
    && (seeded ==> Coherent(f))
    && (initialized ==> Spaced(f.ticks, interval))
    && (initialized && interval >= 0 ==> InOrder(f))
  }

  /** A tick step of an initialised session keeps the session invariant, whether or not the
      step stops the run. */
  lemma StepOk(f: Engine, interval: int, p: Price, running: bool, running': bool)
    requires SessionOk(f, true, true, running, interval)
    ensures SessionOk(Advance(f, interval, p), true, true, running', interval)
  {
    AdvanceCoherent(f, interval, p);
    AdvanceExtends(f, interval, p);
    ExtendsSpaced(f, Advance(f, interval, p), interval, 1);
    if interval >= 0 {
      AdvanceInOrder(f, interval, p);
    }
  }

  /** Emptying the closed series and stopping keeps the session invariant, for any new interval,
      once the session is marked uninitialised. */
  lemma ClearOk(f: Engine, initialized: bool, seeded: bool, running: bool, interval: int, interval': int)
    requires SessionOk(f, initialized, seeded, running, interval)
    ensures SessionOk(Cleared(f), false, seeded, false, interval')
  {
    ClearedKeeps(f);
  }

  /** A successful initialisation establishes the session invariant. */
  lemma InitialOk(start: int, price: Price, running: bool, interval: int)
    ensures SessionOk(Initial(start, price), true, true, running, interval)
  {
    InitialState(start, price);
  }
}
