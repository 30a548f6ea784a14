/** The flow generator: a session that produces ticks on a fixed cadence, folds each into five
    candle series, and answers queries over them. */
module Generator {
  import opened Candles
  import opened Outcomes
  import opened PriceOracle
  import opened Flow
  import opened Queries

  /** One simulated day of ticks; with the seed tick, the run ends at tick number 86401. */
  const TicksPerCycle: int := 86400
  const LastTickIndex: int := TicksPerCycle + 1
  /** The decimal places every price request asks the oracle to round to. */
  const Digits: int := 2
  /** The largest chunk the batch path requests from the oracle at once. */
  const MaxBatchSize: int := 1000

  /** How many of the `n` ticks after tick number `count` reach the horizon: each of them
      ends the cycle again. */
  function HorizonHits(count: int, n: int): nat
    decreases n
  {
    if n <= 0 then 0 else HorizonHits(count, n - 1) + (if count + n >= LastTickIndex then 1 else 0)
  }

  /** The ticks of a run reach the horizon once for every tick numbered 86401 or more:
      none while the count stays below it, and exactly once for a run that ends on it. */
  lemma {:induction false} HorizonHitsCount(count: int, n: int)
    requires n >= 0
    ensures count + n < LastTickIndex ==> HorizonHits(count, n) == 0
    ensures count + n >= LastTickIndex ==> HorizonHits(count, n) == Min(n, count + n - LastTickIndex + 1)
    decreases n
  {
    if n > 0 {
      HorizonHitsCount(count, n - 1);
    }
  }

  /** The snapshot the development getter returns. `ohlc` holds the 1m, 5m, 15m and 1h series,
      in that order (the 15s series is not part of it). */
  datatype DevData = DevData(
    seed: Option<string>, seedHash: string, lastTick: Tick, tickInterval: int,
    ticks: seq<Tick>, ohlc: seq<seq<Candle>>)

  class FlowGeneratorWasm {
    /** The price oracle the session asks for prices. */
    const oracle: Oracle

    var initPrice: Price
    var volatility: real
    var tickInterval: int
    var stormPerCycle: int
    var stormMaxMultiplier: real
    var seed: string
    var seedHash: string

    var initialized: bool
    var isRunning: bool
    var tickCount: int
    var lastTick: Tick
    var ticks: seq<Tick>
    /** The closed candles of each timeframe, in order of closing. */
    var ohlc: seq<seq<Candle>>
    /** The closed candles of each timeframe, by bucket start. */
    var ohlcvByTimestamp: seq<map<int, Candle>>
    /** The open candle of each timeframe. */
    var currentCandles: seq<Candle>
    /** Whether the current candles, the last tick and the tick list have ever been assigned;
        before the first successful initialisation they are null or undefined. */
    var seeded: bool
    /** The number of times the end of the cycle has been reached. */
    ghost var endCycles: nat

    predicate Shaped()
      reads this
    {
      |currentCandles| == 5 && |ohlc| == 5 && |ohlcvByTimestamp| == 5
    }

    function Book(): Book
      reads this
      requires Shaped()
    {
      Assemble(currentCandles, ohlc, ohlcvByTimestamp)
    }

    /** The engine state as a value. */
    function State(): Engine
      reads this
      requires Shaped()
    {
      Engine(ticks, lastTick, tickCount, Book())
    }

    /** What every price request passes to the oracle, and the tick spacing. */
    function Parameters(): Params
      reads this
    {
      Params(seed, volatility, tickInterval, Digits)
    }

    /** The session invariant: a running session is initialised, an initialised one is seeded,
        a seeded one is coherent, and an initialised one has evenly spaced ticks and, with a
        non-negative interval, chronologically ordered series. */
    ghost predicate Valid()
      reads this
    {
      Shaped() && SessionOk(State(), initialized, seeded, isRunning, tickInterval)
    }

    /** Create a session and attempt its initialisation; `setupOk` says whether the oracle's
        setup succeeds. The defaults are the source's; 100000 is the price 1000.00. The seed and
        the start timestamp have no default here, since theirs come from the clock and a
        random source. */
    constructor (oracle: Oracle, initPrice: Price := 100000, volatility: real := 0.001,
                 tickInterval: int := 500, stormPerCycle: int := 0, stormMaxMultiplier: real := 2.0,
                 nameonly seed: string, nameonly startTimestamp: int, nameonly setupOk: bool)
      ensures Valid() && this.oracle == oracle && !isRunning
      ensures this.initPrice == initPrice && this.volatility == volatility && this.tickInterval == tickInterval
      ensures this.stormPerCycle == stormPerCycle && this.stormMaxMultiplier == stormMaxMultiplier && this.seed == seed
      ensures setupOk ==> initialized && seeded && State() == Initial(startTimestamp, initPrice) && seedHash == oracle.seedHash(seed)
      ensures !setupOk ==> !initialized && !seeded
      ensures endCycles == 0
    {
      this.oracle := oracle;
      this.initPrice, this.volatility, this.tickInterval := initPrice, volatility, tickInterval;
      this.stormPerCycle, this.stormMaxMultiplier := stormPerCycle, stormMaxMultiplier;
      this.seed := seed;
      seedHash := "";
      initialized, isRunning, tickCount := false, false, 0;
      lastTick, ticks := Tick(0, 0), [];
      ohlc := [[], [], [], [], []];
      ohlcvByTimestamp := [map[], map[], map[], map[], map[]];
      currentCandles := [Opened(0, 0), Opened(0, 0), Opened(0, 0), Opened(0, 0), Opened(0, 0)];
      seeded := false;
      endCycles := 0;
      new;
      var _ := InitializeAsync(startTimestamp, initPrice, setupOk);
    }

    /** Stop any run, empty the closed series and reconfigure, then initialise again. */
    method ResetAndInitialize(initPrice: Price := 100000, volatility: real := 0.001,
                              tickInterval: int := 500, stormPerCycle: int := 0,
                              stormMaxMultiplier: real := 2.0, nameonly seed: string,
                              nameonly startTimestamp: int, nameonly setupOk: bool)
      returns (r: Outcome)
      requires Valid()
      modifies this
      ensures Valid() && !isRunning && endCycles == old(endCycles)
      ensures this.initPrice == initPrice && this.volatility == volatility && this.tickInterval == tickInterval
      ensures this.stormPerCycle == stormPerCycle && this.stormMaxMultiplier == stormMaxMultiplier && this.seed == seed
      ensures setupOk ==> r == Done && initialized && seeded && State() == Initial(startTimestamp, initPrice)
                          && seedHash == oracle.seedHash(seed)
      ensures !setupOk ==> r == Failed(OracleSetupFailure) && !initialized && seeded == old(seeded)
                           && State() == Cleared(old(State())) && seedHash == old(seedHash)
    {
      Clear();
      Configure(initPrice, volatility, tickInterval, stormPerCycle, stormMaxMultiplier, seed);
      r := InitializeAsync(startTimestamp, initPrice, setupOk);
    }

    /** Stop the run and empty the closed series and their indexes. */
    method Clear()
      requires Valid()
      modifies this`initialized, this`ohlc, this`ohlcvByTimestamp, this`isRunning
      ensures Valid() && !initialized && !isRunning
      ensures ohlc == [[], [], [], [], []] && ohlcvByTimestamp == [map[], map[], map[], map[], map[]]
      ensures State() == Cleared(old(State()))
    {
      initialized := false;
      ohlc := [[], [], [], [], []];
      ohlcvByTimestamp := [map[], map[], map[], map[], map[]];
      isRunning := false;
      ClearOk(old(State()), old(initialized), seeded, old(isRunning), tickInterval, tickInterval);
    }

    /** Replace the configuration of a session that is not initialised. */
    method Configure(initPrice: Price, volatility: real, tickInterval: int,
                     stormPerCycle: int, stormMaxMultiplier: real, seed: string)
      requires Valid() && !initialized
      modifies this`initPrice, this`volatility, this`tickInterval, this`stormPerCycle,
               this`stormMaxMultiplier, this`seed
      ensures Valid()
      ensures this.initPrice == initPrice && this.volatility == volatility && this.tickInterval == tickInterval
      ensures this.stormPerCycle == stormPerCycle && this.stormMaxMultiplier == stormMaxMultiplier && this.seed == seed
    {
      this.initPrice, this.volatility, this.tickInterval := initPrice, volatility, tickInterval;
      this.stormPerCycle, this.stormMaxMultiplier := stormPerCycle, stormMaxMultiplier;
      this.seed := seed;
    }

    /** Set up the oracle, then seed the candles, the last tick, the tick list and the count.
        Both callers have emptied the closed series first. A failed setup changes nothing. */
    method InitializeAsync(startTimestamp: int, initPrice: Price, setupOk: bool) returns (r: Outcome)
      requires Valid() && !isRunning
      requires ohlc == [[], [], [], [], []] && ohlcvByTimestamp == [map[], map[], map[], map[], map[]]
      modifies this`seedHash, this`currentCandles, this`lastTick, this`ticks, this`tickCount,
               this`initialized, this`seeded
      ensures Valid()
      ensures setupOk ==> r == Done && initialized && seeded && State() == Initial(startTimestamp, initPrice)
                          && seedHash == oracle.seedHash(seed)
      ensures !setupOk ==> r == Failed(OracleSetupFailure) && unchanged(this)
    {
      if !setupOk {
        return Failed(OracleSetupFailure);
      }
      seedHash := oracle.seedHash(seed);
      SeedCursor(startTimestamp, initPrice);
      r := Done;
    }

    /** Seed the candles, the last tick, the tick list and the count from the tick
        (startTimestamp, initPrice), and mark the session initialised. */
    method SeedCursor(startTimestamp: int, initPrice: Price)
      requires Valid() && !isRunning
      requires ohlc == [[], [], [], [], []] && ohlcvByTimestamp == [map[], map[], map[], map[], map[]]
      modifies this`currentCandles, this`lastTick, this`ticks, this`tickCount, this`initialized, this`seeded
      ensures Valid() && initialized && seeded && State() == Initial(startTimestamp, initPrice)
    {
      var tick := Tick(startTimestamp, initPrice);
      InitializeCandles(startTimestamp, initPrice);
      InitialBook(startTimestamp, initPrice, Book());
      lastTick := tick;
      ticks := [tick];
      tickCount := 1;
      initialized := true;
      seeded := true;
      InitialOk(startTimestamp, initPrice, isRunning, tickInterval);
    }

    /** Give every timeframe a flat candle at the start of the bucket that holds `timestamp`. */
    method InitializeCandles(timestamp: int, price: Price)
      requires Shaped()
      modifies this`currentCandles
      ensures Shaped()
      ensures forall tf: Timeframe :: currentCandles[tf] == Opened(BucketStart(timestamp, Duration(tf)), price)
    {
      var tf := 0;
      while tf < 5
        invariant 0 <= tf <= 5 && Shaped()
        invariant forall k: Timeframe :: k < tf ==> currentCandles[k] == Opened(BucketStart(timestamp, Duration(k)), price)
      {
        var candleStart := BucketStart(timestamp, Duration(tf));
        currentCandles := currentCandles[tf := Opened(candleStart, price)];
        tf := tf + 1;
      }
    }

    /** Fold the tick (timestamp, price) into every timeframe: update the current candle's
        high, low and close; on a new bucket, close it into the series and its index and open
        a fresh candle. */
    method UpdateOhlcCandles(timestamp: int, price: Price)
      requires Shaped()
      modifies this`currentCandles, this`ohlc, this`ohlcvByTimestamp
      ensures Shaped()
      ensures Book() == FoldAll(old(Book()), timestamp, price)
    {
      ghost var before := Book();
      var tf := 0;
      while tf < 5
        invariant 0 <= tf <= 5 && Shaped()
        invariant forall k: Timeframe ::
          Series(currentCandles[k], ohlc[k], ohlcvByTimestamp[k])
            == (if k < tf then FoldSeries(before[k], Duration(k), timestamp, price) else before[k])
      {
        var interval := Duration(tf);
        var candleStart := BucketStart(timestamp, interval);
        var currentCandle := currentCandles[tf];
        currentCandle := currentCandle.(high := Max(currentCandle.high, price), low := Min(currentCandle.low, price), close := price);
        currentCandles := currentCandles[tf := currentCandle];
        if currentCandle.start != candleStart {
          ohlcvByTimestamp := ohlcvByTimestamp[tf := ohlcvByTimestamp[tf][currentCandle.start := currentCandle]];
          ohlc := ohlc[tf := ohlc[tf] + [currentCandle]];
          currentCandles := currentCandles[tf := Opened(candleStart, price)];
        }
        tf := tf + 1;
      }
      assert Book() == FoldAll(before, timestamp, price);
    }

    /** The next price from the oracle, or NotInitialized. */
    function GeneratePrice(): (r: Result<Price>)
      reads this
      requires Shaped()
      ensures r.Ok? <==> initialized
      ensures r.Ok? ==> r.value == NextPrice(oracle, Parameters(), State())
    {
      if !initialized then Err(NotInitialized)
      else Ok(oracle.next(seed, lastTick.price, volatility, tickCount, Digits))
    }

    /** One tick: ask the oracle for a price, append the tick one interval after the last,
        count it, fold it, and stop the run once the count reaches the horizon. */
    method UpdateTick() returns (r: Outcome)
      requires Valid()
      modifies this`ticks, this`lastTick, this`tickCount, this`currentCandles, this`ohlc,
               this`ohlcvByTimestamp, this`isRunning, this`endCycles
      ensures Valid()
      ensures !old(initialized) ==> r == Failed(NotInitialized) && unchanged(this)
      ensures old(initialized) ==> && r == Done
                                   && State() == Advance(old(State()), tickInterval, NextPrice(oracle, Parameters(), old(State())))
                                   && isRunning == (old(isRunning) && tickCount < LastTickIndex)
                                   && endCycles == old(endCycles) + (if tickCount >= LastTickIndex then 1 else 0)
    {
      var price := GeneratePrice();
      if price.Err? {
        return Failed(price.error);
      }
      PushTick(price.value);
      r := Done;
      if tickCount < LastTickIndex {
        return;
      }
      isRunning := false;
      endCycles := endCycles + 1;
    }

    /** Append the tick one interval after the last one with price `price` and fold it into
        every timeframe; the step shared by the single and the batch path. */
    method PushTick(price: Price)
      requires Valid() && initialized
      modifies this`ticks, this`lastTick, this`tickCount, this`currentCandles, this`ohlc,
               this`ohlcvByTimestamp
      ensures Valid() && initialized
      ensures State() == Advance(old(State()), tickInterval, price)
    {
      ghost var before := State();
      var newTime := lastTick.time + tickInterval;
      var tick := Tick(newTime, price);
      lastTick := tick;
      ticks := ticks + [tick];
      tickCount := tickCount + 1;
      UpdateOhlcCandles(newTime, price);
      assert State() == Advance(before, tickInterval, price);
      StepOk(before, tickInterval, price, isRunning, isRunning);
    }

    /** Catch up with the clock: while running and the last tick is more than one interval
        behind `now`, produce one more tick. */
    method TicksUntilSync(now: int) returns (ghost steps: nat)
      requires Valid()
      modifies this`ticks, this`lastTick, this`tickCount, this`currentCandles, this`ohlc,
               this`ohlcvByTimestamp, this`isRunning, this`endCycles
      ensures Valid()
      ensures !isRunning || lastTick.time >= now - tickInterval
      ensures State() == Run(old(State()), oracle, Parameters(), steps)
      ensures steps > 0 ==> old(isRunning)
      ensures forall j :: old(|ticks|) <= j < |ticks| ==> ticks[j].time < now
      ensures old(tickCount) < LastTickIndex ==> tickCount <= LastTickIndex
      ensures isRunning == (old(isRunning) && (steps == 0 || tickCount < LastTickIndex))
      ensures tickCount <= Max(LastTickIndex, old(tickCount) + 1)
      ensures endCycles == old(endCycles) + (if old(isRunning) && !isRunning then 1 else 0)
    {
      var targetTime := now - tickInterval;
      ghost var before := State();
      steps := 0;
      while isRunning && lastTick.time < targetTime
        invariant Valid()
        invariant State() == Run(before, oracle, Parameters(), steps)
        invariant old(isRunning) || (steps == 0 && !isRunning)
        invariant forall j :: |before.ticks| <= j < |ticks| ==> ticks[j].time < now
        invariant old(tickCount) < LastTickIndex ==> tickCount <= LastTickIndex && (isRunning ==> tickCount < LastTickIndex)
        invariant isRunning == (old(isRunning) && (steps == 0 || tickCount < LastTickIndex))
        invariant tickCount <= Max(LastTickIndex, old(tickCount) + 1)
        invariant endCycles == old(endCycles) + (if old(isRunning) && !isRunning then 1 else 0)
        decreases (if isRunning then 1 else 0) + (if tickCount < LastTickIndex then LastTickIndex - tickCount else 0)
      {
        ghost var prev := ticks;
        var _ := UpdateTick();
        assert ticks == prev + [lastTick];
        steps := steps + 1;
      }
    }

    /** Start a run synchronised on the clock: a no-op when already running, NotInitialized
        when not initialised, otherwise mark the session running and catch up with `now`. */
    method StartSynchronizedOnNow(now: int) returns (r: Outcome, ghost steps: nat)
      requires Valid()
      modifies this`ticks, this`lastTick, this`tickCount, this`currentCandles, this`ohlc,
               this`ohlcvByTimestamp, this`isRunning, this`endCycles
      ensures Valid()
      ensures old(isRunning) ==> r == Done && steps == 0 && unchanged(this)
      ensures !old(isRunning) && !old(initialized) ==> r == Failed(NotInitialized) && steps == 0 && unchanged(this)
      ensures !old(isRunning) && old(initialized) ==>
        && r == Done
        && State() == Run(old(State()), oracle, Parameters(), steps)
        && (!isRunning || lastTick.time >= now - tickInterval)
        && (forall j :: old(|ticks|) <= j < |ticks| ==> ticks[j].time < now)
        && (old(tickCount) < LastTickIndex ==> tickCount <= LastTickIndex)
        && (isRunning <==> (steps == 0 || tickCount < LastTickIndex))
        && tickCount <= Max(LastTickIndex, old(tickCount) + 1)
        && endCycles == old(endCycles) + (if isRunning then 0 else 1)
    {
      if isRunning {
        return Done, 0;
      }
      if !initialized {
        return Failed(NotInitialized), 0;
      }
      isRunning := true;
      steps := TicksUntilSync(now);
      r := Done;
    }

    /** Stop the run. The candles and ticks are kept. */
    method Destroy()
      requires Valid()
      modifies this`isRunning
      ensures Valid() && !isRunning
    {
      isRunning := false;
    }

    /** `amount` single ticks, one after the other. */
    method DoTicks(amount: int := 1) returns (r: Outcome)
      requires Valid()
      modifies this`ticks, this`lastTick, this`tickCount, this`currentCandles, this`ohlc,
               this`ohlcvByTimestamp, this`isRunning, this`endCycles
      ensures Valid()
      ensures !old(initialized) ==> r == Failed(NotInitialized) && unchanged(this)
      ensures old(initialized) ==>
        && r == Done
        && State() == Run(old(State()), oracle, Parameters(), if amount < 0 then 0 else amount)
        && isRunning == (old(isRunning) && (amount <= 0 || old(tickCount) + amount < LastTickIndex))
        && endCycles == old(endCycles) + HorizonHits(old(tickCount), amount)
    {
      if !initialized {
        return Failed(NotInitialized);
      }
      ghost var before := State();
      var i := 0;
      while i < amount
        invariant Valid() && initialized
        invariant 0 <= i && (i <= amount || i == 0)
        invariant State() == Run(before, oracle, Parameters(), i)
        invariant tickCount == old(tickCount) + i
        invariant isRunning == (old(isRunning) && (i == 0 || old(tickCount) + i < LastTickIndex))
        invariant endCycles == old(endCycles) + HorizonHits(old(tickCount), i)
      {
        var _ := UpdateTick();
        i := i + 1;
      }
      assert i == (if amount < 0 then 0 else amount);
      r := Done;
    }

    /** Element `i` of each of the `count` prices one batch request returns from the last
        price at the current tick count. */
    function GeneratePricesBatch(count: nat): (prices: seq<Price>)
      reads this
      requires Shaped()
      ensures prices == BatchPrices(oracle, Parameters(), State(), count)
    {
      var o, s, first, vol, start := oracle, seed, lastTick.price, volatility, tickCount;
      seq(count, i requires 0 <= i < count => o.batch(s, first, vol, start, Digits, count, i))
    }

    /** `amount` ticks priced by batch requests of at most 1000 prices each. */
    method DoTicksBatch(amount: int := 1) returns (r: Outcome)
      requires Valid()
      modifies this`ticks, this`lastTick, this`tickCount, this`currentCandles, this`ohlc,
               this`ohlcvByTimestamp
      ensures Valid()
      ensures !old(initialized) ==> r == Failed(NotInitialized) && unchanged(this)
      ensures old(initialized) ==>
        && r == Done
        && State() == BatchRun(old(State()), oracle, Parameters(), amount, Min(amount, MaxBatchSize))
    {
      if !initialized {
        return Failed(NotInitialized);
      }
      ghost var before := State();
      var batchSize := Min(amount, MaxBatchSize);
      var remaining := amount;
      while remaining > 0
        invariant Valid() && initialized
        invariant remaining <= 0 || batchSize > 0
        invariant BatchRun(State(), oracle, Parameters(), remaining, batchSize)
          == BatchRun(before, oracle, Parameters(), amount, batchSize)
        decreases remaining
      {
        var currentBatch := Min(remaining, batchSize);
        var newPrices := GeneratePricesBatch(currentBatch);
        PushTicks(newPrices);
        remaining := remaining - currentBatch;
      }
      r := Done;
    }

    /** Append one tick per price, each one interval after the last, folding each into the
        candles; the inner loop of a batch. */
    method PushTicks(prices: seq<Price>)
      requires Valid() && initialized
      modifies this`ticks, this`lastTick, this`tickCount, this`currentCandles, this`ohlc,
               this`ohlcvByTimestamp
      ensures Valid() && initialized
      ensures State() == Feed(old(State()), tickInterval, prices)
    {
      ghost var start := State();
      var i := 0;
      while i < |prices|
        invariant 0 <= i <= |prices|
        invariant Valid() && initialized
        invariant State() == Feed(start, tickInterval, prices[..i])
      {
        PushTick(prices[i]);
        FeedStep(start, tickInterval, prices, i);
        i := i + 1;
      }
      assert prices[..|prices|] == prices;
    }

    /** The chart's candles for one timeframe: the last `maxCandles` closed candles and, when it
        has moved and opens a new bucket, the current candle. Throws when never seeded. */
    function GetOhlcData(tf: Timeframe := 1, maxCandles: int := 100): (r: Result<seq<Candle>>)
      reads this
      requires Valid()
      ensures r.Ok? <==> seeded
      ensures r.Ok? ==> r.value == OhlcData(ohlc[tf], currentCandles[tf], maxCandles)
      ensures r.Ok? && initialized && tickInterval >= 0 && !IsFlat(currentCandles[tf]) ==>
        |r.value| >= 1 && r.value[|r.value| - 1] == currentCandles[tf]
      ensures r.Ok? && maxCandles >= 1 ==> |r.value| <= maxCandles + 1
    {
      if !seeded then Err(Unassigned)
      else
        var closed, current := ohlc[tf], currentCandles[tf];
        if initialized && tickInterval >= 0 && !IsFlat(current) then
          assert Chronological(State().book[tf]);
          OhlcDataShowsMovedCandle(closed, current, maxCandles);
          Ok(OhlcData(closed, current, maxCandles))
        else
          Ok(OhlcData(closed, current, maxCandles))
    }

    /** The current candle of one timeframe, or null when never seeded. It holds the last tick:
        its bucket contains the last tick's time and its close is the last price. */
    function GetCurrentCandle(tf: Timeframe := 1): (r: Option<Candle>)
      reads this
      requires Valid()
      ensures r.Some? <==> seeded
      ensures r.Some? ==> r.value == currentCandles[tf]
      ensures r.Some? ==> && r.value.start == BucketStart(lastTick.time, Duration(tf))
                          && r.value.close == lastTick.price
                          && r.value.low <= lastTick.price <= r.value.high
                          && r.value.low <= r.value.open <= r.value.high
    {
      if !seeded then None
      else
        assert SeriesOk(State().book[tf], Duration(tf), lastTick);
        Some(currentCandles[tf])
    }

    /** The development snapshot: the seed only when asked for, the last `maxTicks` ticks and
        the last ten closed candles of the 1m, 5m, 15m and 1h series. Throws when never seeded. */
    function GetDataDev(maxTicks: int := 100, includesSeed: bool := false): (r: Result<DevData>)
      reads this
      requires Valid()
      ensures r.Ok? <==> seeded
      ensures r.Ok? ==> && r.value.seed == (if includesSeed then Some(seed) else None)
                        && r.value.seedHash == seedHash && r.value.lastTick == lastTick
                        && r.value.tickInterval == tickInterval
                        && r.value.ticks == SliceLast(ticks, maxTicks)
                        && r.value.ohlc == [OhlcData(ohlc[1], currentCandles[1], 10), OhlcData(ohlc[2], currentCandles[2], 10),
                                            OhlcData(ohlc[3], currentCandles[3], 10), OhlcData(ohlc[4], currentCandles[4], 10)]
    {
      if !seeded then Err(Unassigned)
      else
        var m1 := GetOhlcData(1, 10);
        var m5 := GetOhlcData(2, 10);
        var m15 := GetOhlcData(3, 10);
        var h1 := GetOhlcData(4, 10);
        Ok(DevData(if includesSeed then Some(seed) else None, seedHash, lastTick, tickInterval,
                   SliceLast(ticks, maxTicks), [m1.value, m5.value, m15.value, h1.value]))
    }

    /** The development snapshot with its ticks down-sampled: only the ticks whose position in
        the returned tail is a multiple of |gap|, and none when `gap` is zero. */
    function GetDataWithJumpsDev(maxTicks: int := 100, gap: int := 100): (r: Result<DevData>)
      reads this
      requires Valid()
      ensures r.Ok? <==> seeded
      ensures r.Ok? ==> && r.value.seed == None
                        && r.value.seedHash == seedHash && r.value.lastTick == lastTick
                        && r.value.tickInterval == tickInterval
                        && r.value.ohlc == [OhlcData(ohlc[1], currentCandles[1], 10), OhlcData(ohlc[2], currentCandles[2], 10),
                                            OhlcData(ohlc[3], currentCandles[3], 10), OhlcData(ohlc[4], currentCandles[4], 10)]
                        && (gap == 0 ==> r.value.ticks == [])
                        && (gap != 0 ==> r.value.ticks == Strided(SliceLast(ticks, maxTicks), Abs(gap)))
    {
      var data := GetDataDev(maxTicks, false);
      if data.Err? then data
      else
        EveryNthIsStrided(data.value.ticks, gap);
        Ok(data.value.(ticks := EveryNth(data.value.ticks, gap)))
    }
  }
}
