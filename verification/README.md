# FlowGeneratorWasm tick-and-candle engine

A Dafny model of the `FlowGeneratorWasm` session in `flow-generator-wasm.js`: a simulated
market feed that produces one tick every `tickInterval` milliseconds, priced by an external
oracle, and folds each tick into open/high/low/close candles for five timeframes
(15s, 1m, 5m, 15m, 1h).

The project has five modules.

- `Candles` (candles.dfy) holds ticks, candles, bucket alignment `floor(t / d) * d`, and the
  fold of one tick into one timeframe's series: the current candle, the closed candles and the
  index by bucket start. It also holds the series invariants: well-formed candles and
  chronological order.
- `PriceOracle` (oracle.dfy) is the price oracle as three given functions: the single price
  request, element `i` of a batch request, and the seed digest. The predicate `BatchAgrees`
  states that a batch equals chained single requests.
- `Flow` (flow.dfy) is the engine state as a value. It defines the transitions as functions:
  `Initial`, `Advance` (one tick), `Run` (n single ticks), `Feed` (ticks with given prices) and
  `BatchRun` (the chunked batch path). Lemmas state what these transitions keep and how they
  relate.
- `Queries` (queries.dfy) holds the read-only views: JavaScript's `slice(-m)`, including the
  `m == 0` case that returns the whole array; the chart view of one timeframe; and the `index %
  gap === 0` down-sampling, proved equal to a strided reference definition.
- `Generator` (generator.dfy) is the class `FlowGeneratorWasm`. Its fields are the source's
  fields, with `ohlc`, `ohlcvByTimestamp` and `currentCandles` indexed by timeframe. Its methods
  are the source's loops, and each is proved against the `Flow` function it implements.
  `Valid()` is the session invariant.

The wall clock (`Date.now()`) is the parameter `now`. Whether the oracle's setup succeeds is
the parameter `setupOk`. End-of-cycle events are counted in the ghost field `endCycles`.
Prices are integers, in fixed point with two decimals: the engine only compares and copies
them.

## Model

| member | source | states |
|---|---|---|
| Candles.Duration | flow-generator-wasm.js:6 | every timeframe width is positive and a multiple of 15 seconds |
| Candles.BucketStart | flow-generator-wasm.js:97 | the candle start is aligned to the width and its bucket holds the timestamp |
| Candles.BucketStartUnique | flow-generator-wasm.js:103 | the aligned start is the only aligned value whose bucket holds the timestamp |
| Candles.BucketStartMonotone | flow-generator-wasm.js:103 | a later timestamp never has an earlier bucket start |
| Candles.Touch | flow-generator-wasm.js:107-109 | the high is raised to the price, the low is lowered to it and the close is set to it; the start and the open are kept |
| Candles.FoldSeries | flow-generator-wasm.js:101-116 | after the fold, the current candle lies in the tick's bucket and closes at the price; the closed list changes exactly when the bucket changes; at most one candle closes per tick |
| Candles.SameBucket | flow-generator-wasm.js:107-110 | a tick in the current bucket leaves the closed list and the index unchanged, and only moves high, low and close |
| Candles.Rollover | flow-generator-wasm.js:110-114 | a tick in another bucket appends the updated old candle (its close, high and low include the new price) and indexes it under its old start; a flat candle opens at the new bucket, and skipped buckets get no candle |
| Candles.OpenedOk | flow-generator-wasm.js:95-100 | a freshly seeded series is well formed and chronological |
| Candles.FoldKeepsOk | flow-generator-wasm.js:103-114 | the fold keeps every candle well formed (`low <= open <= high`, `low <= close <= high`, aligned start) and keeps the index consistent with the closed list |
| Candles.FoldKeepsChronological | flow-generator-wasm.js:103-114 | with non-decreasing timestamps, closed starts stay strictly increasing, below the current start, and found by the index |
| Flow.InitialState | flow-generator-wasm.js:84-90 | after seeding, each current candle is flat at the initial price and starts at the aligned bucket of the start timestamp; nothing is closed; the seed tick is the only tick, it is the last tick, and the count is 1; the tick list is evenly spaced for every interval |
| Flow.ClearedKeeps | flow-generator-wasm.js:62-63 | emptying the closed series and their indexes keeps a coherent state coherent and in order |
| Flow.AdvanceCoherent | flow-generator-wasm.js:121-129 | one tick step keeps the last tick at the end of the tick list, the count equal to the list length, and every series well formed for the new last tick |
| Flow.AdvanceInOrder | flow-generator-wasm.js:121-129 | with a non-negative interval, one tick step keeps every series chronological |
| Flow.AdvanceExtends | flow-generator-wasm.js:123-127 | one tick step appends exactly one tick, one interval after the last, and raises the count by one |
| Flow.ExtendsSpaced | flow-generator-wasm.js:123-126 | appending interval-spaced ticks to an evenly spaced list keeps it evenly spaced |
| Flow.RunCursor | flow-generator-wasm.js:117-127 | after n single steps the count has grown by n and the last price is the oracle's n-fold chained price from the old last price, indexed from the old count |
| Flow.RunKeeps | flow-generator-wasm.js:173-176 | n single steps keep the state coherent (and in order), and append exactly n ticks spaced by the interval |
| Flow.RunAdd | flow-generator-wasm.js:173-176 | a steps followed by b steps are a + b steps |
| Flow.FeedPrefixIsRun | flow-generator-wasm.js:186-199 | stepping with the first i prices of a batch is i single steps, when the batch oracle agrees with chained single requests |
| Flow.BatchPriceIsNext | price-generator-wasm.js:87-119 | element i of a batch is the price the single path requests after i single steps |
| Flow.ChunkIsRun | flow-generator-wasm.js:184-199 | stepping with a whole batch of n prices is n single steps |
| Flow.BatchRunIsRun | flow-generator-wasm.js:178-203 | whatever the chunk size, the batch path ends in the same ticks, last tick, count and candles as the same number of single steps |
| Flow.FeedKeeps | flow-generator-wasm.js:191-199 | stepping with any prices keeps the state coherent, and in order for a non-negative interval |
| Flow.FeedExtends | flow-generator-wasm.js:191-199 | stepping with prices appends one tick per price, spaced by the interval and carrying that price |
| Flow.BatchRunKeeps | flow-generator-wasm.js:178-203 | with any batch oracle, the batch path appends exactly `amount` spaced ticks (none when `amount` is not positive) and keeps the invariants |
| Flow.StepOk | flow-generator-wasm.js:121-134 | a tick step keeps the session invariant, whether or not it stops the run |
| Flow.ClearOk | flow-generator-wasm.js:62-72 | clearing and stopping keeps the session invariant for any new interval |
| Flow.InitialOk | flow-generator-wasm.js:84-90 | a successful seeding establishes the session invariant |
| Generator.HorizonHitsCount | flow-generator-wasm.js:131-134 | the end-of-cycle event fires for no tick while the count stays below 86401, and once per tick numbered 86401 or more |
| Generator.FlowGeneratorWasm.constructor | flow-generator-wasm.js:45-56 | stores the configuration; on a successful setup the session is seeded at the start timestamp, otherwise it stays uninitialised and unseeded; no end-of-cycle event has fired; the parameters carry the source's defaults |
| Generator.FlowGeneratorWasm.ResetAndInitialize | flow-generator-wasm.js:58-76 | stops the run and installs the new configuration; on success the state is the initial state of the new start; on a setup failure the closed series are emptied, the current candles and ticks are kept, and the session stays uninitialised |
| Generator.FlowGeneratorWasm.Clear | flow-generator-wasm.js:62-67 | the run stops, the session is uninitialised, and every closed series and index is empty |
| Generator.FlowGeneratorWasm.Configure | flow-generator-wasm.js:71-73 | the configuration fields take the new values and the invariant holds |
| Generator.FlowGeneratorWasm.InitializeAsync | flow-generator-wasm.js:78-94 | on a setup failure nothing changes; otherwise the seed hash is the oracle's digest of the seed and the state is the initial state |
| Generator.FlowGeneratorWasm.SeedCursor | flow-generator-wasm.js:84-90 | the state becomes the initial state for the start tick, and the session is initialised |
| Generator.FlowGeneratorWasm.InitializeCandles | flow-generator-wasm.js:95-100 | every timeframe's current candle is flat at the price, at the aligned start of the timestamp's bucket |
| Generator.FlowGeneratorWasm.UpdateOhlcCandles | flow-generator-wasm.js:101-116 | the five series become the fold of the tick into each of them |
| Generator.FlowGeneratorWasm.GeneratePrice | flow-generator-wasm.js:117-120 | NotInitialized before initialisation; otherwise the oracle's price from the last price at the current count |
| Generator.FlowGeneratorWasm.UpdateTick | flow-generator-wasm.js:121-135 | NotInitialized with nothing changed, or one tick step priced by the oracle; the run stops and an end-of-cycle event fires exactly when the count reaches 86401 or more |
| Generator.FlowGeneratorWasm.PushTick | flow-generator-wasm.js:123-129 | appends the next spaced tick with the given price and folds it; the state is one step further |
| Generator.FlowGeneratorWasm.TicksUntilSync | flow-generator-wasm.js:145-148 | on exit the run has stopped or the last tick is at least `now - tickInterval`; the new state is a run of single steps, taken only when running, with every new tick earlier than `now`; the count ends no higher than 86401 or one past its start, so a run restarted at or past the horizon takes at most one tick; the run is still on exactly when it was on and either no tick was taken or the count is still below 86401, so it stops only at the horizon |
| Generator.FlowGeneratorWasm.StartSynchronizedOnNow | flow-generator-wasm.js:136-144 | a no-op when running; NotInitialized with nothing changed when not initialised; otherwise it starts and catches up as above, and it is still running exactly when no tick was taken or the count is below 86401; the count ends no higher than 86401 or one past its start |
| Generator.FlowGeneratorWasm.Destroy | flow-generator-wasm.js:149-154 | the run stops and nothing else changes |
| Generator.FlowGeneratorWasm.DoTicks | flow-generator-wasm.js:173-176 | NotInitialized with nothing changed, or exactly `amount` single steps (none for a non-positive amount); the run stays on only while the count is below 86401, and the end-of-cycle count grows by the horizon hits |
| Generator.FlowGeneratorWasm.GeneratePricesBatch | flow-generator-wasm.js:186-189 | the prices of one batch request from the last price at the current count |
| Generator.FlowGeneratorWasm.DoTicksBatch | flow-generator-wasm.js:178-203 | NotInitialized with nothing changed, or the batch path with chunks of `min(amount, 1000)`; its frame leaves `isRunning` untouched even past the horizon |
| Generator.FlowGeneratorWasm.PushTicks | flow-generator-wasm.js:191-199 | the state is the previous one stepped with each price in turn |
| Generator.FlowGeneratorWasm.GetOhlcData | flow-generator-wasm.js:156-166 | an error before the first seeding; otherwise the chart view of the series, which ends with the current candle whenever that candle has moved, and holds at most `maxCandles + 1` candles for `maxCandles >= 1` |
| Generator.FlowGeneratorWasm.GetCurrentCandle | flow-generator-wasm.js:168-170 | nothing before the first seeding; otherwise the stored current candle of the timeframe, whose bucket holds the last tick, which closes at the last price and whose range holds its open and close |
| Generator.FlowGeneratorWasm.GetDataDev | flow-generator-wasm.js:204-218 | the seed only when asked for, the last `maxTicks` ticks, and the chart views of the 1m, 5m, 15m and 1h series with at most ten closed candles each |
| Generator.FlowGeneratorWasm.GetDataWithJumpsDev | flow-generator-wasm.js:219-223 | the snapshot of `GetDataDev` without the seed (same seed hash, last tick, interval and four chart views), with ticks down-sampled to every abs(gap)-th one, and no ticks when `gap` is zero |
| Queries.SliceLast | flow-generator-wasm.js:157 | the result is a suffix: the last `min(m, n)` elements for `m >= 1`, everything for `m == 0`, and all but the first `-m` for `m < 0` |
| Queries.OhlcData | flow-generator-wasm.js:156-166 | the tail of the closed candles, followed by the current candle exactly when it is not flat and its start differs from the last returned start; the size bound; the `slice(-0)` case returns every closed candle |
| Queries.OhlcDataShowsMovedCandle | flow-generator-wasm.js:160-164 | when every closed candle starts before the current one, a candle that is not flat is always shown last |
| Queries.EveryNthIsStrided | flow-generator-wasm.js:221 | the `index % gap === 0` filter keeps exactly the elements at indices 0, abs(gap), 2 abs(gap), ... in order, and nothing when `gap` is zero |

## Left out

- Timers: `setInterval`, `clearInterval` and `intervalId` are not modelled. Only the `isRunning` flag is.
  The periodic re-run of the catch-up after `startSynchronizedOnNow` is not modelled; one catch-up is.
- Observer callbacks `onTickHandler` and `endCycleHandler` are not modelled. The end-of-cycle
  callback is counted in the ghost field `endCycles`.
- `async`/`await` is treated as sequential calls. The constructor's un-awaited initialisation is
  modelled as if it completed before the constructor returns.
- Logging, and `generateRandomSeed`/`todayFirstTimestamp` from `../utils.js`: `utils.js` is not
  part of this model. The seed and the start timestamp are parameters. They are name-only
  parameters with no default value. The other defaults of the constructor and of
  `resetAndInitialize` (price 1000.0 as 100000, volatility 0.001, interval 500, no storms,
  storm multiplier 2.0) and those of `doTicks`, `doTicksBatch` (1), `getOhlcData` (`'1m'` as
  index 1, 100), `getCurrentCandle` (`'1m'`), `getData_dev` (100, false) and
  `getDataWithJumps_dev` (100, 100) are default-value expressions of the Dafny parameters.
- The contents of `price-generator-wasm.js`: WASM loading, memory marshalling, `initStorms`, the
  price arithmetic, rounding and storm multipliers. The oracle is a set of given functions.
  Oracle setup (`getPriceGenerator`, `initStorms`, `getSeedHash`) is a single success flag:
  a failure is modelled as changing nothing.
- The batch oracle: the relation between the batch buffer and chained single requests is a
  hypothesis (`BatchAgrees`) of the equivalence lemmas. The buffer's element `i` is taken to be
  the price after `i + 1` steps. The WASM code that would confirm this is not part of this model.
- `getStormMultiplier` and `ticksMultipliers` are pass-throughs or unused state.
- Floating point: prices are fixed-point integers and volatility is a real that is only passed
  through.
- Candles and ticks are values. The source shares candle arrays between `ohlc`,
  `ohlcvByTimestamp` and the array `getOhlcData` returns, so a caller's copy of the current
  candle keeps changing. That aliasing is not captured.
- The timeframe name lookup (`'1m'` and so on) is an index 0..4. An unknown name, which
  the source turns into `undefined` or a TypeError, is not modelled.
- Non-integer or non-numeric `amount`, `maxCandles`, `maxTicks` and `gap` are not modelled.
- The `throw` on a missing current candle inside the fold (line 105) is not modelled. Every
  path that folds a tick first requires an initialised, and hence seeded, session.
- Generator.FlowGeneratorWasm.GetOhlcData: the "current candle shown last" guarantee is stated
  only for an initialised session with a non-negative interval. Those are the conditions under
  which the closed candles are proved chronological.
