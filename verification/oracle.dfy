/** The external price oracle, taken as given functions. */
module PriceOracle {
  import opened Candles

  /** The oracle's three entry points, as pure functions:
      - `next(seed, lastPrice, volatility, tickIndex, digits)` is the next price;
      - `batch(seed, firstPrice, volatility, startTickIndex, digits, count, i)` is element `i`
        of the `count`-long price buffer that the batch call fills, whose first input element
        is `firstPrice`;
      - `seedHash(seed)` is the digest shown for a seed. */
  datatype Oracle = Oracle(
    next: (string, Price, real, int, int) -> Price,
    batch: (string, Price, real, int, int, nat, nat) -> Price,
    seedHash: string -> string)

  /** The settings every price request passes through to the oracle, plus the tick spacing. */
  datatype Params = Params(seed: string, volatility: real, tickInterval: int, digits: int)

  /** The price after `i` chained single requests that start from `first` at tick index `start`. */
  function Chain(o: Oracle, seed: string, vol: real, digits: int, first: Price, start: int, i: nat): Price
    decreases i
  {
    if i == 0 then first
    else o.next(seed, Chain(o, seed, vol, digits, first, start, i - 1), vol, start + i - 1, digits)
  }

  /** The documented contract of the batch call: element `i` of the buffer is the price after
      `i + 1` chained single requests from the buffer's first element. */
  ghost predicate BatchAgrees(o: Oracle)
  {
    forall seed, first, vol, start, digits, count: nat, i: nat {:trigger o.batch(seed, first, vol, start, digits, count, i)} ::
      i < count ==>
        o.batch(seed, first, vol, start, digits, count, i) == Chain(o, seed, vol, digits, first, start, i + 1)
  }
}
