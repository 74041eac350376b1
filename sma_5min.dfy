/**
  The 5-minute SMA crossover generator (signals/sma_5min.py). The moving averages themselves are
  library numerics and arrive as a reading; what is modelled is the crossover and trend decision,
  the per-coin trend memory it keeps, and the strength formula.
*/
module Sma5Min {
  import opened Wrappers
  import opened Signals
  import opened CandleFeed

  const SourceName: string := "sma_5min"
  const DefaultShortPeriod: int := 10
  const DefaultLongPeriod: int := 20

  /** The trend last signalled for a coin. */
  datatype Trend = Bullish | Bearish

  /** Short and long SMA on the previous and the last candle, and the last close. */
  datatype SmaReading = SmaReading(prevShort: real, prevLong: real, curShort: real, curLong: real, price: real)

  /** The short SMA crosses above the long one on the last candle. */
  predicate BullishCross(r: SmaReading) {
    r.prevShort <= r.prevLong && r.curShort > r.curLong
  }

  /** The short SMA crosses below the long one on the last candle. */
  predicate BearishCross(r: SmaReading) {
    r.prevShort >= r.prevLong && r.curShort < r.curLong
  }

  function Abs(x: real): real { if x < 0.0 then -x else x }

  /**
    `_calculate_signal_strength`: 0.6 plus twenty times the relative SMA separation, capped at 1,
    when the SMAs and the price confirm the action; 0 otherwise. A zero long SMA makes the
    separation infinite, which the cap turns into 1.
  */
  function Strength(shortSma: real, longSma: real, price: real, action: Action): (s: real)
    ensures action == Hold ==> s == 0.0
    ensures longSma > 0.0 ==>
      (s != 0.0 <==> (action == Buy && shortSma > longSma && price > shortSma) ||
                     (action == Sell && shortSma < longSma && price < shortSma))
    ensures longSma > 0.0 ==> s == 0.0 || 0.6 <= s <= 1.0
    ensures longSma > 0.0 && s != 0.0 && Abs(shortSma - longSma) >= 0.02 * longSma ==> s == 1.0
  {
    var confirmed := (action == Buy && shortSma > longSma && price > shortSma) ||
                     (action == Sell && shortSma < longSma && price < shortSma);
    if !confirmed then 0.0
    else if longSma == 0.0 then 1.0
    else
      var separation := Abs(shortSma - longSma) / longSma;
      SeparationBounds(Abs(shortSma - longSma), longSma);
      Min(1.0, 0.6 + separation * 20.0)
  }

  /** A relative separation is non-negative, and at least 2% once the gap is 2% of the divisor. */
  lemma SeparationBounds(gap: real, base: real)
    requires gap >= 0.0 && base != 0.0
    ensures base > 0.0 ==> gap / base >= 0.0
    ensures base > 0.0 && gap >= 0.02 * base ==> gap / base >= 0.02
  {
    if base > 0.0 {
      QuotientMonotone(0.0, gap, base);
      if gap >= 0.02 * base {
        QuotientMonotone(0.02 * base, gap, base);
      }
    }
  }

  /**
    The decision of `generate_signal` for one coin whose recorded trend is `prev`: the action, and
    the trend written back for the coin (`None` when the entry is left alone).
  */
  function Decide(prev: Option<Trend>, r: SmaReading): (d: (Action, Option<Trend>))
    ensures d.0 == Buy <==> r.curShort > r.curLong && (r.prevShort <= r.prevLong || prev != Some(Bullish))
    ensures d.0 == Sell <==> r.curShort < r.curLong && (r.prevShort >= r.prevLong || prev != Some(Bearish))
    ensures d.0 == Buy ==> d.1 == Some(Bullish)
    ensures d.0 == Sell ==> d.1 == Some(Bearish)
    ensures d.0 == Hold <==> d.1 == None
  {
    if BullishCross(r) then (Buy, Some(Bullish))
    else if BearishCross(r) then (Sell, Some(Bearish))
    else if r.curShort > r.curLong then
      (if prev != Some(Bullish) then (Buy, Some(Bullish)) else (Hold, None))
    else if r.curShort < r.curLong then
      (if prev != Some(Bearish) then (Sell, Some(Bearish)) else (Hold, None))
    else (Hold, None)
  }

  /** Enough candles were fetched for the long SMA on two consecutive candles. */
  predicate EnoughCandles(longPeriod: int, available: Option<nat>) {
    var rows := Fetched(available, longPeriod + 50);
    rows.Some? && rows.value >= longPeriod + 1
  }

  /**
    `generate_signal` as a function of the trend memory: the signal returned and the memory
    afterwards. The memory is written before the record is built, so it keeps its new entry even
    when the record fails validation.
  */
  function GenerateSpec(memory: map<string, Trend>, longPeriod: int, coin: string, available: Option<nat>,
                        r: SmaReading, now: int): (res: (Option<Signal>, map<string, Trend>))
    ensures !EnoughCandles(longPeriod, available) ==> res == (None, memory)
    ensures forall c :: c != coin ==> (c in res.1 <==> c in memory)
    ensures forall c :: c != coin && c in memory ==> res.1[c] == memory[c]
    ensures res.0.Some? ==> Valid(res.0.value) && res.0.value.coin == coin && res.0.value.source == SourceName
    ensures res.0.Some? ==> res.0.value.action == Decide(Get(memory, coin), r).0
    ensures res.0.Some? ==> res.0.value.strength == Strength(r.curShort, r.curLong, r.price, Decide(Get(memory, coin), r).0)
    ensures EnoughCandles(longPeriod, available) && Decide(Get(memory, coin), r).1.Some? ==>
      coin in res.1 && res.1[coin] == Decide(Get(memory, coin), r).1.value
    ensures !(EnoughCandles(longPeriod, available) && Decide(Get(memory, coin), r).1.Some?) ==>
      Get(res.1, coin) == Get(memory, coin)
    ensures EnoughCandles(longPeriod, available) && coin != "" && r.curLong > 0.0 ==> res.0.Some?
  {
    if !EnoughCandles(longPeriod, available) then (None, memory)
    else
      var d := Decide(Get(memory, coin), r);
      var memory' := if d.1.Some? then memory[coin := d.1.value] else memory;
      (NewSignal(coin, ActionName(d.0), Strength(r.curShort, r.curLong, r.price, d.0), now, SourceName), memory')
  }

  /** Equal SMAs with no crossover hold and leave the memory alone. */
  lemma FlatHolds(memory: map<string, Trend>, longPeriod: int, coin: string, available: Option<nat>, r: SmaReading, now: int)
    requires r.curShort == r.curLong
    ensures GenerateSpec(memory, longPeriod, coin, available, r, now).1 == memory
    ensures GenerateSpec(memory, longPeriod, coin, available, r, now).0.Some? ==>
            GenerateSpec(memory, longPeriod, coin, available, r, now).0.value.action == Hold
  {
  }

  /**
    A trend is signalled once: after a call in an established uptrend (no crossover), a second
    call with the same reading holds and leaves the memory as the first call left it; likewise
    for a downtrend.
  */
  lemma TrendSignalledOnce(memory: map<string, Trend>, longPeriod: int, coin: string, available: Option<nat>,
                           r: SmaReading, now: int, later: int)
    requires EnoughCandles(longPeriod, available)
    requires (r.curShort > r.curLong && r.prevShort > r.prevLong) || (r.curShort < r.curLong && r.prevShort < r.prevLong)
    ensures var first := GenerateSpec(memory, longPeriod, coin, available, r, now);
            var second := GenerateSpec(first.1, longPeriod, coin, available, r, later);
            second.1 == first.1 && (coin != "" ==> second.0 == Some(Signal(coin, Hold, 0.0, later, SourceName)))
  {
    var first := GenerateSpec(memory, longPeriod, coin, available, r, now);
    assert coin in first.1 && first.1[coin] == (if r.curShort > r.curLong then Bullish else Bearish);
  }

  /** The generator: its periods and the per-coin trend memory (`previous_crossover`). */
  class Generator {
    const shortPeriod: int
    const longPeriod: int
    var previousCrossover: map<string, Trend>

    constructor(shortPeriod: int, longPeriod: int)
      ensures this.shortPeriod == shortPeriod && this.longPeriod == longPeriod
      ensures previousCrossover == map[]
    {
      this.shortPeriod := shortPeriod;
      this.longPeriod := longPeriod;
      previousCrossover := map[];
    }

    /** `generate_signal` for one coin: `available` is what the candle request returned. */
    method GenerateSignal(coin: string, available: Option<nat>, r: SmaReading, now: int) returns (signal: Option<Signal>)
      modifies this
      ensures (signal, previousCrossover) == GenerateSpec(old(previousCrossover), longPeriod, coin, available, r, now)
    {
      var rows := Fetched(available, longPeriod + 50);
      if rows.None? || rows.value < longPeriod + 1 {
        return None;
      }
      var action := Hold;
      if r.prevShort <= r.prevLong && r.curShort > r.curLong {
        action := Buy;
        previousCrossover := previousCrossover[coin := Bullish];
      } else if r.prevShort >= r.prevLong && r.curShort < r.curLong {
        action := Sell;
        previousCrossover := previousCrossover[coin := Bearish];
      } else if r.curShort > r.curLong {
        if Get(previousCrossover, coin) != Some(Bullish) {
          action := Buy;
          previousCrossover := previousCrossover[coin := Bullish];
        }
      } else if r.curShort < r.curLong {
        if Get(previousCrossover, coin) != Some(Bearish) {
          action := Sell;
          previousCrossover := previousCrossover[coin := Bearish];
        }
      }
      var strength := Strength(r.curShort, r.curLong, r.price, action);
      signal := NewSignal(coin, ActionName(action), strength, now, SourceName);
    }
  }
}
