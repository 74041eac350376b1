/**
  The signal loops of the range, SMA and MACD backtests (panel_modules/pages/backtest_page.py) and
  the runs that feed their signals through the trade simulation. Indicator columns are inputs;
  `None` is a NaN cell, which fails every comparison.
*/
module BacktestSignals {
  import opened Wrappers
  import opened Signals
  import opened BacktestSimulation
  import Range24HLow
  import Sma5Min
  import Macd15Min

  /** A candle of the historical frame as the range backtest reads it. */
  datatype Candle = Candle(timestamp: int, low: real, close: real)

  /** The range loop's state: signals so far and whether the price is inside the band. */
  datatype RangeState = RangeState(signals: seq<BtSignal>, inRange: bool)

  /**
    One candle of the range loop: entering the band emits BUY; leaving it while inside, above or
    below, emits SELL; anything else changes nothing.
  */
  function RangeStep(st: RangeState, c: Candle, lo: real, hi: real): RangeState {
    if !st.inRange && lo <= c.close <= hi then RangeState(st.signals + [BtSignal(c.timestamp, c.close, 0.0, Buy)], true)
    else if st.inRange && c.close > hi then RangeState(st.signals + [BtSignal(c.timestamp, c.close, 0.0, Sell)], false)
    else if st.inRange && c.close < lo then RangeState(st.signals + [BtSignal(c.timestamp, c.close, 0.0, Sell)], false)
    else st
  }

  function RangeRun(candles: seq<Candle>, lo: real, hi: real): RangeState
    decreases |candles|
  {
    if candles == [] then RangeState([], false)
    else RangeStep(RangeRun(candles[..|candles| - 1], lo, hi), candles[|candles| - 1], lo, hi)
  }

  /** The range loop of `_run_range_backtest`, toggling `in_range` as it goes. */
  method RangeSignalLoop(candles: seq<Candle>, lo: real, hi: real) returns (signals: seq<BtSignal>)
    ensures signals == RangeRun(candles, lo, hi).signals
  {
    signals := [];
    var inRange := false;
    for i := 0 to |candles|
      invariant RangeState(signals, inRange) == RangeRun(candles[..i], lo, hi)
    {
      assert candles[..i + 1][..i] == candles[..i];
      var price := candles[i].close;
      if !inRange && lo <= price <= hi {
        signals := signals + [BtSignal(candles[i].timestamp, price, 0.0, Buy)];
        inRange := true;
      } else if inRange && price > hi {
        signals := signals + [BtSignal(candles[i].timestamp, price, 0.0, Sell)];
        inRange := false;
      } else if inRange && price < lo {
        signals := signals + [BtSignal(candles[i].timestamp, price, 0.0, Sell)];
        inRange := false;
      }
    }
    assert candles[..|candles|] == candles;
  }

  /** What the range loop guarantees about its output. */
  ghost predicate RangeShaped(st: RangeState, lo: real, hi: real) {
    (st.inRange <==> |st.signals| % 2 == 1) &&
    (forall k :: 0 <= k < |st.signals| ==> st.signals[k].action == (if k % 2 == 0 then Buy else Sell)) &&
    (forall k :: 0 <= k < |st.signals| && st.signals[k].action == Buy ==> lo <= st.signals[k].price <= hi) &&
    (forall k :: 0 <= k < |st.signals| && st.signals[k].action == Sell ==> st.signals[k].price > hi || st.signals[k].price < lo)
  }

  /**
    The range signals alternate BUY, SELL, BUY, ... starting with BUY; the loop is inside the band
    exactly after an odd number of them; every BUY price lies in the band and every SELL price outside.
  */
  lemma {:induction false} RangeAlternates(candles: seq<Candle>, lo: real, hi: real)
    ensures RangeShaped(RangeRun(candles, lo, hi), lo, hi)
    decreases |candles|
  {
    if candles != [] {
      var n := |candles| - 1;
      RangeAlternates(candles[..n], lo, hi);
      var prev := RangeRun(candles[..n], lo, hi);
      var next := RangeRun(candles, lo, hi);
      assert next == RangeStep(prev, candles[n], lo, hi);
      if next != prev {
        assert forall k :: 0 <= k < |prev.signals| ==> next.signals[k] == prev.signals[k];
      }
    }
  }

  function Lows(candles: seq<Candle>): (lows: seq<real>)
    ensures |lows| == |candles|
  {
    seq(|candles|, i requires 0 <= i < |candles| => candles[i].low)
  }

  /**
    `_run_range_backtest`: the band computed from the period's lowest low as the live generator
    computes it, the range loop over the closes, the simulation and the statistics. An empty frame
    has a NaN low, no signals and no result.
  */
  function RangeBacktest(coin: string, candles: seq<Candle>, offsetPercent: real, tolerancePercent: real, sizeUsd: real)
    : Option<BacktestResult>
  {
    if candles == [] then None
    else
      var band := Range24HLow.BuyRange(Range24HLow.SeqMin(Lows(candles)), offsetPercent, tolerancePercent);
      var signals := RangeRun(candles, band.0, band.1).signals;
      Summarize(coin, offsetPercent, tolerancePercent, 0.0, Simulate(signals, sizeUsd).trades, |signals|)
  }

  /** In a range backtest every SELL closes the BUY before it: there are half as many trades as signals. */
  lemma RangeBacktestPairsEverySignal(coin: string, candles: seq<Candle>, offsetPercent: real, tolerancePercent: real, sizeUsd: real)
    requires RangeBacktest(coin, candles, offsetPercent, tolerancePercent, sizeUsd).Some?
    ensures var r := RangeBacktest(coin, candles, offsetPercent, tolerancePercent, sizeUsd).value;
            r.totalTrades == r.signalsGenerated / 2
  {
    var band := Range24HLow.BuyRange(Range24HLow.SeqMin(Lows(candles)), offsetPercent, tolerancePercent);
    RangeAlternates(candles, band.0, band.1);
    AlternatingSimulation(RangeRun(candles, band.0, band.1).signals, sizeUsd);
  }

  method RunRangeBacktest(coin: string, candles: seq<Candle>, offsetPercent: real, tolerancePercent: real, sizeUsd: real)
    returns (result: Option<BacktestResult>)
    ensures result == RangeBacktest(coin, candles, offsetPercent, tolerancePercent, sizeUsd)
  {
    if candles == [] {
      return None;
    }
    var band := Range24HLow.BuyRange(Range24HLow.SeqMin(Lows(candles)), offsetPercent, tolerancePercent);
    var signals := RangeSignalLoop(candles, band.0, band.1);
    var trades := SimulateTrades(signals, sizeUsd);
    result := Summarize(coin, offsetPercent, tolerancePercent, 0.0, trades, |signals|);
  }

  /** The signals a loop over consecutive rows (from the second row on) emits through `emit`. */
  function Emitted<B>(rows: seq<B>, emit: (B, B) -> Option<BtSignal>): seq<BtSignal>
    decreases |rows|
  {
    if |rows| < 2 then []
    else
      var n := |rows| - 1;
      var e := emit(rows[n - 1], rows[n]);
      Emitted(rows[..n], emit) + (if e.Some? then [e.value] else [])
  }

  /** The loop shape shared by the SMA and MACD backtests: `for i in range(1, len(df))`. */
  method PairwiseSignalLoop<B>(rows: seq<B>, emit: (B, B) -> Option<BtSignal>) returns (signals: seq<BtSignal>)
    ensures signals == Emitted(rows, emit)
  {
    signals := [];
    if |rows| < 2 {
      return;
    }
    for i := 1 to |rows|
      invariant signals == Emitted(rows[..i], emit)
    {
      assert rows[..i + 1][..i] == rows[..i];
      assert rows[..i + 1][i - 1] == rows[i - 1];
      var e := emit(rows[i - 1], rows[i]);
      if e.Some? {
        signals := signals + [e.value];
      }
    }
    assert rows[..|rows|] == rows;
  }

  /** An emitter that never produces HOLD yields a signal list without HOLD. */
  lemma {:induction false} EmittedNeverHold<B>(rows: seq<B>, emit: (B, B) -> Option<BtSignal>)
    requires forall p, c :: emit(p, c).Some? ==> emit(p, c).value.action != Hold
    ensures forall k :: 0 <= k < |Emitted(rows, emit)| ==> Emitted(rows, emit)[k].action != Hold
    decreases |rows|
  {
    if |rows| >= 2 {
      EmittedNeverHold(rows[..|rows| - 1], emit);
    }
  }

  /** A row of the SMA backtest: time, close and the two SMA cells. */
  datatype SmaRow = SmaRow(timestamp: int, close: real, shortSma: Option<real>, longSma: Option<real>)

  /**
    The SMA loop body: rows with a NaN SMA are skipped, a NaN on the previous row fails both tests;
    otherwise the crossover rules of the live generator decide. The two rules exclude each other.
  */
  function SmaEmit(prev: SmaRow, cur: SmaRow): (e: Option<BtSignal>)
    ensures e.Some? ==> e.value.timestamp == cur.timestamp && e.value.price == cur.close && e.value.action != Hold
    ensures e.Some? ==> prev.shortSma.Some? && prev.longSma.Some? && cur.shortSma.Some? && cur.longSma.Some?
    ensures e.Some? ==>
      var r := Sma5Min.SmaReading(prev.shortSma.value, prev.longSma.value, cur.shortSma.value, cur.longSma.value, cur.close);
      !(Sma5Min.BullishCross(r) && Sma5Min.BearishCross(r)) &&
      (e.value.action == Buy <==> Sma5Min.BullishCross(r)) && (e.value.action == Sell <==> Sma5Min.BearishCross(r))
  {
    if cur.shortSma.None? || cur.longSma.None? || prev.shortSma.None? || prev.longSma.None? then None
    else
      var r := Sma5Min.SmaReading(prev.shortSma.value, prev.longSma.value, cur.shortSma.value, cur.longSma.value, cur.close);
      if Sma5Min.BullishCross(r) then Some(BtSignal(cur.timestamp, cur.close, 0.0, Buy))
      else if Sma5Min.BearishCross(r) then Some(BtSignal(cur.timestamp, cur.close, 0.0, Sell))
      else None
  }

  /** `_run_sma_backtest`; the result stores the periods as `period` and `oversold`. */
  function SmaBacktest(coin: string, rows: seq<SmaRow>, shortPeriod: int, longPeriod: int, sizeUsd: real): Option<BacktestResult> {
    var signals := Emitted(rows, SmaEmit);
    Summarize(coin, shortPeriod as real, longPeriod as real, 0.0, Simulate(signals, sizeUsd).trades, |signals|)
  }

  method RunSmaBacktest(coin: string, rows: seq<SmaRow>, shortPeriod: int, longPeriod: int, sizeUsd: real)
    returns (result: Option<BacktestResult>)
    ensures result == SmaBacktest(coin, rows, shortPeriod, longPeriod, sizeUsd)
  {
    var signals := PairwiseSignalLoop(rows, SmaEmit);
    var trades := SimulateTrades(signals, sizeUsd);
    result := Summarize(coin, shortPeriod as real, longPeriod as real, 0.0, trades, |signals|);
  }

  /** A row of the MACD backtest: time, close and the histogram cell. */
  datatype MacdRow = MacdRow(timestamp: int, close: real, hist: Option<real>)

  /** The MACD loop body: a NaN on either row skips it; otherwise the live generator's zero-line crossover decides. */
  function MacdEmit(prev: MacdRow, cur: MacdRow): (e: Option<BtSignal>)
    ensures e.Some? ==> e.value.timestamp == cur.timestamp && e.value.price == cur.close && e.value.action != Hold
    ensures e.Some? <==> prev.hist.Some? && cur.hist.Some? && Macd15Min.CrossAction(prev.hist.value, cur.hist.value) != Hold
    ensures e.Some? ==> e.value.action == Macd15Min.CrossAction(prev.hist.value, cur.hist.value)
  {
    if cur.hist.None? || prev.hist.None? then None
    else
      var a := Macd15Min.CrossAction(prev.hist.value, cur.hist.value);
      if a == Hold then None else Some(BtSignal(cur.timestamp, cur.close, 0.0, a))
  }

  /** `_run_macd_backtest`; the result stores the periods as `period`, `oversold` and `overbought`. */
  function MacdBacktest(coin: string, rows: seq<MacdRow>, fast: int, slow: int, signalPeriod: int, sizeUsd: real): Option<BacktestResult> {
    var signals := Emitted(rows, MacdEmit);
    Summarize(coin, fast as real, slow as real, signalPeriod as real, Simulate(signals, sizeUsd).trades, |signals|)
  }

  method RunMacdBacktest(coin: string, rows: seq<MacdRow>, fast: int, slow: int, signalPeriod: int, sizeUsd: real)
    returns (result: Option<BacktestResult>)
    ensures result == MacdBacktest(coin, rows, fast, slow, signalPeriod, sizeUsd)
  {
    var signals := PairwiseSignalLoop(rows, MacdEmit);
    var trades := SimulateTrades(signals, sizeUsd);
    result := Summarize(coin, fast as real, slow as real, signalPeriod as real, trades, |signals|);
  }

  /** Neither crossover backtest ever emits HOLD. */
  lemma CrossoverBacktestsNeverHold(smaRows: seq<SmaRow>, macdRows: seq<MacdRow>)
    ensures forall k :: 0 <= k < |Emitted(smaRows, SmaEmit)| ==> Emitted(smaRows, SmaEmit)[k].action != Hold
    ensures forall k :: 0 <= k < |Emitted(macdRows, MacdEmit)| ==> Emitted(macdRows, MacdEmit)[k].action != Hold
  {
    EmittedNeverHold(smaRows, SmaEmit);
    EmittedNeverHold(macdRows, MacdEmit);
  }
}
