/**
  The backtest engine of the backtest page (panel_modules/pages/backtest_page.py): the BUY/SELL
  pairing state machine that turns a signal list into trades, and the statistics of a run. The
  signal loops that feed it live in module BacktestSignals.
*/
module BacktestSimulation {
  import opened Wrappers
  import opened Signals

  /** A backtest signal: the candle's time and close, the RSI for RSI runs (0 otherwise), and BUY or SELL. */
  datatype BtSignal = BtSignal(timestamp: int, price: real, rsi: real, action: Action)

  /** The long position the simulation holds between a BUY and the next SELL. */
  datatype OpenPosition = OpenPosition(entryTime: int, entryPrice: real, entryRsi: real, sizeUsd: real)

  datatype Trade = Trade(entryTime: int, entryPrice: real, exitTime: int, exitPrice: real, pnlPct: real, profitUsd: real)

  /** Percentage change from entry to exit; a zero entry price (never quoted by the exchange) is given 0. */
  function PnlPct(entry: real, exit: real): real {
    if entry == 0.0 then 0.0 else (exit - entry) / entry * 100.0
  }

  /** The position a BUY opens. */
  function Open(s: BtSignal, sizeUsd: real): OpenPosition {
    OpenPosition(s.timestamp, s.price, s.rsi, sizeUsd)
  }

  /** The trade a SELL closes: the percentage move, and that share of the position's dollar size. */
  function Close(p: OpenPosition, s: BtSignal): (t: Trade)
    ensures t.entryTime == p.entryTime && t.entryPrice == p.entryPrice
    ensures t.exitTime == s.timestamp && t.exitPrice == s.price
    ensures t.pnlPct == PnlPct(p.entryPrice, s.price)
    ensures t.profitUsd == t.pnlPct / 100.0 * p.sizeUsd
  {
    var pnl := PnlPct(p.entryPrice, s.price);
    Trade(p.entryTime, p.entryPrice, s.timestamp, s.price, pnl, pnl / 100.0 * p.sizeUsd)
  }

  /** With a positive entry price and size, a trade makes money exactly when it exits above its entry. */
  lemma ProfitSign(p: OpenPosition, s: BtSignal)
    requires p.entryPrice > 0.0 && p.sizeUsd > 0.0
    ensures Close(p, s).profitUsd > 0.0 <==> s.price > p.entryPrice
  {
    var pnl := (s.price - p.entryPrice) / p.entryPrice * 100.0;
    if s.price > p.entryPrice {
      QuotientMonotone(0.0, s.price - p.entryPrice, p.entryPrice);
      assert (s.price - p.entryPrice) / p.entryPrice != 0.0 by {
        assert (s.price - p.entryPrice) / p.entryPrice * p.entryPrice == s.price - p.entryPrice;
      }
      assert pnl / 100.0 * p.sizeUsd > 0.0;
    } else {
      QuotientMonotone(s.price - p.entryPrice, 0.0, p.entryPrice);
      assert pnl <= 0.0;
      assert pnl / 100.0 * p.sizeUsd <= 0.0;
    }
  }

  /** The simulation state: trades closed so far and the open position, if any. */
  datatype Sim = Sim(trades: seq<Trade>, position: Option<OpenPosition>)

  /** One signal: a BUY opens only when flat, a SELL closes only when a position is open; anything else is ignored. */
  function Step(st: Sim, s: BtSignal, sizeUsd: real): (st': Sim)
    ensures s.action == Buy && st.position.None? ==> st' == Sim(st.trades, Some(Open(s, sizeUsd)))
    ensures s.action == Sell && st.position.Some? ==> st' == Sim(st.trades + [Close(st.position.value, s)], None)
    ensures !(s.action == Buy && st.position.None?) && !(s.action == Sell && st.position.Some?) ==> st' == st
  {
    if s.action == Buy && st.position.None? then Sim(st.trades, Some(Open(s, sizeUsd)))
    else if s.action == Sell && st.position.Some? then Sim(st.trades + [Close(st.position.value, s)], None)
    else st
  }

  /** `_simulate_trades` as a function: the state after every signal in turn, starting flat. */
  function Simulate(signals: seq<BtSignal>, sizeUsd: real): Sim
    decreases |signals|
  {
    if signals == [] then Sim([], None)
    else Step(Simulate(signals[..|signals| - 1], sizeUsd), signals[|signals| - 1], sizeUsd)
  }

  /** `_simulate_trades`: walks the signals with a position variable, appending a trade at each close. */
  method SimulateTrades(signals: seq<BtSignal>, sizeUsd: real) returns (trades: seq<Trade>)
    ensures trades == Simulate(signals, sizeUsd).trades
  {
    trades := [];
    var position: Option<OpenPosition> := None;
    for i := 0 to |signals|
      invariant Sim(trades, position) == Simulate(signals[..i], sizeUsd)
    {
      assert signals[..i + 1][..i] == signals[..i];
      var s := signals[i];
      if s.action == Buy && position.None? {
        position := Some(Open(s, sizeUsd));
      } else if s.action == Sell && position.Some? {
        trades := trades + [Close(position.value, s)];
        position := None;
      }
    }
    assert signals[..|signals|] == signals;
  }

  /** Number of signals with the given action. */
  function Count(signals: seq<BtSignal>, a: Action): (n: nat)
    ensures n <= |signals|
    decreases |signals|
  {
    if signals == [] then 0
    else Count(signals[..|signals| - 1], a) + (if signals[|signals| - 1].action == a then 1 else 0)
  }

  /**
    Every trade used up one BUY and one SELL, and an open position one more BUY: there are never
    more trades than BUY signals or than SELL signals.
  */
  lemma {:induction false} TradeBounds(signals: seq<BtSignal>, sizeUsd: real)
    ensures var sim := Simulate(signals, sizeUsd);
            |sim.trades| + (if sim.position.Some? then 1 else 0) <= Count(signals, Buy) &&
            |sim.trades| <= Count(signals, Sell)
    decreases |signals|
  {
    if signals != [] {
      TradeBounds(signals[..|signals| - 1], sizeUsd);
    }
  }

  /** A BUY at the end of the list never produces a trade. */
  lemma TrailingBuyNoTrade(signals: seq<BtSignal>, b: BtSignal, sizeUsd: real)
    requires b.action == Buy
    ensures Simulate(signals + [b], sizeUsd).trades == Simulate(signals, sizeUsd).trades
  {
    assert (signals + [b])[..|signals + [b]| - 1] == signals;
  }

  /**
    The pairing behind the simulation, as signal indices: the (BUY, SELL) index pair of every trade,
    and the index of the BUY that opened the current position.
  */
  function Pairing(signals: seq<BtSignal>): (seq<(int, int)>, Option<int>)
    decreases |signals|
  {
    if signals == [] then ([], None)
    else
      var n := |signals| - 1;
      var prev := Pairing(signals[..n]);
      if signals[n].action == Buy && prev.1.None? then (prev.0, Some(n))
      else if signals[n].action == Sell && prev.1.Some? then (prev.0 + [(prev.1.value, n)], None)
      else prev
  }

  /** What `Pairing` promises about a signal list: proper BUY-before-SELL pairs in signal order. */
  ghost predicate Paired(signals: seq<BtSignal>, sizeUsd: real, sim: Sim, ps: seq<(int, int)>, o: Option<int>) {
    |ps| == |sim.trades| &&
    (o.Some? <==> sim.position.Some?) &&
    (o.Some? ==> 0 <= o.value < |signals| && signals[o.value].action == Buy &&
                 sim.position.value == Open(signals[o.value], sizeUsd)) &&
    (forall k :: 0 <= k < |ps| ==>
       0 <= ps[k].0 < ps[k].1 < |signals| &&
       signals[ps[k].0].action == Buy && signals[ps[k].1].action == Sell &&
       sim.trades[k] == Close(Open(signals[ps[k].0], sizeUsd), signals[ps[k].1])) &&
    (forall k :: 0 <= k < |ps| - 1 ==> ps[k].1 < ps[k + 1].0) &&
    (o.Some? && |ps| > 0 ==> ps[|ps| - 1].1 < o.value)
  }

  /** Extending the list by one signal keeps the indices of the shorter list valid. */
  lemma PairedExtend(signals: seq<BtSignal>, sizeUsd: real, sim: Sim, ps: seq<(int, int)>, o: Option<int>)
    requires signals != []
    requires Paired(signals[..|signals| - 1], sizeUsd, sim, ps, o)
    ensures o.Some? ==> 0 <= o.value < |signals| - 1 && signals[o.value] == signals[..|signals| - 1][o.value]
    ensures forall k :: 0 <= k < |ps| ==>
      ps[k].1 < |signals| - 1 &&
      signals[ps[k].0] == signals[..|signals| - 1][ps[k].0] && signals[ps[k].1] == signals[..|signals| - 1][ps[k].1]
  {
  }

  /**
    Every trade comes from a BUY followed later by a SELL, trades follow one another in signal
    order, and the open position comes from the last BUY after the last trade.
  */
  lemma {:induction false} PairingFaithful(signals: seq<BtSignal>, sizeUsd: real)
    ensures Paired(signals, sizeUsd, Simulate(signals, sizeUsd), Pairing(signals).0, Pairing(signals).1)
    decreases |signals|
  {
    if signals != [] {
      var n := |signals| - 1;
      PairingFaithful(signals[..n], sizeUsd);
      var sim := Simulate(signals[..n], sizeUsd);
      var prev := Pairing(signals[..n]);
      PairedExtend(signals, sizeUsd, sim, prev.0, prev.1);
      var s := signals[n];
      if s.action == Buy && prev.1.None? {
        assert Simulate(signals, sizeUsd) == Sim(sim.trades, Some(Open(s, sizeUsd)));
      } else if s.action == Sell && prev.1.Some? {
        var ps := prev.0 + [(prev.1.value, n)];
        assert Simulate(signals, sizeUsd) == Sim(sim.trades + [Close(sim.position.value, s)], None);
        assert forall k :: 0 <= k < |prev.0| ==> ps[k] == prev.0[k];
      }
    }
  }

  /**
    When the signals alternate BUY, SELL, BUY, ... every SELL closes the BUY before it: the run
    yields half as many trades as signals, rounded down, and ends holding exactly when the count is odd.
  */
  lemma {:induction false} AlternatingSimulation(signals: seq<BtSignal>, sizeUsd: real)
    requires forall k :: 0 <= k < |signals| ==> signals[k].action == (if k % 2 == 0 then Buy else Sell)
    ensures |Simulate(signals, sizeUsd).trades| == |signals| / 2
    ensures Simulate(signals, sizeUsd).position.Some? <==> |signals| % 2 == 1
    decreases |signals|
  {
    if signals != [] {
      var n := |signals| - 1;
      assert forall k :: 0 <= k < n ==> signals[..n][k] == signals[k];
      AlternatingSimulation(signals[..n], sizeUsd);
    }
  }

  /** Totals over trades. */
  function TotalProfit(trades: seq<Trade>): real
    decreases |trades|
  {
    if trades == [] then 0.0 else TotalProfit(trades[..|trades| - 1]) + trades[|trades| - 1].profitUsd
  }

  /** One row of results: the parameters tried (under the RSI names) and the performance. */
  datatype BacktestResult = BacktestResult(
    coin: string, period: real, oversold: real, overbought: real,
    totalTrades: nat, winningTrades: nat, losingTrades: nat,
    winRate: real, totalProfitUsd: real, avgProfit: real, signalsGenerated: nat)

  predicate Winning(t: Trade) { t.profitUsd > 0.0 }
  predicate Losing(t: Trade) { t.profitUsd <= 0.0 }

  /** `wins / total * 100`, a percentage. */
  function WinRate(wins: nat, total: nat): (r: real)
    requires 0 < total && wins <= total
    ensures 0.0 <= r <= 100.0
    ensures wins == total ==> r == 100.0
    ensures r * total as real == wins as real * 100.0
  {
    QuotientMonotone(0.0, wins as real, total as real);
    QuotientMonotone(wins as real, total as real, total as real);
    wins as real / total as real * 100.0
  }

  /** `total / n`. */
  function Average(total: real, n: nat): (a: real)
    requires n > 0
    ensures a * n as real == total
  {
    total / n as real
  }

  /**
    The statistics every backtest variant computes from its trades: none without trades; otherwise
    the winners (profit above zero) and the losers (the rest) split the trades, and the win rate is
    their percentage.
  */
  function Summarize(coin: string, period: real, oversold: real, overbought: real, trades: seq<Trade>, signalsGenerated: nat)
    : (r: Option<BacktestResult>)
    ensures r.None? <==> trades == []
    ensures r.Some? ==> r.value.coin == coin && r.value.totalTrades == |trades| && r.value.signalsGenerated == signalsGenerated
    ensures r.Some? ==> r.value.winningTrades + r.value.losingTrades == r.value.totalTrades
    ensures r.Some? ==> r.value.winningTrades == CountWhere(trades, Winning)
    ensures r.Some? ==> r.value.period == period && r.value.oversold == oversold && r.value.overbought == overbought
    ensures r.Some? ==> r.value.losingTrades == CountWhere(trades, Losing)
    ensures r.Some? ==> r.value.winRate == WinRate(r.value.winningTrades, |trades|)
    ensures r.Some? ==> 0.0 <= r.value.winRate <= 100.0
    ensures r.Some? ==> r.value.totalProfitUsd == TotalProfit(trades)
    ensures r.Some? ==> r.value.avgProfit * |trades| as real == TotalProfit(trades)
  {
    if trades == [] then None
    else
      var winning := Filter(trades, Winning);
      var losing := Filter(trades, Losing);
      FilterPartition(trades, Winning, Losing);
      FilterCount(trades, Winning);
      FilterCount(trades, Losing);
      var total := TotalProfit(trades);
      Some(BacktestResult(coin, period, oversold, overbought, |trades|, |winning|, |losing|,
                          WinRate(|winning|, |trades|), total, Average(total, |trades|), signalsGenerated))
  }
}
