/**
  The 15-minute MACD generator (signals/macd_15min.py). The EMA and histogram series are library
  numerics; the last two histogram values arrive as inputs. Modelled: the parameter load with its
  reuse of the RSI-named keys, the candle-count check, the zero-line crossover and the strength.
*/
module Macd15Min {
  import opened Wrappers
  import opened Signals
  import opened CandleFeed

  const SourceName: string := "macd_15min"

  /** Fast EMA, slow EMA and signal-line periods. */
  datatype MacdParams = MacdParams(fast: int, slow: int, signalPeriod: int)

  const Defaults: MacdParams := MacdParams(12, 26, 9)

  /** The largest candle request the generator makes. */
  const MaxRequest: int := 200

  /**
    `_load_coin_parameters`: the backtest results store the MACD periods under the RSI names,
    `period` for the fast EMA, `oversold` for the slow EMA and `overbought` for the signal line.
    A missing or empty parameter set restores the defaults.
  */
  function LoadParams(defaults: MacdParams, params: Option<map<string, int>>): (p: MacdParams)
    ensures params.None? || params.value == map[] ==> p == defaults
    ensures params.Some? && params.value != map[] ==>
      p.fast == Get(params.value, "period").GetOr(defaults.fast) &&
      p.slow == Get(params.value, "oversold").GetOr(defaults.slow) &&
      p.signalPeriod == Get(params.value, "overbought").GetOr(defaults.signalPeriod)
  {
    match params
    case None => defaults
    case Some(m) =>
      if m == map[] then defaults
      else MacdParams(Get(m, "period").GetOr(defaults.fast), Get(m, "oversold").GetOr(defaults.slow),
                      Get(m, "overbought").GetOr(defaults.signalPeriod))
  }

  /** Candles needed: the slow EMA plus the signal line plus a margin of ten. */
  function Required(p: MacdParams): int {
    p.slow + p.signalPeriod + 10
  }

  /** The request asks for the requirement, but never more than 200 candles. */
  function RequestLimit(p: MacdParams): (limit: int)
    ensures limit <= MaxRequest
    ensures limit == Required(p) || limit == MaxRequest
    ensures Required(p) <= MaxRequest ==> limit == Required(p)
  {
    if Required(p) <= MaxRequest then Required(p) else MaxRequest
  }

  /** A zero-line crossover of the histogram: upwards BUY, downwards SELL. */
  function CrossAction(prevHist: real, curHist: real): (a: Action)
    ensures a == Buy <==> prevHist <= 0.0 < curHist
    ensures a == Sell <==> prevHist >= 0.0 > curHist
  {
    if prevHist <= 0.0 && curHist > 0.0 then Buy
    else if prevHist >= 0.0 && curHist < 0.0 then Sell
    else Hold
  }

  function Abs(x: real): real { if x < 0.0 then -x else x }

  /**
    `_calculate_signal_strength`: 0.7, plus up to 0.2 for the histogram's size and up to 0.1 for
    its change since the previous candle, capped at 1; 0 for HOLD.
  */
  function Strength(hist: real, prevHist: real, action: Action): (s: real)
    ensures action == Hold ==> s == 0.0
    ensures action != Hold ==> 0.7 <= s <= 1.0
    ensures action != Hold ==> (s == 0.7 <==> hist == 0.0 && prevHist == 0.0)
    ensures action != Hold && Abs(hist) >= 4.0 && Abs(hist - prevHist) >= 5.0 ==> s == 1.0
  {
    if action == Hold then 0.0
    else
      var momentum := Abs(hist - prevHist);
      Min(1.0, 0.7 + Min(0.2, Abs(hist) * 0.05) + Min(0.1, momentum * 0.02))
  }

  /** Enough candles arrived: the requirement is met, and there are two histogram values to compare. */
  predicate EnoughCandles(p: MacdParams, available: Option<nat>) {
    var rows := Fetched(available, RequestLimit(p));
    rows.Some? && rows.value >= Required(p) && rows.value >= 2
  }

  /** `generate_signal` once the parameters are loaded. */
  function GenerateSpec(p: MacdParams, coin: string, available: Option<nat>, prevHist: real, curHist: real, now: int): (r: Option<Signal>)
    ensures !EnoughCandles(p, available) ==> r == None
    ensures EnoughCandles(p, available) && coin != "" ==> r.Some?
    ensures r.Some? ==> Valid(r.value) && r.value.coin == coin && r.value.timestamp == now && r.value.source == SourceName
    ensures r.Some? ==> r.value.action == CrossAction(prevHist, curHist)
    ensures r.Some? ==> r.value.strength == Strength(curHist, prevHist, CrossAction(prevHist, curHist))
    ensures r.Some? && r.value.action != Hold ==> 0.7 <= r.value.strength
  {
    if !EnoughCandles(p, available) then None
    else
      var action := CrossAction(prevHist, curHist);
      NewSignal(coin, ActionName(action), Strength(curHist, prevHist, action), now, SourceName)
  }

  /** Periods that need more than 200 candles can never produce a signal. */
  lemma OversizedPeriodsNeverSignal(p: MacdParams, coin: string, available: Option<nat>,
                                     prevHist: real, curHist: real, now: int)
    requires Required(p) > MaxRequest
    ensures GenerateSpec(p, coin, available, prevHist, curHist, now) == None
  {
    assert RequestLimit(p) == MaxRequest;
    var rows := Fetched(available, RequestLimit(p));
    assert rows.Some? ==> rows.value <= MaxRequest < Required(p);
  }

  /** The generator: its constructor defaults and the periods of the coin last processed. */
  class Generator {
    const defaults: MacdParams
    var fast: int
    var slow: int
    var signalPeriod: int

    function Params(): MacdParams
      reads this
    {
      MacdParams(fast, slow, signalPeriod)
    }

    constructor(fast: int, slow: int, signalPeriod: int)
      ensures defaults == MacdParams(fast, slow, signalPeriod) && Params() == defaults
    {
      defaults := MacdParams(fast, slow, signalPeriod);
      this.fast := fast;
      this.slow := slow;
      this.signalPeriod := signalPeriod;
    }

    /** `_load_coin_parameters`, given what the results loader returned for the coin. */
    method LoadCoinParameters(params: Option<map<string, int>>)
      modifies this
      ensures Params() == LoadParams(defaults, params)
    {
      if params.Some? && params.value != map[] {
        var m := params.value;
        fast := if "period" in m then m["period"] else defaults.fast;
        slow := if "oversold" in m then m["oversold"] else defaults.slow;
        signalPeriod := if "overbought" in m then m["overbought"] else defaults.signalPeriod;
      } else {
        fast := defaults.fast;
        slow := defaults.slow;
        signalPeriod := defaults.signalPeriod;
      }
    }

    /** `generate_signal`: loads the coin's periods, checks the candle count, then tests the crossover. */
    method GenerateSignal(coin: string, params: Option<map<string, int>>, available: Option<nat>,
                          prevHist: real, curHist: real, now: int) returns (signal: Option<Signal>)
      modifies this
      ensures Params() == LoadParams(defaults, params)
      ensures signal == GenerateSpec(Params(), coin, available, prevHist, curHist, now)
    {
      LoadCoinParameters(params);
      var required := slow + signalPeriod + 10;
      var rows := Fetched(available, if required <= MaxRequest then required else MaxRequest);
      if rows.None? || rows.value < required || rows.value < 2 {
        return None;
      }
      var action := CrossAction(prevHist, curHist);
      var strength := Strength(curHist, prevHist, action);
      signal := NewSignal(coin, ActionName(action), strength, now, SourceName);
    }
  }
}
