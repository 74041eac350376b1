/**
  The 1-hour RSI generator (signals/rsi_1h.py). The RSI value is library numerics and arrives as
  an input (`None` stands for NaN, which pandas yields when a window has neither gains nor
  losses). Modelled: the per-coin parameter load, the threshold decision and the strength formula.
*/
module Rsi1H {
  import opened Wrappers
  import opened Signals
  import opened CandleFeed

  const SourceName: string := "rsi_1h"

  /** Period and thresholds the generator works with. */
  datatype RsiParams = RsiParams(period: int, oversold: int, overbought: int)

  const Defaults: RsiParams := RsiParams(14, 30, 70)

  /**
    `_load_coin_parameters`: a non-empty parameter set from the backtest results overrides the
    defaults key by key; a missing or empty one (Python treats `{}` as false) restores all of them.
  */
  function LoadParams(defaults: RsiParams, params: Option<map<string, int>>): (p: RsiParams)
    ensures params.None? || params.value == map[] ==> p == defaults
    ensures params.Some? && params.value != map[] ==>
      p.period == Get(params.value, "period").GetOr(defaults.period) &&
      p.oversold == Get(params.value, "oversold").GetOr(defaults.oversold) &&
      p.overbought == Get(params.value, "overbought").GetOr(defaults.overbought)
  {
    match params
    case None => defaults
    case Some(m) =>
      if m == map[] then defaults
      else RsiParams(Get(m, "period").GetOr(defaults.period), Get(m, "oversold").GetOr(defaults.oversold),
                     Get(m, "overbought").GetOr(defaults.overbought))
  }

  /** Oversold is checked first: at or below it BUY; else at or above overbought SELL; a NaN never passes either. */
  function RsiAction(rsi: Option<real>, oversold: int, overbought: int): (a: Action)
    ensures a == Buy <==> rsi.Some? && rsi.value <= oversold as real
    ensures a == Sell <==> rsi.Some? && rsi.value > oversold as real && rsi.value >= overbought as real
  {
    if rsi.Some? && rsi.value <= oversold as real then Buy
    else if rsi.Some? && rsi.value >= overbought as real then Sell
    else Hold
  }

  /**
    `min(1.0, max(0.6, num / den))` under floating-point rules: a zero denominator gives NaN for a
    zero numerator (which `max(0.6, ...)` turns into 0.6) and an infinity otherwise.
  */
  function ClampedRatio(num: real, den: real): (s: real)
    ensures 0.6 <= s <= 1.0
    ensures den != 0.0 && 0.6 <= num / den <= 1.0 ==> s == num / den
  {
    if den == 0.0 then (if num > 0.0 then 1.0 else 0.6)
    else Clamp(num / den, 0.6, 1.0)
  }

  /** Where a quotient with a positive divisor lies relative to 0 and 1. */
  lemma QuotientBounds(a: real, b: real)
    requires b > 0.0
    ensures a <= 0.0 ==> a / b <= 0.0
    ensures a >= b ==> a / b >= 1.0
  {
    if a <= 0.0 {
      QuotientMonotone(a, 0.0, b);
    }
    if a >= b {
      QuotientMonotone(b, a, b);
    }
  }

  /** The BUY branch: `1 - rsi/oversold` clamped into [0.6, 1], full strength at RSI 0, weakest at the threshold. */
  function BuyStrength(rsi: real, oversold: int): (s: real)
    requires rsi <= oversold as real
    ensures 0.6 <= s <= 1.0
    ensures oversold > 0 && rsi <= 0.0 ==> s == 1.0
    ensures oversold > 0 && rsi == oversold as real ==> s == 0.6
  {
    if oversold == 0 then ClampedRatio(-rsi, 0.0)
    else if oversold > 0 then
      QuotientBounds(rsi, oversold as real);
      Clamp(1.0 - rsi / oversold as real, 0.6, 1.0)
    else Clamp(1.0 - rsi / oversold as real, 0.6, 1.0)
  }

  /** The SELL branch: `(rsi - overbought)/(100 - overbought)` clamped into [0.6, 1], full strength at RSI 100. */
  function SellStrength(rsi: real, overbought: int): (s: real)
    requires rsi >= overbought as real
    ensures 0.6 <= s <= 1.0
    ensures overbought < 100 && rsi >= 100.0 ==> s == 1.0
    ensures rsi == overbought as real ==> s == 0.6
  {
    var w := 100.0 - overbought as real;
    if w > 0.0 then QuotientBounds(rsi - overbought as real, w); ClampedRatio(rsi - overbought as real, w)
    else ClampedRatio(rsi - overbought as real, w)
  }

  /**
    `_calculate_signal_strength`: the BUY or SELL formula when the RSI is on the side of its
    threshold; 0 when the action is HOLD or the RSI is on the wrong side.
  */
  function Strength(rsi: Option<real>, action: Action, p: RsiParams): (s: real)
    ensures s == 0.0 || 0.6 <= s <= 1.0
    ensures s != 0.0 <==> rsi.Some? && ((action == Buy && rsi.value <= p.oversold as real) ||
                                         (action == Sell && rsi.value >= p.overbought as real))
  {
    match action
    case Buy => if rsi.Some? && rsi.value <= p.oversold as real then BuyStrength(rsi.value, p.oversold) else 0.0
    case Sell => if rsi.Some? && rsi.value >= p.overbought as real then SellStrength(rsi.value, p.overbought) else 0.0
    case Hold => 0.0
  }

  /** The lower the RSI below a positive oversold threshold, the stronger the BUY. */
  lemma BuyStrengthMonotone(p: RsiParams, r1: real, r2: real)
    requires p.oversold > 0 && r1 <= r2 <= p.oversold as real
    ensures Strength(Some(r1), Buy, p) >= Strength(Some(r2), Buy, p)
  {
    QuotientMonotone(r1, r2, p.oversold as real);
  }

  /** The higher the RSI above an overbought threshold below 100, the stronger the SELL. */
  lemma SellStrengthMonotone(p: RsiParams, r1: real, r2: real)
    requires p.overbought < 100 && p.overbought as real <= r2 <= r1
    ensures Strength(Some(r1), Sell, p) >= Strength(Some(r2), Sell, p)
  {
    var ob := p.overbought as real;
    QuotientMonotone(r2 - ob, r1 - ob, 100.0 - ob);
  }

  /** Enough candles for the RSI window: at least `period + 1` of the `period + 50` requested. */
  predicate EnoughCandles(p: RsiParams, available: Option<nat>) {
    var rows := Fetched(available, p.period + 50);
    rows.Some? && rows.value >= p.period + 1
  }

  /** `generate_signal` once the parameters are loaded. */
  function GenerateSpec(p: RsiParams, coin: string, available: Option<nat>, rsi: Option<real>, now: int): (r: Option<Signal>)
    ensures !EnoughCandles(p, available) ==> r == None
    ensures EnoughCandles(p, available) && coin != "" ==> r.Some?
    ensures r.Some? ==> Valid(r.value) && r.value.coin == coin && r.value.timestamp == now && r.value.source == SourceName
    ensures r.Some? ==> r.value.action == RsiAction(rsi, p.oversold, p.overbought)
    ensures r.Some? ==> r.value.strength == Strength(rsi, r.value.action, p)
  {
    if !EnoughCandles(p, available) then None
    else
      var action := RsiAction(rsi, p.oversold, p.overbought);
      NewSignal(coin, ActionName(action), Strength(rsi, action, p), now, SourceName)
  }

  /** An actionable RSI signal is at least as strong as the 0.6 floor, whatever the parameters. */
  lemma EmittedStrengthFloor(p: RsiParams, coin: string, available: Option<nat>, rsi: Option<real>, now: int)
    requires GenerateSpec(p, coin, available, rsi, now).Some?
    ensures var s := GenerateSpec(p, coin, available, rsi, now).value;
            s.action != Hold ==> s.strength >= 0.6
  {
  }

  /** The generator: its constructor defaults and the parameters of the coin last processed. */
  class Generator {
    const defaults: RsiParams
    var period: int
    var oversold: int
    var overbought: int

    function Params(): RsiParams
      reads this
    {
      RsiParams(period, oversold, overbought)
    }

    constructor(period: int, oversold: int, overbought: int)
      ensures defaults == RsiParams(period, oversold, overbought) && Params() == defaults
    {
      defaults := RsiParams(period, oversold, overbought);
      this.period := period;
      this.oversold := oversold;
      this.overbought := overbought;
    }

    /** `_load_coin_parameters`, given what the results loader returned for the coin. */
    method LoadCoinParameters(params: Option<map<string, int>>)
      modifies this
      ensures Params() == LoadParams(defaults, params)
    {
      if params.Some? && params.value != map[] {
        var m := params.value;
        period := if "period" in m then m["period"] else defaults.period;
        oversold := if "oversold" in m then m["oversold"] else defaults.oversold;
        overbought := if "overbought" in m then m["overbought"] else defaults.overbought;
      } else {
        period := defaults.period;
        oversold := defaults.oversold;
        overbought := defaults.overbought;
      }
    }

    /** `generate_signal`: loads the coin's parameters, then decides on the RSI reading. */
    method GenerateSignal(coin: string, params: Option<map<string, int>>, available: Option<nat>, rsi: Option<real>, now: int)
      returns (signal: Option<Signal>)
      modifies this
      ensures Params() == LoadParams(defaults, params)
      ensures signal == GenerateSpec(Params(), coin, available, rsi, now)
    {
      LoadCoinParameters(params);
      var rows := Fetched(available, period + 50);
      if rows.None? || rows.value < period + 1 {
        return None;
      }
      var action := RsiAction(rsi, oversold, overbought);
      var strength := Strength(rsi, action, Params());
      signal := NewSignal(coin, ActionName(action), strength, now, SourceName);
    }
  }
}
