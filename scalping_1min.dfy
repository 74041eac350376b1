/**
  The 1-minute scalping generator (signals/scalping_1min.py): an EMA crossover confirmed by an
  RSI band and a volume spike. The EMA and RSI series are library numerics and arrive as a
  reading (`None` for a NaN RSI); the volume column of the fetched candles is an input.
*/
module Scalping1Min {
  import opened Wrappers
  import opened Signals

  const SourceName: string := "scalping_1min"
  /** Candles requested, and the window of the volume average. */
  const RequestLimit: nat := 100
  const VolumeWindow: nat := 20

  /** The constructor's parameters (the RSI period only feeds the left-out RSI series). */
  datatype ScalpParams = ScalpParams(fastEma: int, slowEma: int, rsiOversold: int, rsiOverbought: int, volumeMultiplier: real)

  const Defaults: ScalpParams := ScalpParams(5, 13, 30, 70, 1.5)

  /** Fast and slow EMA on the previous and the last candle, and the last RSI. */
  datatype ScalpReading = ScalpReading(prevFast: real, prevSlow: real, curFast: real, curSlow: real, rsi: Option<real>)

  /** Sum of a sequence of volumes. */
  function Sum(s: seq<real>): real
    decreases |s|
  {
    if s == [] then 0.0 else Sum(s[..|s| - 1]) + s[|s| - 1]
  }

  /** Twenty copies of one volume sum to twenty times it. */
  lemma {:induction false} SumConstant(s: seq<real>, v: real)
    requires forall i :: 0 <= i < |s| ==> s[i] == v
    ensures Sum(s) == |s| as real * v
    decreases |s|
  {
    if s != [] {
      SumConstant(s[..|s| - 1], v);
    }
  }

  /**
    `_detect_volume_spike`: false with fewer than twenty samples; otherwise whether the last volume
    exceeds the mean of the last twenty times the multiplier.
  */
  function VolumeSpike(volume: seq<real>, multiplier: real): (spike: bool)
    ensures |volume| < VolumeWindow ==> !spike
    ensures |volume| >= VolumeWindow ==>
      (spike <==> volume[|volume| - 1] > Sum(volume[|volume| - VolumeWindow..]) / VolumeWindow as real * multiplier)
  {
    if |volume| < VolumeWindow then false
    else
      var average := Sum(volume[|volume| - VolumeWindow..]) / VolumeWindow as real;
      volume[|volume| - 1] > average * multiplier
  }

  /** Steady non-negative volume is never a spike for a multiplier of at least one. */
  lemma SteadyVolumeNoSpike(volume: seq<real>, v: real, multiplier: real)
    requires forall i :: 0 <= i < |volume| ==> volume[i] == v
    requires v >= 0.0 && multiplier >= 1.0
    ensures !VolumeSpike(volume, multiplier)
  {
    if |volume| >= VolumeWindow {
      var w := volume[|volume| - VolumeWindow..];
      SumConstant(w, v);
      assert Sum(w) / VolumeWindow as real == v;
      assert v <= v * multiplier;
    }
  }

  /** The fast EMA crosses above the slow one on the last candle. */
  predicate BullishCross(r: ScalpReading) {
    r.curFast > r.curSlow && r.prevFast <= r.prevSlow
  }

  /** The fast EMA crosses below the slow one on the last candle. */
  predicate BearishCross(r: ScalpReading) {
    r.curFast < r.curSlow && r.prevFast >= r.prevSlow
  }

  /** The RSI lies strictly between the thresholds (a NaN never does). */
  predicate InRsiBand(rsi: Option<real>, p: ScalpParams) {
    rsi.Some? && p.rsiOversold as real < rsi.value < p.rsiOverbought as real
  }

  /** The decision: a confirmed crossover in the RSI band with a volume spike. */
  function Decide(r: ScalpReading, p: ScalpParams, spike: bool): (a: Action)
    ensures !(BullishCross(r) && BearishCross(r))
    ensures a == Buy <==> BullishCross(r) && InRsiBand(r.rsi, p) && spike
    ensures a == Sell <==> BearishCross(r) && InRsiBand(r.rsi, p) && spike
  {
    if BullishCross(r) && InRsiBand(r.rsi, p) && spike then Buy
    else if BearishCross(r) && InRsiBand(r.rsi, p) && spike then Sell
    else Hold
  }

  function Abs(x: real): real { if x < 0.0 then -x else x }

  /**
    Whether the EMA gap exceeds 0.5% of the slow EMA. With a zero slow EMA the percentage is NaN
    (equal EMAs), which fails the test, or infinite, which passes it.
  */
  predicate StrongDivergence(curFast: real, curSlow: real) {
    if curSlow == 0.0 then curFast != 0.0
    else Abs((curFast - curSlow) / curSlow * 100.0) > 0.5
  }

  /** One bonus step when `c` holds. */
  function Bonus(c: bool): real { if c then 0.1 else 0.0 }

  /**
    `_calculate_signal_strength`: 0 for HOLD; otherwise 0.6 plus 0.1 for each confirmation (an RSI
    beyond 35 and beyond 30 for BUY, beyond 65 and beyond 70 for SELL, a strong EMA divergence,
    a volume spike), clamped into [0, 1].
  */
  function Strength(rsi: Option<real>, divergent: bool, spike: bool, action: Action): (s: real)
    ensures action == Hold ==> s == 0.0
    ensures action != Hold ==> 0.6 <= s <= 1.0
    ensures action != Hold && !divergent && !spike && (rsi.None? || 35.0 <= rsi.value <= 65.0) ==> s == 0.6
    ensures action == Buy && rsi.Some? && rsi.value < 30.0 && divergent && spike ==> s == 1.0
    ensures action == Sell && rsi.Some? && rsi.value > 70.0 && divergent && spike ==> s == 1.0
  {
    if action == Hold then 0.0
    else
      var rsiBonus :=
        if rsi.None? then 0.0
        else if action == Buy then Bonus(rsi.value < 35.0) + Bonus(rsi.value < 30.0)
        else Bonus(rsi.value > 65.0) + Bonus(rsi.value > 70.0);
      Clamp(0.6 + rsiBonus + Bonus(divergent) + Bonus(spike), 0.0, 1.0)
  }

  /** Candles needed: the longer of the slow EMA and the volume window, plus five. */
  function Required(p: ScalpParams): int {
    (if p.slowEma >= VolumeWindow then p.slowEma else VolumeWindow) + 5
  }

  /**
    `generate_signal` on the fetched volume column (`None` for a failed request) and the
    indicator reading.
  */
  function GenerateSignal(p: ScalpParams, coin: string, volume: Option<seq<real>>, r: ScalpReading, now: int): (res: Option<Signal>)
    ensures volume.None? || |volume.value| < Required(p) ==> res == None
    ensures volume.Some? && |volume.value| >= Required(p) && coin != "" ==> res.Some?
    ensures res.Some? ==> Valid(res.value) && res.value.coin == coin && res.value.timestamp == now && res.value.source == SourceName
    ensures res.Some? ==> res.value.action == Decide(r, p, VolumeSpike(volume.value, p.volumeMultiplier))
    ensures res.Some? ==>
      res.value.strength == Strength(r.rsi, StrongDivergence(r.curFast, r.curSlow), VolumeSpike(volume.value, p.volumeMultiplier), res.value.action)
    ensures res.Some? && res.value.action != Hold ==> 0.6 <= res.value.strength && VolumeSpike(volume.value, p.volumeMultiplier)
  {
    if volume.None? || |volume.value| < Required(p) then None
    else
      var spike := VolumeSpike(volume.value, p.volumeMultiplier);
      var action := Decide(r, p, spike);
      var strength := Strength(r.rsi, StrongDivergence(r.curFast, r.curSlow), spike, action);
      NewSignal(coin, ActionName(action), strength, now, SourceName)
  }

  /** Without a volume spike the scalper only ever holds. */
  lemma NoSpikeNoTrade(p: ScalpParams, coin: string, volume: seq<real>, r: ScalpReading, now: int)
    requires !VolumeSpike(volume, p.volumeMultiplier)
    ensures var res := GenerateSignal(p, coin, Some(volume), r, now);
            res.Some? ==> res.value.action == Hold && res.value.strength == 0.0
  {
  }

  /** A slow EMA longer than 95 candles asks for more than the request can return; no signal ever results. */
  lemma OversizedSlowEmaNeverSignals(p: ScalpParams, coin: string, volume: Option<seq<real>>, r: ScalpReading, now: int)
    requires p.slowEma > RequestLimit - 5
    requires volume.Some? ==> |volume.value| <= RequestLimit
    ensures GenerateSignal(p, coin, volume, r, now) == None
  {
  }
}
