/**
  The 24-hour low range generator (signals/range_24h_low.py): BUY when the current price sits in a
  band just above the lowest low of the last 24 hourly candles. The candle lows and the ticker
  price arrive as inputs; `None` is a failed request.
*/
module Range24HLow {
  import opened Wrappers
  import opened Signals

  const SourceName: string := "range_24h_low"
  const DefaultLongOffsetPercent: real := -1.0
  const DefaultTolerancePercent: real := 2.0
  /** Hourly candles requested and required. */
  const Lookback: nat := 24

  /** The smallest element: `df['low'].min()`. */
  function SeqMin(s: seq<real>): (m: real)
    requires |s| > 0
    ensures m in s
    ensures forall i :: 0 <= i < |s| ==> m <= s[i]
    decreases |s|
  {
    if |s| == 1 then s[0]
    else
      var rest := SeqMin(s[1..]);
      assert forall i :: 1 <= i < |s| ==> s[1..][i - 1] == s[i];
      if s[0] <= rest then s[0] else rest
  }

  /**
    `_calculate_buy_range`: the band starts `offset` percent above the low and is `tolerance`
    percent of the low wide.
  */
  function BuyRange(low: real, offsetPercent: real, tolerancePercent: real): (range: (real, real))
    ensures range.0 == low * (1.0 + offsetPercent / 100.0)
    ensures range.1 - range.0 == low * (tolerancePercent / 100.0)
    ensures low >= 0.0 && tolerancePercent >= 0.0 ==> range.0 <= range.1
  {
    var offset := offsetPercent / 100.0;
    var tolerance := tolerancePercent / 100.0;
    assert low * (1.0 + offset + tolerance) - low * (1.0 + offset) == low * tolerance;
    (low * (1.0 + offset), low * (1.0 + offset + tolerance))
  }

  /**
    `_calculate_signal_strength`: 0.85 for a band of zero width; otherwise 1 at the bottom of the
    band falling linearly to 0.7 at its top, clamped into [0.7, 1] outside it.
  */
  function Strength(price: real, lo: real, hi: real): (s: real)
    ensures hi == lo ==> s == 0.85
    ensures 0.7 <= s <= 1.0
    ensures hi != lo && price == lo ==> s == 1.0
    ensures hi != lo && price == hi ==> s == 0.7
  {
    var width := hi - lo;
    if width == 0.0 then 0.85
    else Clamp(1.0 - (price - lo) / width * 0.3, 0.7, 1.0)
  }

  /** Inside a band of positive width the clamp never applies: strength falls linearly with the price. */
  lemma StrengthLinearInBand(price: real, lo: real, hi: real)
    requires lo < hi && lo <= price <= hi
    ensures Strength(price, lo, hi) == 1.0 - (price - lo) / (hi - lo) * 0.3
  {
    QuotientMonotone(0.0, price - lo, hi - lo);
    QuotientMonotone(price - lo, hi - lo, hi - lo);
    assert (hi - lo) / (hi - lo) == 1.0;
  }

  /** The lower the price within the band, the stronger the signal. */
  lemma StrengthDecreasesInBand(p1: real, p2: real, lo: real, hi: real)
    requires lo < hi && lo <= p1 <= p2 <= hi
    ensures Strength(p1, lo, hi) >= Strength(p2, lo, hi)
  {
    StrengthLinearInBand(p1, lo, hi);
    StrengthLinearInBand(p2, lo, hi);
    QuotientMonotone(p1 - lo, p2 - lo, hi - lo);
  }

  /**
    `generate_signal`: no signal without 24 candles or a price; otherwise BUY exactly when the price
    lies in the band (bounds included), with the band strength, and HOLD with strength 0 elsewhere.
  */
  function GenerateSignal(offsetPercent: real, tolerancePercent: real, coin: string, lows: Option<seq<real>>,
                          price: Option<real>, now: int): (r: Option<Signal>)
    ensures lows.None? || |lows.value| < Lookback || price.None? ==> r == None
    ensures lows.Some? && |lows.value| >= Lookback && price.Some? && coin != "" ==> r.Some?
    ensures r.Some? ==> Valid(r.value) && r.value.coin == coin && r.value.timestamp == now && r.value.source == SourceName
    ensures r.Some? ==>
      var range := BuyRange(SeqMin(lows.value), offsetPercent, tolerancePercent);
      (r.value.action == Buy <==> range.0 <= price.value <= range.1) &&
      (r.value.action == Buy ==> r.value.strength == Strength(price.value, range.0, range.1)) &&
      (r.value.action != Buy ==> r.value.action == Hold && r.value.strength == 0.0)
  {
    if lows.None? || |lows.value| < Lookback then None
    else if price.None? then None
    else
      var range := BuyRange(SeqMin(lows.value), offsetPercent, tolerancePercent);
      var inRange := range.0 <= price.value <= range.1;
      if inRange then NewSignal(coin, "BUY", Strength(price.value, range.0, range.1), now, SourceName)
      else NewSignal(coin, "HOLD", 0.0, now, SourceName)
  }

  /** The generator never recommends selling. */
  lemma NeverSells(offsetPercent: real, tolerancePercent: real, coin: string, lows: Option<seq<real>>,
                   price: Option<real>, now: int)
    requires GenerateSignal(offsetPercent, tolerancePercent, coin, lows, price, now).Some?
    ensures GenerateSignal(offsetPercent, tolerancePercent, coin, lows, price, now).value.action != Sell
  {
  }

  /**
    With the shipped offset and tolerance (-1% and 2%), a price at the 24-hour low is always in
    the band, so a non-negative low always produces a BUY.
  */
  lemma PriceAtLowBuys(coin: string, lows: seq<real>, now: int)
    requires |lows| >= Lookback && coin != "" && SeqMin(lows) >= 0.0
    ensures var r := GenerateSignal(DefaultLongOffsetPercent, DefaultTolerancePercent, coin, Some(lows), Some(SeqMin(lows)), now);
            r.Some? && r.value.action == Buy
  {
    var low := SeqMin(lows);
    var range := BuyRange(low, DefaultLongOffsetPercent, DefaultTolerancePercent);
    assert range.0 == low * 0.99;
    assert range.1 == low * 1.01;
  }
}
