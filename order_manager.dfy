/**
  Entry-order validation and execution (managers/order_manager.py).

  The OrderManager turns a signal into at most one market order. The gates run in a fixed order and
  stop at the first failure: HOLD, strength, duplicate position, position limit, cooldown, balance;
  then the order is sized, the side is derived and the order is submitted. Only a confirmed order
  updates the cooldown map and the daily counters. The exchange gateway is an input: the answers it
  gives during one call are a `GatewayReplies` value, and the clock is `now` (seconds) and `today`
  (a day number).
*/
module OrderManagement {
  import opened Wrappers
  import opened Signals

  /** The TRADING_SETTINGS keys the order manager reads; an optional key that is absent is None. */
  datatype Settings = Settings(
    maxPositions: int,
    positionSizeUsd: real,
    stopLossPercent: real,
    takeProfitPercent: real,
    minSignalStrength: Option<real>,
    cooldownPeriod: Option<int>)

  /** The shipped settings (config/trading_settings.py); they have no `cooldown_period` key. */
  const TradingSettings: Settings := Settings(10, 20.0, 2.2, 10.12, Some(0.75), None)

  const DefaultMinSignalStrength: real := 0.7
  const DefaultCooldownPeriod: int := 300

  /** `settings.get('min_signal_strength', 0.7)` */
  function MinSignalStrength(s: Settings): real {
    s.minSignalStrength.GetOr(DefaultMinSignalStrength)
  }

  /** `settings.get('cooldown_period', 300)` */
  function CooldownPeriod(s: Settings): int {
    s.cooldownPeriod.GetOr(DefaultCooldownPeriod)
  }

  /** With the shipped settings the strength threshold is 0.75 and the cooldown falls back to 300 s. */
  lemma ShippedThresholds()
    ensures MinSignalStrength(TradingSettings) == 0.75
    ensures CooldownPeriod(TradingSettings) == DefaultCooldownPeriod == 300
  {
  }

  datatype Side = BuySide | SellSide

  function SideName(s: Side): string {
    match s
    case BuySide => "buy"
    case SellSide => "sell"
  }

  datatype MarketOrder = MarketOrder(coin: string, side: Side, size: real)

  /**
    What the gateway answers during one `process_signal` call: the open-position keys seen by the
    duplicate check and by the limit check (None when the query raised), the withdrawable balance
    (None when the query raised), the current price (None when there is none) and whether the
    market order came back with status 'ok'.
  */
  datatype GatewayReplies = GatewayReplies(
    positionsAtDuplicateCheck: Option<set<string>>,
    positionsAtLimitCheck: Option<set<string>>,
    withdrawable: Option<real>,
    price: Option<real>,
    orderOk: bool)

  /** The in-memory state the manager owns. */
  datatype Counters = Counters(
    cooldowns: map<string, int>,
    dailyTrades: map<string, nat>,
    totalDailyTrades: nat,
    lastResetDate: int)

  /** Sum of the per-coin trade counts. */
  ghost function SumValues(m: map<string, nat>): nat
    decreases |m|
  {
    if |m| == 0 then 0
    else
      var k :| k in m;
      m[k] + SumValues(m - {k})
  }

  /** The key the definition of `SumValues` picks. */
  lemma SumValuesPick(m: map<string, nat>) returns (j: string)
    requires |m| > 0
    ensures j in m && SumValues(m) == m[j] + SumValues(m - {j})
  {
    j :| j in m && SumValues(m) == m[j] + SumValues(m - {j});
  }

  /** The sum does not depend on which key is removed first. */
  lemma {:induction false} SumValuesRemove(m: map<string, nat>, k: string)
    requires k in m
    ensures SumValues(m) == m[k] + SumValues(m - {k})
    decreases |m|
  {
    var j := SumValuesPick(m);
    if j != k {
      var mj := m - {j};
      var mk := m - {k};
      assert |mj| < |m| && |mk| < |m|;
      SumValuesRemove(mj, k);
      SumValuesRemove(mk, j);
      assert mj - {k} == mk - {j};
    }
  }

  /** Setting one coin's count changes the sum by exactly the difference. */
  lemma SumValuesUpdate(m: map<string, nat>, k: string, v: nat)
    ensures SumValues(m[k := v]) == SumValues(m) - (if k in m then m[k] else 0) + v
  {
    SumValuesRemove(m[k := v], k);
    assert m[k := v] - {k} == m - {k};
    if k in m {
      SumValuesRemove(m, k);
    } else {
      assert m - {k} == m;
    }
  }

  /** The lazy rollover: counters clear and the date moves only when `today` is a later day. */
  function ResetIfNeeded(c: Counters, today: int): (r: Counters)
    ensures r.cooldowns == c.cooldowns
    ensures today > c.lastResetDate ==> r.dailyTrades == map[] && r.totalDailyTrades == 0 && r.lastResetDate == today
    ensures today <= c.lastResetDate ==> r == c
    ensures r.lastResetDate >= c.lastResetDate
  {
    if today > c.lastResetDate then Counters(c.cooldowns, map[], 0, today) else c
  }

  /** `_check_duplicate_position`: passes only when the query succeeded and the coin has no position. */
  function CheckDuplicatePosition(positions: Option<set<string>>, coin: string): (pass: bool)
    ensures pass <==> positions.Some? && coin !in positions.value
  {
    match positions
    case None => false
    case Some(open) => coin !in open
  }

  /** `_check_position_limit`: passes only when the query succeeded and fewer than the maximum are open. */
  function CheckPositionLimit(positions: Option<set<string>>, maxPositions: int): (pass: bool)
    ensures pass <==> positions.Some? && |positions.value| < maxPositions
  {
    match positions
    case None => false
    case Some(open) => !(|open| >= maxPositions)
  }

  /** `_check_cooldown`: a coin never entered passes; otherwise it passes once `period` seconds have elapsed. */
  function CheckCooldown(cooldowns: map<string, int>, coin: string, now: int, period: int): (pass: bool)
    ensures coin !in cooldowns ==> pass
    ensures coin in cooldowns ==> (pass <==> now >= cooldowns[coin] + period)
  {
    if coin !in cooldowns then true
    else
      var elapsed := now - cooldowns[coin];
      !(elapsed < period)
  }

  /** Once a coin's cooldown has run out it stays out until the next successful entry. */
  lemma CooldownEligibilityPersists(cooldowns: map<string, int>, coin: string, now: int, later: int, period: int)
    requires now <= later && CheckCooldown(cooldowns, coin, now, period)
    ensures CheckCooldown(cooldowns, coin, later, period)
  {
  }

  /** `_check_balance`: passes only when the query succeeded and the withdrawable amount covers the order. */
  function CheckBalance(withdrawable: Option<real>, required: real): (pass: bool)
    ensures pass <==> withdrawable.Some? && withdrawable.value >= required
  {
    match withdrawable
    case None => false
    case Some(available) => !(available < required)
  }

  /** The integer nearest to `y`, an exact tie going to the even one (Python's `round` on a real). */
  function RoundHalfEven(y: real): (k: int)
    ensures -0.5 <= k as real - y <= 0.5
    ensures k as real - y == 0.5 || k as real - y == -0.5 ==> k % 2 == 0
  {
    var f := y.Floor;
    var frac := y - f as real;
    if frac < 0.5 then f else if frac > 0.5 then f + 1 else if f % 2 == 0 then f else f + 1
  }

  /**
    Python's `round(x, 5)`: the nearest multiple of 0.00001, an exact tie going to the even
    multiple.
  */
  function Round5(x: real): (r: real)
    ensures (r * 100000.0).Floor as real == r * 100000.0
    ensures -0.000005 <= r - x <= 0.000005
    ensures r - x == 0.000005 || r - x == -0.000005 ==> (r * 100000.0).Floor % 2 == 0
  {
    var k := RoundHalfEven(x * 100000.0);
    ScaledBack(k, x);
    k as real * 0.00001
  }

  /** Scaling an integer within half a unit of `x * 100000` back down lands on a five-decimal value near `x`. */
  lemma ScaledBack(k: int, x: real)
    requires -0.5 <= k as real - x * 100000.0 <= 0.5
    ensures (k as real * 0.00001 * 100000.0).Floor as real == k as real * 0.00001 * 100000.0
    ensures -0.000005 <= k as real * 0.00001 - x <= 0.000005
    ensures (k as real * 0.00001 * 100000.0).Floor == k
    ensures k as real * 0.00001 - x == 0.000005 || k as real * 0.00001 - x == -0.000005 ==>
      k as real - x * 100000.0 == 0.5 || k as real - x * 100000.0 == -0.5
  {
    assert k as real * 0.00001 * 100000.0 == k as real;
  }

  /** Coin units bought or sold for `usd` at `price`. */
  function OrderSize(usd: real, price: real): real
    requires price != 0.0
  {
    Round5(usd / price)
  }

  /** A BUY signal becomes a "buy" order and every other action a "sell" order. */
  function SideFor(a: Action): (s: Side)
    ensures s == BuySide <==> a == Buy
  {
    if a == Buy then BuySide else SellSide
  }

  /** How one call ends. */
  datatype Outcome =
    | RejectedHold
    | RejectedWeak
    | RejectedDuplicate
    | RejectedPositionLimit
    | RejectedCooldown
    | RejectedBalance
    | NoPrice                               // `_execute_order` found no usable price: nothing submitted
    | Submitted(order: MarketOrder, ok: bool) // the order went to the gateway; `ok` is its answer

  /**
    The gate pipeline of `process_signal` after the daily reset, as a decision. Each rejection
    implies that every earlier gate passed, and an order is submitted only when all gates pass.
  */
  function Decide(settings: Settings, cooldowns: map<string, int>, signal: Signal, g: GatewayReplies, now: int): (o: Outcome)
    ensures signal.action == Hold <==> o == RejectedHold
    ensures o == RejectedWeak <==> signal.action != Hold && !IsActionable(signal, MinSignalStrength(settings))
    ensures o == RejectedDuplicate <==>
      IsActionable(signal, MinSignalStrength(settings)) && !CheckDuplicatePosition(g.positionsAtDuplicateCheck, signal.coin)
    ensures o == RejectedPositionLimit <==>
      IsActionable(signal, MinSignalStrength(settings)) && CheckDuplicatePosition(g.positionsAtDuplicateCheck, signal.coin) &&
      !CheckPositionLimit(g.positionsAtLimitCheck, settings.maxPositions)
    ensures o == RejectedCooldown <==>
      IsActionable(signal, MinSignalStrength(settings)) && CheckDuplicatePosition(g.positionsAtDuplicateCheck, signal.coin) &&
      CheckPositionLimit(g.positionsAtLimitCheck, settings.maxPositions) &&
      !CheckCooldown(cooldowns, signal.coin, now, CooldownPeriod(settings))
    ensures o == RejectedBalance <==>
      IsActionable(signal, MinSignalStrength(settings)) && CheckDuplicatePosition(g.positionsAtDuplicateCheck, signal.coin) &&
      CheckPositionLimit(g.positionsAtLimitCheck, settings.maxPositions) &&
      CheckCooldown(cooldowns, signal.coin, now, CooldownPeriod(settings)) &&
      !CheckBalance(g.withdrawable, settings.positionSizeUsd)
    ensures (o.Submitted? || o == NoPrice) <==>
      IsActionable(signal, MinSignalStrength(settings)) && CheckDuplicatePosition(g.positionsAtDuplicateCheck, signal.coin) &&
      CheckPositionLimit(g.positionsAtLimitCheck, settings.maxPositions) &&
      CheckCooldown(cooldowns, signal.coin, now, CooldownPeriod(settings)) &&
      CheckBalance(g.withdrawable, settings.positionSizeUsd)
    ensures o == NoPrice ==> g.price.None? || g.price.value == 0.0
    ensures o.Submitted? ==>
      g.positionsAtDuplicateCheck.Some? && signal.coin !in g.positionsAtDuplicateCheck.value &&
      g.price.Some? && g.price.value != 0.0 &&
      o.order == MarketOrder(signal.coin, SideFor(signal.action), OrderSize(settings.positionSizeUsd, g.price.value)) &&
      o.ok == g.orderOk
  {
    if signal.action == Hold then RejectedHold
    else if !IsActionable(signal, MinSignalStrength(settings)) then RejectedWeak
    else if !CheckDuplicatePosition(g.positionsAtDuplicateCheck, signal.coin) then RejectedDuplicate
    else if !CheckPositionLimit(g.positionsAtLimitCheck, settings.maxPositions) then RejectedPositionLimit
    else if !CheckCooldown(cooldowns, signal.coin, now, CooldownPeriod(settings)) then RejectedCooldown
    else if !CheckBalance(g.withdrawable, settings.positionSizeUsd) then RejectedBalance
    else if g.price.None? || g.price.value == 0.0 then NoPrice
    else Submitted(MarketOrder(signal.coin, SideFor(signal.action), OrderSize(settings.positionSizeUsd, g.price.value)), g.orderOk)
  }

  /** The bookkeeping after a confirmed order. */
  function RecordEntry(c: Counters, coin: string, now: int): (r: Counters)
    ensures r.cooldowns == c.cooldowns[coin := now]
    ensures coin in r.dailyTrades && r.dailyTrades[coin] == Get(c.dailyTrades, coin).GetOr(0) + 1
    ensures forall k :: k != coin ==> Get(r.dailyTrades, k) == Get(c.dailyTrades, k)
    ensures r.totalDailyTrades == c.totalDailyTrades + 1
    ensures r.lastResetDate == c.lastResetDate
  {
    Counters(
      c.cooldowns[coin := now],
      c.dailyTrades[coin := Get(c.dailyTrades, coin).GetOr(0) + 1],
      c.totalDailyTrades + 1,
      c.lastResetDate)
  }

  /**
    One `process_signal` call on the manager's state: the result and the new counters. The counters
    change beyond the daily reset exactly when the call succeeds, and a success always means an
    order for a coin the gateway reported no position for. The per-coin counts keep summing to the
    daily total.
  */
  function ProcessSpec(settings: Settings, c: Counters, signal: Signal, g: GatewayReplies, now: int, today: int): (r: (bool, Counters))
    ensures var o := Decide(settings, c.cooldowns, signal, g, now); r.0 <==> o.Submitted? && o.ok
    ensures !r.0 ==> r.1 == ResetIfNeeded(c, today)
    ensures r.0 ==> r.1 == RecordEntry(ResetIfNeeded(c, today), signal.coin, now)
    ensures r.0 ==> g.positionsAtDuplicateCheck.Some? && signal.coin !in g.positionsAtDuplicateCheck.value
    ensures r.0 ==> signal.action != Hold && signal.strength >= MinSignalStrength(settings)
    ensures SumValues(c.dailyTrades) == c.totalDailyTrades ==> SumValues(r.1.dailyTrades) == r.1.totalDailyTrades
  {
    var c0 := ResetIfNeeded(c, today);
    var o := Decide(settings, c0.cooldowns, signal, g, now);
    if o.Submitted? && o.ok then
      SumValuesUpdate(c0.dailyTrades, signal.coin, Get(c0.dailyTrades, signal.coin).GetOr(0) + 1);
      (true, RecordEntry(c0, signal.coin, now))
    else
      (false, c0)
  }

  /**
    `_set_stop_loss_take_profit`: the stop-loss and take-profit prices derived from the entry price
    (computed for the log only). For a long the stop lies below and the target above the entry;
    for a short the other way round.
  */
  function StopLossTakeProfit(entryPrice: real, side: Side, stopLossPercent: real, takeProfitPercent: real): (levels: (real, real))
    ensures entryPrice >= 0.0 && stopLossPercent >= 0.0 && takeProfitPercent >= 0.0 ==>
      if side == BuySide then levels.0 <= entryPrice <= levels.1 else levels.1 <= entryPrice <= levels.0
    ensures levels.0 - entryPrice == (if side == BuySide then -1.0 else 1.0) * entryPrice * stopLossPercent / 100.0
    ensures levels.1 - entryPrice == (if side == BuySide then 1.0 else -1.0) * entryPrice * takeProfitPercent / 100.0
  {
    var sl := stopLossPercent / 100.0;
    var tp := takeProfitPercent / 100.0;
    if side == BuySide then (entryPrice * (1.0 - sl), entryPrice * (1.0 + tp))
    else (entryPrice * (1.0 + sl), entryPrice * (1.0 - tp))
  }

  /** `get_stats`: the daily totals and how many coins entered less than 300 s before `now`. */
  datatype OrderStats = OrderStats(totalDailyTrades: nat, tradesByCoin: map<string, nat>, coinsInCooldown: nat)

  /** The coins whose last entry lies less than 300 s back (the statistic's fixed window). */
  function CoinsInCooldown(cooldowns: map<string, int>, now: int): (r: set<string>)
    ensures r <= cooldowns.Keys
    ensures forall c :: c in r <==> c in cooldowns && now - cooldowns[c] < 300
  {
    set c | c in cooldowns && now - cooldowns[c] < 300
  }

  class OrderManager {
    const settings: Settings
    var cooldowns: map<string, int>
    var dailyTrades: map<string, nat>
    var totalDailyTrades: nat
    var lastResetDate: int

    function State(): Counters
      reads this
    {
      Counters(cooldowns, dailyTrades, totalDailyTrades, lastResetDate)
    }

    /** The per-coin counts add up to the daily total. */
    ghost predicate Valid()
      reads this
    {
      SumValues(dailyTrades) == totalDailyTrades
    }

    constructor(settings: Settings, today: int)
      ensures this.settings == settings
      ensures State() == Counters(map[], map[], 0, today)
      ensures Valid()
    {
      this.settings := settings;
      cooldowns := map[];
      dailyTrades := map[];
      totalDailyTrades := 0;
      lastResetDate := today;
    }

    /** `_reset_daily_counters_if_needed` */
    method ResetDailyCountersIfNeeded(today: int)
      modifies this
      ensures State() == ResetIfNeeded(old(State()), today)
      ensures old(Valid()) ==> Valid()
    {
      if today > lastResetDate {
        dailyTrades := map[];
        totalDailyTrades := 0;
        lastResetDate := today;
      }
    }

    /**
      `process_signal`: returns whether an order was executed and the order handed to the gateway,
      if any. Nothing is submitted for a rejected signal, and the state changes beyond the daily
      reset only on success.
    */
    method ProcessSignal(signal: Signal, g: GatewayReplies, now: int, today: int) returns (success: bool, submitted: Option<MarketOrder>)
      modifies this
      ensures (success, State()) == ProcessSpec(settings, old(State()), signal, g, now, today)
      ensures var o := Decide(settings, ResetIfNeeded(old(State()), today).cooldowns, signal, g, now);
        submitted == if o.Submitted? then Some(o.order) else None
      ensures old(Valid()) ==> Valid()
    {
      ResetDailyCountersIfNeeded(today);
      ghost var c0 := State();
      success, submitted := Admit(signal, g, now);
      if success {
        RecordSuccessfulEntry(signal.coin, now);
      }
    }

    /** The bookkeeping `process_signal` does after a confirmed order: cooldown start and trade counts. */
    method RecordSuccessfulEntry(coin: string, now: int)
      modifies this
      ensures State() == RecordEntry(old(State()), coin, now)
      ensures old(Valid()) ==> Valid()
    {
      SumValuesUpdate(dailyTrades, coin, Get(dailyTrades, coin).GetOr(0) + 1);
      cooldowns := cooldowns[coin := now];
      dailyTrades := dailyTrades[coin := Get(dailyTrades, coin).GetOr(0) + 1];
      totalDailyTrades := totalDailyTrades + 1;
    }

    /**
      The gate sequence of `process_signal` followed by `_execute_order`: each failed gate ends the
      call without an order, and the outcome is the one `Decide` describes.
    */
    method Admit(signal: Signal, g: GatewayReplies, now: int) returns (success: bool, submitted: Option<MarketOrder>)
      ensures var o := Decide(settings, cooldowns, signal, g, now);
        success == (o.Submitted? && o.ok) && submitted == if o.Submitted? then Some(o.order) else None
    {
      if signal.action == Hold {
        return false, None;
      }
      var minStrength := MinSignalStrength(settings);
      if !IsActionable(signal, minStrength) {
        return false, None;
      }
      if !CheckDuplicatePosition(g.positionsAtDuplicateCheck, signal.coin) {
        return false, None;
      }
      if !CheckPositionLimit(g.positionsAtLimitCheck, settings.maxPositions) {
        return false, None;
      }
      if !CheckCooldown(cooldowns, signal.coin, now, CooldownPeriod(settings)) {
        return false, None;
      }
      if !CheckBalance(g.withdrawable, settings.positionSizeUsd) {
        return false, None;
      }
      success, submitted := ExecuteOrder(signal, g);
    }

    /**
      `_execute_order`: with a usable price, sizes the order, derives the side and submits it; the
      result is the gateway's answer. Without a price nothing is submitted.
    */
    method ExecuteOrder(signal: Signal, g: GatewayReplies) returns (ok: bool, submitted: Option<MarketOrder>)
      ensures g.price.None? || g.price.value == 0.0 ==> !ok && submitted.None?
      ensures g.price.Some? && g.price.value != 0.0 ==>
        submitted == Some(MarketOrder(signal.coin, SideFor(signal.action), OrderSize(settings.positionSizeUsd, g.price.value))) &&
        ok == g.orderOk
      ensures submitted.Some? ==> (submitted.value.side == BuySide <==> signal.action == Buy)
    {
      if g.price.None? || g.price.value == 0.0 {
        return false, None;
      }
      var price := g.price.value;
      var size := Round5(settings.positionSizeUsd / price);
      var side := if signal.action == Buy then BuySide else SellSide;
      submitted := Some(MarketOrder(signal.coin, side, size));
      ok := g.orderOk;
    }

    /** `get_stats` */
    function GetStats(now: int): (s: OrderStats)
      reads this
      ensures s.totalDailyTrades == totalDailyTrades && s.tradesByCoin == dailyTrades
      ensures s.coinsInCooldown == |CoinsInCooldown(cooldowns, now)| <= |cooldowns|
    {
      var active := CoinsInCooldown(cooldowns, now);
      SubsetCardinality(active, cooldowns.Keys);
      OrderStats(totalDailyTrades, dailyTrades, |active|)
    }
  }
}
